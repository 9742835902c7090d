/**
 Splitting terminal input into key and escape sequences (packages/tui/src/stdin-buffer.ts). A string is a sequence of
 UTF-16 code units; the splitter never looks at pairs of them.
 */
module StdinSequences {
  const ESC := '\U{001B}'
  const BEL := '\U{0007}'

  datatype Status = Complete | Incomplete | NotEscape

  predicate EndsWith(s: string, suffix: string) {
    |suffix| <= |s| && s[|s| - |suffix|..] == suffix
  }

  /** ESC \, the string terminator. */
  const ST: string := [ESC, '\\']

  predicate IsDigit(c: char) {
    '0' <= c <= '9'
  }

  predicate AllDigits(s: string) {
    forall i | 0 <= i < |s| :: IsDigit(s[i])
  }

  /** A final byte of a control sequence, as section 5.4 of ECMA-48 has them. */
  predicate IsFinalByte(c: char) {
    '@' <= c <= '~'
  }

  /** The parts of `s` between separators; there is always at least one. */
  function Split(s: string, separator: char): (parts: seq<string>)
    ensures |parts| > 0
  {
    if s == [] then [[]]
    else
      var rest := Split(s[1..], separator);
      if s[0] == separator then [[]] + rest else [[s[0]] + rest[0]] + rest[1..]
  }

  /** A mouse report, by its three numbers: `<` then `digits;digits;digits` then `M` or `m`. */
  predicate IsMouseReport(payload: string) {
    |payload| >= 2 && payload[0] == '<' && (payload[|payload| - 1] == 'M' || payload[|payload| - 1] == 'm')
    && var parts := Split(payload[1..|payload| - 1], ';');
       |parts| == 3 && forall i | 0 <= i < 3 :: parts[i] != [] && AllDigits(parts[i])
  }

  function CsiStatus(data: string): Status {
    if |data| < 3 then Incomplete
    else if !IsFinalByte(data[|data| - 1]) then Incomplete
    else if data[2] == '<' && !IsMouseReport(data[2..]) then Incomplete
    else Complete
  }

  function TerminatedStatus(data: string, alsoBell: bool): Status {
    if EndsWith(data, ST) || (alsoBell && EndsWith(data, [BEL])) then Complete else Incomplete
  }

  function StatusOf(data: string): Status {
    if data == [] || data[0] != ESC then NotEscape
    else if |data| == 1 then Incomplete
    else
      match data[1]
      case '[' =>
        if |data| >= 3 && data[2] == 'M' then (if |data| >= 6 then Complete else Incomplete) else CsiStatus(data)
      case ']' => TerminatedStatus(data, true)
      case 'P' => TerminatedStatus(data, false)
      case '_' => TerminatedStatus(data, false)
      case 'O' => if |data| >= 3 then Complete else Incomplete
      case _ => Complete
  }

  /** The characters that open an escape sequence after ESC. */
  predicate IsOpener(c: char) {
    c == '[' || c == ']' || c == 'O' || c == 'P' || c == '_'
  }

  datatype Extracted = Extracted(sequences: seq<string>, remainder: string)

  function Prefixed(sequence: string, e: Extracted): Extracted {
    e.(sequences := [sequence] + e.sequences)
  }

  /** The length of the shortest complete prefix that is at least `from` long, or more than the whole if there is none. */
  function FirstComplete(s: string, from: nat): (n: nat)
    requires from <= |s| + 1
    ensures from <= n <= |s| + 1
    ensures n <= |s| ==> StatusOf(s[..n]) == Complete
    ensures forall k | from <= k < n :: StatusOf(s[..k]) != Complete
    decreases |s| + 1 - from
  {
    if from == |s| + 1 then from
    else if StatusOf(s[..from]) == Complete then from
    else FirstComplete(s, from + 1)
  }

  /** An escape pressed just before another escape sequence stands alone. */
  predicate StandsAlone(s: string, n: nat) {
    n == 2 < |s| && s[1] == ESC && IsOpener(s[2])
  }

  /** How long the first sequence of `s` is; more than the whole if it is not there yet. */
  function FirstLength(s: string): (n: nat)
    requires s != []
    ensures 1 <= n <= |s| + 1
  {
    if s[0] != ESC then 1
    else
      var n := FirstComplete(s, 1);
      if StandsAlone(s, n) then 1 else n
  }

  function Extract(s: string): Extracted
    decreases |s|
  {
    if s == [] then Extracted([], [])
    else
      var n := FirstLength(s);
      if n > |s| then Extracted([], s) else Prefixed(s[..n], Extract(s[n..]))
  }

  function Joined(sequences: seq<string>): string {
    if sequences == [] then [] else sequences[0] + Joined(sequences[1..])
  }

  // ----- nothing is lost, and what is held back is held back for a reason -----

  lemma {:induction false} NothingIsLost(s: string)
    ensures var e := Extract(s); Joined(e.sequences) + e.remainder == s
    decreases |s|
  {
    hide FirstLength;
    if s != [] && FirstLength(s) <= |s| {
      var n := FirstLength(s);
      NothingIsLost(s[n..]);
      var rest := Extract(s[n..]);
      assert ([s[..n]] + rest.sequences)[1..] == rest.sequences;
      assert s == s[..n] + s[n..];
    }
  }

  /** The remainder begins with ESC, and no non-empty part of it from the start is a sequence yet. */
  lemma {:induction false} RemainderIsIncomplete(s: string)
    ensures var r := Extract(s).remainder;
            (r != [] ==> r[0] == ESC) && forall k | 0 < k <= |r| :: StatusOf(r[..k]) == Incomplete
    decreases |s|
  {
    if s != [] {
      var n := FirstLength(s);
      if n <= |s| {
        RemainderIsIncomplete(s[n..]);
      } else {
        forall k | 0 < k <= |s|
          ensures StatusOf(s[..k]) == Incomplete
        {
          assert StatusOf(s[..k]) != Complete;
        }
      }
    }
  }

  /** A sequence that cannot be shorter: a plain character, a lone ESC, or an escape sequence with no complete part. */
  predicate IsMinimal(sequence: string) {
    && sequence != []
    && (sequence[0] != ESC ==> |sequence| == 1)
    && (sequence[0] == ESC && |sequence| > 1 ==>
          StatusOf(sequence) == Complete && forall k | 0 < k < |sequence| :: StatusOf(sequence[..k]) == Incomplete)
  }

  lemma {:induction false} SequencesAreMinimal(s: string)
    ensures forall i | 0 <= i < |Extract(s).sequences| :: IsMinimal(Extract(s).sequences[i])
    decreases |s|
  {
    if s != [] && FirstLength(s) <= |s| {
      var n := FirstLength(s);
      SequencesAreMinimal(s[n..]);
      FirstIsMinimal(s);
    }
  }

  lemma FirstIsMinimal(s: string)
    requires s != [] && FirstLength(s) <= |s|
    ensures IsMinimal(s[..FirstLength(s)])
  {
    var n := FirstLength(s);
    if s[0] == ESC && n > 1 {
      assert n == FirstComplete(s, 1);
      forall k | 0 < k < n
        ensures StatusOf(s[..n][..k]) == Incomplete
      {
        assert s[..n][..k] == s[..k];
      }
    }
  }

  // ----- cutting the input -----

  /** The cut falls between an ESC ESC and what would have made its first half stand alone. */
  predicate CutAfterEscape(a: Extracted, b: string) {
    a.remainder == [] && a.sequences != [] && a.sequences[|a.sequences| - 1] == [ESC, ESC] && b != [] && IsOpener(b[0])
  }

  /** A sequence found in front of a cut is found without the cut, too. */
  lemma {:induction false} FirstCompleteStays(a: string, b: string, from: nat)
    requires from <= |a| + 1 && FirstComplete(a, from) <= |a|
    ensures FirstComplete(a + b, from) == FirstComplete(a, from)
    decreases |a| + 1 - from
  {
    hide StatusOf;
    assert (a + b)[..from] == a[..from];
    if StatusOf(a[..from]) != Complete {
      FirstCompleteStays(a, b, from + 1);
    }
  }

  lemma FirstLengthStays(a: string, b: string)
    requires a != [] && FirstLength(a) <= |a|
    ensures if a == [ESC, ESC] && b != [] && IsOpener(b[0]) then FirstLength(a) == 2 && FirstLength(a + b) == 1
            else FirstLength(a + b) == FirstLength(a)
  {
    if a[0] == ESC {
      if FirstComplete(a, 1) <= |a| {
        FirstCompleteStays(a, b, 1);
      }
      hide FirstComplete;
      if a == [ESC, ESC] {
        EscapePair(a);
      }
    }
  }

  lemma EscapePair(a: string)
    requires a == [ESC, ESC]
    ensures FirstComplete(a, 1) == 2
  {
    assert a[..1] == [ESC] && a[..2] == a;
    assert StatusOf(a[..1]) == Incomplete && StatusOf(a) == Complete;
    assert FirstComplete(a, 2) == 2;
  }

  function Resumed(a: Extracted, b: string): Extracted {
    var q := Extract(a.remainder + b);
    q.(sequences := a.sequences + q.sequences)
  }

  /** Cutting the input anywhere changes nothing, unless the cut falls right after an ESC ESC that opens a sequence. */
  lemma {:induction false} CutsDoNotMatter(a: string, b: string)
    ensures Extract(a + b) == Resumed(Extract(a), b) <==> !CutAfterEscape(Extract(a), b)
    decreases |a|
  {
    hide FirstLength, IsOpener, CutAfterEscape;
    if a == [] || FirstLength(a) > |a| {
      NotCutWithin(a, b);
      assert [] + Extract(a + b).sequences == Extract(a + b).sequences;
    } else {
      var n := FirstLength(a);
      FirstLengthStays(a, b);
      if a == [ESC, ESC] && b != [] && IsOpener(b[0]) {
        CutPair(a, b);
      } else {
        var f := Extract(a[n..]);
        CutsDoNotMatter(a[n..], b);
        assert (a + b)[..n] == a[..n] && (a + b)[n..] == a[n..] + b;
        ResumedPrefixed(a[..n], f, b);
        PrefixedInjective(a[..n], Extract(a[n..] + b), Resumed(f, b));
        LastOfPrefixed(a, n, f, b);
      }
    }
  }

  lemma NotCutWithin(a: string, b: string)
    requires a == [] || FirstLength(a) > |a|
    ensures Extract(a) == Extracted([], a) && !CutAfterEscape(Extract(a), b)
  {
    hide FirstLength;
  }

  lemma ResumedPrefixed(sequence: string, f: Extracted, b: string)
    ensures Resumed(Prefixed(sequence, f), b) == Prefixed(sequence, Resumed(f, b))
  {
    hide Extract;
    var q := Extract(f.remainder + b);
    assert [sequence] + f.sequences + q.sequences == [sequence] + (f.sequences + q.sequences);
  }

  lemma PrefixedInjective(sequence: string, e: Extracted, f: Extracted)
    ensures Prefixed(sequence, e) == Prefixed(sequence, f) <==> e == f
  {
    assert ([sequence] + e.sequences)[1..] == e.sequences && ([sequence] + f.sequences)[1..] == f.sequences;
  }

  /** The pair is one sequence on its own, and two when what follows is seen. */
  lemma CutPair(a: string, b: string)
    requires a == [ESC, ESC] && b != [] && IsOpener(b[0]) && FirstLength(a) == 2 && FirstLength(a + b) == 1
    ensures CutAfterEscape(Extract(a), b) && Extract(a + b) != Resumed(Extract(a), b)
  {
    hide FirstLength, IsOpener;
    assert a[..2] == a && a[2..] == [];
    assert Extract(a) == Extracted([a], []);
    assert Resumed(Extract(a), b).sequences[0] == a;
    assert Extract(a + b).sequences[0] == (a + b)[..1];
  }

  lemma LastOfPrefixed(a: string, n: nat, f: Extracted, b: string)
    requires a != [] && n == FirstLength(a) <= |a| && f == Extract(a[n..])
    requires !(a == [ESC, ESC] && b != [] && IsOpener(b[0]))
    ensures CutAfterEscape(Prefixed(a[..n], f), b) <==> CutAfterEscape(f, b)
  {
    hide FirstLength, IsOpener;
    var e := Prefixed(a[..n], f);
    if f.sequences != [] {
      assert e.sequences[|e.sequences| - 1] == f.sequences[|f.sequences| - 1];
    } else if f.remainder == [] {
      NothingIsLost(a[n..]);
      assert a == a[..n] && e.sequences == [a];
    }
  }

  // ----- control sequences -----

  /** Whether `s` is an escape followed by `[` and at least one more character. */
  predicate IsCsi(s: string) {
    |s| >= 3 && s[0] == ESC && s[1] == '['
  }

  /** One past the first final byte from `from` on, or one past the end and more if there is none. */
  predicate EndsAtFirstFinal(s: string, from: nat, n: nat) {
    && from <= |s|
    && (n <= |s| ==> from < n && IsFinalByte(s[n - 1]) && forall k | from <= k < n - 1 :: !IsFinalByte(s[k]))
    && (n > |s| ==> forall k | from <= k < |s| :: !IsFinalByte(s[k]))
  }

  lemma CsiIsShort(s: string)
    requires IsCsi(s)
    ensures StatusOf(s[..1]) != Complete && StatusOf(s[..2]) != Complete
  {
    assert s[..2][1] == '[';
  }

  /** A control sequence that is no mouse report ends at its first final byte (section 5.4 of ECMA-48). */
  lemma CsiEndsAtFinalByte(s: string)
    requires IsCsi(s) && s[2] != 'M' && s[2] != '<'
    ensures EndsAtFirstFinal(s, 2, FirstLength(s))
  {
    var n := FirstComplete(s, 1);
    CsiIsShort(s);
    forall k | 3 <= k <= |s|
      ensures StatusOf(s[..k]) == Complete <==> IsFinalByte(s[k - 1])
    {
      assert s[..k][2] == s[2] && s[..k][1] == '[' && s[..k][k - 1] == s[k - 1];
    }
    assert !StandsAlone(s, n);
    hide StatusOf, FirstComplete;
    if n <= |s| {
      assert n != 1 && n != 2;
    }
    forall k | 2 <= k < n - 1
      ensures !IsFinalByte(s[k])
    {
      assert StatusOf(s[..k + 1]) != Complete;
    }
  }

  lemma {:induction false} DigitsBetween(s: string, separator: char)
    requires forall i | 0 <= i < |Split(s, separator)| :: AllDigits(Split(s, separator)[i])
    ensures forall k | 0 <= k < |s| :: s[k] == separator || IsDigit(s[k])
    decreases |s|
  {
    if s != [] {
      var rest := Split(s[1..], separator);
      var parts := Split(s, separator);
      forall i | 0 <= i < |rest|
        ensures AllDigits(rest[i])
      {
        if s[0] == separator {
          assert parts[i + 1] == rest[i];
        } else if i == 0 {
          assert parts[0][1..] == rest[0] && AllDigits(parts[0]);
          assert forall k | 0 <= k < |rest[0]| :: rest[0][k] == parts[0][k + 1];
        } else {
          assert parts[i] == rest[i];
        }
      }
      DigitsBetween(s[1..], separator);
      if s[0] != separator {
        assert AllDigits(parts[0]) && parts[0][0] == s[0];
      }
    }
  }

  /** A mouse report holds no final byte before its last character. */
  lemma MouseReportEndsOnce(payload: string)
    requires IsMouseReport(payload)
    ensures forall k | 0 <= k < |payload| - 1 :: !IsFinalByte(payload[k])
  {
    var body := payload[1..|payload| - 1];
    DigitsBetween(body, ';');
    forall k | 0 <= k < |payload| - 1
      ensures !IsFinalByte(payload[k])
    {
      if k > 0 {
        assert payload[k] == body[k - 1];
      }
    }
  }

  lemma MouseReportEndsThere(s: string, n: nat, k: nat)
    requires IsCsi(s) && EndsAtFirstFinal(s, 2, n) && 3 <= k <= |s|
    ensures IsMouseReport(s[2..k]) && IsFinalByte(s[k - 1]) ==> k == n
  {
    if IsMouseReport(s[2..k]) {
      MouseReportEndsOnce(s[2..k]);
      assert forall j | 2 <= j < k - 1 :: s[j] == s[2..k][j - 2];
    }
  }

  /**
   A sequence that begins like a mouse report is complete only at its first final byte, and only if it is a mouse
   report there; otherwise nothing that follows is ever given out as input.
   */
  lemma MouseReportOrNothing(s: string, n: nat)
    requires IsCsi(s) && s[2] == '<' && EndsAtFirstFinal(s, 2, n)
    ensures FirstLength(s) == if n <= |s| && IsMouseReport(s[2..n]) then n else |s| + 1
  {
    CsiIsShort(s);
    assert !IsFinalByte('<');
    forall k | 3 <= k <= |s|
      ensures StatusOf(s[..k]) == Complete <==> k == n && IsMouseReport(s[2..n])
    {
      assert s[..k][2] == s[2] && s[..k][1] == '[' && s[..k][k - 1] == s[k - 1] && s[..k][2..] == s[2..k];
      MouseReportEndsThere(s, n, k);
    }
    hide StatusOf, IsMouseReport;
    var m := FirstComplete(s, 1);
    assert m != 1 && m != 2;
  }

  // ----- strings and short sequences -----

  /** The first `k` characters end in a string terminator, or in a bell where one will do. */
  predicate TerminatedAt(s: string, k: nat, bell: bool) {
    2 < k <= |s| && ((k > 3 && s[k - 2] == ESC && s[k - 1] == '\\') || (bell && s[k - 1] == BEL))
  }

  /** One past the first terminator, or more than the whole if there is none. */
  predicate EndsAtFirstTerminator(s: string, bell: bool, n: nat) {
    if n <= |s| then TerminatedAt(s, n, bell) && forall k | 2 < k < n :: !TerminatedAt(s, k, bell)
    else n == |s| + 1 && forall k | 2 < k <= |s| :: !TerminatedAt(s, k, bell)
  }

  /** Device control, application and operating system commands end at their terminator, the last of them at a bell too. */
  lemma StringEndsAtTerminator(s: string)
    requires |s| >= 2 && s[0] == ESC && (s[1] == 'P' || s[1] == '_' || s[1] == ']')
    ensures EndsAtFirstTerminator(s, s[1] == ']', FirstLength(s))
  {
    var n, bell := FirstComplete(s, 1), s[1] == ']';
    forall k | 0 < k <= |s|
      ensures StatusOf(s[..k]) == Complete <==> TerminatedAt(s, k, bell)
    {
      TerminatedExactly(s, k);
    }
    assert !StandsAlone(s, n);
    hide StatusOf, FirstComplete, TerminatedAt;
    assert n == |s| + 1 || TerminatedAt(s, n, bell);
    forall k | 0 < k < n
      ensures !TerminatedAt(s, k, bell) || k > |s|
    {
      assert StatusOf(s[..k]) != Complete;
    }
  }

  lemma TerminatedExactly(s: string, k: nat)
    requires |s| >= 2 && s[0] == ESC && (s[1] == 'P' || s[1] == '_' || s[1] == ']') && 0 < k <= |s|
    ensures StatusOf(s[..k]) == Complete <==> TerminatedAt(s, k, s[1] == ']')
  {
    var c := s[..k];
    if k > 1 {
      assert c[1] == s[1] && c[|c| - 2..] == [c[k - 2], c[k - 1]] && c[|c| - 1..] == [c[k - 1]];
      assert EndsWith(c, ST) <==> c[k - 2] == ESC && c[k - 1] == '\\';
    }
  }

  /**
   An old mouse report is six characters long and a single shift three; any other character ends the sequence at once,
   except that an escape stands alone before one that opens a sequence.
   */
  lemma ShortSequences(s: string)
    requires |s| >= 2 && s[0] == ESC && s[1] != 'P' && s[1] != '_' && s[1] != ']'
    requires s[1] == '[' ==> |s| >= 3 && s[2] == 'M'
    ensures FirstLength(s) ==
            if s[1] == '[' then (if |s| >= 6 then 6 else |s| + 1)
            else if s[1] == 'O' then 3
            else if s[1] == ESC && |s| > 2 && IsOpener(s[2]) then 1 else 2
  {
    forall k | 0 < k <= |s|
      ensures StatusOf(s[..k]) == Complete <==> k >= (if s[1] == '[' then 6 else if s[1] == 'O' then 3 else 2)
    {
      assert k > 1 ==> s[..k][1] == s[1];
      assert k > 2 ==> s[..k][2] == s[2];
    }
    hide StatusOf;
    CompleteFrom(s, 1, if s[1] == '[' then 6 else if s[1] == 'O' then 3 else 2);
  }

  /** Where completeness is a matter of length, the first complete part has that length. */
  lemma {:induction false} CompleteFrom(s: string, from: nat, length: nat)
    requires 0 < from <= |s| + 1 && from <= length
    requires forall k | 0 < k <= |s| :: StatusOf(s[..k]) == Complete <==> k >= length
    ensures FirstComplete(s, from) == if length <= |s| then length else |s| + 1
    decreases |s| + 1 - from
  {
    hide StatusOf;
    if from <= |s| && from < length {
      CompleteFrom(s, from + 1, length);
    }
  }

  // ----- the two checks for mouse reports agree -----

  /** What the regular expression for a mouse report accepts. */
  ghost predicate MatchesMouseReport(payload: string) {
    exists a: string, b: string, c: string, m: char ::
      a != [] && b != [] && c != [] && AllDigits(a) && AllDigits(b) && AllDigits(c) && (m == 'M' || m == 'm')
      && payload == ['<'] + Three(a, b, c) + [m]
  }

  function Three(a: string, b: string, c: string): string {
    a + [';'] + (b + [';'] + c)
  }

  lemma {:induction false} SplitAtSeparator(a: string, rest: string, separator: char)
    requires AllDigits(a) && !IsDigit(separator)
    ensures Split(a + [separator] + rest, separator) == [a] + Split(rest, separator)
    decreases |a|
  {
    var s := a + [separator] + rest;
    if a == [] {
      assert s[1..] == rest;
    } else {
      assert IsDigit(a[0]) && AllDigits(a[1..]);
      SplitAtSeparator(a[1..], rest, separator);
      assert s[1..] == a[1..] + [separator] + rest && [a[0]] + a[1..] == a;
    }
  }

  lemma {:induction false} SplitDigits(c: string, separator: char)
    requires AllDigits(c) && !IsDigit(separator)
    ensures Split(c, separator) == [c]
    decreases |c|
  {
    if c != [] {
      assert IsDigit(c[0]) && AllDigits(c[1..]);
      SplitDigits(c[1..], separator);
      assert [c[0]] + c[1..] == c;
    }
  }

  /** Putting the separators back gives the string that was split. */
  function Rejoin(parts: seq<string>, separator: char): string
    requires parts != []
  {
    if |parts| == 1 then parts[0] else parts[0] + [separator] + Rejoin(parts[1..], separator)
  }

  lemma {:induction false} SplitRejoins(s: string, separator: char)
    ensures Rejoin(Split(s, separator), separator) == s
    decreases |s|
  {
    if s != [] {
      var rest, parts := Split(s[1..], separator), Split(s, separator);
      SplitRejoins(s[1..], separator);
      if s[0] == separator {
        assert parts[1..] == rest && parts[0] == [];
        assert Rejoin(parts, separator) == [] + [separator] + Rejoin(rest, separator);
      } else {
        assert parts[1..] == rest[1..] && parts[0] == [s[0]] + rest[0];
        if |rest| > 1 {
          assert [s[0]] + (rest[0] + [separator] + Rejoin(rest[1..], separator))
              == parts[0] + [separator] + Rejoin(parts[1..], separator);
        }
      }
      assert s == [s[0]] + s[1..];
    }
  }

  /** Both tests that the source makes on a candidate mouse report accept the same strings. */
  lemma MouseChecksAgree(payload: string)
    ensures MatchesMouseReport(payload) <==> IsMouseReport(payload)
  {
    if IsMouseReport(payload) {
      var body := payload[1..|payload| - 1];
      var parts := Split(body, ';');
      SplitRejoins(body, ';');
      RejoinThree(parts, ';');
      assert payload == ['<'] + Three(parts[0], parts[1], parts[2]) + [payload[|payload| - 1]];
    }
    if MatchesMouseReport(payload) {
      var a: string, b: string, c: string, m: char :|
        a != [] && b != [] && c != [] && AllDigits(a) && AllDigits(b) && AllDigits(c) && (m == 'M' || m == 'm')
        && payload == ['<'] + Three(a, b, c) + [m];
      assert payload[1..|payload| - 1] == Three(a, b, c);
      SplitAtSeparator(a, b + [';'] + c, ';');
      SplitAtSeparator(b, c, ';');
      SplitDigits(c, ';');
      assert Split(Three(a, b, c), ';') == [a, b, c];
    }
  }

  lemma RejoinThree(parts: seq<string>, separator: char)
    requires |parts| == 3
    ensures Rejoin(parts, separator) == parts[0] + [separator] + (parts[1] + [separator] + parts[2])
  {
    assert parts[1..][1..] == [parts[2]];
    assert Rejoin(parts[1..], separator) == parts[1] + [separator] + Rejoin([parts[2]], separator);
  }

  // ----- the loops -----

  lemma PlainCharacter(s: string)
    requires s != [] && s[0] != ESC
    ensures FirstLength(s) == 1
  {}

  lemma NothingFound(s: string)
    requires s != [] && s[0] == ESC && FirstComplete(s, 1) == |s| + 1
    ensures Extract(s) == Extracted([], s)
  {
    hide FirstComplete;
  }

  lemma FirstLengthFound(s: string, n: nat)
    requires s != [] && s[0] == ESC && 1 <= n <= |s| && FirstComplete(s, 1) == n
    ensures FirstLength(s) == if s[..n] == [ESC, ESC] && n < |s| && IsOpener(s[n]) then 1 else n
  {
    hide FirstComplete, IsOpener;
    if n == 2 {
      assert s[..2] == [s[0], s[1]];
    }
  }

  /** The two nested loops of the splitter. */
  method ExtractCompleteSequences(buffer: string) returns (sequences: seq<string>, remainder: string)
    ensures Extract(buffer) == Extracted(sequences, remainder)
  {
    hide StatusOf, IsOpener, FirstLength;
    sequences := [];
    var pos := 0;
    assert buffer[0..] == buffer && [] + Extract(buffer).sequences == Extract(buffer).sequences;
    while pos < |buffer|
      invariant pos <= |buffer|
      invariant Extract(buffer) == Ahead(sequences, Extract(buffer[pos..]))
    {
      var remaining := buffer[pos..];
      if remaining[0] == ESC {
        var seqEnd := 1;
        while seqEnd <= |remaining| && StatusOf(remaining[..seqEnd]) != Complete
          invariant 1 <= seqEnd <= |remaining| + 1
          invariant FirstComplete(remaining, 1) == FirstComplete(remaining, seqEnd)
        {
          seqEnd := seqEnd + 1;
        }
        hide FirstComplete;
        if seqEnd > |remaining| {
          NothingFound(remaining);
          return sequences, remaining;
        }
        var candidate := remaining[..seqEnd];
        if candidate == [ESC, ESC] && seqEnd < |remaining| && IsOpener(remaining[seqEnd]) {
          candidate := [ESC];
        }
        FirstLengthFound(remaining, seqEnd);
        assert remaining[..|candidate|] == candidate;
        AheadGrows(sequences, candidate, Extract(remaining[|candidate|..]));
        sequences := sequences + [candidate];
        pos := pos + |candidate|;
      } else {
        PlainCharacter(remaining);
        AheadGrows(sequences, remaining[..1], Extract(remaining[1..]));
        sequences := sequences + [remaining[..1]];
        pos := pos + 1;
      }
    }
    remainder := [];
  }

  function Ahead(sequences: seq<string>, e: Extracted): Extracted {
    e.(sequences := sequences + e.sequences)
  }

  lemma AheadGrows(sequences: seq<string>, sequence: string, e: Extracted)
    ensures Ahead(sequences, Prefixed(sequence, e)) == Ahead(sequences + [sequence], e)
  {
    assert sequences + ([sequence] + e.sequences) == sequences + [sequence] + e.sequences;
  }
}
