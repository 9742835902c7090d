/**
 The input buffer of packages/tui/src/stdin-buffer.ts: sequences are given out as they become complete, and bracketed
 pastes are collected whole. The timer that flushes a stale remainder is not modelled.
 */
module StdinBuffers {
  import opened Options
  import opened StdinSequences

  const PASTE_START: string := [ESC, '[', '2', '0', '0', '~']
  const PASTE_END: string := [ESC, '[', '2', '0', '1', '~']

  datatype Event = Data(sequence: string) | Paste(content: string)

  datatype Buffered = Buffered(buffer: string, pasteMode: bool, pasteBuffer: string, pendingCodepoint: Option<nat>)

  datatype Processed = Processed(state: Buffered, events: seq<Event>)

  const FRESH := Buffered([], false, [], None)

  /** The first place where `marker` occurs at or after `from`. */
  function IndexFrom(s: string, marker: string, from: nat): (r: Option<nat>)
    requires from <= |s|
    ensures r.Some? ==> from <= r.value && r.value + |marker| <= |s| && OccursAt(s, marker, r.value)
    ensures r.Some? ==> forall k | from <= k < r.value :: !OccursAt(s, marker, k)
    ensures r.None? ==> forall k | from <= k :: !OccursAt(s, marker, k)
    decreases |s| - from
  {
    if from + |marker| > |s| then None
    else if OccursAt(s, marker, from) then Some(from)
    else if from == |s| then None
    else IndexFrom(s, marker, from + 1)
  }

  predicate OccursAt(s: string, marker: string, k: nat) {
    k + |marker| <= |s| && s[k..k + |marker|] == marker
  }

  function IndexOf(s: string, marker: string): (r: Option<nat>)
    ensures r.Some? ==> r.value + |marker| <= |s|
  {
    IndexFrom(s, marker, 0)
  }

  function Number(digits: string): nat {
    if digits == [] then 0
    else
      var last := digits[|digits| - 1];
      10 * Number(digits[..|digits| - 1]) + if IsDigit(last) then last as int - '0' as int else 0
  }

  /**
   The code point of a key report ESC [ code : digits : digits u without modifiers, if it is printable. The last two
   fields may be missing, and the middle one may be empty.
   */
  function KittyCodepoint(sequence: string): Option<nat> {
    if |sequence| < 4 || sequence[0] != ESC || sequence[1] != '[' || sequence[|sequence| - 1] != 'u' then None
    else
      var fields := Split(sequence[2..|sequence| - 1], ':');
      if |fields| > 3 || fields[0] == [] || (|fields| == 3 && fields[2] == [])
         || exists i | 0 <= i < |fields| :: !AllDigits(fields[i]) then None
      else if Number(fields[0]) >= 32 then Some(Number(fields[0]))
      else None
  }

  /** `digits`, or `digits:digits`, or `digits:digits:digits`, of which the first and the third are not empty. */
  ghost predicate MatchesFields(body: string, code: string) {
    && code != [] && AllDigits(code)
    && (body == code
        || (exists b: string :: AllDigits(b) && body == code + [':'] + b)
        || (exists b: string, c: string :: AllDigits(b) && AllDigits(c) && c != [] && body == code + [':'] + (b + [':'] + c)))
  }

  /** What the regular expression for an unmodified key report accepts, with its first group. */
  ghost predicate MatchesKeyReport(sequence: string, code: string) {
    && |sequence| >= 3 && sequence[0] == ESC && sequence[1] == '[' && sequence[|sequence| - 1] == 'u'
    && MatchesFields(sequence[2..|sequence| - 1], code)
  }

  predicate FieldsOk(fields: seq<string>) {
    && 1 <= |fields| <= 3 && fields[0] != [] && (|fields| == 3 ==> fields[2] != [])
    && forall i | 0 <= i < |fields| :: AllDigits(fields[i])
  }

  lemma FieldsMatch(body: string, code: string)
    ensures MatchesFields(body, code) <==> FieldsOk(Split(body, ':')) && Split(body, ':')[0] == code
  {
    var fields := Split(body, ':');
    SplitRejoins(body, ':');
    if FieldsOk(fields) && fields[0] == code {
      if |fields| == 2 {
        assert fields[1..] == [fields[1]];
        assert body == code + [':'] + fields[1] && AllDigits(fields[1]);
      } else if |fields| == 3 {
        RejoinThree(fields, ':');
        assert body == code + [':'] + (fields[1] + [':'] + fields[2]) && AllDigits(fields[1]) && AllDigits(fields[2]);
      }
    }
    if MatchesFields(body, code) {
      MatchedFields(body, code);
    }
  }

  lemma TwoFields(a: string, b: string)
    requires AllDigits(a) && AllDigits(b)
    ensures Split(a + [':'] + b, ':') == [a, b]
  {
    hide Split, AllDigits;
    SplitAtSeparator(a, b, ':');
    SplitDigits(b, ':');
  }

  lemma ThreeFields(a: string, b: string, c: string)
    requires AllDigits(a) && AllDigits(b) && AllDigits(c)
    ensures Split(a + [':'] + (b + [':'] + c), ':') == [a, b, c]
  {
    hide Split, AllDigits;
    SplitAtSeparator(a, b + [':'] + c, ':');
    TwoFields(b, c);
  }

  lemma MatchedFields(body: string, code: string)
    requires MatchesFields(body, code)
    ensures FieldsOk(Split(body, ':')) && Split(body, ':')[0] == code
  {
    hide Split, AllDigits;
    if body == code {
      SplitDigits(code, ':');
    } else if b: string :| AllDigits(b) && body == code + [':'] + b {
      TwoFields(code, b);
    } else {
      var b: string, c: string :| AllDigits(b) && AllDigits(c) && c != [] && body == code + [':'] + (b + [':'] + c);
      ThreeFields(code, b, c);
    }
  }

  /** The code point is that of the regular expression's first group, if it is printable. */
  lemma KeyReportIsTheExpression(sequence: string, n: nat)
    ensures KittyCodepoint(sequence) == Some(n) <==> n >= 32 && exists code :: MatchesKeyReport(sequence, code) && Number(code) == n
  {
    hide Number, MatchesFields, AllDigits;
    if |sequence| >= 3 {
      var body := sequence[2..|sequence| - 1];
      FieldsMatch(body, Split(body, ':')[0]);
      forall code ensures MatchesFields(body, code) <==> FieldsOk(Split(body, ':')) && Split(body, ':')[0] == code {
        FieldsMatch(body, code);
      }
      if KittyCodepoint(sequence) == Some(n) {
        assert MatchesKeyReport(sequence, Split(body, ':')[0]);
      }
      EmptyBody();
    }
  }

  lemma EmptyBody()
    ensures !FieldsOk(Split([], ':'))
  {}

  /** A plain character that the key report just before it has already announced. */
  predicate IsEcho(sequence: string, pending: Option<nat>) {
    |sequence| == 1 && pending == Some(sequence[0] as nat)
  }

  datatype Emitted = Emitted(pending: Option<nat>, events: seq<Event>)

  function EmitAll(pending: Option<nat>, sequences: seq<string>): Emitted
    decreases |sequences|
  {
    if sequences == [] then Emitted(pending, [])
    else if IsEcho(sequences[0], pending) then EmitAll(None, sequences[1..])
    else
      var rest := EmitAll(KittyCodepoint(sequences[0]), sequences[1..]);
      rest.(events := [Data(sequences[0])] + rest.events)
  }

  /** The paste collected so far, given out once its end is there; what follows is input again. */
  function FinishPaste(paste: string, pending: Option<nat>): Processed
    decreases |paste|, 0
  {
    var end := IndexOf(paste, PASTE_END);
    if end.None? then Processed(Buffered([], true, paste, pending), [])
    else
      var rest := paste[end.value + |PASTE_END|..];
      if rest == [] then Processed(FRESH, [Paste(paste[..end.value])])
      else
        var p := Process(FRESH, rest);
        p.(events := [Paste(paste[..end.value])] + p.events)
  }

  function Process(s: Buffered, data: string): Processed
    decreases |s.pasteBuffer| + |s.buffer| + |data|, 1
  {
    if data == [] && s.buffer == [] then
      Processed(s.(pendingCodepoint := None), [Data([])])
    else
      var buffer := s.buffer + data;
      if s.pasteMode then FinishPaste(s.pasteBuffer + buffer, s.pendingCodepoint)
      else
        var start := IndexOf(buffer, PASTE_START);
        if start.Some? then
          var emitted := EmitAll(s.pendingCodepoint, Extract(buffer[..start.value]).sequences);
          var p := FinishPaste(buffer[start.value + |PASTE_START|..], None);
          p.(events := emitted.events + p.events)
        else
          var e := Extract(buffer);
          var emitted := EmitAll(s.pendingCodepoint, e.sequences);
          Processed(s.(buffer := e.remainder, pendingCodepoint := emitted.pending), emitted.events)
  }

  // ----- a paste is collected whole, however it is cut -----

  /** The buffer is collecting a paste. */
  predicate Pasting(s: Buffered) {
    s.pasteMode && s.buffer == []
  }

  lemma PasteStep(s: Buffered, data: string)
    requires Pasting(s)
    ensures Process(s, data) == if data == [] then Processed(s.(pendingCodepoint := None), [Data([])])
                                else FinishPaste(s.pasteBuffer + data, s.pendingCodepoint)
  {
    hide FinishPaste, EmitAll, IndexOf;
    assert [] + data == data;
  }

  lemma PasteGoesOn(paste: string, pending: Option<nat>)
    requires IndexOf(paste, PASTE_END).None?
    ensures FinishPaste(paste, pending) == Processed(Buffered([], true, paste, pending), [])
  {
    hide Process, IndexOf;
  }

  /** The paste given out is what came before the first end marker; until that has come, nothing is given out. */
  lemma PasteIsTheContent(s: Buffered, data: string)
    requires Pasting(s) && data != []
    ensures var all := s.pasteBuffer + data; var end := IndexOf(all, PASTE_END);
            if end.Some? then Process(s, data).events != [] && Process(s, data).events[0] == Paste(all[..end.value])
            else Process(s, data) == Processed(s.(pasteBuffer := all), [])
  {
    hide Process, IndexOf;
    PasteStep(s, data);
  }

  function Feed(s: Buffered, chunks: seq<string>): Processed
    decreases |chunks|
  {
    if chunks == [] then Processed(s, [])
    else
      var first := Process(s, chunks[0]);
      var rest := Feed(first.state, chunks[1..]);
      rest.(events := first.events + rest.events)
  }

  /** While no end marker has been seen, two reads are as good as one, unless a read was empty. */
  lemma PastesDoNotDependOnCuts(s: Buffered, a: string, b: string)
    requires Pasting(s) && IndexOf(s.pasteBuffer + a, PASTE_END).None?
    ensures Feed(s, [a, b]) == Process(s, a + b) <==> a != [] && b != []
  {
    hide Process, IndexOf, FinishPaste;
    PasteStep(s, a);
    PasteStep(s, a + b);
    FeedTwo(s, a, b);
    PasteGoesOn(s.pasteBuffer + a, s.pendingCodepoint);
    var next := Process(s, a).state;
    PasteStep(next, b);
    if a != [] {
      assert s.pasteBuffer + a + b == s.pasteBuffer + (a + b);
      if b == [] {
        assert a + b == a;
      } else {
        assert [] + Process(next, b).events == Process(next, b).events;
      }
    } else {
      EmptyReadShows(s, b);
    }
  }

  lemma FeedTwo(s: Buffered, a: string, b: string)
    ensures var first := Process(s, a); var second := Process(first.state, b);
            Feed(s, [a, b]) == Processed(second.state, first.events + second.events)
  {
    hide Process;
    var first := Process(s, a);
    assert [a, b][1..] == [b] && [b][1..] == [];
    assert Feed(first.state, [b]) == Processed(Process(first.state, b).state, Process(first.state, b).events + []);
  }

  /** An empty read while a paste is collected gives out an empty sequence of its own. */
  lemma EmptyReadShows(s: Buffered, b: string)
    requires Pasting(s)
    ensures Feed(s, [[], b]) != Process(s, [] + b)
  {
    hide Process, IndexOf, FinishPaste;
    FeedTwo(s, [], b);
    PasteStep(s, []);
    var next := s.(pendingCodepoint := None);
    PasteStep(next, b);
    PasteStep(s, [] + b);
    assert [] + b == b;
    if b != [] {
      PasteStartsWithPaste(s.pasteBuffer + b, s.pendingCodepoint);
    }
  }

  lemma PasteStartsWithPaste(paste: string, pending: Option<nat>)
    ensures var p := FinishPaste(paste, pending); p.events != [] ==> p.events[0].Paste?
  {
    hide Process, IndexOf;
  }

  function Flattened(chunks: seq<string>): string {
    if chunks == [] then [] else chunks[0] + Flattened(chunks[1..])
  }

  /** A paste that arrives in many reads is processed as if it had arrived in one. */
  lemma {:induction false} PasteFromManyReads(s: Buffered, chunks: seq<string>)
    requires Pasting(s) && chunks != [] && forall i | 0 <= i < |chunks| :: chunks[i] != []
    requires IndexOf(s.pasteBuffer + Flattened(chunks[..|chunks| - 1]), PASTE_END).None?
    ensures Feed(s, chunks) == Process(s, Flattened(chunks))
    decreases |chunks|
  {
    hide Process, IndexOf, FinishPaste;
    var first, rest := chunks[0], chunks[1..];
    PasteStep(s, first);
    if rest == [] {
      FeedOne(s, chunks);
    } else {
      var before := chunks[..|chunks| - 1];
      assert before[0] == first && before[1..] == rest[..|rest| - 1];
      var all := s.pasteBuffer + Flattened(before);
      assert all == (s.pasteBuffer + first) + Flattened(rest[..|rest| - 1]);
      NoMarkerBefore(s.pasteBuffer + first, Flattened(rest[..|rest| - 1]), PASTE_END);
      PasteGoesOn(s.pasteBuffer + first, s.pendingCodepoint);
      var next := Process(s, first).state;
      PasteFromManyReads(next, rest);
      PasteStep(s, Flattened(chunks));
      NotEmpty(rest);
      PasteStep(next, Flattened(rest));
      assert s.pasteBuffer + (first + Flattened(rest)) == s.pasteBuffer + first + Flattened(rest);
      assert [] + Feed(next, rest).events == Feed(next, rest).events;
    }
  }

  lemma FeedOne(s: Buffered, chunks: seq<string>)
    requires |chunks| == 1
    ensures Feed(s, chunks) == Process(s, Flattened(chunks))
  {
    hide Process;
    assert chunks[0] + [] == chunks[0];
    assert Process(s, chunks[0]).events + [] == Process(s, chunks[0]).events;
  }

  lemma NotEmpty(chunks: seq<string>)
    requires chunks != [] && chunks[0] != []
    ensures Flattened(chunks) != []
  {}

  lemma NoMarkerBefore(s: string, t: string, marker: string)
    requires IndexOf(s + t, marker).None?
    ensures IndexOf(s, marker).None?
  {
    if IndexOf(s, marker).Some? {
      IndexFromContinues(s, t, marker, 0);
    }
  }

  lemma {:induction false} IndexFromContinues(s: string, t: string, marker: string, from: nat)
    requires from <= |s|
    ensures IndexFrom(s, marker, from).Some? ==> IndexFrom(s + t, marker, from) == IndexFrom(s, marker, from)
    decreases |s| - from
  {
    if from + |marker| <= |s| {
      assert (s + t)[from..from + |marker|] == s[from..from + |marker|];
      if !OccursAt(s, marker, from) && from < |s| {
        IndexFromContinues(s, t, marker, from + 1);
      }
    }
  }

  // ----- which characters are swallowed as echoes -----

  /** After any sequences, only the last one decides which character would be an echo. */
  lemma {:induction false} PendingIsTheLast(pending: Option<nat>, sequences: seq<string>)
    ensures EmitAll(pending, sequences).pending
            == if sequences == [] then pending else KittyCodepoint(sequences[|sequences| - 1])
    decreases |sequences|
  {
    hide KittyCodepoint;
    if sequences != [] {
      var next := if IsEcho(sequences[0], pending) then None else KittyCodepoint(sequences[0]);
      PendingIsTheLast(next, sequences[1..]);
      if IsEcho(sequences[0], pending) {
        NoReportIsThatShort(sequences[0]);
      }
    }
  }

  lemma NoReportIsThatShort(sequence: string)
    requires |sequence| == 1
    ensures KittyCodepoint(sequence) == None
  {}

  // ----- the buffer itself -----

  class StdinBuffer {
    var buffer: string
    var pasteMode: bool
    var pasteBuffer: string
    var pendingCodepoint: Option<nat>

    function View(): Buffered
      reads this
    {
      Buffered(buffer, pasteMode, pasteBuffer, pendingCodepoint)
    }

    constructor ()
      ensures View() == FRESH
    {
      buffer, pasteMode, pasteBuffer, pendingCodepoint := [], false, [], None;
    }

    method EmitDataSequence(sequence: string) returns (events: seq<Event>)
      modifies this`pendingCodepoint
      ensures EmitAll(old(pendingCodepoint), [sequence]) == Emitted(pendingCodepoint, events)
    {
      hide KittyCodepoint;
      assert [sequence][1..] == [];
      if IsEcho(sequence, pendingCodepoint) {
        pendingCodepoint := None;
        return [];
      }
      pendingCodepoint := KittyCodepoint(sequence);
      return [Data(sequence)];
    }

    method EmitSequences(sequences: seq<string>) returns (events: seq<Event>)
      modifies this`pendingCodepoint
      ensures EmitAll(old(pendingCodepoint), sequences) == Emitted(pendingCodepoint, events)
    {
      events := [];
      for i := 0 to |sequences|
        invariant EmitAll(old(pendingCodepoint), sequences)
               == After(events, EmitAll(pendingCodepoint, sequences[i..]))
      {
        hide KittyCodepoint;
        ghost var pending := pendingCodepoint;
        var emitted := EmitDataSequence(sequences[i]);
        EmitFirst(pending, sequences[i..]);
        assert sequences[i..][1..] == sequences[i + 1..];
        AfterTwice(events, emitted, EmitAll(pendingCodepoint, sequences[i + 1..]));
        events := events + emitted;
      }
    }

    /** Gives the paste out if its end has come, and goes on with what follows it. */
    method CompletePaste() returns (events: seq<Event>)
      requires pasteMode && buffer == []
      modifies this
      ensures FinishPaste(old(pasteBuffer), old(pendingCodepoint)) == Processed(View(), events)
      decreases |pasteBuffer|, 0
    {
      var end := IndexOf(pasteBuffer, PASTE_END);
      if end.None? {
        return [];
      }
      var content := pasteBuffer[..end.value];
      var rest := pasteBuffer[end.value + |PASTE_END|..];
      pasteMode, pasteBuffer, pendingCodepoint := false, [], None;
      if rest != [] {
        events := ProcessData(rest);
        events := [Paste(content)] + events;
      } else {
        events := [Paste(content)];
      }
    }

    method ProcessData(data: string) returns (events: seq<Event>)
      modifies this
      ensures Process(old(View()), data) == Processed(View(), events)
      decreases |pasteBuffer| + |buffer| + |data|, 1
    {
      hide IndexOf, FinishPaste, EmitAll, Extract;
      if data == [] && buffer == [] {
        pendingCodepoint := None;
        return [Data([])];
      }
      buffer := buffer + data;
      if pasteMode {
        pasteBuffer, buffer := pasteBuffer + buffer, [];
        events := CompletePaste();
        return;
      }
      var start := IndexOf(buffer, PASTE_START);
      if start.Some? {
        var sequences, _ := ExtractCompleteSequences(buffer[..start.value]);
        var before := EmitSequences(sequences);
        pasteMode, pasteBuffer, buffer, pendingCodepoint := true, buffer[start.value + |PASTE_START|..], [], None;
        var after := CompletePaste();
        return before + after;
      }
      var sequences, remainder := ExtractCompleteSequences(buffer);
      buffer := remainder;
      events := EmitSequences(sequences);
    }
  }

  function After(events: seq<Event>, e: Emitted): Emitted {
    e.(events := events + e.events)
  }

  lemma AfterTwice(a: seq<Event>, b: seq<Event>, e: Emitted)
    ensures After(a, After(b, e)) == After(a + b, e)
  {
    assert a + (b + e.events) == a + b + e.events;
  }

  lemma EmitOne(pending: Option<nat>, sequence: string)
    ensures EmitAll(pending, [sequence]) == if IsEcho(sequence, pending) then Emitted(None, [])
                                            else Emitted(KittyCodepoint(sequence), [Data(sequence)])
  {
    hide KittyCodepoint, IsEcho;
    assert [sequence][1..] == [];
    assert [Data(sequence)] + [] == [Data(sequence)];
  }

  lemma EmitFirst(pending: Option<nat>, sequences: seq<string>)
    requires sequences != []
    ensures var first := EmitAll(pending, [sequences[0]]);
            EmitAll(pending, sequences) == After(first.events, EmitAll(first.pending, sequences[1..]))
  {
    hide KittyCodepoint, IsEcho;
    EmitOne(pending, sequences[0]);
    if IsEcho(sequences[0], pending) {
      var rest := EmitAll(None, sequences[1..]);
      assert [] + rest.events == rest.events;
    }
  }
}
