/**
 What the input buffer of packages/tui/src/stdin-buffer.ts gives out, said of the input as a whole: which sequences are
 dropped as echoes, when it matters how the input is cut into reads, and what a paste among typed input does.
 */
module StdinReads {
  import opened Options
  import opened StdinSequences
  import opened StdinBuffers

  // ----- echoes -----

  /** The key that the sequence just before number `i` has reported. */
  function ReportedBefore(pending: Option<nat>, sequences: seq<string>, i: nat): Option<nat>
    requires i < |sequences|
  {
    if i == 0 then pending else KittyCodepoint(sequences[i - 1])
  }

  /** A single character repeats the key that the sequence just before it has reported. */
  predicate Repeats(pending: Option<nat>, sequences: seq<string>, i: nat)
    requires i < |sequences|
  {
    |sequences[i]| == 1 && ReportedBefore(pending, sequences, i) == Some(sequences[i][0] as nat)
  }

  /** All sequences but those that repeat a key. */
  function Kept(pending: Option<nat>, sequences: seq<string>, i: nat): seq<Event>
    requires i <= |sequences|
    decreases |sequences| - i
  {
    if i == |sequences| then []
    else (if Repeats(pending, sequences, i) then [] else [Data(sequences[i])]) + Kept(pending, sequences, i + 1)
  }

  lemma {:induction false} KeptFrom(pending: Option<nat>, sequences: seq<string>, i: nat)
    requires i <= |sequences|
    ensures var p := if i == |sequences| then pending else ReportedBefore(pending, sequences, i);
            EmitAll(p, sequences[i..]).events == Kept(pending, sequences, i)
    decreases |sequences| - i
  {
    hide KittyCodepoint;
    if i < |sequences| {
      var rest := sequences[i..];
      assert rest[0] == sequences[i] && rest[1..] == sequences[i + 1..];
      KeptFrom(pending, sequences, i + 1);
      if Repeats(pending, sequences, i) {
        NoReportIsThatShort(sequences[i]);
      }
      if i + 1 == |sequences| {
        assert sequences[i + 1..] == [];
      }
    }
  }

  /** A sequence is dropped exactly if it is the plain form of the key that the sequence before it has reported. */
  lemma EmittedExactly(pending: Option<nat>, sequences: seq<string>)
    ensures EmitAll(pending, sequences).events == Kept(pending, sequences, 0)
  {
    hide KittyCodepoint, EmitAll;
    KeptFrom(pending, sequences, 0);
    assert sequences[0..] == sequences;
    if sequences == [] { NothingEmitted(pending); }
  }

  lemma NothingEmitted(pending: Option<nat>)
    ensures EmitAll(pending, []).events == []
  {}

  lemma {:induction false} EmitBoth(pending: Option<nat>, a: seq<string>, b: seq<string>)
    ensures var first := EmitAll(pending, a);
            EmitAll(pending, a + b) == After(first.events, EmitAll(first.pending, b))
    decreases |a|
  {
    hide KittyCodepoint, IsEcho;
    if a == [] {
      assert a + b == b;
      assert [] + EmitAll(pending, b).events == EmitAll(pending, b).events;
    } else {
      assert (a + b)[0] == a[0] && (a + b)[1..] == a[1..] + b;
      var next := if IsEcho(a[0], pending) then None else KittyCodepoint(a[0]);
      EmitBoth(next, a[1..], b);
      var first := EmitAll(next, a[1..]);
      assert [Data(a[0])] + (first.events + EmitAll(first.pending, b).events)
          == [Data(a[0])] + first.events + EmitAll(first.pending, b).events;
    }
  }

  // ----- typed input -----

  lemma NoMarkerAfter(s: string, t: string, marker: string)
    requires IndexOf(s + t, marker).None?
    ensures IndexOf(t, marker).None?
  {
    if IndexOf(t, marker).Some? {
      var k := IndexOf(t, marker).value;
      assert OccursAt(t, marker, k);
      assert (s + t)[|s| + k..|s| + k + |marker|] == t[k..k + |marker|];
      assert OccursAt(s + t, marker, |s| + k);
    }
  }

  /** One read of typed input. */
  lemma TypedRead(s: Buffered, data: string)
    requires !s.pasteMode && data != [] && IndexOf(s.buffer + data, PASTE_START).None?
    ensures var e := Extract(s.buffer + data); var emitted := EmitAll(s.pendingCodepoint, e.sequences);
            Process(s, data) == Processed(s.(buffer := e.remainder, pendingCodepoint := emitted.pending), emitted.events)
  {
    hide Extract, EmitAll, IndexOf, FinishPaste;
  }

  lemma NoMarkerInRemainder(all: string, b: string, marker: string)
    requires IndexOf(all + b, marker).None?
    ensures IndexOf(all, marker).None? && IndexOf(Extract(all).remainder + b, marker).None?
  {
    hide Extract, Joined, IndexOf;
    var e := Extract(all);
    NothingIsLost(all);
    NoMarkerBefore(all, b, marker);
    assert all + b == Joined(e.sequences) + (e.remainder + b);
    NoMarkerAfter(Joined(e.sequences), e.remainder + b, marker);
  }

  /** Two reads of typed input give out the sequences of both, and keep the remainder of the second. */
  lemma TwoReads(s: Buffered, a: string, b: string)
    requires !s.pasteMode && a != [] && b != [] && IndexOf(s.buffer + a + b, PASTE_START).None?
    ensures var e := Resumed(Extract(s.buffer + a), b); var emitted := EmitAll(s.pendingCodepoint, e.sequences);
            Feed(s, [a, b]) == Processed(s.(buffer := e.remainder, pendingCodepoint := emitted.pending), emitted.events)
  {
    hide Extract, EmitAll, IndexOf, Process, Feed;
    var first := Extract(s.buffer + a);
    NoMarkerInRemainder(s.buffer + a, b, PASTE_START);
    TypedRead(s, a);
    TypedRead(Process(s, a).state, b);
    EmitBoth(s.pendingCodepoint, first.sequences, Extract(first.remainder + b).sequences);
    FeedTwo(s, a, b);
  }

  /** Where the cut falls after an ESC ESC, the two ways agree up to there and no further. */
  lemma {:induction false} CutShape(a: string, b: string) returns (p: seq<string>, q: seq<string>)
    requires CutAfterEscape(Extract(a), b)
    ensures Extract(a).sequences == p + [[ESC, ESC]] && Extract(a + b).sequences == p + [[ESC]] + q
    decreases |a|
  {
    hide FirstLength, IsOpener;
    NotCutWithinPair(a, b);
    var n := FirstLength(a);
    FirstLengthStays(a, b);
    if a == [ESC, ESC] {
      CutPair(a, b);
      p, q := [], Extract((a + b)[1..]).sequences;
      assert a[..2] == a && a[2..] == [];
      assert (a + b)[..1] == [ESC];
    } else {
      LastOfPrefixed(a, n, Extract(a[n..]), b);
      var p', q' := CutShape(a[n..], b);
      assert (a + b)[..n] == a[..n] && (a + b)[n..] == a[n..] + b;
      p, q := [a[..n]] + p', q';
      assert [a[..n]] + (p' + [[ESC, ESC]]) == p + [[ESC, ESC]];
      assert [a[..n]] + (p' + [[ESC]] + q') == p + [[ESC]] + q;
    }
  }

  lemma NotCutWithinPair(a: string, b: string)
    requires CutAfterEscape(Extract(a), b)
    ensures a != [] && FirstLength(a) <= |a| && b != [] && IsOpener(b[0])
  {
    hide FirstLength, IsOpener;
    if a == [] || FirstLength(a) > |a| { NotCutWithin(a, b); }
  }

  /** No key below the space is ever reported, so an escape is never dropped. */
  predicate Reportable(pending: Option<nat>) {
    pending.Some? ==> pending.value >= 32
  }

  lemma ReportsAreReportable(sequence: string)
    ensures Reportable(KittyCodepoint(sequence))
  {
    hide Number, Split, AllDigits;
  }

  lemma EscapeGivenOut(pending: Option<nat>, p: seq<string>, escape: string, q: seq<string>)
    requires Reportable(pending) && (escape == [ESC] || escape == [ESC, ESC])
    ensures var before := EmitAll(pending, p).events; var all := EmitAll(pending, p + [escape] + q).events;
            |all| > |before| && all[|before|] == Data(escape)
  {
    hide EmitAll, KittyCodepoint;
    var before := EmitAll(pending, p);
    PendingIsTheLast(pending, p);
    if p != [] { ReportsAreReportable(p[|p| - 1]); }
    EmitOne(before.pending, escape);
    EmitBoth(pending, p, [escape]);
    EmitBoth(pending, p + [escape], q);
  }

  /**
   Two reads of typed input are as good as one exactly if the cut does not fall right after an ESC ESC that opens a
   sequence; then an escape that was pressed before another key is not told from one held with it.
   */
  lemma TypingDoesNotDependOnReads(s: Buffered, a: string, b: string)
    requires !s.pasteMode && a != [] && b != [] && IndexOf(s.buffer + a + b, PASTE_START).None?
    requires Reportable(s.pendingCodepoint)
    ensures Feed(s, [a, b]) == Process(s, a + b) <==> !CutAfterEscape(Extract(s.buffer + a), b)
  {
    hide Extract, EmitAll, IndexOf, Process, Feed, CutAfterEscape;
    assert s.buffer + (a + b) == s.buffer + a + b;
    TypedRead(s, a + b);
    TwoReads(s, a, b);
    CutsDoNotMatter(s.buffer + a, b);
    if CutAfterEscape(Extract(s.buffer + a), b) {
      CutIsSeen(s, a, b);
    }
  }

  lemma CutIsSeen(s: Buffered, a: string, b: string)
    requires CutAfterEscape(Extract(s.buffer + a), b) && Reportable(s.pendingCodepoint)
    ensures EmitAll(s.pendingCodepoint, Resumed(Extract(s.buffer + a), b).sequences).events
         != EmitAll(s.pendingCodepoint, Extract(s.buffer + a + b).sequences).events
  {
    hide Extract, EmitAll, CutAfterEscape;
    var p, q := CutShape(s.buffer + a, b);
    EscapeGivenOut(s.pendingCodepoint, p, [ESC, ESC], Extract(Extract(s.buffer + a).remainder + b).sequences);
    EscapeGivenOut(s.pendingCodepoint, p, [ESC], q);
  }

  // ----- a paste among typed input -----

  /** The first occurrence of the marker is where `before` ends. */
  predicate FirstAt(s: string, marker: string, k: nat) {
    OccursAt(s, marker, k) && forall j: nat | j < k :: !OccursAt(s, marker, j)
  }

  lemma FirstIsIndex(s: string, marker: string, k: nat)
    requires FirstAt(s, marker, k)
    ensures IndexOf(s, marker) == Some(k)
  {}

  /**
   Typed input, a paste and more input in one read: the sequences before the paste are given out, an unfinished one is
   dropped, then comes the paste as it is, and what follows is read as if nothing had been before.
   */
  lemma PasteAmongTyping(s: Buffered, data: string, typed: string, content: string, more: string)
    requires !s.pasteMode && s.buffer + data == typed + PASTE_START + (content + PASTE_END + more)
    requires FirstAt(s.buffer + data, PASTE_START, |typed|) && FirstAt(content + PASTE_END + more, PASTE_END, |content|)
    ensures var p := Process(s, data);
            var before := Kept(s.pendingCodepoint, Extract(typed).sequences, 0);
            if more == [] then p == Processed(FRESH, before + [Paste(content)])
            else p == Processed(Process(FRESH, more).state, before + [Paste(content)] + Process(FRESH, more).events)
  {
    hide Extract, EmitAll, IndexOf, Kept, KittyCodepoint;
    var all, rest := s.buffer + data, content + PASTE_END + more;
    FirstIsIndex(all, PASTE_START, |typed|);
    FirstIsIndex(rest, PASTE_END, |content|);
    assert all[..|typed|] == typed && all[|typed| + |PASTE_START|..] == rest;
    assert rest[..|content|] == content && rest[|content| + |PASTE_END|..] == more;
    EmittedExactly(s.pendingCodepoint, Extract(typed).sequences);
    PasteFinished(rest, None, content, more);
    PasteBegun(s, data, typed, rest);
    var before := Kept(s.pendingCodepoint, Extract(typed).sequences, 0);
    hide Process;
    assert before + ([Paste(content)] + Process(FRESH, more).events)
        == before + [Paste(content)] + Process(FRESH, more).events;
  }

  lemma PasteFinished(paste: string, pending: Option<nat>, content: string, more: string)
    requires IndexOf(paste, PASTE_END) == Some(|content|) && paste[..|content|] == content
    requires paste[|content| + |PASTE_END|..] == more
    ensures FinishPaste(paste, pending) ==
            if more == [] then Processed(FRESH, [Paste(content)])
            else Processed(Process(FRESH, more).state, [Paste(content)] + Process(FRESH, more).events)
  {
    hide IndexOf, Process;
  }

  lemma PasteBegun(s: Buffered, data: string, typed: string, rest: string)
    requires !s.pasteMode && IndexOf(s.buffer + data, PASTE_START) == Some(|typed|)
    requires (s.buffer + data)[..|typed|] == typed && (s.buffer + data)[|typed| + |PASTE_START|..] == rest
    ensures var p := FinishPaste(rest, None);
            Process(s, data)
            == Processed(p.state, EmitAll(s.pendingCodepoint, Extract(typed).sequences).events + p.events)
  {
    hide IndexOf, FinishPaste, EmitAll, Extract;
  }
}
