/**
 A streamed assistant message behind a proxy (packages/agent/src/proxy.ts): the lines of the response body, and the
 blocks that the events on those lines rebuild.

 Text decoding and JSON parsing are not modelled: reads are decoded text, and the arguments of a tool call are
 represented by the text they were parsed from.
 */
module ProxyStreams {
  import opened Options

  // ----- lines -----

  const DATA: string := "data: "

  /** What `String.prototype.trim` removes. */
  predicate IsSpace(c: char) {
    c == ' ' || '\U{0009}' <= c <= '\U{000D}' || c == '\U{00A0}' || c == '\U{1680}' || '\U{2000}' <= c <= '\U{200A}'
    || c == '\U{2028}' || c == '\U{2029}' || c == '\U{202F}' || c == '\U{205F}' || c == '\U{3000}' || c == '\U{FEFF}'
  }

  function TrimStart(s: string): string {
    if s != [] && IsSpace(s[0]) then TrimStart(s[1..]) else s
  }

  function TrimEnd(s: string): string {
    if s != [] && IsSpace(s[|s| - 1]) then TrimEnd(s[..|s| - 1]) else s
  }

  /** The text after the last line break. */
  function LastLine(s: string): string {
    if s == [] then []
    else if s[|s| - 1] == '\n' then []
    else LastLine(s[..|s| - 1]) + [s[|s| - 1]]
  }

  /** The lines that a line break has ended. */
  function CompleteLines(s: string): seq<string> {
    if s == [] then []
    else
      var before := s[..|s| - 1];
      CompleteLines(before) + if s[|s| - 1] == '\n' then [LastLine(before)] else []
  }

  /** The data that a list of lines hands on. */
  function DataOf(lines: seq<string>): seq<string> {
    if lines == [] then []
    else
      var line := lines[|lines| - 1];
      var data := if DATA <= line then TrimEnd(TrimStart(line[|DATA|..])) else [];
      DataOf(lines[..|lines| - 1]) + if data != [] then [data] else []
  }

  function Flattened(texts: seq<string>): string {
    if texts == [] then [] else Flattened(texts[..|texts| - 1]) + texts[|texts| - 1]
  }

  /** Splitting at line breaks may stop anywhere and go on from the unfinished line. */
  lemma {:induction false} LinesResume(a: string, b: string)
    ensures LastLine(a + b) == LastLine(LastLine(a) + b)
    ensures CompleteLines(a + b) == CompleteLines(a) + CompleteLines(LastLine(a) + b)
    decreases |b|
  {
    if b == [] {
      assert a + b == a && LastLine(a) + b == LastLine(a);
      LastLineIsUnbroken(a);
    } else {
      var init, c := b[..|b| - 1], b[|b| - 1];
      LinesResume(a, init);
      assert (a + b)[..|a + b| - 1] == a + init && (a + b)[|a + b| - 1] == c;
      assert (LastLine(a) + b)[..|LastLine(a) + b| - 1] == LastLine(a) + init;
      hide LastLine;
    }
  }

  lemma {:induction false} LastLineIsUnbroken(a: string)
    ensures LastLine(LastLine(a)) == LastLine(a) && CompleteLines(LastLine(a)) == []
    decreases |a|
  {
    if a != [] && a[|a| - 1] != '\n' {
      var before := a[..|a| - 1];
      LastLineIsUnbroken(before);
      assert (LastLine(before) + [a[|a| - 1]])[..|LastLine(before)|] == LastLine(before);
    }
  }

  lemma {:induction false} DataOfBoth(a: seq<string>, b: seq<string>)
    ensures DataOf(a + b) == DataOf(a) + DataOf(b)
    decreases |b|
  {
    hide TrimStart, TrimEnd;
    if b == [] {
      assert a + b == a;
    } else {
      assert (a + b)[..|a + b| - 1] == a + b[..|b| - 1];
      DataOfBoth(a, b[..|b| - 1]);
    }
  }

  /** `buffer.split("\n")`: the lines between breaks, the last one included. */
  function SplitLines(s: string): (lines: seq<string>)
    ensures lines != []
  {
    CompleteLines(s) + [LastLine(s)]
  }

  class LineReader {
    var buffer: string

    constructor ()
      ensures buffer == []
    {
      buffer := [];
    }

    /** Takes in one read and hands on the data of the lines it completes. */
    method Read(text: string) returns (data: seq<string>)
      modifies this
      ensures data == DataOf(CompleteLines(old(buffer) + text)) && buffer == LastLine(old(buffer) + text)
    {
      hide CompleteLines, LastLine, TrimStart, TrimEnd;
      var lines := SplitLines(buffer + text);
      buffer := lines[|lines| - 1];
      lines := lines[..|lines| - 1];
      data := [];
      for i := 0 to |lines|
        invariant data == DataOf(lines[..i])
      {
        assert lines[..i + 1][..i] == lines[..i];
        if DATA <= lines[i] {
          var item := TrimEnd(TrimStart(lines[i][|DATA|..]));
          if item != [] {
            data := data + [item];
          }
        }
      }
      assert lines[..|lines|] == lines;
    }
  }

  /** However the body is cut into reads, the data handed on are those of its complete lines. */
  method ReadBody(texts: seq<string>) returns (data: seq<string>)
    ensures data == DataOf(CompleteLines(Flattened(texts)))
  {
    hide CompleteLines, LastLine;
    var reader := new LineReader();
    data := [];
    NothingRead();
    for i := 0 to |texts|
      invariant data == DataOf(CompleteLines(Flattened(texts[..i])))
      invariant reader.buffer == LastLine(Flattened(texts[..i]))
    {
      assert texts[..i + 1][..i] == texts[..i];
      LinesResume(Flattened(texts[..i]), texts[i]);
      DataOfBoth(CompleteLines(Flattened(texts[..i])), CompleteLines(reader.buffer + texts[i]));
      var more := reader.Read(texts[i]);
      data := data + more;
    }
    assert texts[..|texts|] == texts;
  }

  lemma NothingRead()
    ensures CompleteLines([]) == [] && LastLine([]) == [] && DataOf([]) == []
  {}

  // ----- what is sent is what is handed on -----

  predicate AllSpace(s: string) {
    forall i | 0 <= i < |s| :: IsSpace(s[i])
  }

  /** Something with no space at either end. */
  predicate Trimmed(s: string) {
    s != [] && !IsSpace(s[0]) && !IsSpace(s[|s| - 1])
  }

  predicate Unbroken(s: string) {
    forall i | 0 <= i < |s| :: s[i] != '\n'
  }

  /** A line of the response: an event with space around it, a data line without any, or something else. */
  datatype Line = EventLine(before: string, payload: string, after: string) | EmptyLine(space: string) | OtherLine(text: string)

  predicate LineOk(line: Line) {
    match line
    case EventLine(before, payload, after) =>
      AllSpace(before) && AllSpace(after) && Trimmed(payload) && Unbroken(before) && Unbroken(payload) && Unbroken(after)
    case EmptyLine(space) => AllSpace(space) && Unbroken(space)
    case OtherLine(text) => !(DATA <= text) && Unbroken(text)
  }

  function LineText(line: Line): string {
    match line
    case EventLine(before, payload, after) => DATA + (before + payload + after)
    case EmptyLine(space) => DATA + space
    case OtherLine(text) => text
  }

  function BodyOf(lines: seq<Line>): string {
    if lines == [] then [] else BodyOf(lines[..|lines| - 1]) + (LineText(lines[|lines| - 1]) + ['\n'])
  }

  function PayloadsOf(lines: seq<Line>): seq<string> {
    if lines == [] then []
    else
      var line := lines[|lines| - 1];
      PayloadsOf(lines[..|lines| - 1]) + if line.EventLine? then [line.payload] else []
  }

  lemma {:induction false} TrimSpace(s: string)
    requires AllSpace(s)
    ensures TrimStart(s) == []
    decreases |s|
  {
    hide IsSpace;
    if s != [] { TrimSpace(s[1..]); }
  }

  lemma {:induction false} TrimsStart(before: string, rest: string)
    requires AllSpace(before) && rest != [] && !IsSpace(rest[0])
    ensures TrimStart(before + rest) == rest
    decreases |before|
  {
    hide IsSpace;
    if before == [] {
      assert before + rest == rest;
    } else {
      assert (before + rest)[1..] == before[1..] + rest;
      TrimsStart(before[1..], rest);
    }
  }

  lemma {:induction false} TrimsEnd(payload: string, after: string)
    requires AllSpace(after) && payload != [] && !IsSpace(payload[|payload| - 1])
    ensures TrimEnd(payload + after) == payload
    decreases |after|
  {
    hide IsSpace;
    var all := payload + after;
    if after == [] {
      assert all == payload;
    } else {
      assert all[..|all| - 1] == payload + after[..|after| - 1];
      TrimsEnd(payload, after[..|after| - 1]);
    }
  }

  lemma TrimsBoth(before: string, payload: string, after: string)
    requires AllSpace(before) && AllSpace(after) && Trimmed(payload)
    ensures TrimEnd(TrimStart(before + payload + after)) == payload
  {
    hide IsSpace;
    assert before + payload + after == before + (payload + after);
    TrimsStart(before, payload + after);
    TrimsEnd(payload, after);
  }

  /** A line by itself hands on its payload. */
  lemma LineHandsOn(line: Line)
    requires LineOk(line)
    ensures DataOf([LineText(line)]) == if line.EventLine? then [line.payload] else []
  {
    hide IsSpace, Unbroken;
    var text := LineText(line);
    var none: seq<string> := [];
    assert [text][..0] == none;
    match line
    case EventLine(before, payload, after) =>
      assert text[|DATA|..] == before + payload + after;
      TrimsBoth(before, payload, after);
    case EmptyLine(space) =>
      assert text[|DATA|..] == space;
      TrimSpace(space);
    case OtherLine(_) =>
  }

  lemma {:induction false} UnbrokenLine(s: string)
    requires Unbroken(s)
    ensures LastLine(s) == s && CompleteLines(s) == []
    decreases |s|
  {
    if s != [] { UnbrokenLine(s[..|s| - 1]); }
  }

  /** A text that ends in a line break, followed by one more line. */
  lemma OneLineMore(body: string, text: string)
    requires Unbroken(text) && LastLine(body) == []
    ensures CompleteLines(body + (text + ['\n'])) == CompleteLines(body) + [text] && LastLine(body + (text + ['\n'])) == []
  {
    var line := text + ['\n'];
    UnbrokenLine(text);
    LinesResume(body, line);
    assert [] + line == line && line[..|line| - 1] == text;
    assert CompleteLines(line) == [] + [text];
  }

  lemma TextUnbroken(line: Line)
    requires LineOk(line)
    ensures Unbroken(LineText(line))
  {
    hide IsSpace;
  }

  lemma {:induction false} BodyHandsOn(lines: seq<Line>)
    requires forall i | 0 <= i < |lines| :: LineOk(lines[i])
    ensures DataOf(CompleteLines(BodyOf(lines))) == PayloadsOf(lines) && LastLine(BodyOf(lines)) == []
    decreases |lines|
  {
    hide LineOk, LineText, CompleteLines, LastLine;
    if lines == [] {
      NothingRead();
    } else {
      var before, line := lines[..|lines| - 1], lines[|lines| - 1];
      BodyHandsOn(before);
      TextUnbroken(line);
      OneLineMore(BodyOf(before), LineText(line));
      DataOfBoth(CompleteLines(BodyOf(before)), [LineText(line)]);
      LineHandsOn(line);
    }
  }

  /**
   The events of a response are handed on, each once and in order, whatever space, empty lines and other lines come
   between them and however the body is cut into reads; what follows the last line break is not.
   */
  lemma SentIsHandedOn(lines: seq<Line>, tail: string)
    requires (forall i | 0 <= i < |lines| :: LineOk(lines[i])) && Unbroken(tail)
    ensures DataOf(CompleteLines(BodyOf(lines) + tail)) == PayloadsOf(lines)
  {
    hide LineOk, CompleteLines, LastLine, DataOf, BodyOf, PayloadsOf, Unbroken;
    BodyHandsOn(lines);
    NothingUnfinished(BodyOf(lines), tail);
  }

  lemma NothingUnfinished(body: string, tail: string)
    requires LastLine(body) == [] && Unbroken(tail)
    ensures CompleteLines(body + tail) == CompleteLines(body)
  {
    LinesResume(body, tail);
    UnbrokenLine(tail);
    hide CompleteLines, LastLine, Unbroken;
    assert [] + tail == tail;
    assert CompleteLines(body) + [] == CompleteLines(body);
  }

  // ----- blocks -----

  datatype Kind = TextKind | ThinkingKind | ToolKind

  datatype Arguments = NoArguments | ParsedFrom(json: string)

  /** `partialJson` is there from the start of a tool call to its end. */
  datatype Block =
    | Text(text: string, signature: Option<string>)
    | Thinking(thinking: string, signature: Option<string>)
    | ToolCall(id: string, name: string, arguments: Arguments, partialJson: Option<string>)

  datatype ProxyEvent =
    | Start
    | BlockStart(index: nat, kind: Kind, id: string, name: string)
    | BlockDelta(index: nat, kind: Kind, delta: string)
    | BlockEnd(index: nat, kind: Kind, signature: Option<string>)
    | Done
    | Failed

  datatype Result<T> = Ok(value: T) | Err

  function NewBlock(kind: Kind, id: string, name: string): Block {
    match kind
    case TextKind => Text([], None)
    case ThinkingKind => Thinking([], None)
    case ToolKind => ToolCall(id, name, NoArguments, Some([]))
  }

  function KindOf(b: Block): Kind {
    match b
    case Text(_, _) => TextKind
    case Thinking(_, _) => ThinkingKind
    case ToolCall(_, _, _, _) => ToolKind
  }

  /** After its end a tool call has no text to append to; appending then starts from the word `undefined`. */
  function AppendJson(partialJson: Option<string>, delta: string): string {
    if partialJson.Some? then partialJson.value + delta else "undefined" + delta
  }

  function Append(b: Block, delta: string): Block {
    match b
    case Text(text, signature) => Text(text + delta, signature)
    case Thinking(thinking, signature) => Thinking(thinking + delta, signature)
    case ToolCall(id, name, _, partialJson) =>
      var json := AppendJson(partialJson, delta);
      ToolCall(id, name, ParsedFrom(json), Some(json))
  }

  function Finish(b: Block, signature: Option<string>): Block {
    match b
    case Text(text, _) => Text(text, signature)
    case Thinking(thinking, _) => Thinking(thinking, signature)
    case ToolCall(id, name, arguments, _) => ToolCall(id, name, arguments, None)
  }

  /** What an event makes of the block at its index. */
  function OnBlock(b: Option<Block>, e: ProxyEvent): Result<Option<Block>> {
    match e
    case BlockStart(_, kind, id, name) => Ok(Some(NewBlock(kind, id, name)))
    case BlockDelta(_, kind, delta) =>
      if b.Some? && KindOf(b.value) == kind then Ok(Some(Append(b.value, delta))) else Err
    case BlockEnd(_, kind, signature) =>
      if b.Some? && KindOf(b.value) == kind then Ok(Some(Finish(b.value, signature)))
      else if kind == ToolKind then Ok(b)
      else Err
    case _ => Ok(b)
  }

  predicate HasIndex(e: ProxyEvent) {
    e.BlockStart? || e.BlockDelta? || e.BlockEnd?
  }

  /** A JavaScript array read and written at an index; writing beyond the end leaves holes. */
  function At(content: seq<Option<Block>>, i: nat): Option<Block> {
    if i < |content| then content[i] else None
  }

  function Put(content: seq<Option<Block>>, i: nat, b: Block): seq<Option<Block>> {
    if i < |content| then content[i := Some(b)] else content + seq(i - |content|, _ => None) + [Some(b)]
  }

  function ProcessEvent(content: seq<Option<Block>>, e: ProxyEvent): Result<seq<Option<Block>>> {
    if !HasIndex(e) then Ok(content)
    else
      var r := OnBlock(At(content, e.index), e);
      if r.Err? then Err else if r.value.None? then Ok(content) else Ok(Put(content, e.index, r.value.value))
  }

  function ProcessAll(content: seq<Option<Block>>, events: seq<ProxyEvent>): Result<seq<Option<Block>>>
    decreases |events|
  {
    if events == [] then Ok(content)
    else
      var next := ProcessEvent(content, events[0]);
      if next.Err? then Err else ProcessAll(next.value, events[1..])
  }

  // ----- one index at a time -----

  /** The events that concern one index. */
  function EventsAt(events: seq<ProxyEvent>, i: nat): seq<ProxyEvent> {
    if events == [] then []
    else (if HasIndex(events[0]) && events[0].index == i then [events[0]] else []) + EventsAt(events[1..], i)
  }

  function BlockAfter(b: Option<Block>, events: seq<ProxyEvent>): Result<Option<Block>>
    decreases |events|
  {
    if events == [] then Ok(b)
    else
      var next := OnBlock(b, events[0]);
      if next.Err? then Err else BlockAfter(next.value, events[1..])
  }

  lemma PutAt(content: seq<Option<Block>>, i: nat, b: Block, j: nat)
    ensures At(Put(content, i, b), j) == if j == i then Some(b) else At(content, j)
  {}

  /** An event changes nothing but the block at its own index. */
  lemma ProcessAt(content: seq<Option<Block>>, e: ProxyEvent, i: nat)
    requires ProcessEvent(content, e).Ok?
    ensures At(ProcessEvent(content, e).value, i)
            == if HasIndex(e) && e.index == i then OnBlock(At(content, i), e).value else At(content, i)
  {
    hide OnBlock, Put;
    if HasIndex(e) && OnBlock(At(content, e.index), e).value.Some? {
      PutAt(content, e.index, OnBlock(At(content, e.index), e).value.value, i);
    }
    if HasIndex(e) {
      NeverLost(At(content, e.index), e);
    }
  }

  lemma NeverLost(b: Option<Block>, e: ProxyEvent)
    ensures OnBlock(b, e).Ok? && OnBlock(b, e).value.None? ==> b.None?
  {}

  /** Blocks do not see each other: each index is rebuilt by its own events alone, and fails on its own. */
  lemma {:induction false} IndicesAreIndependent(content: seq<Option<Block>>, events: seq<ProxyEvent>)
    ensures ProcessAll(content, events).Ok? <==> forall i: nat :: BlockAfter(At(content, i), EventsAt(events, i)).Ok?
    ensures ProcessAll(content, events).Ok? ==>
              forall i: nat :: BlockAfter(At(content, i), EventsAt(events, i)) == Ok(At(ProcessAll(content, events).value, i))
    decreases |events|
  {
    hide OnBlock, Put, At;
    if events != [] {
      var e, rest := events[0], events[1..];
      var next := ProcessEvent(content, e);
      forall i: nat
        ensures BlockAfter(At(content, i), EventsAt(events, i))
                == if HasIndex(e) && e.index == i then
                     (if OnBlock(At(content, i), e).Err? then Err
                      else BlockAfter(OnBlock(At(content, i), e).value, EventsAt(rest, i)))
                   else BlockAfter(At(content, i), EventsAt(rest, i))
      {
        FirstAt(events, i, At(content, i));
      }
      if next.Ok? {
        forall i: nat
          ensures At(next.value, i) == if HasIndex(e) && e.index == i then OnBlock(At(content, i), e).value else At(content, i)
        {
          ProcessAt(content, e, i);
        }
        IndicesAreIndependent(next.value, rest);
      } else {
        assert BlockAfter(At(content, e.index), EventsAt(events, e.index)).Err?;
      }
    }
  }

  lemma FirstAt(events: seq<ProxyEvent>, i: nat, b: Option<Block>)
    requires events != []
    ensures var e := events[0]; var rest := EventsAt(events[1..], i);
            BlockAfter(b, EventsAt(events, i))
            == if HasIndex(e) && e.index == i then
                 (if OnBlock(b, e).Err? then Err else BlockAfter(OnBlock(b, e).value, rest))
               else BlockAfter(b, rest)
  {
    hide OnBlock;
    var e, rest := events[0], EventsAt(events[1..], i);
    if HasIndex(e) && e.index == i {
      assert ([e] + rest)[1..] == rest;
    } else {
      assert [] + rest == rest;
    }
  }

  // ----- any events -----

  /** The events after the last start of a block. */
  function SinceStart(events: seq<ProxyEvent>): (r: seq<ProxyEvent>)
    ensures forall i | 0 <= i < |r| :: !r[i].BlockStart?
  {
    if events == [] || events[|events| - 1].BlockStart? then []
    else SinceStart(events[..|events| - 1]) + [events[|events| - 1]]
  }

  /** The last start of a block. */
  function LastStart(events: seq<ProxyEvent>): (r: Option<ProxyEvent>)
    ensures r.Some? ==> r.value.BlockStart?
  {
    if events == [] then None
    else if events[|events| - 1].BlockStart? then Some(events[|events| - 1])
    else LastStart(events[..|events| - 1])
  }

  /** An event that the block started last can take; without any only the end of a tool call is let pass. */
  predicate Fits(e: ProxyEvent, start: Option<ProxyEvent>)
    requires start.Some? ==> start.value.BlockStart?
  {
    match e
    case BlockDelta(_, kind, _) => start.Some? && start.value.kind == kind
    case BlockEnd(_, kind, _) => kind == ToolKind || (start.Some? && start.value.kind == kind)
    case _ => true
  }

  /** All deltas, one after the other. */
  function DeltaText(events: seq<ProxyEvent>): string {
    if events == [] then []
    else DeltaText(events[..|events| - 1])
         + (if events[|events| - 1].BlockDelta? then events[|events| - 1].delta else [])
  }

  predicate AnyDelta(events: seq<ProxyEvent>) {
    exists i :: 0 <= i < |events| && events[i].BlockDelta?
  }

  /** The last end of a block of this kind. */
  function LastEnd(events: seq<ProxyEvent>, kind: Kind): (r: Option<nat>)
    ensures r.Some? ==> r.value < |events| && events[r.value].BlockEnd? && events[r.value].kind == kind
    ensures r.Some? ==> forall i | r.value < i < |events| :: !(events[i].BlockEnd? && events[i].kind == kind)
    ensures r.None? ==> forall i | 0 <= i < |events| :: !(events[i].BlockEnd? && events[i].kind == kind)
  {
    if events == [] then None
    else
      var e := events[|events| - 1];
      if e.BlockEnd? && e.kind == kind then Some(|events| - 1) else LastEnd(events[..|events| - 1], kind)
  }

  function SignatureOf(since: seq<ProxyEvent>, kind: Kind): Option<string> {
    if LastEnd(since, kind).Some? then since[LastEnd(since, kind).value].signature else None
  }

  /** The text of a tool call's arguments so far: none after its end, and begun anew by a delta that comes then. */
  function JsonOf(since: seq<ProxyEvent>): Option<string> {
    var end := LastEnd(since, ToolKind);
    if end.None? then Some(DeltaText(since))
    else if AnyDelta(since[end.value + 1..]) then Some("undefined" + DeltaText(since[end.value + 1..]))
    else None
  }

  /** The arguments are those of the text after the last delta. */
  ghost predicate ArgumentsOf(arguments: Arguments, since: seq<ProxyEvent>) {
    if !AnyDelta(since) then arguments == NoArguments
    else exists k: nat :: IsLastDelta(since, k)
                          && JsonOf(since[..k + 1]).Some? && arguments == ParsedFrom(JsonOf(since[..k + 1]).value)
  }

  predicate IsLastDelta(since: seq<ProxyEvent>, k: nat) {
    k < |since| && since[k].BlockDelta? && forall j | k < j < |since| :: !since[j].BlockDelta?
  }

  /** What a block holds by the events since its start. */
  ghost predicate Holds(b: Block, start: ProxyEvent, since: seq<ProxyEvent>)
    requires start.BlockStart?
  {
    match b
    case Text(text, signature) =>
      start.kind == TextKind && text == DeltaText(since) && signature == SignatureOf(since, TextKind)
    case Thinking(thinking, signature) =>
      start.kind == ThinkingKind && thinking == DeltaText(since) && signature == SignatureOf(since, ThinkingKind)
    case ToolCall(id, name, arguments, partialJson) =>
      start.kind == ToolKind && id == start.id && name == start.name
      && partialJson == JsonOf(since) && ArgumentsOf(arguments, since)
  }

  lemma {:induction false} OneEventMore(b: Option<Block>, events: seq<ProxyEvent>, e: ProxyEvent)
    ensures BlockAfter(b, events + [e])
            == if BlockAfter(b, events).Err? then Err else OnBlock(BlockAfter(b, events).value, e)
    decreases |events|
  {
    hide OnBlock;
    if events == [] {
      assert [] + [e] == [e] && [e][1..] == [];
    } else {
      assert (events + [e])[0] == events[0] && (events + [e])[1..] == events[1..] + [e];
      if OnBlock(b, events[0]).Ok? { OneEventMore(OnBlock(b, events[0]).value, events[1..], e); }
    }
  }

  lemma NewHolds(start: ProxyEvent)
    requires start.BlockStart?
    ensures Holds(NewBlock(start.kind, start.id, start.name), start, [])
  {}

  lemma TextGrows(events: seq<ProxyEvent>, e: ProxyEvent)
    ensures DeltaText(events + [e]) == if e.BlockDelta? then DeltaText(events) + e.delta else DeltaText(events)
    ensures AnyDelta(events + [e]) <==> AnyDelta(events) || e.BlockDelta?
  {
    hide AnyDelta;
    AnyGrows(events, e);
    assert DeltaText(events) + [] == DeltaText(events);
    assert (events + [e])[..|events + [e]| - 1] == events;
  }

  lemma AnyGrows(events: seq<ProxyEvent>, e: ProxyEvent)
    ensures AnyDelta(events + [e]) <==> AnyDelta(events) || e.BlockDelta?
  {
    var longer := events + [e];
    if AnyDelta(events) {
      var i :| 0 <= i < |events| && events[i].BlockDelta?;
      assert longer[i] == events[i];
    }
    if AnyDelta(longer) {
      var i :| 0 <= i < |longer| && longer[i].BlockDelta?;
      assert i < |events| ==> events[i] == longer[i];
    }
    if e.BlockDelta? {
      assert longer[|events|] == e;
    }
  }

  lemma EndGrows(events: seq<ProxyEvent>, e: ProxyEvent, kind: Kind)
    ensures LastEnd(events + [e], kind) == if e.BlockEnd? && e.kind == kind then Some(|events|) else LastEnd(events, kind)
  {
    assert (events + [e])[..|events|] == events;
  }

  lemma {:induction false} NoText(events: seq<ProxyEvent>)
    requires !AnyDelta(events)
    ensures DeltaText(events) == []
    decreases |events|
  {
    if events != [] {
      assert forall i | 0 <= i < |events| - 1 :: events[..|events| - 1][i] == events[i];
      NoText(events[..|events| - 1]);
    }
  }

  lemma JsonGrows(since: seq<ProxyEvent>, e: ProxyEvent)
    ensures JsonOf(since + [e]) ==
            if e.BlockDelta? then Some(AppendJson(JsonOf(since), e.delta))
            else if e.BlockEnd? && e.kind == ToolKind then None
            else JsonOf(since)
  {
    hide DeltaText, AnyDelta, LastEnd;
    var longer := since + [e];
    TextGrows(since, e);
    EndGrows(since, e, ToolKind);
    if e.BlockEnd? && e.kind == ToolKind {
      assert longer[|since| + 1..] == [];
      NothingToAppend();
    } else if LastEnd(since, ToolKind).Some? {
      var end := LastEnd(since, ToolKind).value;
      assert longer[end + 1..] == since[end + 1..] + [e];
      TextGrows(since[end + 1..], e);
      if !AnyDelta(since[end + 1..]) {
        NoText(since[end + 1..]);
        assert e.BlockDelta? ==> DeltaText(longer[end + 1..]) == [] + e.delta == e.delta;
      } else if e.BlockDelta? {
        assert "undefined" + DeltaText(since[end + 1..]) + e.delta == "undefined" + (DeltaText(since[end + 1..]) + e.delta);
      }
    }
  }

  lemma NothingToAppend()
    ensures !AnyDelta([])
  {}

  lemma ArgumentsGrow(arguments: Arguments, since: seq<ProxyEvent>, e: ProxyEvent)
    requires ArgumentsOf(arguments, since) && !e.BlockDelta?
    ensures ArgumentsOf(arguments, since + [e])
  {
    hide JsonOf, AnyDelta, DeltaText;
    var longer := since + [e];
    TextGrows(since, e);
    if AnyDelta(since) {
      var k: nat :| IsLastDelta(since, k)
                    && JsonOf(since[..k + 1]).Some? && arguments == ParsedFrom(JsonOf(since[..k + 1]).value);
      assert longer[..k + 1] == since[..k + 1];
      assert IsLastDelta(longer, k);
    }
  }

  lemma ArgumentsFromLast(since: seq<ProxyEvent>, e: ProxyEvent)
    requires e.BlockDelta? && JsonOf(since + [e]).Some?
    ensures ArgumentsOf(ParsedFrom(JsonOf(since + [e]).value), since + [e])
  {
    hide JsonOf;
    var longer, k := since + [e], |since|;
    assert longer[..k + 1] == longer && IsLastDelta(longer, k);
  }

  lemma ToolHolds(b: Block, start: ProxyEvent, since: seq<ProxyEvent>, e: ProxyEvent)
    requires start.BlockStart? && Holds(b, start, since) && !e.BlockStart? && Fits(e, Some(start)) && b.ToolCall?
    ensures OnBlock(Some(b), e).Ok? && OnBlock(Some(b), e).value.Some?
    ensures Holds(OnBlock(Some(b), e).value.value, start, since + [e])
  {
    hide JsonOf, ArgumentsOf;
    JsonGrows(since, e);
    if e.BlockDelta? {
      ArgumentsFromLast(since, e);
      assert OnBlock(Some(b), e).value.value == Append(b, e.delta);
    } else {
      ArgumentsGrow(b.arguments, since, e);
    }
  }

  lemma TextHolds(b: Block, start: ProxyEvent, since: seq<ProxyEvent>, e: ProxyEvent)
    requires start.BlockStart? && Holds(b, start, since) && !e.BlockStart? && Fits(e, Some(start)) && !b.ToolCall?
    ensures OnBlock(Some(b), e).Ok? && OnBlock(Some(b), e).value.Some?
    ensures Holds(OnBlock(Some(b), e).value.value, start, since + [e])
  {
    TextGrows(since, e);
    SignatureGrows(since, e, start.kind);
    hide SignatureOf, DeltaText, JsonOf, ArgumentsOf;
  }

  lemma SignatureGrows(since: seq<ProxyEvent>, e: ProxyEvent, kind: Kind)
    ensures SignatureOf(since + [e], kind) == if e.BlockEnd? && e.kind == kind then e.signature else SignatureOf(since, kind)
  {
    hide LastEnd;
    EndGrows(since, e, kind);
    var longer := since + [e];
    assert longer[|since|] == e;
    if LastEnd(since, kind).Some? {
      assert longer[LastEnd(since, kind).value] == since[LastEnd(since, kind).value];
    }
  }

  /** One more event that fits leaves in the block what the events say. */
  lemma EventHolds(b: Block, start: ProxyEvent, since: seq<ProxyEvent>, e: ProxyEvent)
    requires start.BlockStart? && Holds(b, start, since) && !e.BlockStart? && Fits(e, Some(start))
    ensures OnBlock(Some(b), e).Ok? && OnBlock(Some(b), e).value.Some?
    ensures Holds(OnBlock(Some(b), e).value.value, start, since + [e])
  {
    hide Holds;
    if b.ToolCall? {
      ToolHolds(b, start, since, e);
    } else {
      TextHolds(b, start, since, e);
    }
  }

  lemma HoldsKind(b: Block, start: ProxyEvent, since: seq<ProxyEvent>)
    requires start.BlockStart? && Holds(b, start, since)
    ensures KindOf(b) == start.kind
  {}

  ghost predicate Rebuilds(events: seq<ProxyEvent>) {
    var r, start := BlockAfter(None, events), LastStart(events);
    && (r.Ok? <==> forall i | 0 <= i < |events| :: Fits(events[i], LastStart(events[..i])))
    && (r.Ok? ==> (r.value.Some? <==> start.Some?)
                  && (r.value.Some? ==> Holds(r.value.value, start.value, SinceStart(events))))
  }

  /**
   Whatever events come for an index, they are taken exactly if each fits the block started last; the block then holds
   the deltas since its start, the signature of its last end, and the arguments of the text up to its last delta.
   */
  lemma {:induction false} AnyEventsRebuild(events: seq<ProxyEvent>)
    ensures Rebuilds(events)
    decreases |events|
  {
    if events == [] {
    } else {
      var before, e := events[..|events| - 1], events[|events| - 1];
      assert events == before + [e];
      AnyEventsRebuild(before);
      OneEventMore(None, before, e);
      FitBefore(before, e);
      hide Holds;
      var r := BlockAfter(None, before);
      if r.Ok? {
        if e.BlockStart? {
          NewHolds(e);
        } else if r.value.Some? {
          HoldsKind(r.value.value, LastStart(before).value, SinceStart(before));
          if Fits(e, LastStart(before)) {
            EventHolds(r.value.value, LastStart(before).value, SinceStart(before), e);
          }
        }
      }
    }
  }

  lemma FitBefore(before: seq<ProxyEvent>, e: ProxyEvent)
    ensures var events := before + [e];
            (forall i | 0 <= i < |events| :: Fits(events[i], LastStart(events[..i])))
            <==> (forall i | 0 <= i < |before| :: Fits(before[i], LastStart(before[..i]))) && Fits(e, LastStart(before))
  {
    hide Fits;
    var events := before + [e];
    assert events[..|before|] == before && events[|before|] == e;
    assert forall i | 0 <= i < |before| :: events[..i] == before[..i] && events[i] == before[i];
  }

  // ----- interleaved blocks rebuild a message -----

  /** A block of the message that is streamed; `json` is the text of a tool call's arguments. */
  datatype Content =
    | TextContent(text: string, signature: Option<string>)
    | ThinkingContent(text: string, signature: Option<string>)
    | ToolContent(id: string, name: string, json: string)

  function ContentKind(c: Content): Kind {
    match c
    case TextContent(_, _) => TextKind
    case ThinkingContent(_, _) => ThinkingKind
    case ToolContent(_, _, _) => ToolKind
  }

  function ContentText(c: Content): string {
    match c
    case TextContent(text, _) => text
    case ThinkingContent(text, _) => text
    case ToolContent(_, _, json) => json
  }

  function Opening(i: nat, c: Content): ProxyEvent {
    if c.ToolContent? then BlockStart(i, ToolKind, c.id, c.name) else BlockStart(i, ContentKind(c), [], [])
  }

  function Deltas(i: nat, kind: Kind, cut: seq<string>): seq<ProxyEvent> {
    if cut == [] then [] else [BlockDelta(i, kind, cut[0])] + Deltas(i, kind, cut[1..])
  }

  function Closing(i: nat, c: Content): ProxyEvent {
    BlockEnd(i, ContentKind(c), if c.ToolContent? then None else c.signature)
  }

  /** The stripped events of one block, with its text cut into deltas. */
  function Script(i: nat, c: Content, cut: seq<string>): seq<ProxyEvent> {
    [Opening(i, c)] + (Deltas(i, ContentKind(c), cut) + [Closing(i, c)])
  }

  function Concatenated(cut: seq<string>): string {
    if cut == [] then [] else cut[0] + Concatenated(cut[1..])
  }

  /** What a receiver should hold in the end. A tool call without any delta keeps its empty arguments. */
  function Rebuilt(c: Content, anyDelta: bool): Block {
    match c
    case TextContent(text, signature) => Text(text, signature)
    case ThinkingContent(text, signature) => Thinking(text, signature)
    case ToolContent(id, name, json) => ToolCall(id, name, if anyDelta then ParsedFrom(json) else NoArguments, None)
  }

  /** A block under construction with this much of its text. */
  function Underway(c: Content, sofar: string, anyDelta: bool): Block {
    match c
    case TextContent(_, _) => Text(sofar, None)
    case ThinkingContent(_, _) => Thinking(sofar, None)
    case ToolContent(id, name, _) => ToolCall(id, name, if anyDelta then ParsedFrom(sofar) else NoArguments, Some(sofar))
  }

  lemma DeltaAppends(i: nat, c: Content, sofar: string, anyDelta: bool, more: string)
    ensures OnBlock(Some(Underway(c, sofar, anyDelta)), BlockDelta(i, ContentKind(c), more))
            == Ok(Some(Underway(c, sofar + more, true)))
  {}

  lemma ClosingFinishes(i: nat, c: Content, sofar: string, anyDelta: bool)
    ensures OnBlock(Some(Underway(c, sofar, anyDelta)), Closing(i, c))
            == Ok(Some(Finish(Underway(c, sofar, anyDelta), Closing(i, c).signature)))
  {}

  lemma {:induction false} DeltasAppend(i: nat, c: Content, sofar: string, anyDelta: bool, cut: seq<string>)
    ensures BlockAfter(Some(Underway(c, sofar, anyDelta)), Deltas(i, ContentKind(c), cut) + [Closing(i, c)])
            == Ok(Some(Finish(Underway(c, sofar + Concatenated(cut), anyDelta || cut != []), Closing(i, c).signature)))
    decreases |cut|
  {
    hide OnBlock, Underway, Finish;
    var kind := ContentKind(c);
    var all := Deltas(i, kind, cut) + [Closing(i, c)];
    if cut == [] {
      assert all == [Closing(i, c)] && all[1..] == [] && sofar + Concatenated(cut) == sofar;
      ClosingFinishes(i, c, sofar, anyDelta);
    } else {
      var rest := Deltas(i, kind, cut[1..]) + [Closing(i, c)];
      assert all[0] == BlockDelta(i, kind, cut[0]) && all[1..] == rest;
      DeltaAppends(i, c, sofar, anyDelta, cut[0]);
      DeltasAppend(i, c, sofar + cut[0], true, cut[1..]);
      assert sofar + cut[0] + Concatenated(cut[1..]) == sofar + Concatenated(cut);
    }
  }

  lemma ScriptRebuilds(i: nat, c: Content, cut: seq<string>)
    requires Concatenated(cut) == ContentText(c)
    ensures BlockAfter(None, Script(i, c, cut)) == Ok(Some(Rebuilt(c, cut != [])))
  {
    var script := Script(i, c, cut);
    assert script[1..] == Deltas(i, ContentKind(c), cut) + [Closing(i, c)];
    DeltasAppend(i, c, [], false, cut);
    assert [] + Concatenated(cut) == Concatenated(cut);
  }

  /** An array that has not been cut ends in an element, not in a hole. */
  predicate EndsInBlock(content: seq<Option<Block>>) {
    content != [] ==> content[|content| - 1].Some?
  }

  lemma {:induction false} ContentEndsInBlock(content: seq<Option<Block>>, events: seq<ProxyEvent>)
    requires EndsInBlock(content)
    ensures ProcessAll(content, events).Ok? ==> EndsInBlock(ProcessAll(content, events).value)
    decreases |events|
  {
    hide OnBlock;
    if events != [] && ProcessEvent(content, events[0]).Ok? {
      ContentEndsInBlock(ProcessEvent(content, events[0]).value, events[1..]);
    }
  }

  /** The events of a message: for each block its own script, in any interleaving with the others. */
  ghost predicate Interleaves(events: seq<ProxyEvent>, message: seq<Content>, cuts: seq<seq<string>>) {
    && |cuts| == |message|
    && (forall i | 0 <= i < |message| :: Concatenated(cuts[i]) == ContentText(message[i]))
    && (forall i | 0 <= i < |message| :: EventsAt(events, i) == Script(i, message[i], cuts[i]))
    && (forall i: nat | i >= |message| :: EventsAt(events, i) == [])
  }

  /** However deltas are cut and blocks interleaved, the events of a message rebuild exactly its blocks. */
  lemma InterleavedBlocksRebuild(events: seq<ProxyEvent>, message: seq<Content>, cuts: seq<seq<string>>)
    requires Interleaves(events, message, cuts)
    ensures ProcessAll([], events)
            == Ok(seq(|message|, i requires 0 <= i < |message| => Some(Rebuilt(message[i], cuts[i] != []))))
  {
    hide Script, ProcessAll, Rebuilt;
    forall i: nat
      ensures BlockAfter(At([], i), EventsAt(events, i))
              == Ok(if i < |message| then Some(Rebuilt(message[i], cuts[i] != [])) else None)
    {
      if i < |message| {
        ScriptRebuilds(i, message[i], cuts[i]);
      }
    }
    hide BlockAfter;
    IndicesAreIndependent([], events);
    ContentEndsInBlock([], events);
    var content := ProcessAll([], events).value;
    forall i: nat
      ensures At(content, i) == if i < |message| then Some(Rebuilt(message[i], cuts[i] != [])) else None
    {
      assert BlockAfter(At([], i), EventsAt(events, i)) == Ok(At(content, i));
    }
    if content != [] {
      assert At(content, |content| - 1).Some?;
    }
    if message != [] {
      assert At(content, |message| - 1).Some?;
    }
    assert |content| == |message|;
    var expected := seq(|message|, i requires 0 <= i < |message| => Some(Rebuilt(message[i], cuts[i] != [])));
    forall i | 0 <= i < |message|
      ensures content[i] == expected[i]
    {
      assert content[i] == At(content, i);
    }
    assert content == expected;
  }

  // ----- the message under construction -----

  class PartialMessage {
    var content: seq<Option<Block>>

    constructor ()
      ensures content == []
    {
      content := [];
    }

    /** `partial.content[index] = block`. */
    method SetBlock(index: nat, block: Block)
      modifies this
      ensures content == Put(old(content), index, block)
    {
      if index < |content| {
        content := content[index := Some(block)];
      } else {
        content := content + seq(index - |content|, _ => None) + [Some(block)];
      }
    }

    /** Updates the message; `false` if the event does not fit the block at its index, which throws. */
    method ProcessProxyEvent(e: ProxyEvent) returns (ok: bool)
      modifies this
      ensures ProcessEvent(old(content), e) == if ok then Ok(content) else Err
      ensures !ok ==> content == old(content)
    {
      match e
      case BlockStart(index, kind, id, name) =>
        SetBlock(index, NewBlock(kind, id, name));
        return true;
      case BlockDelta(index, kind, delta) =>
        var block := At(content, index);
        if block.None? || KindOf(block.value) != kind {
          return false;
        }
        SetBlock(index, Append(block.value, delta));
        return true;
      case BlockEnd(index, kind, signature) =>
        var block := At(content, index);
        if block.None? || KindOf(block.value) != kind {
          assert block.Some? ==> Put(content, index, block.value) == content by {
            assert block.Some? ==> content[index := block] == content;
          }
          return kind == ToolKind;
        }
        SetBlock(index, Finish(block.value, signature));
        return true;
      case _ =>
        return true;
    }

    /** Events up to the first that does not fit. */
    method ProcessEvents(events: seq<ProxyEvent>) returns (ok: bool)
      modifies this
      ensures ProcessAll(old(content), events) == if ok then Ok(content) else Err
      decreases |events|
    {
      hide ProcessEvent;
      if events == [] {
        return true;
      }
      ok := ProcessProxyEvent(events[0]);
      if ok {
        ok := ProcessEvents(events[1..]);
      }
    }
  }
}
