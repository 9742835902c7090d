/**
 The event log of one agent run (packages/agent/src/agent-loop.ts, agent.ts), and a monitor that says which logs
 are well formed.  The monitor is the reference: it knows nothing of how the loop is written.

 A history interleaves what the loop emitted with what it took from the two message queues.
 */
module AgentEvents {
  datatype StopReason = Stop | ToolUse | Length | Error | Aborted

  datatype ToolCall = ToolCall(id: string, name: string, arguments: string)

  datatype Block = Text(text: string) | Call(call: ToolCall)

  datatype Message =
    | User(text: string)
    | Assistant(content: seq<Block>, stopReason: StopReason)
    | ToolResult(callId: string, name: string, output: string, isError: bool)

  datatype AgentToolResult = AgentToolResult(output: string, terminate: bool)

  datatype Event =
    | AgentStart
    | TurnStart
    | MessageStart(message: Message)
    | MessageUpdate(message: Message)
    | MessageEnd(message: Message)
    | ToolStart(call: ToolCall)
    | ToolUpdate(call: ToolCall, partial: string)
    | ToolEnd(call: ToolCall, result: AgentToolResult, isError: bool)
    | TurnEnd(message: Message, toolResults: seq<Message>)
    | AgentEnd(messages: seq<Message>)

  datatype Source = Steering | FollowUp

  /** A turn by its response, the results of the tools it called, and how many messages the run had when it ended. */
  datatype EndedTurn = EndedTurn(response: Message, results: seq<Message>, upTo: nat)

  /** A poll of a queue: what it took, and what it found there. */
  datatype Poll = Poll(source: Source, batch: seq<Message>, queued: seq<Message>)

  datatype Entry = Emitted(event: Event) | Polled(poll: Poll)

  /** The tool calls among the content blocks, in source order. */
  function ToolCalls(content: seq<Block>): seq<ToolCall> {
    if content == [] then []
    else (if content[0].Call? then [content[0].call] else []) + ToolCalls(content[1..])
  }

  predicate Answers(result: Message, call: ToolCall) {
    result.ToolResult? && result.callId == call.id && result.name == call.name
  }

  predicate Failed(message: Message) {
    message.Assistant? && (message.stopReason == Error || message.stopReason == Aborted)
  }

  // ----- the monitor -----

  datatype Phase =
    | NotStarted
    | RunStarted
    | Injecting            // a turn has begun, the assistant has not
    | InjectOpen
    | AssistantOpen
    | Tools                // the assistant message is complete
    | ResultOpen(result: Message)
    | TurnClosed
    | SteeringPolled
    | FollowUpPolled
    | RunEnded

  /**
   `owed`: messages taken from a queue (or prompts) and not yet in the transcript.
   `calls`, `started`, `open`, `results`, `verdicts`: the tool round of the current turn.
   `logged`: the results that the ended calls of the turn have been logged with, as messages.
   `transcript`: every message ended so far; `turns`: the turns ended so far.
   */
  datatype Monitor =
    | Broken
    | Monitor(
        phase: Phase, initialPoll: bool, owed: seq<Message>, assistant: Message,
        calls: seq<ToolCall>, started: nat, open: multiset<string>,
        results: seq<Message>, verdicts: seq<bool>, logged: set<Message>, transcript: seq<Message>,
        turns: seq<EndedTurn>)

  function Start(prompts: seq<Message>): Monitor {
    Monitor(NotStarted, true, prompts, User(""), [], 0, multiset{}, [], [], {}, [], [])
  }

  predicate Unanimous(verdicts: seq<bool>) {
    verdicts != [] && forall i | 0 <= i < |verdicts| :: verdicts[i]
  }

  /** Must the loop go on for the sake of tool results? */
  predicate MoreTools(m: Monitor)
    requires m.Monitor?
  {
    m.calls != [] && !Unanimous(m.verdicts)
  }

  function Observe(m: Monitor, entry: Entry): Monitor {
    if m.Broken? then Broken
    else match entry
    case Polled(poll) => ObservePoll(m, poll.source, poll.batch)
    case Emitted(event) => ObserveEvent(m, event)
  }

  function ObservePoll(m: Monitor, source: Source, batch: seq<Message>): Monitor
    requires m.Monitor?
  {
    match source
    case Steering =>
      if m.phase == Injecting && m.initialPoll && m.owed == [] then m.(owed := batch, initialPoll := false)
      else if m.phase == TurnClosed && !Failed(m.assistant) then m.(phase := SteeringPolled, owed := batch)
      else Broken
    case FollowUp =>
      if m.phase == SteeringPolled && !MoreTools(m) && m.owed == [] then m.(phase := FollowUpPolled, owed := batch)
      else Broken
  }

  function ObserveEvent(m: Monitor, event: Event): Monitor
    requires m.Monitor?
  {
    match event
    case AgentStart => if m.phase == NotStarted then m.(phase := RunStarted) else Broken
    case TurnStart =>
      if m.phase == RunStarted || (m.phase == SteeringPolled && (MoreTools(m) || m.owed != []))
         || (m.phase == FollowUpPolled && m.owed != [])
      then m.(phase := Injecting, calls := [], started := 0, results := [], verdicts := [], logged := {})
      else Broken
    case MessageStart(message) =>
      if m.phase == Injecting && m.owed != [] then if message == m.owed[0] then m.(phase := InjectOpen) else Broken
      else if m.phase == Injecting && !m.initialPoll && message.Assistant? then m.(phase := AssistantOpen)
      else if m.phase == Tools && m.open == multiset{} && message.ToolResult? then m.(phase := ResultOpen(message))
      else Broken
    case MessageUpdate(message) => if m.phase == AssistantOpen then m else Broken
    case MessageEnd(message) =>
      var ended := m.(transcript := m.transcript + [message]);
      if m.phase == InjectOpen && m.owed != [] && message == m.owed[0] then ended.(phase := Injecting, owed := m.owed[1..])
      else if m.phase == AssistantOpen && message.Assistant? then
        ended.(phase := Tools, assistant := message, calls := if Failed(message) then [] else ToolCalls(message.content))
      else if m.phase == ResultOpen(message) && |m.results| < m.started && |m.results| < |m.calls|
           && Answers(message, m.calls[|m.results|]) && message in m.logged
      then ended.(phase := Tools, results := m.results + [message])
      else Broken
    case ToolStart(call) =>
      if m.phase == Tools && m.started < |m.calls| && call == m.calls[m.started]
      then m.(started := m.started + 1, open := m.open + multiset{call.id})
      else Broken
    case ToolUpdate(call, _) => if m.phase == Tools && call.id in m.open then m else Broken
    case ToolEnd(call, result, isError) =>
      if m.phase == Tools && call.id in m.open
      then m.(open := m.open - multiset{call.id}, verdicts := m.verdicts + [result.terminate],
              logged := m.logged + {ToolResult(call.id, call.name, result.output, isError)})
      else Broken
    case TurnEnd(message, toolResults) =>
      if m.phase == Tools && m.open == multiset{} && message == m.assistant && toolResults == m.results
         && |m.results| == m.started && (m.calls != [] ==> m.started > 0)
      then m.(phase := TurnClosed, turns := m.turns + [EndedTurn(message, toolResults, |m.transcript|)])
      else Broken
    case AgentEnd(messages) =>
      if (m.phase == TurnClosed || m.phase == FollowUpPolled) && m.owed == [] && messages == m.transcript
      then m.(phase := RunEnded)
      else Broken
  }

  function Watch(m: Monitor, history: seq<Entry>): Monitor {
    if history == [] then m else Observe(Watch(m, history[..|history| - 1]), history[|history| - 1])
  }

  /** The history of a run that has come to its end. */
  predicate Complete(prompts: seq<Message>, history: seq<Entry>) {
    var m := Watch(Start(prompts), history);
    m.Monitor? && m.phase == RunEnded
  }

  /** A history that can still be continued, or is complete. */
  predicate WellFormed(prompts: seq<Message>, history: seq<Entry>) {
    Watch(Start(prompts), history).Monitor?
  }

  /** What every reachable state of the monitor satisfies. */
  predicate Sane(m: Monitor) {
    m.Monitor? ==>
      && (m.phase.AssistantOpen? || m.phase.Tools? || m.phase.ResultOpen? || m.phase.TurnClosed? || m.phase.RunEnded? ==>
            m.owed == [])
      && (m.phase != Tools ==> m.open == multiset{})
  }

  lemma SaneStep(m: Monitor, e: Entry)
    requires Sane(m)
    ensures Sane(Observe(m, e))
  {}

  lemma {:induction false} WatchSane(prompts: seq<Message>, history: seq<Entry>)
    ensures Sane(Watch(Start(prompts), history))
    decreases |history|
  {
    hide ObservePoll, ObserveEvent;
    if history != [] {
      WatchSane(prompts, history[..|history| - 1]);
      SaneStep(Watch(Start(prompts), history[..|history| - 1]), history[|history| - 1]);
    }
  }

  // ----- what a history says, without the monitor -----

  function EndOf(e: Entry): seq<Message> {
    if e.Emitted? && e.event.MessageEnd? then [e.event.message] else []
  }

  function BatchOf(e: Entry): seq<Message> {
    if e.Polled? then e.poll.batch else []
  }

  function MessageEnds(history: seq<Entry>): seq<Message> {
    if history == [] then [] else MessageEnds(history[..|history| - 1]) + EndOf(history[|history| - 1])
  }

  function Batches(history: seq<Entry>): seq<Message> {
    if history == [] then [] else Batches(history[..|history| - 1]) + BatchOf(history[|history| - 1])
  }

  function BatchesOf(history: seq<Entry>, source: Source): seq<Message> {
    if history == [] then []
    else
      var last := history[|history| - 1];
      BatchesOf(history[..|history| - 1], source) + if last.Polled? && last.poll.source == source then last.poll.batch else []
  }

  /** The polls of a history, in order. */
  function PollsOf(history: seq<Entry>): seq<Poll> {
    if history == [] then []
    else PollsOf(history[..|history| - 1]) + PollOf(history[|history| - 1])
  }

  function PollOf(e: Entry): seq<Poll> {
    if e.Polled? then [e.poll] else []
  }

  /** The message that the loop puts in with `e`, if any: a prompt, or a message from a queue, whatever its role. */
  function PutIn(m: Monitor, e: Entry): seq<Message> {
    if m.Monitor? && m.phase == InjectOpen then EndOf(e) else []
  }

  function NotPutIn(m: Monitor, e: Entry): seq<Message> {
    if m.Monitor? && m.phase == InjectOpen then [] else EndOf(e)
  }

  /** The messages ended in the run that the loop put in; `Others` are the rest. */
  function Injected(prompts: seq<Message>, history: seq<Entry>): seq<Message> {
    if history == [] then []
    else
      var before := history[..|history| - 1];
      Injected(prompts, before) + PutIn(Watch(Start(prompts), before), history[|history| - 1])
  }

  function Others(prompts: seq<Message>, history: seq<Entry>): seq<Message> {
    if history == [] then []
    else
      var before := history[..|history| - 1];
      Others(prompts, before) + NotPutIn(Watch(Start(prompts), before), history[|history| - 1])
  }

  function Users(messages: seq<Message>): seq<Message> {
    if messages == [] then []
    else
      var last := messages[|messages| - 1];
      Users(messages[..|messages| - 1]) + if last.User? then [last] else []
  }

  function StartOf(e: Entry, id: string): nat {
    if e.Emitted? && e.event.ToolStart? && e.event.call.id == id then 1 else 0
  }

  function FinishOf(e: Entry, id: string): nat {
    if e.Emitted? && e.event.ToolEnd? && e.event.call.id == id then 1 else 0
  }

  function ToolStarts(history: seq<Entry>, id: string): nat {
    if history == [] then 0 else ToolStarts(history[..|history| - 1], id) + StartOf(history[|history| - 1], id)
  }

  function ToolEnds(history: seq<Entry>, id: string): nat {
    if history == [] then 0 else ToolEnds(history[..|history| - 1], id) + FinishOf(history[|history| - 1], id)
  }

  function TurnOf(e: Entry): seq<bool> {
    if e == Emitted(TurnStart) then [true] else if e.Emitted? && e.event.TurnEnd? then [false] else []
  }

  /** The turn events in order: true for turn_start, false for turn_end. */
  function Turns(history: seq<Entry>): seq<bool> {
    if history == [] then [] else Turns(history[..|history| - 1]) + TurnOf(history[|history| - 1])
  }

  function TurnEndOf(e: Entry, upTo: nat): seq<EndedTurn> {
    if e.Emitted? && e.event.TurnEnd? then [EndedTurn(e.event.message, e.event.toolResults, upTo)] else []
  }

  /** The turns that have ended in a history, in order. */
  function TurnEnds(history: seq<Entry>): seq<EndedTurn> {
    if history == [] then []
    else
      var before := history[..|history| - 1];
      TurnEnds(before) + TurnEndOf(history[|history| - 1], |MessageEnds(before)|)
  }

  // ----- what well-formed histories guarantee -----

  lemma UsersConcat(a: seq<Message>, b: seq<Message>)
    ensures Users(a + b) == Users(a) + Users(b)
  {
    if b == [] {
      assert a + b == a;
    } else {
      assert (a + b)[..|a + b| - 1] == a + b[..|b| - 1];
      UsersConcat(a, b[..|b| - 1]);
    }
  }

  lemma WellFormedPrefix(prompts: seq<Message>, history: seq<Entry>, n: nat)
    requires WellFormed(prompts, history) && n <= |history|
    ensures WellFormed(prompts, history[..n])
    decreases |history|
  {
    hide ObservePoll, ObserveEvent;
    if n < |history| {
      WellFormedPrefix(prompts, history[..|history| - 1], n);
      assert history[..|history| - 1][..n] == history[..n];
    } else {
      assert history[..n] == history;
    }
  }

  /** What one entry does to the transcript and to the debt. */
  predicate Pays(m: Monitor, e: Entry, m': Monitor)
    requires m.Monitor? && m'.Monitor?
  {
    && m'.transcript == m.transcript + EndOf(e)
    && PutIn(m, e) + m'.owed == m.owed + BatchOf(e)
    && (forall message | message in NotPutIn(m, e) :: !message.User?)
  }

  lemma PayEvent(m: Monitor, event: Event)
    requires Sane(m) && m.Monitor? && ObserveEvent(m, event).Monitor?
    ensures Pays(m, Emitted(event), ObserveEvent(m, event))
  {
    if event.MessageEnd? && m.phase == InjectOpen {
      assert m.owed == [m.owed[0]] + m.owed[1..];
    }
  }

  lemma PayStep(m: Monitor, e: Entry)
    requires Sane(m) && m.Monitor? && Observe(m, e).Monitor?
    ensures Pays(m, e, Observe(m, e))
  {
    hide ObserveEvent;
    if e.Emitted? { PayEvent(m, e.event); }
  }

  /** Regrouping of concatenations: what was owed before is what was injected now and is owed after. */
  lemma Regroup(ends: seq<Message>, e: seq<Message>, owed: seq<Message>, owed': seq<Message>,
                prompts: seq<Message>, batches: seq<Message>, b: seq<Message>)
    requires ends + owed == prompts + batches && e + owed' == owed + b
    ensures (ends + e) + owed' == prompts + (batches + b)
  {
    assert (ends + e) + owed' == ends + (e + owed');
    assert ends + (owed + b) == (ends + owed) + b;
    assert (prompts + batches) + b == prompts + (batches + b);
  }

  /**
   Nothing taken from a queue is lost, repeated or reordered, whatever its role: the messages injected so far, followed
   by those still owed, are the prompts followed by everything the polls returned.
   */
  lemma {:induction false} InjectedExactlyOnce(prompts: seq<Message>, history: seq<Entry>)
    requires WellFormed(prompts, history)
    ensures var m := Watch(Start(prompts), history);
      && m.transcript == MessageEnds(history)
      && Injected(prompts, history) + m.owed == prompts + Batches(history)
      && (m.phase == RunEnded ==> m.owed == [])
    decreases |history|
  {
    hide ObservePoll, ObserveEvent, Observe, PutIn;
    WatchSane(prompts, history);
    if history != [] {
      var before, last := history[..|history| - 1], history[|history| - 1];
      WellFormedPrefix(prompts, history, |before|);
      InjectedExactlyOnce(prompts, before);
      WatchSane(prompts, before);
      var m, m' := Watch(Start(prompts), before), Watch(Start(prompts), history);
      PayStep(m, last);
      Regroup(Injected(prompts, before), PutIn(m, last), m.owed, m'.owed,
              prompts, Batches(before), BatchOf(last));
    }
  }

  /** The transcript is the injected messages and the others, interleaved; no user message is among the others. */
  lemma {:induction false} TranscriptIsShuffled(prompts: seq<Message>, history: seq<Entry>)
    requires WellFormed(prompts, history)
    ensures Shuffled(MessageEnds(history), Injected(prompts, history), Others(prompts, history))
    decreases |history|
  {
    hide ObservePoll, ObserveEvent, Observe, Shuffled, PutIn, NotPutIn, EndOf;
    if history == [] {
      NothingShuffled();
    } else {
      var before, last := history[..|history| - 1], history[|history| - 1];
      WellFormedPrefix(prompts, history, |before|);
      TranscriptIsShuffled(prompts, before);
      WatchSane(prompts, before);
      var m := Watch(Start(prompts), before);
      PayStep(m, last);
      ShuffledOn(m, last, MessageEnds(before), Injected(prompts, before), Others(prompts, before));
    }
  }

  predicate Shuffled(all: seq<Message>, injected: seq<Message>, others: seq<Message>) {
    && multiset(all) == multiset(injected) + multiset(others)
    && Users(all) == Users(injected) && Users(others) == []
  }

  lemma NothingShuffled()
    ensures Shuffled([], [], [])
  {}

  lemma ShuffledOn(m: Monitor, e: Entry, all: seq<Message>, injected: seq<Message>, others: seq<Message>)
    requires Shuffled(all, injected, others) && forall message | message in NotPutIn(m, e) :: !message.User?
    ensures Shuffled(all + EndOf(e), injected + PutIn(m, e), others + NotPutIn(m, e))
  {
    hide Users, EndOf;
    UsersConcat(all, EndOf(e));
    UsersConcat(injected, PutIn(m, e));
    UsersConcat(others, NotPutIn(m, e));
    NoUsers(NotPutIn(m, e));
    NoUsers([]);
    assert Users(injected) + [] == Users(injected);
  }

  lemma {:induction false} NoUsers(messages: seq<Message>)
    requires forall message | message in messages :: !message.User?
    ensures Users(messages) == []
    decreases |messages|
  {
    if messages != [] { NoUsers(messages[..|messages| - 1]); }
  }

  /** At `j` the end of a call is logged with what the message tells of it. */
  predicate LogsResult(history: seq<Entry>, j: nat, message: Message) {
    && j < |history| && history[j].Emitted? && history[j].event.ToolEnd? && message.ToolResult?
    && history[j].event.call.id == message.callId && history[j].event.call.name == message.name
    && history[j].event.result.output == message.output && history[j].event.isError == message.isError
  }

  /** That end belongs to the turn which the history is in. */
  predicate LoggedInTurn(history: seq<Entry>, j: nat, message: Message) {
    LogsResult(history, j, message) && forall k | j < k < |history| :: history[k] != Emitted(TurnStart)
  }

  lemma LoggedStep(m: Monitor, e: Entry)
    requires m.Monitor? && Observe(m, e).Monitor?
    ensures Observe(m, e).logged == if e == Emitted(TurnStart) then {}
                                    else if e.Emitted? && e.event.ToolEnd? then
                                      m.logged + {ToolResult(e.event.call.id, e.event.call.name, e.event.result.output, e.event.isError)}
                                    else m.logged
    ensures forall message | message in NotPutIn(m, e) && message.ToolResult? :: message in m.logged
  {
    hide Unanimous, ToolCalls, Failed, Answers;
  }

  lemma {:induction false} LoggedEarlier(prompts: seq<Message>, history: seq<Entry>)
    requires WellFormed(prompts, history)
    ensures forall message | message in Watch(Start(prompts), history).logged ::
              exists j: nat :: LoggedInTurn(history, j, message)
    decreases |history|
  {
    hide ObservePoll, ObserveEvent, Observe;
    if history != [] {
      var before, last := history[..|history| - 1], history[|history| - 1];
      WellFormedPrefix(prompts, history, |before|);
      LoggedEarlier(prompts, before);
      var m := Watch(Start(prompts), before);
      LoggedStep(m, last);
      forall message | message in Watch(Start(prompts), history).logged
        ensures exists j: nat :: LoggedInTurn(history, j, message)
      {
        if message in m.logged && last != Emitted(TurnStart) {
          var j: nat :| LoggedInTurn(before, j, message);
          assert LoggedInTurn(history, j, message);
        } else {
          assert LoggedInTurn(history, |before|, message);
        }
      }
    }
  }

  /** A tool result in the transcript tells what the end of its call in the same turn was logged with. */
  lemma ResultsAreLogged(prompts: seq<Message>, history: seq<Entry>, i: nat, message: Message)
    requires WellFormed(prompts, history) && i < |history| && message.ToolResult?
    requires message in NotPutIn(Watch(Start(prompts), history[..i]), history[i])
    ensures exists j: nat :: j < i && LogsResult(history, j, message)
                             && forall k | j < k < i :: history[k] != Emitted(TurnStart)
  {
    hide ObservePoll, ObserveEvent, Observe, NotPutIn;
    WellFormedPrefix(prompts, history, i);
    WellFormedPrefix(prompts, history, i + 1);
    assert history[..i + 1][..i] == history[..i];
    LoggedEarlier(prompts, history[..i]);
    LoggedStep(Watch(Start(prompts), history[..i]), history[i]);
    var j: nat :| LoggedInTurn(history[..i], j, message);
    assert LogsResult(history, j, message);
  }

  lemma ToolStep(m: Monitor, e: Entry, id: string)
    requires Sane(m) && m.Monitor? && Observe(m, e).Monitor?
    ensures m.open[id] + StartOf(e, id) == Observe(m, e).open[id] + FinishOf(e, id)
  {
    OpenAfter(m, e);
    EndsAreOpen(m, e);
    hide Observe;
  }

  lemma EndsAreOpen(m: Monitor, e: Entry)
    requires m.Monitor? && Observe(m, e).Monitor?
    ensures e.Emitted? && e.event.ToolEnd? ==> e.event.call.id in m.open
  {
    hide Unanimous, ToolCalls, Failed, Answers;
  }

  /** Every tool start is answered by exactly one later end: never more ends than starts, and none open outside the tool round. */
  lemma {:induction false} ToolsBracketed(prompts: seq<Message>, history: seq<Entry>, id: string)
    requires WellFormed(prompts, history)
    ensures var m := Watch(Start(prompts), history);
      && ToolStarts(history, id) == ToolEnds(history, id) + m.open[id]
      && (m.phase != Tools ==> ToolStarts(history, id) == ToolEnds(history, id))
    decreases |history|
  {
    hide ObservePoll, ObserveEvent;
    WatchSane(prompts, history);
    if history != [] {
      var before := history[..|history| - 1];
      ToolsBracketed(prompts, before, id);
      WatchSane(prompts, before);
      ToolStep(Watch(Start(prompts), before), history[|history| - 1], id);
    }
  }

  predicate InTurn(phase: Phase) {
    phase.Injecting? || phase.InjectOpen? || phase.AssistantOpen? || phase.Tools? || phase.ResultOpen?
  }

  lemma TurnStep(m: Monitor, e: Entry)
    requires m.Monitor? && Observe(m, e).Monitor?
    ensures TurnOf(e) == [] || TurnOf(e) == [!InTurn(m.phase)]
    ensures InTurn(Observe(m, e).phase) == if TurnOf(e) == [] then InTurn(m.phase) else TurnOf(e)[0]
  {}

  predicate Alternates(turns: seq<bool>, inTurn: bool) {
    && (forall i | 0 <= i < |turns| :: turns[i] <==> i % 2 == 0)
    && (|turns| % 2 == 1 <==> inTurn)
  }

  lemma AlternatesStep(turns: seq<bool>, inTurn: bool, more: seq<bool>, inTurn': bool)
    requires Alternates(turns, inTurn) && (more == [] || more == [!inTurn])
    requires inTurn' == if more == [] then inTurn else more[0]
    ensures Alternates(turns + more, inTurn')
  {
    if more == [] { assert turns + more == turns; }
  }

  /** turn_start and turn_end alternate, and a complete run has closed its last turn. */
  lemma {:induction false} TurnsAlternate(prompts: seq<Message>, history: seq<Entry>)
    requires WellFormed(prompts, history)
    ensures Alternates(Turns(history), InTurn(Watch(Start(prompts), history).phase))
    decreases |history|
  {
    hide ObservePoll, ObserveEvent;
    if history != [] {
      var before, last := history[..|history| - 1], history[|history| - 1];
      TurnsAlternate(prompts, before);
      TurnStep(Watch(Start(prompts), before), last);
      AlternatesStep(Turns(before), InTurn(Watch(Start(prompts), before).phase), TurnOf(last),
                     InTurn(Watch(Start(prompts), history).phase));
    }
  }

  lemma RunStep(m: Monitor, e: Entry)
    requires m.Monitor? && Observe(m, e).Monitor?
    ensures Observe(m, e).phase != NotStarted && m.phase != RunEnded
    ensures m.phase == NotStarted <==> e == Emitted(AgentStart)
    ensures Observe(m, e).phase == RunEnded <==> IsAgentEnd(e)
    ensures IsAgentEnd(e) ==> e.event.messages == m.transcript
  {}

  /** agent_start comes first and only first, agent_end comes last or not at all. */
  predicate Bracketed(history: seq<Entry>) {
    forall i | 0 <= i < |history| ::
      && (history[i] == Emitted(AgentStart) <==> i == 0)
      && (IsAgentEnd(history[i]) ==> i == |history| - 1)
  }

  predicate IsAgentEnd(e: Entry) {
    e.Emitted? && e.event.AgentEnd?
  }

  lemma {:induction false} RunBracketed(prompts: seq<Message>, history: seq<Entry>)
    requires WellFormed(prompts, history)
    ensures Bracketed(history)
    ensures Watch(Start(prompts), history).phase == NotStarted <==> history == []
    ensures Complete(prompts, history) <==> history != [] && IsAgentEnd(history[|history| - 1])
    decreases |history|
  {
    hide ObservePoll, ObserveEvent;
    if history != [] {
      var before, last := history[..|history| - 1], history[|history| - 1];
      RunStep(Watch(Start(prompts), before), last);
      RunBracketed(prompts, before);
      BracketedStep(before, last);
      assert before + [last] == history;
    }
  }

  /** The monitor keeps the turns of a history as they ended. */
  lemma {:induction false} TurnsAreLogged(prompts: seq<Message>, history: seq<Entry>)
    requires WellFormed(prompts, history)
    ensures Watch(Start(prompts), history).turns == TurnEnds(history)
    decreases |history|
  {
    hide ObservePoll, ObserveEvent, Injected, Batches, MessageEnds;
    if history != [] {
      var before := history[..|history| - 1];
      TurnsAreLogged(prompts, before);
      InjectedExactlyOnce(prompts, before);
      TurnLogged(Watch(Start(prompts), before), history[|history| - 1]);
    }
  }

  lemma TurnLogged(m: Monitor, e: Entry)
    requires m.Monitor? && Observe(m, e).Monitor?
    ensures Observe(m, e).turns == m.turns + TurnEndOf(e, |m.transcript|)
  {
    assert m.turns + [] == m.turns;
  }

  /** The payload of agent_end is the run's transcript. */
  lemma AgentEndReports(prompts: seq<Message>, history: seq<Entry>)
    requires Complete(prompts, history)
    ensures history != [] && history[|history| - 1] == Emitted(AgentEnd(MessageEnds(history)))
  {
    hide ObservePoll, ObserveEvent, Injected, Batches, Bracketed;
    RunBracketed(prompts, history);
    var before, last := history[..|history| - 1], history[|history| - 1];
    InjectedExactlyOnce(prompts, before);
    RunStep(Watch(Start(prompts), before), last);
    hide Observe;
    assert MessageEnds(history) == MessageEnds(before) + EndOf(last);
  }

  lemma BracketedStep(before: seq<Entry>, last: Entry)
    requires Bracketed(before) && (before == [] <==> last == Emitted(AgentStart))
    requires before != [] ==> !IsAgentEnd(before[|before| - 1])
    ensures Bracketed(before + [last])
  {}

  /** A follow-up poll directly follows a steering poll that returned nothing, and no tool round remains. */
  lemma FollowUpsLast(prompts: seq<Message>, history: seq<Entry>, i: nat)
    requires WellFormed(prompts, history) && i < |history| && history[i].Polled? && history[i].poll.source == FollowUp
    ensures i > 0 && history[i - 1].Polled? && history[i - 1].poll.source == Steering && history[i - 1].poll.batch == []
    ensures WellFormed(prompts, history[..i]) && !MoreTools(Watch(Start(prompts), history[..i]))
  {
    WellFormedPrefix(prompts, history, i + 1);
    WellFormedPrefix(prompts, history, i);
    assert history[..i + 1][..i] == history[..i];
    if i > 0 { assert history[..i][..i - 1] == history[..i - 1]; }
  }

  // ----- the reducer of the Agent -----

  datatype Reduced = Reduced(messages: seq<Message>, streaming: bool, pendingToolCalls: set<string>)

  /** `processEvents` of the Agent. */
  function Reduce(s: Reduced, event: Event): Reduced {
    match event
    case MessageStart(_) => s.(streaming := true)
    case MessageUpdate(_) => s.(streaming := true)
    case MessageEnd(message) => s.(streaming := false, messages := s.messages + [message])
    case ToolStart(call) => s.(pendingToolCalls := s.pendingToolCalls + {call.id})
    case ToolEnd(call, _, _) => s.(pendingToolCalls := s.pendingToolCalls - {call.id})
    case AgentEnd(_) => s.(streaming := false)
    case _ => s
  }

  function ReduceEntry(s: Reduced, e: Entry): Reduced {
    if e.Emitted? then Reduce(s, e.event) else s
  }

  function Replay(s: Reduced, history: seq<Entry>): Reduced {
    if history == [] then s else ReduceEntry(Replay(s, history[..|history| - 1]), history[|history| - 1])
  }

  predicate MessageIsOpen(phase: Phase) {
    phase.InjectOpen? || phase.AssistantOpen? || phase.ResultOpen?
  }

  /** The reducer and the monitor agree on what is going on. */
  predicate Agree(r: Reduced, m: Monitor) {
    m.Monitor? && r.streaming == MessageIsOpen(m.phase) && (forall id | id in r.pendingToolCalls :: id in m.open)
  }

  lemma ReduceStep(r: Reduced, m: Monitor, e: Entry)
    requires Agree(r, m) && Observe(m, e).Monitor?
    ensures Agree(ReduceEntry(r, e), Observe(m, e)) && ReduceEntry(r, e).messages == r.messages + EndOf(e)
  {
    ReduceStreaming(r, m, e);
    ReducePending(r, m, e);
  }

  lemma ReduceStreaming(r: Reduced, m: Monitor, e: Entry)
    requires m.Monitor? && r.streaming == MessageIsOpen(m.phase) && Observe(m, e).Monitor?
    ensures ReduceEntry(r, e).streaming == MessageIsOpen(Observe(m, e).phase)
  {}

  /** What an entry does to the open calls. */
  lemma OpenAfter(m: Monitor, e: Entry)
    requires m.Monitor? && Observe(m, e).Monitor?
    ensures Observe(m, e).open == if e.Emitted? && e.event.ToolStart? then m.open + multiset{e.event.call.id}
                                  else if e.Emitted? && e.event.ToolEnd? then m.open - multiset{e.event.call.id}
                                  else m.open
  {
    hide Unanimous, ToolCalls, Failed, Answers;
  }

  lemma PendingAfter(r: Reduced, e: Entry)
    ensures ReduceEntry(r, e).pendingToolCalls
            == if e.Emitted? && e.event.ToolStart? then r.pendingToolCalls + {e.event.call.id}
               else if e.Emitted? && e.event.ToolEnd? then r.pendingToolCalls - {e.event.call.id}
               else r.pendingToolCalls
  {}

  lemma ReducePending(r: Reduced, m: Monitor, e: Entry)
    requires m.Monitor? && (forall id | id in r.pendingToolCalls :: id in m.open) && Observe(m, e).Monitor?
    ensures forall id | id in ReduceEntry(r, e).pendingToolCalls :: id in Observe(m, e).open
  {
    hide Observe, ReduceEntry;
    OpenAfter(m, e);
    PendingAfter(r, e);
  }

  lemma ReduceExactly(r: Reduced, m: Monitor, e: Entry)
    requires m.Monitor? && Observe(m, e).Monitor?
    requires forall id | id in m.open :: id in r.pendingToolCalls && m.open[id] == 1
    requires forall id: string :: Observe(m, e).open[id] <= 1
    ensures forall id | id in Observe(m, e).open :: id in ReduceEntry(r, e).pendingToolCalls
  {
    hide Observe, ReduceEntry;
    OpenAfter(m, e);
    PendingAfter(r, e);
  }

  /**
   Replaying a well-formed history onto an idle agent appends exactly its ended messages; a message is streaming
   exactly while one is open; the pending tool calls are among the open ones, so none is left outside a tool round.
   */
  lemma {:induction false} ReplayAppends(prompts: seq<Message>, history: seq<Entry>, messages: seq<Message>)
    requires WellFormed(prompts, history)
    ensures var r := Replay(Reduced(messages, false, {}), history); var m := Watch(Start(prompts), history);
      && r.messages == messages + MessageEnds(history)
      && Agree(r, m)
      && (m.phase != Tools ==> r.pendingToolCalls == {})
    decreases |history|
  {
    hide ObservePoll, ObserveEvent;
    WatchSane(prompts, history);
    if history != [] {
      var before := history[..|history| - 1];
      ReplayAppends(prompts, before, messages);
      ReduceStep(Replay(Reduced(messages, false, {}), before), Watch(Start(prompts), before), history[|history| - 1]);
    }
  }

  /** No two calls with one id are ever open together. */
  ghost predicate DistinctlyOpen(prompts: seq<Message>, history: seq<Entry>) {
    forall n: nat, id: string | n <= |history| && Watch(Start(prompts), history[..n]).Monitor? ::
      Watch(Start(prompts), history[..n]).open[id] <= 1
  }

  /** With distinct ids, the pending set is exactly the set of open calls. */
  lemma {:induction false} PendingExact(prompts: seq<Message>, history: seq<Entry>, messages: seq<Message>)
    requires WellFormed(prompts, history) && DistinctlyOpen(prompts, history)
    ensures forall id :: id in Replay(Reduced(messages, false, {}), history).pendingToolCalls
                         <==> id in Watch(Start(prompts), history).open
    decreases |history|
  {
    hide ObservePoll, ObserveEvent;
    ReplayAppends(prompts, history, messages);
    if history != [] {
      var before := history[..|history| - 1];
      assert DistinctlyOpen(prompts, before) by {
        forall n: nat, id: string | n <= |before| && Watch(Start(prompts), before[..n]).Monitor?
          ensures Watch(Start(prompts), before[..n]).open[id] <= 1
        {
          assert before[..n] == history[..n];
        }
      }
      PendingExact(prompts, before, messages);
      ReplayAppends(prompts, before, messages);
      assert history[..|history|] == history && before[..|before|] == before;
      forall id: string ensures Watch(Start(prompts), history).open[id] <= 1 && Watch(Start(prompts), before).open[id] <= 1 {
        assert Watch(Start(prompts), history[..|history|]).open[id] <= 1;
        assert Watch(Start(prompts), before[..|before|]).open[id] <= 1;
      }
      ReduceExactly(Replay(Reduced(messages, false, {}), before), Watch(Start(prompts), before), history[|history| - 1]);
    }
  }

  /** One more entry. */
  lemma Extends(history: seq<Entry>, e: Entry, prompts: seq<Message>, s: Reduced)
    ensures Watch(Start(prompts), history + [e]) == Observe(Watch(Start(prompts), history), e)
    ensures Replay(s, history + [e]) == ReduceEntry(Replay(s, history), e)
    ensures PollsOf(history + [e]) == PollsOf(history) + PollOf(e)
    ensures forall source ::
              BatchesOf(history + [e], source) == BatchesOf(history, source) + (if e.Polled? && e.poll.source == source then e.poll.batch else [])
  {
    hide ObservePoll, ObserveEvent;
    assert (history + [e])[..|history + [e]| - 1] == history;
  }

  /** An emitted event is no poll. */
  lemma EmittedExtends(history: seq<Entry>, event: Event, prompts: seq<Message>, s: Reduced)
    ensures var longer := history + [Emitted(event)];
      && Watch(Start(prompts), longer) == Observe(Watch(Start(prompts), history), Emitted(event))
      && Replay(s, longer) == Reduce(Replay(s, history), event)
      && PollsOf(longer) == PollsOf(history)
      && BatchesOf(longer, Steering) == BatchesOf(history, Steering)
      && BatchesOf(longer, FollowUp) == BatchesOf(history, FollowUp)
  {
    hide ObservePoll, ObserveEvent, Reduce;
    Extends(history, Emitted(event), prompts, s);
  }

  lemma PolledBatches(before: seq<Message>, history: seq<Entry>, poll: Poll, target: Source)
    ensures before + BatchesOf(history + [Polled(poll)], target)
         == before + BatchesOf(history, target) + (if poll.source == target then poll.batch else [])
  {
    hide ObservePoll, ObserveEvent;
    Extends(history, Polled(poll), [], Reduced([], false, {}));
    var more := if poll.source == target then poll.batch else [];
    assert before + BatchesOf(history, target) + more == before + (BatchesOf(history, target) + more);
  }
}
