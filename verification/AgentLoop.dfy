/**
 The agent loop (packages/agent/src/agent-loop.ts) and the stateful Agent around it (packages/agent/src/agent.ts).

 The model, the tools, the hooks and the outside callers are a `Script`: what each of them does when the loop next
 waits for it.  A script is finite; a run that needs more of it is still in progress when it ends.  The theorems hold
 for every script, so for every run.
 */
module AgentLoop {
  import opened AgentEvents
  import opened Options

  datatype QueueMode = All | OneAtATime

  /** What a queue gives up at once. */
  function DueFrom(mode: QueueMode, queued: seq<Message>): seq<Message> {
    if mode == All || queued == [] then queued else [queued[0]]
  }

  /** `enqueued` and `taken` are the queue's history since it was last cleared. */
  class PendingMessageQueue {
    var messages: seq<Message>
    var mode: QueueMode
    ghost var enqueued: seq<Message>
    ghost var taken: seq<Message>

    ghost predicate Valid()
      reads this
    {
      enqueued == taken + messages
    }

    constructor (mode: QueueMode)
      ensures Valid() && this.mode == mode && messages == [] && taken == [] && enqueued == []
    {
      this.mode, messages, enqueued, taken := mode, [], [], [];
    }

    method Enqueue(message: Message)
      requires Valid()
      modifies this
      ensures Valid() && mode == old(mode)
      ensures messages == old(messages) + [message] && enqueued == old(enqueued) + [message] && taken == old(taken)
    {
      messages := messages + [message];
      enqueued := enqueued + [message];
    }

    method HasItems() returns (has: bool)
      ensures has <==> messages != []
    {
      has := |messages| > 0;
    }

    method Drain() returns (drained: seq<Message>)
      requires Valid()
      modifies this
      ensures Valid() && mode == old(mode) && enqueued == old(enqueued)
      ensures old(messages) == drained + messages && taken == old(taken) + drained
      ensures drained == DueFrom(mode, old(messages))
    {
      if mode == All {
        drained := messages;
        messages := [];
      } else if messages == [] {
        drained := [];
      } else {
        drained := [messages[0]];
        messages := messages[1..];
      }
      taken := taken + drained;
    }

    method Clear()
      modifies this
      ensures Valid() && mode == old(mode) && messages == []
    {
      messages, enqueued, taken := [], [], [];
    }
  }

  // ----- what the outside does -----

  datatype StreamEvent = Begin(partial: Message) | Update(partial: Message)

  datatype BeforeHook = NoHook | Allow | Block(reason: string) | HookThrows(error: string)

  /** What `prepareToolCall` finds out. */
  datatype Preparation = Preparation(known: bool, argumentsError: Option<string>, before: BeforeHook, aborted: bool)

  datatype Outcome = Returns(result: AgentToolResult) | Throws(error: string)

  datatype AfterHook =
    | NoAfter
    | Override(output: Option<string>, terminate: Option<bool>, isError: Option<bool>)
    | AfterThrows(error: string)

  /** One tool call: `reports` arrive before the tool settles, `lateReports` after; `aborted` is what the signal then says. */
  datatype ToolScript = ToolScript(
    preparation: Preparation, reports: seq<string>, outcome: Outcome, lateReports: seq<string>, after: AfterHook, aborted: bool)

  /** A step of the concurrent tools: a progress report, a tool that settles, or the end of its after-hook. */
  datatype ToolStep = Report(index: nat, partial: string) | Settle(index: nat) | Finish(index: nat)

  datatype Arrivals = Arrivals(steered: seq<Message>, followUps: seq<Message>)

  datatype Turn = Turn(
    stream: seq<StreamEvent>, content: seq<Block>, stopReason: StopReason,
    sequential: bool, tools: seq<ToolScript>, schedule: seq<ToolStep>,
    replacement: Option<seq<Message>>, stop: bool, arrivals: Arrivals, lateArrivals: Arrivals)

  datatype Script = Script(arrivals: Arrivals, turns: seq<Turn>)

  const NOBODY := Arrivals([], [])

  function SteeringPolls(polls: seq<Poll>): nat {
    if polls == [] then 0
    else SteeringPolls(polls[..|polls| - 1]) + if polls[|polls| - 1].source == Steering then 1 else 0
  }

  /** What others queue before a poll of `source` that `n` steering polls have preceded: one before the first turn, one after each. */
  function ArrivalsAt(script: Script, n: nat, source: Source): Arrivals {
    match source
    case Steering =>
      if n == 0 then script.arrivals else if n <= |script.turns| then script.turns[n - 1].arrivals else NOBODY
    case FollowUp =>
      if 2 <= n < |script.turns| + 2 then script.turns[n - 2].lateArrivals else NOBODY
  }

  function Addressed(arrivals: Arrivals, queue: Source): seq<Message> {
    match queue
    case Steering => arrivals.steered
    case FollowUp => arrivals.followUps
  }

  /** Everything queued from outside in a run that polled as `polls` says. */
  function Arrived(script: Script, polls: seq<Poll>, queue: Source): seq<Message> {
    if polls == [] then []
    else
      var before := polls[..|polls| - 1];
      Arrived(script, before, queue)
      + Addressed(ArrivalsAt(script, SteeringPolls(before), polls[|polls| - 1].source), queue)
  }

  /** After `polls`, `n` of them of the steering queue, both queues have received what the script sends and no more. */
  ghost predicate Received(script: Script, polls: seq<Poll>, n: nat,
                           steered0: seq<Message>, followUps0: seq<Message>,
                           steered: seq<Message>, followUps: seq<Message>) {
    && SteeringPolls(polls) == n
    && steered == steered0 + Arrived(script, polls, Steering)
    && followUps == followUps0 + Arrived(script, polls, FollowUp)
  }

  lemma NothingReceived(script: Script, steered: seq<Message>, followUps: seq<Message>)
    ensures Received(script, [], 0, steered, followUps, steered, followUps)
  {}

  lemma ArrivedMore(script: Script, polls: seq<Poll>, poll: Poll, queue: Source, before: seq<Message>)
    ensures before + Arrived(script, polls + [poll], queue)
            == (before + Arrived(script, polls, queue)) + Addressed(ArrivalsAt(script, SteeringPolls(polls), poll.source), queue)
    ensures SteeringPolls(polls + [poll]) == SteeringPolls(polls) + if poll.source == Steering then 1 else 0
  {
    hide ArrivalsAt, Addressed;
    assert (polls + [poll])[..|polls + [poll]| - 1] == polls;
    var more := Addressed(ArrivalsAt(script, SteeringPolls(polls), poll.source), queue);
    assert (before + Arrived(script, polls, queue)) + more == before + (Arrived(script, polls, queue) + more);
  }

  lemma ReceivesMore(script: Script, polls: seq<Poll>, n: nat, steered0: seq<Message>, followUps0: seq<Message>,
                     steered: seq<Message>, followUps: seq<Message>, poll: Poll, arrivals: Arrivals)
    requires Received(script, polls, n, steered0, followUps0, steered, followUps)
    requires arrivals == ArrivalsAt(script, n, poll.source)
    ensures Received(script, polls + [poll], if poll.source == Steering then n + 1 else n, steered0, followUps0,
                     steered + arrivals.steered, followUps + arrivals.followUps)
  {
    hide ArrivalsAt, SteeringPolls, Arrived;
    ArrivedMore(script, polls, poll, Steering, steered0);
    ArrivedMore(script, polls, poll, FollowUp, followUps0);
  }

  /** A run begins with a steering poll, which takes nothing if it is to be skipped. */
  predicate BeginsWithPoll(polls: seq<Poll>, skip: bool) {
    polls != [] && polls[0].source == Steering && (if skip then polls[0].batch == [] else TakesIfAny(polls[0]))
  }

  predicate TakesIfAny(poll: Poll) {
    poll.batch == [] <==> poll.queued == []
  }

  /** Every poll takes what is due from what is queued; only the first may be skipped. */
  predicate InMode(polls: seq<Poll>, steering: QueueMode, followUp: QueueMode) {
    forall i | 0 <= i < |polls| :: Fits(polls[i], steering, followUp) || (i == 0 && polls[i].batch == [])
  }

  predicate Fits(poll: Poll, steering: QueueMode, followUp: QueueMode) {
    poll.batch == DueFrom(if poll.source == Steering then steering else followUp, poll.queued)
  }

  /** One more poll, of this queue, that took this batch. */
  predicate OnePoll(before: seq<Poll>, after: seq<Poll>, source: Source, batch: seq<Message>) {
    && |after| == |before| + 1 && after[..|before|] == before
    && after[|before|].source == source && after[|before|].batch == batch
  }

  lemma OneMoreInMode(polls: seq<Poll>, poll: Poll, steering: QueueMode, followUp: QueueMode)
    requires InMode(polls, steering, followUp) && (Fits(poll, steering, followUp) || (polls == [] && poll.batch == []))
    ensures InMode(polls + [poll], steering, followUp)
  {
    hide Fits;
  }

  /** What was queued, then what arrived, is what was taken, then what is queued now: nothing lost, repeated or reordered. */
  predicate QueueKept(before: seq<Message>, arrived: seq<Message>, taken: seq<Message>, after: seq<Message>) {
    before + arrived == taken + after
  }

  lemma Conserved(taken0: seq<Message>, before: seq<Message>, arrived: seq<Message>, taken: seq<Message>, after: seq<Message>)
    requires (taken0 + before) + arrived == (taken0 + taken) + after
    ensures QueueKept(before, arrived, taken, after)
  {
    assert ((taken0 + before) + arrived)[|taken0|..] == before + arrived;
    assert ((taken0 + taken) + after)[|taken0|..] == taken + after;
  }

  lemma KeptFromFront(taken: seq<Message>, rest: seq<Message>, arrived: seq<Message>, batches: seq<Message>, after: seq<Message>)
    requires QueueKept(rest, arrived, batches, after)
    ensures QueueKept(taken + rest, arrived, taken + batches, after)
  {
    assert (taken + rest) + arrived == taken + (rest + arrived);
    assert (taken + batches) + after == taken + (batches + after);
  }

  /** The streams' contract: at most one start event, and partial messages are assistant messages. */
  predicate KeepsProtocol(stream: seq<StreamEvent>) {
    && (forall i, j | 0 <= i < j < |stream| && stream[i].Begin? :: !stream[j].Begin?)
    && (forall i | 0 <= i < |stream| :: stream[i].partial.Assistant?)
  }

  const UnknownTool := ToolScript(Preparation(false, None, NoHook, false), [], Throws(""), [], NoAfter, false)

  function ScriptOf(tools: seq<ToolScript>, i: nat): ToolScript {
    if i < |tools| then tools[i] else UnknownTool
  }

  // ----- pure helpers of the loop -----

  datatype Prepared = Prepared | Immediate(result: AgentToolResult, isError: bool)

  function ErrorResult(message: string): AgentToolResult {
    AgentToolResult(message, false)
  }

  /** Only a known tool with valid arguments that no hook blocks and no abort forestalls is ever executed. */
  predicate MayExecute(p: Preparation) {
    p.known && p.argumentsError.None? && !p.aborted && (p.before.NoHook? || p.before.Allow?)
  }

  /** Why a call is not executed: the first thing that went wrong. */
  predicate Refusal(call: ToolCall, p: Preparation, text: string) {
    && (!p.known ==> text == "Tool " + call.name + " not found")
    && (p.known ==>
          && (p.argumentsError.Some? ==> text == p.argumentsError.value)
          && (p.argumentsError.None? ==>
                && (p.before.HookThrows? ==> text == p.before.error)
                && (!p.before.HookThrows? && p.aborted ==> text == "Operation aborted")
                && (p.before.Block? && !p.aborted ==>
                      text == if p.before.reason == "" then "Tool execution was blocked" else p.before.reason)))
  }

  function PrepareToolCall(call: ToolCall, p: Preparation): (r: Prepared)
    ensures r.Prepared? <==> MayExecute(p)
    ensures r.Immediate? ==> r.isError && !r.result.terminate && Refusal(call, p, r.result.output)
  {
    if !p.known then Immediate(ErrorResult("Tool " + call.name + " not found"), true)
    else if p.argumentsError.Some? then Immediate(ErrorResult(p.argumentsError.value), true)
    else if p.before.HookThrows? then Immediate(ErrorResult(p.before.error), true)
    else if p.aborted then Immediate(ErrorResult("Operation aborted"), true)
    else if p.before.Block? then
      Immediate(ErrorResult(if p.before.reason == "" then "Tool execution was blocked" else p.before.reason), true)
    else Prepared
  }

  datatype Finalized = Finalized(call: ToolCall, result: AgentToolResult, isError: bool)

  function GetOr<T>(o: Option<T>, default: T): T {
    if o.Some? then o.value else default
  }

  /** `executePreparedToolCall` and `finalizeExecutedToolCall`, without their events. */
  function FinalizeToolCall(call: ToolCall, outcome: Outcome, after: AfterHook): (f: Finalized)
    ensures f.call == call
  {
    var result := if outcome.Returns? then outcome.result else ErrorResult(outcome.error);
    match after
    case NoAfter => Finalized(call, result, outcome.Throws?)
    case AfterThrows(error) => Finalized(call, ErrorResult(error), true)
    case Override(output, terminate, isError) =>
      Finalized(call, AgentToolResult(GetOr(output, result.output), GetOr(terminate, result.terminate)),
                GetOr(isError, outcome.Throws?))
  }

  /** What a call's result says: the hook's word where it has one, else what the tool returned or the error it threw. */
  predicate Reports(output: string, isError: bool, terminate: bool, call: ToolCall, script: ToolScript) {
    if !MayExecute(script.preparation) then isError && !terminate && Refusal(call, script.preparation, output)
    else if script.after.AfterThrows? then isError && !terminate && output == script.after.error
    else
      && (output == if script.after.Override? && script.after.output.Some? then script.after.output.value
                    else if script.outcome.Throws? then script.outcome.error else script.outcome.result.output)
      && (isError <==> if script.after.Override? && script.after.isError.Some? then script.after.isError.value
                       else script.outcome.Throws?)
      && (terminate <==> if script.after.Override? && script.after.terminate.Some? then script.after.terminate.value
                         else script.outcome.Returns? && script.outcome.result.terminate)
  }

  /** The call asks for the run to end. */
  ghost predicate AsksToEnd(call: ToolCall, script: ToolScript) {
    exists output, isError :: Reports(output, isError, true, call, script)
  }

  /** A result message for `call` that says what became of it. */
  ghost predicate Tells(result: Message, call: ToolCall, script: ToolScript) {
    Answers(result, call) && exists terminate :: Reports(result.output, result.isError, terminate, call, script)
  }

  function ToolResultMessage(f: Finalized): (r: Message)
    ensures Answers(r, f.call)
  {
    ToolResult(f.call.id, f.call.name, f.result.output, f.isError)
  }

  function ResultMessages(fs: seq<Finalized>): (rs: seq<Message>)
    ensures |rs| == |fs| && forall i | 0 <= i < |fs| :: rs[i] == ToolResultMessage(fs[i])
  {
    seq(|fs|, i requires 0 <= i < |fs| => ToolResultMessage(fs[i]))
  }

  predicate ShouldTerminate(fs: seq<Finalized>) {
    fs != [] && forall i | 0 <= i < |fs| :: fs[i].result.terminate
  }

  // ----- the agent -----

  /**
   `history`, `polls`, `monitor`, `prompts`, `base`, `executed` and the two `...Before` fields record the current run:
   what was emitted and polled, the messages it began with, the transcript it found, the tools it executed.
   */
  class Agent {
    var messages: seq<Message>
    var streaming: bool
    var pendingToolCalls: set<string>
    var running: bool
    const steeringQueue: PendingMessageQueue
    const followUpQueue: PendingMessageQueue

    ghost var history: seq<Entry>
    ghost var polls: seq<Poll>
    ghost var monitor: Monitor
    ghost var prompts: seq<Message>
    ghost var base: seq<Message>
    ghost var executed: seq<ToolCall>
    ghost var steeredBefore: seq<Message>
    ghost var followedBefore: seq<Message>

    ghost predicate Valid()
      reads this, steeringQueue, followUpQueue
    {
      && steeringQueue != followUpQueue
      && steeringQueue.Valid() && followUpQueue.Valid()
      && monitor == Watch(Start(prompts), history)
      && polls == PollsOf(history)
      && (running ==> InMode(polls, steeringQueue.mode, followUpQueue.mode))
      && (running ==> Replay(Reduced(base, false, {}), history) == Reduced(messages, streaming, pendingToolCalls))
      && (running ==> steeringQueue.taken == steeredBefore + BatchesOf(history, Steering))
      && (running ==> followUpQueue.taken == followedBefore + BatchesOf(history, FollowUp))
      && (!running ==> !streaming && pendingToolCalls == {})
    }

    constructor (messages: seq<Message>, steeringMode: QueueMode, followUpMode: QueueMode)
      ensures Valid() && !running && this.messages == messages
      ensures steeringQueue.messages == [] && followUpQueue.messages == []
      ensures fresh(steeringQueue) && fresh(followUpQueue)
    {
      this.messages, streaming, pendingToolCalls, running := messages, false, {}, false;
      history, polls, monitor, prompts, base, executed := [], [], Start([]), [], [], [];
      steeredBefore, followedBefore := [], [];
      var sq := new PendingMessageQueue(steeringMode);
      var fq := new PendingMessageQueue(followUpMode);
      steeringQueue, followUpQueue := sq, fq;
    }

    function View(): Reduced
      reads this
    {
      Reduced(messages, streaming, pendingToolCalls)
    }

    twostate predicate ModesKept()
      reads steeringQueue, followUpQueue
    {
      steeringQueue.mode == old(steeringQueue.mode) && followUpQueue.mode == old(followUpQueue.mode)
    }

    /** The reducer of agent.ts. */
    method ReduceInPlace(event: Event)
      modifies this`messages, this`streaming, this`pendingToolCalls
      ensures View() == Reduce(old(View()), event)
    {
      match event
      case MessageStart(_) => streaming := true;
      case MessageUpdate(_) => streaming := true;
      case MessageEnd(message) =>
        streaming := false;
        messages := messages + [message];
      case ToolStart(call) => pendingToolCalls := pendingToolCalls + {call.id};
      case ToolEnd(call, _, _) => pendingToolCalls := pendingToolCalls - {call.id};
      case AgentEnd(_) => streaming := false;
      case _ =>
    }

    /** `processEvents`: reduce, then tell the listeners. */
    method ProcessEvent(event: Event)
      requires Valid() && running
      modifies this`messages, this`streaming, this`pendingToolCalls, this`history, this`monitor
      ensures Valid()
      ensures history == old(history) + [Emitted(event)] && monitor == Observe(old(monitor), Emitted(event))
    {
      hide Watch, Replay, BatchesOf, PollsOf, Observe, Reduce, InMode;
      EmittedExtends(history, event, prompts, Reduced(base, false, {}));
      ReduceInPlace(event);
      history := history + [Emitted(event)];
      monitor := Observe(monitor, Emitted(event));
    }

    /** `steer` and `followUp`, as called by others while the loop waits. */
    method Arrive(arrivals: Arrivals)
      requires Valid()
      modifies steeringQueue, followUpQueue
      ensures Valid() && ModesKept()
      ensures steeringQueue.messages == old(steeringQueue.messages) + arrivals.steered
      ensures followUpQueue.messages == old(followUpQueue.messages) + arrivals.followUps
      ensures steeringQueue.taken == old(steeringQueue.taken) && followUpQueue.taken == old(followUpQueue.taken)
      ensures steeringQueue.enqueued == old(steeringQueue.enqueued) + arrivals.steered
      ensures followUpQueue.enqueued == old(followUpQueue.enqueued) + arrivals.followUps
    {
      for i := 0 to |arrivals.steered|
        invariant Valid() && ModesKept()
        invariant steeringQueue.messages == old(steeringQueue.messages) + arrivals.steered[..i]
        invariant steeringQueue.taken == old(steeringQueue.taken) && unchanged(followUpQueue)
        invariant steeringQueue.enqueued == old(steeringQueue.enqueued) + arrivals.steered[..i]
      {
        steeringQueue.Enqueue(arrivals.steered[i]);
      }
      for i := 0 to |arrivals.followUps|
        invariant Valid() && ModesKept()
        invariant steeringQueue.messages == old(steeringQueue.messages) + arrivals.steered
        invariant followUpQueue.messages == old(followUpQueue.messages) + arrivals.followUps[..i]
        invariant steeringQueue.taken == old(steeringQueue.taken) && followUpQueue.taken == old(followUpQueue.taken)
        invariant steeringQueue.enqueued == old(steeringQueue.enqueued) + arrivals.steered
        invariant followUpQueue.enqueued == old(followUpQueue.enqueued) + arrivals.followUps[..i]
      {
        followUpQueue.Enqueue(arrivals.followUps[i]);
      }
    }

    ghost method RecordExecuted(calls: seq<ToolCall>)
      requires Valid()
      modifies this`executed
      ensures Valid() && executed == old(executed) + calls
    {
      executed := executed + calls;
    }

    /** The record of a poll, made right after the queue was drained. */
    ghost method RecordPoll(poll: Poll)
      requires running && steeringQueue != followUpQueue && steeringQueue.Valid() && followUpQueue.Valid()
      requires monitor == Watch(Start(prompts), history) && Replay(Reduced(base, false, {}), history) == View()
      requires polls == PollsOf(history) && InMode(polls, steeringQueue.mode, followUpQueue.mode)
      requires Fits(poll, steeringQueue.mode, followUpQueue.mode) || (polls == [] && poll.batch == [])
      requires steeringQueue.taken ==
               steeredBefore + BatchesOf(history, Steering) + (if poll.source == Steering then poll.batch else [])
      requires followUpQueue.taken ==
               followedBefore + BatchesOf(history, FollowUp) + (if poll.source == FollowUp then poll.batch else [])
      modifies this`history, this`polls, this`monitor
      ensures Valid() && polls == old(polls) + [poll]
      ensures history == old(history) + [Polled(poll)] && monitor == Observe(old(monitor), Polled(poll))
    {
      Extends(history, Polled(poll), prompts, Reduced(base, false, {}));
      PolledBatches(steeredBefore, history, poll, Steering);
      PolledBatches(followedBefore, history, poll, FollowUp);
      OneMoreInMode(polls, poll, steeringQueue.mode, followUpQueue.mode);
      hide Watch, Replay, BatchesOf, PollsOf, Observe, InMode;
      history, polls := history + [Polled(poll)], polls + [poll];
      monitor := Observe(monitor, Polled(poll));
    }

    /** `getSteeringMessages`; only the first poll of a run, begun from drained steering messages, may be skipped. */
    method PollSteering(skip: bool) returns (batch: seq<Message>)
      requires Valid() && running && (skip ==> polls == [])
      modifies this`history, this`polls, this`monitor, steeringQueue
      ensures Valid() && polls == old(polls) + [Poll(Steering, batch, old(steeringQueue.messages))]
      ensures monitor == Observe(old(monitor), Polled(Poll(Steering, batch, old(steeringQueue.messages))))
      ensures steeringQueue.mode == old(steeringQueue.mode) && steeringQueue.enqueued == old(steeringQueue.enqueued)
      ensures old(steeringQueue.messages) == batch + steeringQueue.messages
      ensures batch == if skip then [] else DueFrom(steeringQueue.mode, old(steeringQueue.messages))
    {
      ghost var queued := steeringQueue.messages;
      if skip { batch := []; } else { batch := steeringQueue.Drain(); }
      RecordPoll(Poll(Steering, batch, queued));
    }

    /** `getFollowUpMessages`. */
    method PollFollowUps() returns (batch: seq<Message>)
      requires Valid() && running
      modifies this`history, this`polls, this`monitor, followUpQueue
      ensures Valid() && polls == old(polls) + [Poll(FollowUp, batch, old(followUpQueue.messages))]
      ensures monitor == Observe(old(monitor), Polled(Poll(FollowUp, batch, old(followUpQueue.messages))))
      ensures followUpQueue.mode == old(followUpQueue.mode) && followUpQueue.enqueued == old(followUpQueue.enqueued)
      ensures old(followUpQueue.messages) == batch + followUpQueue.messages
      ensures batch == DueFrom(followUpQueue.mode, old(followUpQueue.messages))
    {
      ghost var queued := followUpQueue.messages;
      batch := followUpQueue.Drain();
      RecordPoll(Poll(FollowUp, batch, queued));
    }
  }

  // ----- the loop -----

  /** `currentContext`: what the model is shown. */
  class LoopContext {
    var messages: seq<Message>

    constructor (messages: seq<Message>)
      ensures this.messages == messages
    {
      this.messages := messages;
    }
  }

  /** The events of the stream before its end: each replaces the partial message at the context's tail. */
  method StreamPartials(agent: Agent, context: LoopContext, stream: seq<StreamEvent>) returns (addedPartial: bool)
    requires agent.Valid() && agent.running && KeepsProtocol(stream)
    requires agent.monitor.Monitor? && agent.monitor.phase == Injecting
    requires !agent.monitor.initialPoll && agent.monitor.owed == []
    modifies agent`messages, agent`streaming, agent`pendingToolCalls, agent`history, agent`monitor, context
    ensures agent.Valid()
    ensures agent.monitor == old(agent.monitor).(phase := if addedPartial then AssistantOpen else Injecting)
    ensures addedPartial <==> exists j :: 0 <= j < |stream| && stream[j].Begin?
    ensures context.messages
            == old(context.messages) + if addedPartial then [stream[|stream| - 1].partial] else []
  {
    hide Agent.Valid, Watch, Replay, BatchesOf, PollsOf;
    addedPartial := false;
    for i := 0 to |stream|
      invariant agent.Valid()
      invariant agent.monitor == old(agent.monitor).(phase := if addedPartial then AssistantOpen else Injecting)
      invariant addedPartial <==> exists j :: 0 <= j < i && stream[j].Begin?
      invariant context.messages == old(context.messages) + if addedPartial then [stream[i - 1].partial] else []
    {
      match stream[i]
      case Begin(partial) =>
        context.messages := context.messages + [partial];
        addedPartial := true;
        agent.ProcessEvent(MessageStart(partial));
      case Update(partial) =>
        if addedPartial {
          context.messages := context.messages[|context.messages| - 1 := partial];
          agent.ProcessEvent(MessageUpdate(partial));
        }
    }
  }

  method StreamAssistantResponse(agent: Agent, context: LoopContext, turn: Turn) returns (message: Message)
    requires agent.Valid() && agent.running && KeepsProtocol(turn.stream)
    requires agent.monitor.Monitor? && agent.monitor.phase == Injecting
    requires !agent.monitor.initialPoll && agent.monitor.owed == []
    modifies agent`messages, agent`streaming, agent`pendingToolCalls, agent`history, agent`monitor, context
    ensures agent.Valid()
    ensures message == Assistant(turn.content, turn.stopReason)
    ensures context.messages == old(context.messages) + [message]
    ensures agent.monitor == old(agent.monitor).(
              phase := Tools, assistant := message, transcript := old(agent.monitor.transcript) + [message],
              calls := if Failed(message) then [] else ToolCalls(turn.content))
  {
    hide Agent.Valid, Watch, Replay, BatchesOf, PollsOf;
    var addedPartial := StreamPartials(agent, context, turn.stream);
    message := Assistant(turn.content, turn.stopReason);
    if addedPartial {
      context.messages := context.messages[|context.messages| - 1 := message];
    } else {
      context.messages := context.messages + [message];
      agent.ProcessEvent(MessageStart(message));
    }
    agent.ProcessEvent(MessageEnd(message));
  }

  /** A tool round may begin for `calls`. */
  ghost predicate AwaitsTools(m: Monitor, calls: seq<ToolCall>) {
    m.Monitor? && m.phase == Tools && m.calls == calls && m.started == 0 && m.open == multiset{}
    && m.results == [] && m.verdicts == []
  }

  /** From `m0`, the calls `calls[..|verdicts|]` have started and ended and the first `|results|` have been answered. */
  function AfterTools(m0: Monitor, started: nat, results: seq<Message>, verdicts: seq<bool>, logged: set<Message>): Monitor
    requires m0.Monitor?
  {
    m0.(started := started, results := results, transcript := m0.transcript + results, verdicts := verdicts,
        logged := logged)
  }

  /** Results answer calls one to one, in source order. */
  predicate AnswersInOrder(results: seq<Message>, calls: seq<ToolCall>) {
    |results| <= |calls| && forall i | 0 <= i < |results| :: Answers(results[i], calls[i])
  }

  /** `results` is a batch after which the loop goes on unless `terminate`. */
  ghost predicate IsBatch(m0: Monitor, m: Monitor, calls: seq<ToolCall>, results: seq<Message>, terminate: bool) {
    && m0.Monitor? && m.Monitor?
    && m == AfterTools(m0, |results|, results, m.verdicts, m.logged)
    && AnswersInOrder(results, calls)
    && (calls != [] ==> results != [])
    && (terminate <==> Unanimous(m.verdicts))
  }

  method EmitToolExecutionEnd(agent: Agent, f: Finalized)
    requires agent.Valid() && agent.running
    requires agent.monitor.Monitor? && agent.monitor.phase == Tools && f.call.id in agent.monitor.open
    modifies agent`messages, agent`streaming, agent`pendingToolCalls, agent`history, agent`monitor
    ensures agent.Valid()
    ensures agent.monitor == old(agent.monitor).(
              open := old(agent.monitor.open) - multiset{f.call.id},
              verdicts := old(agent.monitor.verdicts) + [f.result.terminate],
              logged := old(agent.monitor.logged) + {ToolResultMessage(f)})
  {
    hide Agent.Valid, Watch, Replay, BatchesOf, PollsOf;
    agent.ProcessEvent(ToolEnd(f.call, f.result, f.isError));
  }

  method EmitToolResultMessage(agent: Agent, result: Message)
    requires agent.Valid() && agent.running
    requires agent.monitor.Monitor? && agent.monitor.phase == Tools && agent.monitor.open == multiset{}
    requires |agent.monitor.results| < agent.monitor.started && |agent.monitor.results| < |agent.monitor.calls|
    requires Answers(result, agent.monitor.calls[|agent.monitor.results|]) && result in agent.monitor.logged
    modifies agent`messages, agent`streaming, agent`pendingToolCalls, agent`history, agent`monitor
    ensures agent.Valid()
    ensures agent.monitor == old(agent.monitor).(
              results := old(agent.monitor.results) + [result], transcript := old(agent.monitor.transcript) + [result])
  {
    hide Agent.Valid, Watch, Replay, BatchesOf, PollsOf;
    agent.ProcessEvent(MessageStart(result));
    agent.ProcessEvent(MessageEnd(result));
  }

  /** One call, started, ended and answered. */
  function Answered(m: Monitor, result: Message, verdict: bool): Monitor
    requires m.Monitor?
  {
    m.(started := m.started + 1, results := m.results + [result], transcript := m.transcript + [result],
       verdicts := m.verdicts + [verdict], logged := m.logged + {result})
  }

  /** Between two calls of a sequential round. */
  ghost predicate BetweenCalls(m: Monitor, calls: seq<ToolCall>, i: nat) {
    m.Monitor? && m.phase == Tools && m.calls == calls && m.open == multiset{} && m.started == |m.results| == |m.verdicts| == i
  }

  function Truncated(call: ToolCall): string {
    "Tool call \"" + call.name + "\" was not executed: the response hit the output token limit, so its arguments may be "
    + "truncated. Re-issue the tool call with complete arguments."
  }

  method FailToolCall(agent: Agent, ghost calls: seq<ToolCall>, ghost i: nat, call: ToolCall) returns (result: Message)
    requires agent.Valid() && agent.running && i < |calls| && call == calls[i] && BetweenCalls(agent.monitor, calls, i)
    modifies agent`messages, agent`streaming, agent`pendingToolCalls, agent`history, agent`monitor
    ensures agent.Valid() && agent.monitor == Answered(old(agent.monitor), result, false)
    ensures result == ToolResult(call.id, call.name, Truncated(call), true)
  {
    hide Agent.Valid, Watch, Replay, BatchesOf, PollsOf, Truncated;
    agent.ProcessEvent(ToolStart(call));
    var finalized := Finalized(call, ErrorResult(Truncated(call)), true);
    EmitToolExecutionEnd(agent, finalized);
    result := ToolResultMessage(finalized);
    EmitToolResultMessage(agent, result);
  }

  /** What becomes of a call that is announced: the refusal of its preparation, or the outcome of its tool. */
  function Finalize(call: ToolCall, script: ToolScript): Finalized {
    var preparation := PrepareToolCall(call, script.preparation);
    if preparation.Immediate? then Finalized(call, preparation.result, preparation.isError)
    else FinalizeToolCall(call, script.outcome, script.after)
  }

  /** What becomes of the first `n` calls of a batch, each on its own: the reference for both ways to run it. */
  function BatchOutcomes(calls: seq<ToolCall>, tools: seq<ToolScript>, n: nat): (fs: seq<Finalized>)
    requires n <= |calls|
    ensures |fs| == n && forall i | 0 <= i < n :: fs[i] == Finalize(calls[i], ScriptOf(tools, i))
  {
    seq(n, i requires 0 <= i < n => Finalize(calls[i], ScriptOf(tools, i)))
  }

  lemma BatchBegins(calls: seq<ToolCall>, tools: seq<ToolScript>)
    ensures BatchOutcomes(calls, tools, 0) == [] && ResultMessages([]) == []
  {}

  lemma BatchGrows(calls: seq<ToolCall>, tools: seq<ToolScript>, i: nat)
    requires i < |calls|
    ensures var f := Finalize(calls[i], ScriptOf(tools, i));
            && BatchOutcomes(calls, tools, i + 1) == BatchOutcomes(calls, tools, i) + [f]
            && ResultMessages(BatchOutcomes(calls, tools, i + 1))
               == ResultMessages(BatchOutcomes(calls, tools, i)) + [ToolResultMessage(f)]
  {
    hide Finalize, ToolResultMessage;
  }

  /** What the results of a batch hold, in terms of the tools and hooks alone. */
  ghost predicate TellsAll(results: seq<Message>, calls: seq<ToolCall>, tools: seq<ToolScript>) {
    |results| <= |calls| && forall i | 0 <= i < |results| :: Tells(results[i], calls[i], ScriptOf(tools, i))
  }

  ghost predicate AllAskToEnd(n: nat, calls: seq<ToolCall>, tools: seq<ToolScript>)
    requires n <= |calls|
  {
    n > 0 && forall i | 0 <= i < n :: AsksToEnd(calls[i], ScriptOf(tools, i))
  }

  lemma FinalizeReports(call: ToolCall, script: ToolScript)
    ensures var f := Finalize(call, script);
            && f.call == call && Reports(f.result.output, f.isError, f.result.terminate, call, script)
            && Tells(ToolResultMessage(f), call, script)
            && (f.result.terminate <==> AsksToEnd(call, script))
  {
    var f := Finalize(call, script);
    assert Reports(f.result.output, f.isError, f.result.terminate, call, script);
  }

  lemma BatchTells(calls: seq<ToolCall>, tools: seq<ToolScript>, n: nat)
    requires n <= |calls|
    ensures TellsAll(ResultMessages(BatchOutcomes(calls, tools, n)), calls, tools)
    ensures ShouldTerminate(BatchOutcomes(calls, tools, n)) <==> AllAskToEnd(n, calls, tools)
  {
    hide Finalize, ToolResultMessage, Tells, AsksToEnd;
    forall i | 0 <= i < n
      ensures Tells(ResultMessages(BatchOutcomes(calls, tools, n))[i], calls[i], ScriptOf(tools, i))
      ensures BatchOutcomes(calls, tools, n)[i].result.terminate <==> AsksToEnd(calls[i], ScriptOf(tools, i))
    {
      FinalizeReports(calls[i], ScriptOf(tools, i));
    }
  }

  /** Each result says that its call was not executed. */
  predicate AllTruncated(results: seq<Message>, calls: seq<ToolCall>) {
    && |results| <= |calls|
    && forall i | 0 <= i < |results| :: results[i] == ToolResult(calls[i].id, calls[i].name, Truncated(calls[i]), true)
  }

  lemma NothingTruncated(calls: seq<ToolCall>)
    ensures AllTruncated([], calls)
  {}

  lemma OneMoreTruncated(results: seq<Message>, calls: seq<ToolCall>)
    requires AllTruncated(results, calls) && |results| < |calls|
    ensures var call := calls[|results|];
            AllTruncated(results + [ToolResult(call.id, call.name, Truncated(call), true)], calls)
  {
    hide Truncated;
  }

  lemma TruncatedAnswer(results: seq<Message>, calls: seq<ToolCall>)
    requires AllTruncated(results, calls)
    ensures AnswersInOrder(results, calls)
  {
    hide Truncated;
  }

  /** A response cut off by the token limit: every call is failed and none is executed. */
  method FailToolCallsFromTruncatedMessage(agent: Agent, calls: seq<ToolCall>)
    returns (results: seq<Message>, terminate: bool)
    requires agent.Valid() && agent.running && AwaitsTools(agent.monitor, calls)
    modifies agent`messages, agent`streaming, agent`pendingToolCalls, agent`history, agent`monitor
    ensures agent.Valid() && IsBatch(old(agent.monitor), agent.monitor, calls, results, terminate)
    ensures |results| == |calls| && !terminate && AllTruncated(results, calls)
  {
    hide Agent.Valid, Watch, Replay, BatchesOf, PollsOf, Observe, Truncated, AllTruncated, AnswersInOrder;
    results := [];
    NothingTruncated(calls);
    for i := 0 to |calls|
      invariant agent.Valid() && BetweenCalls(agent.monitor, calls, i) && results == agent.monitor.results
      invariant agent.monitor == AfterTools(old(agent.monitor), i, results, agent.monitor.verdicts, agent.monitor.logged)
      invariant AllTruncated(results, calls)
      invariant forall j | 0 <= j < i :: !agent.monitor.verdicts[j]
    {
      var result := FailToolCall(agent, calls, i, calls[i]);
      OneMoreTruncated(results, calls);
      results := results + [result];
    }
    terminate := false;
    TruncatedAnswer(results, calls);
    assert calls != [] ==> !agent.monitor.verdicts[0];
  }

  /** The progress callback handed to a tool. */
  method ReportProgress(agent: Agent, call: ToolCall, acceptingUpdates: bool, partial: string)
    requires agent.Valid() && agent.running
    requires acceptingUpdates ==> agent.monitor.Monitor? && agent.monitor.phase == Tools && call.id in agent.monitor.open
    modifies agent`messages, agent`streaming, agent`pendingToolCalls, agent`history, agent`monitor
    ensures agent.Valid() && agent.monitor == old(agent.monitor)
    ensures agent.history == old(agent.history) + if acceptingUpdates then [Emitted(ToolUpdate(call, partial))] else []
  {
    hide Agent.Valid, Watch, Replay, BatchesOf, PollsOf;
    if !acceptingUpdates { return; }
    agent.ProcessEvent(ToolUpdate(call, partial));
  }

  function Updates(call: ToolCall, reports: seq<string>): seq<Entry> {
    seq(|reports|, i requires 0 <= i < |reports| => Emitted(ToolUpdate(call, reports[i])))
  }

  /** A prepared tool on its own: its reports are forwarded, in order, until it settles. */
  method ExecutePreparedToolCall(agent: Agent, call: ToolCall, script: ToolScript) returns (finalized: Finalized)
    requires agent.Valid() && agent.running
    requires agent.monitor.Monitor? && agent.monitor.phase == Tools && call.id in agent.monitor.open
    modifies agent`messages, agent`streaming, agent`pendingToolCalls, agent`history, agent`monitor, agent`executed
    ensures agent.Valid() && agent.monitor == old(agent.monitor)
    ensures agent.executed == old(agent.executed) + [call]
    ensures agent.history == old(agent.history) + Updates(call, script.reports)
    ensures finalized == FinalizeToolCall(call, script.outcome, script.after)
  {
    hide Agent.Valid, Watch, Replay, BatchesOf, PollsOf, Observe;
    agent.RecordExecuted([call]);
    ForwardReports(agent, call, true, script.reports);
    ForwardReports(agent, call, false, script.lateReports);
    finalized := FinalizeToolCall(call, script.outcome, script.after);
  }

  method ForwardReports(agent: Agent, call: ToolCall, acceptingUpdates: bool, reports: seq<string>)
    requires agent.Valid() && agent.running
    requires acceptingUpdates ==> agent.monitor.Monitor? && agent.monitor.phase == Tools && call.id in agent.monitor.open
    modifies agent`messages, agent`streaming, agent`pendingToolCalls, agent`history, agent`monitor
    ensures agent.Valid() && agent.monitor == old(agent.monitor)
    ensures agent.history == old(agent.history) + if acceptingUpdates then Updates(call, reports) else []
  {
    hide Agent.Valid, Watch, Replay, BatchesOf, PollsOf, Observe;
    for i := 0 to |reports|
      invariant agent.Valid() && agent.monitor == old(agent.monitor)
      invariant agent.history == old(agent.history) + if acceptingUpdates then Updates(call, reports[..i]) else []
    {
      ReportProgress(agent, call, acceptingUpdates, reports[i]);
      assert Updates(call, reports[..i + 1]) == Updates(call, reports[..i]) + [Emitted(ToolUpdate(call, reports[i]))];
    }
    assert reports[..|reports|] == reports;
  }

  /** The body of the sequential loop. */
  method ExecuteToolCallInTurn(agent: Agent, ghost calls: seq<ToolCall>, ghost i: nat, call: ToolCall, script: ToolScript)
    returns (finalized: Finalized)
    requires agent.Valid() && agent.running && i < |calls| && call == calls[i] && BetweenCalls(agent.monitor, calls, i)
    modifies agent`messages, agent`streaming, agent`pendingToolCalls, agent`history, agent`monitor, agent`executed
    ensures agent.Valid() && finalized == Finalize(call, script) && finalized.call == call
    ensures agent.monitor == Answered(old(agent.monitor), ToolResultMessage(finalized), finalized.result.terminate)
    ensures agent.executed == old(agent.executed) + if PrepareToolCall(call, script.preparation).Prepared? then [call] else []
  {
    hide Agent.Valid, Watch, Replay, BatchesOf, PollsOf, PrepareToolCall, FinalizeToolCall;
    agent.ProcessEvent(ToolStart(call));
    var preparation := PrepareToolCall(call, script.preparation);
    if preparation.Immediate? {
      finalized := Finalized(call, preparation.result, preparation.isError);
    } else {
      finalized := ExecutePreparedToolCall(agent, call, script);
    }
    EmitToolExecutionEnd(agent, finalized);
    EmitToolResultMessage(agent, ToolResultMessage(finalized));
  }

  /** How many of `n` calls are begun, from the `i`-th on: an abort stops the batch after the call it follows. */
  function Announced(n: nat, tools: seq<ToolScript>, i: nat): (k: nat)
    requires i <= n
    ensures i <= k <= n && (i < n ==> i < k)
    ensures k < n ==> ScriptOf(tools, k - 1).aborted
    ensures forall j | i <= j < k - 1 :: !ScriptOf(tools, j).aborted
    decreases n - i
  {
    if i == n then n else if ScriptOf(tools, i).aborted then i + 1 else Announced(n, tools, i + 1)
  }

  /** The calls of a batch that were really executed, in source order. */
  function Executed(calls: seq<ToolCall>, tools: seq<ToolScript>, n: nat): seq<ToolCall>
    requires n <= |calls|
  {
    if n == 0 then []
    else Executed(calls, tools, n - 1) +
         if PrepareToolCall(calls[n - 1], ScriptOf(tools, n - 1).preparation).Prepared? then [calls[n - 1]] else []
  }

  lemma NothingExecuted(calls: seq<ToolCall>, tools: seq<ToolScript>)
    ensures Executed(calls, tools, 0) == [] && Announced(|calls|, tools, |calls|) == |calls|
  {}

  /** What one more call adds to what is announced and executed. */
  lemma CallCounts(calls: seq<ToolCall>, tools: seq<ToolScript>, i: nat)
    requires i < |calls|
    ensures Announced(|calls|, tools, i) == if ScriptOf(tools, i).aborted then i + 1 else Announced(|calls|, tools, i + 1)
    ensures Executed(calls, tools, i + 1)
            == Executed(calls, tools, i)
               + if PrepareToolCall(calls[i], ScriptOf(tools, i).preparation).Prepared? then [calls[i]] else []
  {
    hide PrepareToolCall;
  }

  /** The same tools, in a run that nobody aborts. */
  function WithoutAborts(tools: seq<ToolScript>): seq<ToolScript> {
    seq(|tools|, i requires 0 <= i < |tools| => tools[i].(aborted := false))
  }

  lemma {:induction false} NobodyAborts(n: nat, tools: seq<ToolScript>, i: nat)
    requires i <= n
    ensures Announced(n, WithoutAborts(tools), i) == n
    decreases n - i
  {
    if i < n { NobodyAborts(n, tools, i + 1); }
  }

  lemma {:induction false} ExecutedPrefix(calls: seq<ToolCall>, tools: seq<ToolScript>, n: nat, m: nat)
    requires n <= m <= |calls|
    ensures Executed(calls, tools, n) <= Executed(calls, tools, m)
    decreases m - n
  {
    hide PrepareToolCall;
    if n < m { ExecutedPrefix(calls, tools, n, m - 1); }
  }

  lemma {:induction false} SameExecuted(calls: seq<ToolCall>, tools: seq<ToolScript>, n: nat)
    requires n <= |calls|
    ensures Executed(calls, WithoutAborts(tools), n) == Executed(calls, tools, n)
    decreases n
  {
    hide PrepareToolCall;
    if n > 0 { SameExecuted(calls, tools, n - 1); }
  }

  /**
   An abort only cuts a batch short, after its first call at the earliest: what was executed and answered until then is
   the beginning of what the same batch executes and answers if nobody aborts, and that answers every call in order.
   */
  lemma AbortOnlyShortens(calls: seq<ToolCall>, tools: seq<ToolScript>)
    ensures var n := Announced(|calls|, tools, 0);
            var all := BatchOutcomes(calls, WithoutAborts(tools), Announced(|calls|, WithoutAborts(tools), 0));
            && (calls != [] ==> n > 0)
            && |all| == |calls| && AnswersInOrder(ResultMessages(all), calls)
            && ResultMessages(BatchOutcomes(calls, tools, n)) <= ResultMessages(all)
            && Executed(calls, tools, n) <= Executed(calls, WithoutAborts(tools), |calls|)
  {
    hide PrepareToolCall, FinalizeToolCall, Executed;
    NobodyAborts(|calls|, tools, 0);
    var n := Announced(|calls|, tools, 0);
    SameExecuted(calls, tools, n);
    ExecutedPrefix(calls, WithoutAborts(tools), n, |calls|);
    SameOutcomes(calls, tools, n);
  }

  lemma SameOutcomes(calls: seq<ToolCall>, tools: seq<ToolScript>, n: nat)
    requires n <= |calls|
    ensures ResultMessages(BatchOutcomes(calls, tools, n)) <= ResultMessages(BatchOutcomes(calls, WithoutAborts(tools), |calls|))
    ensures AnswersInOrder(ResultMessages(BatchOutcomes(calls, tools, |calls|)), calls)
    ensures AnswersInOrder(ResultMessages(BatchOutcomes(calls, WithoutAborts(tools), |calls|)), calls)
  {
    hide PrepareToolCall;
  }

  /** After `i` calls of a sequential round that began at `m0`. */
  ghost predicate InRound(m0: Monitor, m: Monitor, calls: seq<ToolCall>, finalized: seq<Finalized>) {
    && m0.Monitor? && BetweenCalls(m, calls, |finalized|)
    && m == AfterTools(m0, |finalized|, m.results, m.verdicts, m.logged)
    && AnswersInOrder(m.results, calls)
    && (forall j | 0 <= j < |finalized| :: m.verdicts[j] == finalized[j].result.terminate)
  }

  lemma RoundBegins(m: Monitor, calls: seq<ToolCall>)
    requires AwaitsTools(m, calls)
    ensures InRound(m, m, calls, []) && BetweenCalls(m, calls, 0)
  {}

  lemma RoundGoesOn(m0: Monitor, m: Monitor, calls: seq<ToolCall>, finalized: seq<Finalized>, f: Finalized)
    requires InRound(m0, m, calls, finalized) && |finalized| < |calls| && f.call == calls[|finalized|]
    ensures var next := Answered(m, ToolResultMessage(f), f.result.terminate);
            InRound(m0, next, calls, finalized + [f]) && BetweenCalls(next, calls, |finalized| + 1)
            && next.results == m.results + [ToolResultMessage(f)]
  {}

  lemma RoundEnds(m0: Monitor, m: Monitor, calls: seq<ToolCall>, finalized: seq<Finalized>)
    requires InRound(m0, m, calls, finalized) && (calls != [] ==> finalized != [])
    ensures IsBatch(m0, m, calls, m.results, ShouldTerminate(finalized))
  {
    VerdictsAgree(finalized, m.verdicts);
  }

  /** One call after the other; an abort cuts the batch short, but never before its first call. */
  method ExecuteToolCallsSequential(agent: Agent, calls: seq<ToolCall>, tools: seq<ToolScript>)
    returns (results: seq<Message>, terminate: bool)
    requires agent.Valid() && agent.running && AwaitsTools(agent.monitor, calls)
    modifies agent`messages, agent`streaming, agent`pendingToolCalls, agent`history, agent`monitor, agent`executed
    ensures agent.Valid() && IsBatch(old(agent.monitor), agent.monitor, calls, results, terminate)
    ensures |results| == Announced(|calls|, tools, 0)
    ensures results == ResultMessages(BatchOutcomes(calls, tools, |results|))
    ensures terminate == ShouldTerminate(BatchOutcomes(calls, tools, |results|))
    ensures TellsAll(results, calls, tools) && (terminate <==> AllAskToEnd(|results|, calls, tools))
    ensures agent.executed == old(agent.executed) + Executed(calls, tools, |results|)
  {
    hide Agent.Valid, Watch, Replay, BatchesOf, PollsOf, Observe, InRound, IsBatch, PrepareToolCall, Finalize, BatchOutcomes,
         ResultMessages,
         ToolResultMessage, Answers, ShouldTerminate, Answered, BetweenCalls, Announced, Executed;
    BatchBegins(calls, tools);
    NothingExecuted(calls, tools);
    var finalizedCalls: seq<Finalized> := [];
    results := [];
    var i := 0;
    RoundBegins(agent.monitor, calls);
    while i < |calls|
      invariant 0 <= i == |finalizedCalls| <= |calls|
      invariant agent.Valid() && agent.monitor.Monitor? && BetweenCalls(agent.monitor, calls, i)
      invariant InRound(old(agent.monitor), agent.monitor, calls, finalizedCalls)
      invariant finalizedCalls == BatchOutcomes(calls, tools, i) && results == ResultMessages(finalizedCalls)
      invariant results == agent.monitor.results && Announced(|calls|, tools, i) == Announced(|calls|, tools, 0)
      invariant agent.executed == old(agent.executed) + Executed(calls, tools, i)
    {
      var script := ScriptOf(tools, i);
      ghost var before := agent.monitor;
      var finalized := ExecuteToolCallInTurn(agent, calls, i, calls[i], script);
      RoundGoesOn(old(agent.monitor), before, calls, finalizedCalls, finalized);
      BatchGrows(calls, tools, i);
      CallCounts(calls, tools, i);
      results := results + [ToolResultMessage(finalized)];
      finalizedCalls := finalizedCalls + [finalized];
      i := i + 1;
      if script.aborted { assert i == Announced(|calls|, tools, 0); break; }
    }
    terminate := ShouldTerminate(finalizedCalls);
    BatchTells(calls, tools, i);
    RoundEnds(old(agent.monitor), agent.monitor, calls, finalizedCalls);
  }

  lemma VerdictsAgree(fs: seq<Finalized>, verdicts: seq<bool>)
    requires |fs| == |verdicts| && forall j | 0 <= j < |fs| :: verdicts[j] == fs[j].result.terminate
    ensures ShouldTerminate(fs) <==> Unanimous(verdicts)
  {}

  // ----- concurrent tools -----

  /** An entry of `finalizedCalls`: an outcome, or the asynchronous function that will deliver one. */
  datatype CallEntry = Done(finalized: Finalized) | Active(call: ToolCall, script: ToolScript, accepting: bool)

  function CallOf(e: CallEntry): ToolCall {
    if e.Done? then e.finalized.call else e.call
  }

  function OpenIds(entries: seq<CallEntry>): multiset<string> {
    if entries == [] then multiset{}
    else
      var last := entries[|entries| - 1];
      OpenIds(entries[..|entries| - 1]) + if last.Active? then multiset{last.call.id} else multiset{}
  }

  lemma OpenIdsAppended(entries: seq<CallEntry>, e: CallEntry)
    ensures OpenIds(entries + [e]) == OpenIds(entries) + if e.Active? then multiset{e.call.id} else multiset{}
  {
    assert (entries + [e])[..|entries + [e]| - 1] == entries;
  }

  function IdOf(e: CallEntry): multiset<string> {
    if e.Active? then multiset{e.call.id} else multiset{}
  }

  lemma OpenIdsSplit(entries: seq<CallEntry>)
    requires entries != []
    ensures OpenIds(entries) == OpenIds(entries[..|entries| - 1]) + IdOf(entries[|entries| - 1])
  {}

  /** Adding the same on both sides, and giving back what was added. */
  lemma Traded(a: multiset<string>, b: multiset<string>, more: multiset<string>, x: multiset<string>, y: multiset<string>)
    requires a + x == b + y
    ensures (a + more) + x == (b + more) + y
    ensures y <= a + x && b == (a + x) - y
  {
    assert (a + more) + x == (a + x) + more;
    assert (b + more) + y == (b + y) + more;
  }

  /** Replacing an entry trades its own open id for the new one's. */
  lemma {:induction false} OpenIdsTraded(entries: seq<CallEntry>, k: nat, e: CallEntry)
    requires k < |entries|
    ensures OpenIds(entries) + IdOf(e) == OpenIds(entries[k := e]) + IdOf(entries[k])
    decreases |entries|
  {
    hide OpenIds, IdOf;
    var n := |entries| - 1;
    var front, last := entries[..n], IdOf(entries[n]);
    OpenIdsSplit(entries);
    OpenIdsSplit(entries[k := e]);
    if k < n {
      OpenIdsTraded(front, k, e);
      assert entries[k := e][..n] == front[k := e];
      Traded(OpenIds(front), OpenIds(front[k := e]), last, IdOf(e), IdOf(entries[k]));
    } else {
      assert entries[k := e][..n] == front;
      assert (OpenIds(front) + last) + IdOf(e) == (OpenIds(front) + IdOf(e)) + last;
    }
  }

  /** An active call is open; ending it, or changing how it listens, does what it should to the open ids. */
  lemma OpenIdsUpdated(entries: seq<CallEntry>, k: nat, e: CallEntry)
    requires k < |entries| && entries[k].Active? && (e.Active? ==> e.call == entries[k].call)
    ensures entries[k].call.id in OpenIds(entries)
    ensures OpenIds(entries[k := e]) == if e.Active? then OpenIds(entries) else OpenIds(entries) - multiset{entries[k].call.id}
  {
    hide OpenIds;
    var id, done := multiset{entries[k].call.id}, Done(Finalized(entries[k].call, ErrorResult(""), true));
    OpenIdsTraded(entries, k, done);
    Traded(OpenIds(entries), OpenIds(entries[k := done]), multiset{}, multiset{}, id);
    assert entries[k].call.id in id;
    OpenIdsTraded(entries, k, e);
    Traded(OpenIds(entries), OpenIds(entries[k := e]), multiset{}, IdOf(e), id);
    assert (OpenIds(entries) + id) - id == OpenIds(entries);
  }

  lemma {:induction false} NoneOpen(entries: seq<CallEntry>)
    requires forall i | 0 <= i < |entries| :: entries[i].Done?
    ensures OpenIds(entries) == multiset{}
    decreases |entries|
  {
    if entries != [] { NoneOpen(entries[..|entries| - 1]); }
  }

  /** The verdicts seen so far, in completion order, say of the ended calls what the entries say of them. */
  ghost predicate VerdictsFit(entries: seq<CallEntry>, verdicts: seq<bool>) {
    && (verdicts == [] <==> forall i | 0 <= i < |entries| :: entries[i].Active?)
    && ((forall j | 0 <= j < |verdicts| :: verdicts[j])
          <==> forall i | 0 <= i < |entries| && entries[i].Done? :: entries[i].finalized.result.terminate)
  }

  lemma VerdictAdded(entries: seq<CallEntry>, verdicts: seq<bool>, entries': seq<CallEntry>, k: nat, f: Finalized)
    requires VerdictsFit(entries, verdicts) && k < |entries'| && entries'[k] == Done(f)
    requires (entries' == entries + [Done(f)] && k == |entries|)
      || (k < |entries| && entries[k].Active? && entries' == entries[k := Done(f)])
    ensures VerdictsFit(entries', verdicts + [f.result.terminate])
  {
    var verdicts' := verdicts + [f.result.terminate];
    assert verdicts'[|verdicts|] == f.result.terminate;
    if forall j | 0 <= j < |verdicts'| :: verdicts'[j] {
      forall j | 0 <= j < |verdicts| ensures verdicts[j] { assert verdicts'[j]; }
    }
    if forall i | 0 <= i < |entries'| && entries'[i].Done? :: entries'[i].finalized.result.terminate {
      forall i | 0 <= i < |entries| && entries[i].Done? ensures entries[i].finalized.result.terminate {
        assert entries'[i] == entries[i];
      }
    }
  }

  /** The first part of `finalizedCalls`: one entry per call, in source order. */
  predicate FromCalls(entries: seq<CallEntry>, calls: seq<ToolCall>) {
    |entries| <= |calls| && forall i | 0 <= i < |entries| :: CallOf(entries[i]) == calls[i]
  }

  /** The tools of a round that began at `m0` are as `entries` say. */
  ghost predicate Concurrent(m0: Monitor, m: Monitor, entries: seq<CallEntry>) {
    && m0.Monitor? && m.Monitor?
    && m == m0.(started := |entries|, open := OpenIds(entries), verdicts := m.verdicts, logged := m.logged)
    && (forall i | 0 <= i < |entries| && entries[i].Done? :: ToolResultMessage(entries[i].finalized) in m.logged)
    && VerdictsFit(entries, m.verdicts)
  }

  lemma CallStarted(m0: Monitor, m: Monitor, entries: seq<CallEntry>, call: ToolCall, script: ToolScript)
    requires Concurrent(m0, m, entries)
    ensures Concurrent(m0, m.(started := m.started + 1, open := m.open + multiset{call.id}), entries + [Active(call, script, true)])
  {
    OpenIdsAppended(entries, Active(call, script, true));
    var entries' := entries + [Active(call, script, true)];
    assert forall i | 0 <= i < |entries| :: entries'[i] == entries[i];
  }

  lemma CallEnded(m0: Monitor, m: Monitor, entries: seq<CallEntry>, k: nat, f: Finalized)
    requires Concurrent(m0, m, entries) && k < |entries| && entries[k].Active? && f.call.id == entries[k].call.id
    ensures entries[k].call.id in m.open
    ensures Concurrent(m0, m.(open := m.open - multiset{f.call.id}, verdicts := m.verdicts + [f.result.terminate],
                              logged := m.logged + {ToolResultMessage(f)}),
                       entries[k := Done(f)])
  {
    hide OpenIds, VerdictsFit, ToolResultMessage;
    OpenIdsUpdated(entries, k, Done(f));
    VerdictAdded(entries, m.verdicts, entries[k := Done(f)], k, f);
  }

  lemma CallSettled(m0: Monitor, m: Monitor, entries: seq<CallEntry>, k: nat)
    requires Concurrent(m0, m, entries) && k < |entries| && entries[k].Active?
    ensures entries[k].call.id in m.open
    ensures Concurrent(m0, m, entries[k := entries[k].(accepting := false)])
  {
    hide OpenIds;
    var entries' := entries[k := entries[k].(accepting := false)];
    OpenIdsUpdated(entries, k, entries[k].(accepting := false));
    assert forall i | 0 <= i < |entries| && i != k :: entries'[i] == entries[i];
  }

  /** The body of the first loop of `executeToolCallsParallel`. */
  method PrepareInTurn(agent: Agent, ghost m0: Monitor, ghost entries: seq<CallEntry>, call: ToolCall, script: ToolScript)
    returns (entry: CallEntry)
    requires agent.Valid() && agent.running && Concurrent(m0, agent.monitor, entries)
    requires m0.phase == Tools && |entries| < |m0.calls| && call == m0.calls[|entries|]
    modifies agent`messages, agent`streaming, agent`pendingToolCalls, agent`history, agent`monitor
    ensures agent.Valid() && Concurrent(m0, agent.monitor, entries + [entry]) && CallOf(entry) == call
    ensures entry.Active? <==> PrepareToolCall(call, script.preparation).Prepared?
    ensures entry == if PrepareToolCall(call, script.preparation).Prepared? then Active(call, script, true)
                     else Done(Finalize(call, script))
  {
    hide Agent.Valid, Watch, Replay, BatchesOf, PollsOf, OpenIds, VerdictsFit;
    CallStarted(m0, agent.monitor, entries, call, script);
    agent.ProcessEvent(ToolStart(call));
    entry := Active(call, script, true);
    var preparation := PrepareToolCall(call, script.preparation);
    if preparation.Immediate? {
      var finalized := Finalized(call, preparation.result, preparation.isError);
      CallEnded(m0, agent.monitor, entries + [entry], |entries|, finalized);
      assert (entries + [entry])[|entries| := Done(finalized)] == entries + [Done(finalized)];
      EmitToolExecutionEnd(agent, finalized);
      entry := Done(finalized);
    }
  }

  lemma NothingStarted(m: Monitor, calls: seq<ToolCall>)
    requires AwaitsTools(m, calls)
    ensures Concurrent(m, m, [])
  {}

  /** Which entries wait for a tool: exactly those whose call was prepared. */
  predicate PreparedOnly(entries: seq<CallEntry>, calls: seq<ToolCall>, tools: seq<ToolScript>) {
    FromCalls(entries, calls)
    && forall i | 0 <= i < |entries| ::
         (entries[i].Active? <==> PrepareToolCall(calls[i], ScriptOf(tools, i).preparation).Prepared?)
         && entries[i] == if entries[i].Active? then Active(calls[i], ScriptOf(tools, i), true)
                          else Done(Finalize(calls[i], ScriptOf(tools, i)))
  }

  /** First every call is announced and prepared, in source order; an abort stops after the call it follows. */
  method PrepareBatch(agent: Agent, calls: seq<ToolCall>, tools: seq<ToolScript>) returns (entries: seq<CallEntry>)
    requires agent.Valid() && agent.running && AwaitsTools(agent.monitor, calls)
    modifies agent`messages, agent`streaming, agent`pendingToolCalls, agent`history, agent`monitor
    ensures agent.Valid() && Concurrent(old(agent.monitor), agent.monitor, entries) && PreparedOnly(entries, calls, tools)
    ensures |entries| == Announced(|calls|, tools, 0)
  {
    hide Agent.Valid, Watch, Replay, BatchesOf, PollsOf, Observe, Concurrent, PrepareToolCall, Finalize;
    entries := [];
    NothingStarted(agent.monitor, calls);
    var i := 0;
    while i < |calls|
      invariant 0 <= i == |entries| <= |calls|
      invariant agent.Valid() && Concurrent(old(agent.monitor), agent.monitor, entries)
      invariant PreparedOnly(entries, calls, tools) && Announced(|calls|, tools, i) == Announced(|calls|, tools, 0)
    {
      var script := ScriptOf(tools, i);
      var entry := PrepareInTurn(agent, old(agent.monitor), entries, calls[i], script);
      entries := entries + [entry];
      i := i + 1;
      if script.aborted { assert i == Announced(|calls|, tools, 0); break; }
    }
  }

  /** The calls whose asynchronous functions `Promise.all` starts, in source order. */
  function ActiveCalls(entries: seq<CallEntry>): seq<ToolCall> {
    if entries == [] then []
    else
      var last := entries[|entries| - 1];
      ActiveCalls(entries[..|entries| - 1]) + if last.Active? then [last.call] else []
  }

  lemma {:induction false} ActiveCallsExecuted(entries: seq<CallEntry>, calls: seq<ToolCall>, tools: seq<ToolScript>)
    requires PreparedOnly(entries, calls, tools)
    ensures ActiveCalls(entries) == Executed(calls, tools, |entries|)
    decreases |entries|
  {
    if entries != [] {
      assert CallOf(entries[|entries| - 1]) == calls[|entries| - 1];
      ActiveCallsExecuted(entries[..|entries| - 1], calls, tools);
    }
  }

  /** What a scheduled step does to the `i`-th entry: a tool is done once it has settled and its hook has ended. */
  function AfterStep(e: CallEntry, i: nat, step: ToolStep): CallEntry {
    if e.Done? || step.index != i || step.Report? then e
    else if step.Settle? then e.(accepting := false)
    else if e.accepting then e
    else Done(FinalizeToolCall(e.call, e.script.outcome, e.script.after))
  }

  predicate SettlesIn(schedule: seq<ToolStep>, i: nat) {
    Settle(i) in schedule
  }

  /** The tool settles and its end follows. */
  predicate EndsIn(schedule: seq<ToolStep>, i: nat) {
    schedule != [] &&
    var before, last := schedule[..|schedule| - 1], schedule[|schedule| - 1];
    EndsIn(before, i) || (last == Finish(i) && SettlesIn(before, i))
  }

  function AfterSchedule(e: CallEntry, i: nat, schedule: seq<ToolStep>): CallEntry {
    if schedule == [] then e
    else AfterStep(AfterSchedule(e, i, schedule[..|schedule| - 1]), i, schedule[|schedule| - 1])
  }

  /** A running tool ends exactly if it settles and its end follows, and then with its own outcome. */
  lemma {:induction false} EndsExactly(e: CallEntry, i: nat, schedule: seq<ToolStep>)
    requires e.Active? && e.accepting
    ensures AfterSchedule(e, i, schedule) ==
              if EndsIn(schedule, i) then Done(FinalizeToolCall(e.call, e.script.outcome, e.script.after))
              else e.(accepting := !SettlesIn(schedule, i))
    decreases |schedule|
  {
    if schedule != [] {
      EndsExactly(e, i, schedule[..|schedule| - 1]);
    }
  }

  /** One scheduled step of the running tools. */
  method RunToolStep(agent: Agent, ghost m0: Monitor, entries: seq<CallEntry>, step: ToolStep) returns (entries': seq<CallEntry>)
    requires agent.Valid() && agent.running && Concurrent(m0, agent.monitor, entries) && m0.phase == Tools
    modifies agent`messages, agent`streaming, agent`pendingToolCalls, agent`history, agent`monitor
    ensures agent.Valid() && Concurrent(m0, agent.monitor, entries') && |entries'| == |entries|
    ensures forall i | 0 <= i < |entries| :: entries'[i] == AfterStep(entries[i], i, step)
    ensures step.Report? ==>
              agent.history == old(agent.history)
                + if step.index < |entries| && entries[step.index].Active? && entries[step.index].accepting
                  then [Emitted(ToolUpdate(entries[step.index].call, step.partial))] else []
  {
    hide Agent.Valid, Watch, Replay, BatchesOf, PollsOf, OpenIds, VerdictsFit;
    entries' := entries;
    if step.index >= |entries| || entries[step.index].Done? { return; }
    var k := step.index;
    var entry := entries[k];
    CallSettled(m0, agent.monitor, entries, k);
    match step
    case Report(_, partial) =>
      ReportProgress(agent, entry.call, entry.accepting, partial);
    case Settle(_) =>
      entries' := entries[k := entry.(accepting := false)];
    case Finish(_) =>
      if !entry.accepting {
        var finalized := FinalizeToolCall(entry.call, entry.script.outcome, entry.script.after);
        CallEnded(m0, agent.monitor, entries, k, finalized);
        EmitToolExecutionEnd(agent, finalized);
        entries' := entries[k := Done(finalized)];
      }
  }

  /** The tools run interleaved as `schedule` says, until all have ended or the schedule gives out. */
  method RunTools(agent: Agent, ghost m0: Monitor, entries: seq<CallEntry>, schedule: seq<ToolStep>)
    returns (finished: seq<CallEntry>)
    requires agent.Valid() && agent.running && Concurrent(m0, agent.monitor, entries) && m0.phase == Tools
    modifies agent`messages, agent`streaming, agent`pendingToolCalls, agent`history, agent`monitor
    ensures agent.Valid() && Concurrent(m0, agent.monitor, finished) && |finished| == |entries|
    ensures forall i | 0 <= i < |entries| :: finished[i] == AfterSchedule(entries[i], i, schedule)
  {
    hide Agent.Valid, Watch, Replay, BatchesOf, PollsOf, Observe, Concurrent;
    finished := entries;
    for k := 0 to |schedule|
      invariant agent.Valid() && Concurrent(m0, agent.monitor, finished) && |finished| == |entries|
      invariant forall i | 0 <= i < |entries| :: finished[i] == AfterSchedule(entries[i], i, schedule[..k])
    {
      finished := RunToolStep(agent, m0, finished, schedule[k]);
      assert schedule[..k + 1][..k] == schedule[..k];
    }
    assert schedule[..|schedule|] == schedule;
  }

  /** After `Promise.all`: the results go out in source order, whatever the order of completion. */
  method EmitResults(agent: Agent, calls: seq<ToolCall>, fs: seq<Finalized>) returns (results: seq<Message>)
    requires agent.Valid() && agent.running
    requires agent.monitor.Monitor? && agent.monitor.phase == Tools && agent.monitor.open == multiset{}
    requires agent.monitor.calls == calls && agent.monitor.results == [] && agent.monitor.started == |fs| <= |calls|
    requires forall i | 0 <= i < |fs| :: fs[i].call == calls[i] && ToolResultMessage(fs[i]) in agent.monitor.logged
    modifies agent`messages, agent`streaming, agent`pendingToolCalls, agent`history, agent`monitor
    ensures agent.Valid() && results == ResultMessages(fs)
    ensures agent.monitor == AfterTools(old(agent.monitor), |fs|, results, old(agent.monitor).verdicts, old(agent.monitor).logged)
  {
    hide Agent.Valid, Watch, Replay, BatchesOf, PollsOf, Observe;
    results := [];
    for i := 0 to |fs|
      invariant agent.Valid() && results == ResultMessages(fs[..i])
      invariant agent.monitor == AfterTools(old(agent.monitor), |fs|, results, old(agent.monitor).verdicts, old(agent.monitor).logged)
    {
      EmitToolResultMessage(agent, ToolResultMessage(fs[i]));
      results := results + [ToolResultMessage(fs[i])];
    }
    assert fs[..|fs|] == fs;
  }

  function Outcomes(entries: seq<CallEntry>): (fs: seq<Finalized>)
    requires forall i | 0 <= i < |entries| :: entries[i].Done?
    ensures |fs| == |entries| && forall i | 0 <= i < |fs| :: fs[i] == entries[i].finalized
  {
    seq(|entries|, i requires 0 <= i < |entries| => entries[i].finalized)
  }

  lemma BatchEnds(m0: Monitor, m: Monitor, m': Monitor, calls: seq<ToolCall>, entries: seq<CallEntry>)
    requires AwaitsTools(m0, calls) && Concurrent(m0, m, entries) && |entries| <= |calls| && (calls != [] ==> entries != [])
    requires forall i | 0 <= i < |entries| :: entries[i].Done? && CallOf(entries[i]) == calls[i]
    requires m' == AfterTools(m, |entries|, ResultMessages(Outcomes(entries)), m.verdicts, m.logged) && m.open == multiset{}
    ensures IsBatch(m0, m', calls, ResultMessages(Outcomes(entries)), ShouldTerminate(Outcomes(entries)))
  {
    var fs := Outcomes(entries);
    assert entries != [] ==> !entries[0].Active?;
    if Unanimous(m.verdicts) {
      assert forall i | 0 <= i < |fs| :: fs[i] == entries[i].finalized;
    }
    if ShouldTerminate(fs) {
      forall i | 0 <= i < |entries| && entries[i].Done? ensures entries[i].finalized.result.terminate {
        assert fs[i].result.terminate;
      }
    }
  }

  /** Every tool that was started ends. */
  predicate AllEnd(calls: seq<ToolCall>, tools: seq<ToolScript>, schedule: seq<ToolStep>) {
    forall i | 0 <= i < Announced(|calls|, tools, 0) && PrepareToolCall(calls[i], ScriptOf(tools, i).preparation).Prepared? ::
      EndsIn(schedule, i)
  }

  lemma FinishedCalls(entries: seq<CallEntry>, finished: seq<CallEntry>, calls: seq<ToolCall>, tools: seq<ToolScript>,
                      schedule: seq<ToolStep>)
    requires PreparedOnly(entries, calls, tools) && |entries| == |finished| == Announced(|calls|, tools, 0)
    requires forall i | 0 <= i < |entries| :: finished[i] == AfterSchedule(entries[i], i, schedule)
    ensures forall i | 0 <= i < |finished| :: CallOf(finished[i]) == calls[i]
    ensures (forall i | 0 <= i < |finished| :: finished[i].Done?) <==> AllEnd(calls, tools, schedule)
    ensures forall i | 0 <= i < |finished| && finished[i].Done? :: finished[i].finalized == Finalize(calls[i], ScriptOf(tools, i))
  {
    forall i | 0 <= i < |entries|
      ensures CallOf(finished[i]) == calls[i]
      ensures finished[i].Done? <==> entries[i].Done? || EndsIn(schedule, i)
      ensures finished[i].Done? ==> finished[i].finalized == Finalize(calls[i], ScriptOf(tools, i))
    {
      assert CallOf(entries[i]) == calls[i];
      if entries[i].Active? { EndsExactly(entries[i], i, schedule); } else { DoneStays(entries[i], i, schedule); }
    }
  }

  lemma {:induction false} DoneStays(e: CallEntry, i: nat, schedule: seq<ToolStep>)
    requires e.Done?
    ensures AfterSchedule(e, i, schedule) == e
    decreases |schedule|
  {
    if schedule != [] { DoneStays(e, i, schedule[..|schedule| - 1]); }
  }

  /** The batch runs concurrently; it completes exactly if every started tool ends. */
  method ExecuteToolCallsParallel(agent: Agent, calls: seq<ToolCall>, tools: seq<ToolScript>, schedule: seq<ToolStep>)
    returns (results: seq<Message>, terminate: bool, completed: bool)
    requires agent.Valid() && agent.running && AwaitsTools(agent.monitor, calls)
    modifies agent`messages, agent`streaming, agent`pendingToolCalls, agent`history, agent`monitor, agent`executed
    ensures agent.Valid() && agent.monitor.Monitor? && agent.monitor.turns == old(agent.monitor.turns)
    ensures completed <==> AllEnd(calls, tools, schedule)
    ensures completed ==>
              && IsBatch(old(agent.monitor), agent.monitor, calls, results, terminate)
              && |results| == Announced(|calls|, tools, 0)
              && results == ResultMessages(BatchOutcomes(calls, tools, |results|))
              && terminate == ShouldTerminate(BatchOutcomes(calls, tools, |results|))
              && TellsAll(results, calls, tools) && (terminate <==> AllAskToEnd(|results|, calls, tools))
              && agent.executed == old(agent.executed) + Executed(calls, tools, |results|)
  {
    hide Agent.Valid, Watch, Replay, BatchesOf, PollsOf, Observe, VerdictsFit, OpenIds, PrepareToolCall, AfterSchedule, AllEnd,
         PreparedOnly, IsBatch, Announced, Finalize, TellsAll, AllAskToEnd, Executed, ActiveCalls, ToolResultMessage,
         FinalizeToolCall, ShouldTerminate, ResultMessages;
    var entries := PrepareBatch(agent, calls, tools);
    ActiveCallsExecuted(entries, calls, tools);
    agent.RecordExecuted(ActiveCalls(entries));
    var finished := RunTools(agent, old(agent.monitor), entries, schedule);
    FinishedCalls(entries, finished, calls, tools, schedule);
    if exists i :: 0 <= i < |finished| && finished[i].Active? {
      return [], false, false;
    }
    NoneOpen(finished);
    ghost var m := agent.monitor;
    assert Outcomes(finished) == BatchOutcomes(calls, tools, |finished|);
    BatchTells(calls, tools, |finished|);
    results := EmitResults(agent, calls, Outcomes(finished));
    terminate := ShouldTerminate(Outcomes(finished));
    completed := true;
    BatchEnds(old(agent.monitor), m, agent.monitor, calls, finished);
  }

  // ----- turns and runs -----

  /** A turn has begun and no message of it has. */
  ghost predicate FreshTurn(m: Monitor) {
    && m.Monitor? && m.phase == Injecting && !m.initialPoll
    && m.calls == [] && m.started == 0 && m.open == multiset{} && m.results == [] && m.verdicts == []
  }

  method InjectMessage(agent: Agent, context: LoopContext, message: Message)
    requires agent.Valid() && agent.running && FreshTurn(agent.monitor)
    requires agent.monitor.owed != [] && agent.monitor.owed[0] == message
    modifies agent`messages, agent`streaming, agent`pendingToolCalls, agent`history, agent`monitor, context
    ensures agent.Valid() && context.messages == old(context.messages) + [message]
    ensures agent.monitor == old(agent.monitor).(
              owed := old(agent.monitor.owed)[1..], transcript := old(agent.monitor.transcript) + [message])
  {
    hide Agent.Valid, Watch, Replay, BatchesOf, PollsOf;
    agent.ProcessEvent(MessageStart(message));
    agent.ProcessEvent(MessageEnd(message));
    context.messages := context.messages + [message];
  }

  method InjectMessages(agent: Agent, context: LoopContext, pending: seq<Message>)
    requires agent.Valid() && agent.running && FreshTurn(agent.monitor) && agent.monitor.owed == pending
    modifies agent`messages, agent`streaming, agent`pendingToolCalls, agent`history, agent`monitor, context
    ensures agent.Valid()
    ensures agent.monitor == old(agent.monitor).(owed := [], transcript := old(agent.monitor.transcript) + pending)
    ensures context.messages == old(context.messages) + pending
  {
    hide Agent.Valid, Watch, Replay, BatchesOf, PollsOf, Observe;
    for i := 0 to |pending|
      invariant agent.Valid()
      invariant agent.monitor == old(agent.monitor).(
                  owed := pending[i..], transcript := old(agent.monitor.transcript) + pending[..i])
      invariant context.messages == old(context.messages) + pending[..i]
    {
      InjectMessage(agent, context, pending[i]);
      assert pending[..i + 1] == pending[..i] + [pending[i]];
    }
    assert pending[..|pending|] == pending;
  }

  datatype TurnOutcome = TurnOver(more: bool) | RunOver | StillRunning

  /** Only a concurrent round may hang: where a tool that was started never ends. */
  predicate RoundHangs(turn: Turn, calls: seq<ToolCall>) {
    turn.stopReason != Length && !turn.sequential && !AllEnd(calls, turn.tools, turn.schedule)
  }

  /** What a finished round answers: that nothing was executed, or what became of each call that was begun. */
  ghost predicate RoundResults(turn: Turn, calls: seq<ToolCall>, results: seq<Message>) {
    if turn.stopReason == Length then |results| == |calls| && AllTruncated(results, calls)
    else |results| == Announced(|calls|, turn.tools, 0) && TellsAll(results, calls, turn.tools)
  }

  /** The tool round of a turn, by the stop reason and the execution mode. */
  method ExecuteToolRound(agent: Agent, turn: Turn, calls: seq<ToolCall>)
    returns (results: seq<Message>, terminate: bool, completed: bool)
    requires agent.Valid() && agent.running && AwaitsTools(agent.monitor, calls)
    modifies agent`messages, agent`streaming, agent`pendingToolCalls, agent`history, agent`monitor, agent`executed
    ensures agent.Valid() && agent.monitor.Monitor? && agent.monitor.turns == old(agent.monitor.turns)
    ensures completed ==> IsBatch(old(agent.monitor), agent.monitor, calls, results, terminate)
    ensures completed <==> !RoundHangs(turn, calls)
    ensures turn.stopReason == Length ==> agent.executed == old(agent.executed) && !terminate
    ensures completed ==> RoundResults(turn, calls, results)
    ensures completed && turn.stopReason != Length ==>
              && results == ResultMessages(BatchOutcomes(calls, turn.tools, |results|))
              && terminate == ShouldTerminate(BatchOutcomes(calls, turn.tools, |results|))
              && (terminate <==> AllAskToEnd(|results|, calls, turn.tools))
              && agent.executed == old(agent.executed) + Executed(calls, turn.tools, |results|)
  {
    completed := true;
    if turn.stopReason == Length {
      results, terminate := FailToolCallsFromTruncatedMessage(agent, calls);
    } else if turn.sequential {
      results, terminate := ExecuteToolCallsSequential(agent, calls, turn.tools);
    } else {
      results, terminate, completed := ExecuteToolCallsParallel(agent, calls, turn.tools, turn.schedule);
    }
  }

  /** The assistant's message is complete and its tools, if any, are through. */
  ghost predicate MayClose(m: Monitor, message: Message, results: seq<Message>) {
    && m.Monitor? && m.phase == Tools && m.open == multiset{} && m.assistant == message && m.results == results
    && |m.results| == m.started && (m.calls != [] ==> m.started > 0)
  }

  lemma BatchCloses(m0: Monitor, m: Monitor, calls: seq<ToolCall>, results: seq<Message>, terminate: bool)
    requires AwaitsTools(m0, calls) && IsBatch(m0, m, calls, results, terminate)
    ensures MayClose(m, m0.assistant, results)
    ensures calls != [] ==> MoreTools(m) == !terminate
    ensures m.owed == m0.owed && m.transcript == m0.transcript + results && m.initialPoll == m0.initialPoll
  {}

  /** An errored or aborted response ends the turn and the run. */
  method EndFailedRun(agent: Agent, message: Message, newMessages: seq<Message>)
    requires agent.Valid() && agent.running && MayClose(agent.monitor, message, [])
    requires agent.monitor.owed == [] && agent.monitor.transcript == newMessages
    modifies agent`messages, agent`streaming, agent`pendingToolCalls, agent`history, agent`monitor
    ensures agent.Valid()
    ensures agent.monitor == old(agent.monitor).(
              phase := RunEnded, turns := old(agent.monitor.turns) + [EndedTurn(message, [], |old(agent.monitor.transcript)|)])
  {
    hide Agent.Valid, Watch, Replay, BatchesOf, PollsOf;
    agent.ProcessEvent(TurnEnd(message, []));
    agent.ProcessEvent(AgentEnd(newMessages));
  }

  method CloseTurn(agent: Agent, message: Message, toolResults: seq<Message>)
    requires agent.Valid() && agent.running && MayClose(agent.monitor, message, toolResults)
    modifies agent`messages, agent`streaming, agent`pendingToolCalls, agent`history, agent`monitor
    ensures agent.Valid()
    ensures agent.monitor == old(agent.monitor).(
              phase := TurnClosed, turns := old(agent.monitor.turns) + [EndedTurn(message, toolResults, |old(agent.monitor.transcript)|)])
  {
    hide Agent.Valid, Watch, Replay, BatchesOf, PollsOf;
    agent.ProcessEvent(TurnEnd(message, toolResults));
  }

  function Response(turn: Turn): Message {
    Assistant(turn.content, turn.stopReason)
  }

  /** A tool that was started in this turn never ends. */
  predicate Hangs(turn: Turn) {
    !Failed(Response(turn)) && ToolCalls(turn.content) != [] && RoundHangs(turn, ToolCalls(turn.content))
  }

  /** A turn that ended as its script says: its response, and what its calls were answered. */
  ghost predicate EndedAs(turn: Turn, ended: EndedTurn) {
    && ended.response == Response(turn)
    && (if Failed(Response(turn)) || ToolCalls(turn.content) == [] then ended.results == []
        else RoundResults(turn, ToolCalls(turn.content), ended.results))
  }

  /** One more turn has ended, as its script says, with this many messages in the run. */
  ghost predicate OneMoreTurn(turn: Turn, before: seq<EndedTurn>, after: seq<EndedTurn>, upTo: nat) {
    && |after| == |before| + 1 && after[..|before|] == before
    && EndedAs(turn, after[|before|]) && after[|before|].upTo == upTo
  }

  /** The turn is the last of its run: the response has failed, or a hook stops the loop. */
  predicate EndsRun(turn: Turn) {
    Failed(Response(turn)) || turn.stop
  }

  /** The tool round of a turn, its results in the context, and turn_end. */
  method FinishTurnWithTools(agent: Agent, context: LoopContext, message: Message, turn: Turn, calls: seq<ToolCall>)
    returns (results: seq<Message>, outcome: TurnOutcome)
    requires agent.Valid() && agent.running && AwaitsTools(agent.monitor, calls) && calls != []
    requires agent.monitor.assistant == message && agent.monitor.owed == [] && !agent.monitor.initialPoll
    modifies agent`messages, agent`streaming, agent`pendingToolCalls, agent`history, agent`monitor, agent`executed,
             context
    ensures agent.Valid() && agent.monitor.Monitor? && !outcome.RunOver?
    ensures outcome.StillRunning? <==> RoundHangs(turn, calls)
    ensures outcome.StillRunning? ==> agent.monitor.turns == old(agent.monitor.turns)
    ensures outcome.TurnOver? ==>
              && agent.monitor.turns
                 == old(agent.monitor.turns) + [EndedTurn(message, results, |agent.monitor.transcript|)]
              && RoundResults(turn, calls, results)
    ensures outcome.TurnOver? ==>
              && context.messages == old(context.messages) + results
              && agent.monitor.transcript == old(agent.monitor).transcript + results
              && agent.monitor.phase == TurnClosed && agent.monitor.assistant == message && agent.monitor.owed == []
              && !agent.monitor.initialPoll && agent.monitor.open == multiset{} && MoreTools(agent.monitor) == outcome.more
  {
    hide Agent.Valid, Watch, Replay, BatchesOf, PollsOf, Observe, Unanimous, RoundHangs, IsBatch, TellsAll, AllAskToEnd,
         Announced, ResultMessages, BatchOutcomes, ShouldTerminate, Executed, AllTruncated;
    ghost var m0 := agent.monitor;
    var terminate, completed;
    results, terminate, completed := ExecuteToolRound(agent, turn, calls);
    if !completed { return results, StillRunning; }
    BatchCloses(m0, agent.monitor, calls, results, terminate);
    context.messages := context.messages + results;
    CloseTurn(agent, message, results);
    outcome := TurnOver(!terminate);
  }

  /** A response that calls no tool closes its turn at once. */
  method FinishTurnWithoutTools(agent: Agent, message: Message)
    requires agent.Valid() && agent.running && AwaitsTools(agent.monitor, []) && agent.monitor.assistant == message
    modifies agent`messages, agent`streaming, agent`pendingToolCalls, agent`history, agent`monitor
    ensures agent.monitor == old(agent.monitor).(
              phase := TurnClosed, turns := old(agent.monitor.turns) + [EndedTurn(message, [], |old(agent.monitor.transcript)|)])
    ensures agent.Valid() && !MoreTools(agent.monitor)
  {
    CloseTurn(agent, message, []);
  }

  lemma ResponseStreamed(m0: Monitor, m: Monitor, message: Message, calls: seq<ToolCall>)
    requires FreshTurn(m0) && m == m0.(phase := Tools, assistant := message, transcript := m0.transcript + [message], calls := calls)
    ensures AwaitsTools(m, calls) && m.owed == m0.owed && !m.initialPoll && (calls == [] ==> MayClose(m, message, []))
  {}

  /** A turn from the model's response to turn_end; a failed response ends the run. */
  method ExecuteTurn(agent: Agent, context: LoopContext, soFar: seq<Message>, turn: Turn)
    returns (added: seq<Message>, outcome: TurnOutcome)
    requires agent.Valid() && agent.running && FreshTurn(agent.monitor) && agent.monitor.owed == []
    requires agent.monitor.transcript == soFar && KeepsProtocol(turn.stream)
    modifies agent`messages, agent`streaming, agent`pendingToolCalls, agent`history, agent`monitor, agent`executed,
             context
    ensures agent.Valid() && agent.monitor.Monitor?
    ensures (outcome.StillRunning? <==> Hangs(turn)) && (outcome.RunOver? <==> Failed(Response(turn)))
    ensures if outcome.StillRunning? then agent.monitor.turns == old(agent.monitor.turns)
            else OneMoreTurn(turn, old(agent.monitor.turns), agent.monitor.turns, |agent.monitor.transcript|)
    ensures !outcome.StillRunning? ==>
              agent.monitor.transcript == soFar + added && context.messages == old(context.messages) + added
    ensures outcome.RunOver? ==> agent.monitor.phase == RunEnded && Failed(agent.monitor.assistant)
    ensures outcome.TurnOver? ==>
              && agent.monitor.phase == TurnClosed && !Failed(agent.monitor.assistant) && !agent.monitor.initialPoll
              && agent.monitor.owed == [] && agent.monitor.open == multiset{} && MoreTools(agent.monitor) == outcome.more
  {
    hide Agent.Valid, Watch, Replay, BatchesOf, PollsOf, Observe, MoreTools, AwaitsTools, MayClose, ToolCalls, RoundHangs, RoundResults;
    ghost var m0 := agent.monitor;
    var message := StreamAssistantResponse(agent, context, turn);
    ResponseStreamed(m0, agent.monitor, message, agent.monitor.calls);
    added := [message];
    if message.stopReason == Error || message.stopReason == Aborted {
      EndFailedRun(agent, message, soFar + added);
      return added, RunOver;
    }
    var toolCalls := ToolCalls(message.content);
    if toolCalls == [] {
      FinishTurnWithoutTools(agent, message);
      return added, TurnOver(false);
    }
    var results;
    results, outcome := FinishTurnWithTools(agent, context, message, turn, toolCalls);
    assert (soFar + added) + results == soFar + (added + results);
    assert (old(context.messages) + added) + results == old(context.messages) + (added + results);
    added := added + results;
  }

  predicate KeepProtocol(turns: seq<Turn>) {
    forall i | 0 <= i < |turns| :: KeepsProtocol(turns[i].stream)
  }

  /** The inner loop is about to test whether to go round again. */
  ghost predicate AtHead(m: Monitor, firstTurn: bool, hasMoreToolCalls: bool, pending: seq<Message>, newMessages: seq<Message>) {
    && m.Monitor? && !m.initialPoll && m.owed == pending && m.transcript == newMessages
    && m.open == multiset{}
    && (firstTurn ==> FreshTurn(m) && hasMoreToolCalls)
    && (firstTurn || (m.phase == SteeringPolled && MoreTools(m) == hasMoreToolCalls)
                  || (m.phase == FollowUpPolled && pending != [] && hasMoreToolCalls))
  }

  method BeginTurn(agent: Agent, ghost firstTurn: bool, ghost more: bool, ghost pending: seq<Message>, ghost newMessages: seq<Message>)
    requires agent.Valid() && agent.running && !firstTurn && AtHead(agent.monitor, firstTurn, more, pending, newMessages)
    requires more || pending != []
    modifies agent`messages, agent`streaming, agent`pendingToolCalls, agent`history, agent`monitor
    ensures agent.Valid() && FreshTurn(agent.monitor)
    ensures agent.monitor.owed == pending && agent.monitor.transcript == newMessages
    ensures agent.monitor.turns == old(agent.monitor.turns)
  {
    hide Agent.Valid, Watch, Replay, BatchesOf, PollsOf;
    agent.ProcessEvent(TurnStart);
  }

  /** One round of the inner loop, from turn_start to turn_end. */
  method RunTurn(agent: Agent, context: LoopContext, firstTurn: bool, ghost more: bool, pending: seq<Message>,
                 soFar: seq<Message>, turn: Turn)
    returns (newMessages: seq<Message>, outcome: TurnOutcome)
    requires agent.Valid() && agent.running && AtHead(agent.monitor, firstTurn, more, pending, soFar)
    requires (more || pending != []) && KeepsProtocol(turn.stream)
    modifies agent`messages, agent`streaming, agent`pendingToolCalls, agent`history, agent`monitor, agent`executed,
             context
    ensures agent.Valid() && agent.monitor.Monitor?
    ensures (outcome.StillRunning? <==> Hangs(turn)) && (outcome.RunOver? <==> Failed(Response(turn)))
    ensures if outcome.StillRunning? then agent.monitor.turns == old(agent.monitor.turns)
            else OneMoreTurn(turn, old(agent.monitor.turns), agent.monitor.turns, |agent.monitor.transcript|)
    ensures !outcome.StillRunning? ==> agent.monitor.transcript == newMessages
    ensures !outcome.StillRunning? ==>
              soFar <= newMessages && Follows(old(context.messages), context.messages, soFar, newMessages)
    ensures outcome.RunOver? ==> agent.monitor.phase == RunEnded && Failed(agent.monitor.assistant)
    ensures outcome.TurnOver? ==>
              && agent.monitor.phase == TurnClosed && !Failed(agent.monitor.assistant) && !agent.monitor.initialPoll
              && agent.monitor.owed == [] && agent.monitor.open == multiset{} && MoreTools(agent.monitor) == outcome.more
  {
    hide Agent.Valid, Watch, Replay, BatchesOf, PollsOf, Observe, MoreTools, Hangs, Failed, KeepsProtocol, OneMoreTurn;
    if !firstTurn { BeginTurn(agent, firstTurn, more, pending, soFar); }
    InjectMessages(agent, context, pending);
    var added;
    added, outcome := ExecuteTurn(agent, context, soFar + pending, turn);
    newMessages := (soFar + pending) + added;
    assert newMessages[|soFar|..] == pending + added;
    assert (old(context.messages) + pending) + added == old(context.messages) + (pending + added);
  }

  /** The loop may stop here. */
  ghost predicate MayEnd(m: Monitor, newMessages: seq<Message>) {
    && m.Monitor? && (m.phase == TurnClosed || m.phase == FollowUpPolled)
    && m.owed == [] && m.transcript == newMessages
  }

  method EndRun(agent: Agent, newMessages: seq<Message>)
    requires agent.Valid() && agent.running && MayEnd(agent.monitor, newMessages)
    modifies agent`messages, agent`streaming, agent`pendingToolCalls, agent`history, agent`monitor
    ensures agent.Valid() && agent.monitor == old(agent.monitor).(phase := RunEnded)
    ensures agent.monitor.transcript == newMessages
  {
    hide Agent.Valid, Watch, Replay, BatchesOf, PollsOf;
    agent.ProcessEvent(AgentEnd(newMessages));
  }

  /** The steering poll at the end of a turn; others may have queued messages since the last one. */
  method PollAfterTurn(agent: Agent, arrivals: Arrivals) returns (pending: seq<Message>)
    requires agent.Valid() && agent.running && agent.monitor.Monitor? && agent.monitor.phase == TurnClosed
    requires !Failed(agent.monitor.assistant)
    modifies agent`history, agent`polls, agent`monitor, agent.steeringQueue, agent.followUpQueue
    ensures agent.Valid() && agent.monitor == old(agent.monitor).(phase := SteeringPolled, owed := pending)
    ensures OnePoll(old(agent.polls), agent.polls, Steering, pending) && agent.ModesKept()
    ensures TakesIfAny(agent.polls[|agent.polls| - 1])
    ensures agent.steeringQueue.enqueued == old(agent.steeringQueue.enqueued) + arrivals.steered
    ensures agent.followUpQueue.enqueued == old(agent.followUpQueue.enqueued) + arrivals.followUps
  {
    hide Agent.Valid, Watch, Replay, BatchesOf, PollsOf;
    agent.Arrive(arrivals);
    pending := agent.PollSteering(false);
  }

  /** The follow-up poll when the loop would stop; it stops if the queue is empty. */
  method PollBeforeStop(agent: Agent, arrivals: Arrivals, ghost newMessages: seq<Message>) returns (pending: seq<Message>)
    requires agent.Valid() && agent.running && AtHead(agent.monitor, false, false, [], newMessages)
    requires agent.monitor.phase == SteeringPolled
    modifies agent`history, agent`polls, agent`monitor, agent.steeringQueue, agent.followUpQueue
    ensures agent.Valid()
    ensures if pending == [] then MayEnd(agent.monitor, newMessages) && agent.followUpQueue.messages == []
            else AtHead(agent.monitor, false, true, pending, newMessages)
    ensures agent.monitor.Monitor? && agent.monitor.turns == old(agent.monitor.turns)
    ensures OnePoll(old(agent.polls), agent.polls, FollowUp, pending) && agent.ModesKept()
    ensures TakesIfAny(agent.polls[|agent.polls| - 1])
    ensures agent.steeringQueue.enqueued == old(agent.steeringQueue.enqueued) + arrivals.steered
    ensures agent.followUpQueue.enqueued == old(agent.followUpQueue.enqueued) + arrivals.followUps
  {
    hide Agent.Valid, Watch, Replay, BatchesOf, PollsOf;
    agent.Arrive(arrivals);
    pending := agent.PollFollowUps();
  }

  method FirstPoll(agent: Agent, arrivals: Arrivals, skip: bool, ghost newMessages: seq<Message>) returns (pending: seq<Message>)
    requires agent.Valid() && agent.running && Beginning(agent.monitor, [], newMessages) && agent.polls == []
    modifies agent`history, agent`polls, agent`monitor, agent.steeringQueue, agent.followUpQueue
    ensures agent.Valid() && AtHead(agent.monitor, true, true, pending, newMessages)
    ensures agent.monitor.Monitor? && agent.monitor.turns == []
    ensures OnePoll([], agent.polls, Steering, pending) && BeginsWithPoll(agent.polls, skip) && agent.ModesKept()
    ensures agent.steeringQueue.enqueued == old(agent.steeringQueue.enqueued) + arrivals.steered
    ensures agent.followUpQueue.enqueued == old(agent.followUpQueue.enqueued) + arrivals.followUps
  {
    hide Agent.Valid, Watch, Replay, BatchesOf, PollsOf;
    agent.Arrive(arrivals);
    pending := agent.PollSteering(skip);
  }

  predicate NeverStops(turns: seq<Turn>) {
    forall i | 0 <= i < |turns| :: !turns[i].stop
  }

  predicate ReplacesNothing(turns: seq<Turn>) {
    forall i | 0 <= i < |turns| :: turns[i].replacement.None?
  }

  /** The context is `base` plus what `newMessages` gained since `initial`. */
  ghost predicate Follows(base: seq<Message>, context: seq<Message>, initial: seq<Message>, newMessages: seq<Message>) {
    initial <= newMessages && context == base + newMessages[|initial|..]
  }

  /** A round of the inner loop with its hooks and its closing poll. */
  method RunTurnAndPoll(agent: Agent, context: LoopContext, firstTurn: bool, more: bool, pending: seq<Message>,
                        soFar: seq<Message>, turn: Turn)
    returns (newMessages: seq<Message>, nextContext: LoopContext, nextPending: seq<Message>, outcome: TurnOutcome)
    requires agent.Valid() && agent.running && AtHead(agent.monitor, firstTurn, more, pending, soFar)
    requires (more || pending != []) && KeepsProtocol(turn.stream)
    modifies agent`messages, agent`streaming, agent`pendingToolCalls, agent`history, agent`polls, agent`monitor,
             agent`executed, context, agent.steeringQueue, agent.followUpQueue
    ensures agent.Valid() && agent.monitor.Monitor?
    ensures nextContext == context || fresh(nextContext)
    ensures outcome.RunOver? ==> agent.monitor.phase == RunEnded && agent.monitor.transcript == newMessages
    ensures outcome.RunOver? ==> Failed(agent.monitor.assistant) || turn.stop
    ensures (outcome.StillRunning? <==> Hangs(turn)) && (outcome.RunOver? <==> !Hangs(turn) && EndsRun(turn))
    ensures if outcome.StillRunning? then agent.monitor.turns == old(agent.monitor.turns)
            else OneMoreTurn(turn, old(agent.monitor.turns), agent.monitor.turns, |agent.monitor.transcript|)
    ensures outcome.TurnOver? ==>
              AtHead(agent.monitor, false, outcome.more, nextPending, newMessages) && agent.monitor.phase == SteeringPolled
    ensures !outcome.StillRunning? ==>
              && agent.monitor.transcript == newMessages && soFar <= newMessages
              && if Replaces(turn) then nextContext.messages == turn.replacement.value
                 else nextContext == context && Follows(old(context.messages), context.messages, soFar, newMessages)
    ensures if outcome.TurnOver?
            then OnePoll(old(agent.polls), agent.polls, Steering, nextPending) && TakesIfAny(agent.polls[|agent.polls| - 1])
            else agent.polls == old(agent.polls)
    ensures agent.ModesKept()
    ensures agent.steeringQueue.enqueued
            == old(agent.steeringQueue.enqueued) + if outcome.TurnOver? then turn.arrivals.steered else []
    ensures agent.followUpQueue.enqueued
            == old(agent.followUpQueue.enqueued) + if outcome.TurnOver? then turn.arrivals.followUps else []
  {
    hide Agent.Valid, Watch, Replay, BatchesOf, PollsOf, Observe, MoreTools, Follows, RoundHangs, OneMoreTurn;
    nextContext, nextPending := context, [];
    newMessages, outcome := RunTurn(agent, context, firstTurn, more, pending, soFar, turn);
    if !outcome.TurnOver? { return; }
    if turn.replacement.Some? { nextContext := new LoopContext(turn.replacement.value); }
    if turn.stop {
      EndRun(agent, newMessages);
      outcome := RunOver;
      return;
    }
    ghost var m := agent.monitor;
    nextPending := PollAfterTurn(agent, turn.arrivals);
    PollKeepsMore(m, nextPending);
  }

  lemma PollKeepsMore(m: Monitor, pending: seq<Message>)
    requires m.Monitor?
    ensures MoreTools(m.(phase := SteeringPolled, owed := pending)) == MoreTools(m)
  {}

  lemma TurnArrivals(script: Script, t: nat)
    requires t < |script.turns|
    ensures ArrivalsAt(script, t + 1, Steering) == script.turns[t].arrivals
    ensures ArrivalsAt(script, t + 2, FollowUp) == script.turns[t].lateArrivals
  {}

  /** A hook replaces the context after this turn; a failed turn asks no hook. */
  predicate Replaces(turn: Turn) {
    turn.replacement.Some? && !Failed(Response(turn))
  }

  /** The last of the first `n` turns after which the context was replaced. */
  function LastReplaced(turns: seq<Turn>, n: nat): (k: Option<nat>)
    requires n <= |turns|
    ensures k.Some? ==> k.value < n && Replaces(turns[k.value]) && forall j | k.value < j < n :: !Replaces(turns[j])
    ensures k.None? ==> forall j | 0 <= j < n :: !Replaces(turns[j])
  {
    if n == 0 then None else if Replaces(turns[n - 1]) then Some(n - 1) else LastReplaced(turns, n - 1)
  }

  /** The context that a run leaves behind: the last one put in its place, or its own, and the messages since then. */
  ghost predicate Consistent(script: Script, turns: seq<EndedTurn>, context: LoopContext, initialContext: LoopContext,
                             base: seq<Message>, initial: seq<Message>, newMessages: seq<Message>)
    reads context
  {
    && |turns| <= |script.turns| && initial <= newMessages
    && match LastReplaced(script.turns, |turns|)
       case None => context == initialContext && context.messages == base + newMessages[|initial|..]
       case Some(k) =>
         turns[k].upTo <= |newMessages|
         && context.messages == script.turns[k].replacement.value + newMessages[turns[k].upTo..]
  }

  lemma ConsistentFrom(script: Script, context: LoopContext, base: seq<Message>, initial: seq<Message>)
    requires context.messages == base
    ensures Consistent(script, [], context, context, base, initial, initial)
  {
    assert base + initial[|initial|..] == base;
  }

  /**
   `runLoop`.  `completed` is false if the script gave out first.  A completed run ends with agent_end; its new messages
   are the run's transcript, and unless a hook replaced the context, the context is what it was plus the new messages.
   The queues have received what arrived at each poll, and nothing else has been done to them but polling; a run that
   neither fails nor is stopped leaves no follow-up behind.
   */
  method RunLoop(agent: Agent, initialContext: LoopContext, initial: seq<Message>, script: Script, skip: bool)
    returns (newMessages: seq<Message>, context: LoopContext, completed: bool, ghost polled: nat)
    requires agent.Valid() && agent.running && KeepProtocol(script.turns)
    requires Beginning(agent.monitor, [], initial) && agent.polls == []
    modifies agent`messages, agent`streaming, agent`pendingToolCalls, agent`history, agent`polls, agent`monitor,
             agent`executed, initialContext, agent.steeringQueue, agent.followUpQueue
    ensures agent.Valid() && agent.monitor.Monitor?
    ensures completed ==> agent.monitor.phase == RunEnded && agent.monitor.transcript == newMessages
    ensures TookTurns(script, agent.monitor.turns, agent.polls, completed)
    ensures completed ==>
              Consistent(script, agent.monitor.turns, context, initialContext, old(initialContext.messages), initial, newMessages)
    ensures BeginsWithPoll(agent.polls, skip) && agent.ModesKept()
    ensures Received(script, agent.polls, polled, old(agent.steeringQueue.enqueued), old(agent.followUpQueue.enqueued),
                     agent.steeringQueue.enqueued, agent.followUpQueue.enqueued)
    ensures completed && !Failed(agent.monitor.assistant) && NeverStops(script.turns) ==> agent.followUpQueue.messages == []
  {
    hide Agent.Valid, Watch, Replay, BatchesOf, PollsOf, Observe, MoreTools, AtHead, MayEnd, Beginning, Consistent, Failed,
         Received, ArrivalsAt, KeepProtocol, NeverStops, Taking, TookTurns, BeginsWithPoll, FoundNothing, OnePoll;
    newMessages, context := initial, initialContext;
    ghost var base, s0, f0 := initialContext.messages, agent.steeringQueue.enqueued, agent.followUpQueue.enqueued;
    ConsistentFrom(script, context, base, initial);
    var firstTurn := true;
    var pendingMessages := FirstPoll(agent, script.arrivals, skip, newMessages);
    TakesNone(script);
    FirstReceived(script, agent.polls, s0, f0, pendingMessages);
    var t := 0;
    while true
      invariant 0 <= t <= |script.turns| && agent.Valid() && agent.ModesKept() && BeginsWithPoll(agent.polls, skip)
      invariant context == initialContext || fresh(context)
      invariant AtHead(agent.monitor, firstTurn, true, pendingMessages, newMessages)
      invariant agent.monitor.Monitor? && Taking(script, agent.monitor.turns, t)
      invariant Consistent(script, agent.monitor.turns, context, initialContext, base, initial, newMessages)
      invariant Received(script, agent.polls, t + 1, s0, f0, agent.steeringQueue.enqueued, agent.followUpQueue.enqueued)
      decreases |script.turns| - t
    {
      var hasMoreToolCalls := true;
      ghost var t0 := t;
      while hasMoreToolCalls || pendingMessages != []
        invariant t0 <= t <= |script.turns| && agent.Valid() && (t > t0 || hasMoreToolCalls)
        invariant agent.ModesKept() && BeginsWithPoll(agent.polls, skip)
        invariant context == initialContext || fresh(context)
        invariant AtHead(agent.monitor, firstTurn, hasMoreToolCalls, pendingMessages, newMessages)
        invariant agent.monitor.Monitor? && Taking(script, agent.monitor.turns, t)
        invariant t > t0 ==> agent.monitor.phase == SteeringPolled && !firstTurn
        invariant Consistent(script, agent.monitor.turns, context, initialContext, base, initial, newMessages)
        invariant Received(script, agent.polls, t + 1, s0, f0, agent.steeringQueue.enqueued, agent.followUpQueue.enqueued)
        decreases |script.turns| - t
      {
        if t == |script.turns| {
          TakesNoMore(script, agent.monitor.turns, t, agent.polls);
          return newMessages, context, false, t + 1;
        }
        var outcome;
        newMessages, context, pendingMessages, outcome :=
          RunTurnOfLoop(agent, context, initialContext, base, initial, firstTurn, hasMoreToolCalls, pendingMessages,
                        newMessages, script, t, s0, f0);
        if outcome.StillRunning? { return newMessages, context, false, t + 1; }
        if outcome.RunOver? { return newMessages, context, true, t + 1; }
        t := t + 1;
        firstTurn := false;
        hasMoreToolCalls := outcome.more;
      }
      pendingMessages := PollAfterRound(agent, newMessages, script, t - 1, s0, f0);
      if pendingMessages == [] {
        TakesNoMore(script, agent.monitor.turns, t, agent.polls);
        break;
      }
    }
    EndRun(agent, newMessages);
    completed, polled := true, t + 1;
  }

  lemma TakesNone(script: Script)
    ensures Taking(script, [], 0)
  {}

  lemma FirstReceived(script: Script, polls: seq<Poll>, s0: seq<Message>, f0: seq<Message>, batch: seq<Message>)
    requires OnePoll([], polls, Steering, batch)
    ensures Received(script, polls, 1, s0, f0, s0 + script.arrivals.steered, f0 + script.arrivals.followUps)
  {
    hide Received;
    NothingReceived(script, s0, f0);
    ReceivesMore(script, [], 0, s0, f0, s0, f0, polls[0], script.arrivals);
    assert polls == [] + [polls[0]];
  }

  lemma AtHeadIsLive(m: Monitor, firstTurn: bool, more: bool, pending: seq<Message>, newMessages: seq<Message>)
    requires AtHead(m, firstTurn, more, pending, newMessages)
    ensures m.Monitor?
  {}

  lemma ConsistentOn(script: Script, t: nat, turns: seq<EndedTurn>, after: seq<EndedTurn>, before: seq<Message>,
                     context: LoopContext, next: LoopContext, initialContext: LoopContext, base: seq<Message>,
                     initial: seq<Message>, soFar: seq<Message>, newMessages: seq<Message>)
    requires t == |turns| < |script.turns| && OneMoreTurn(script.turns[t], turns, after, |newMessages|)
    requires initial <= soFar <= newMessages
    requires match LastReplaced(script.turns, t)
             case None => context == initialContext && before == base + soFar[|initial|..]
             case Some(k) => turns[k].upTo <= |soFar| && before == script.turns[k].replacement.value + soFar[turns[k].upTo..]
    requires if Replaces(script.turns[t]) then next.messages == script.turns[t].replacement.value
             else next == context && Follows(before, next.messages, soFar, newMessages)
    ensures Consistent(script, after, next, initialContext, base, initial, newMessages)
  {
    hide EndedAs, Failed;
    if Replaces(script.turns[t]) {
      assert newMessages[|newMessages|..] == [];
    } else {
      assert forall i | 0 <= i < t :: after[i] == after[..t][i] == turns[i];
      match LastReplaced(script.turns, t)
      case None => FollowsFrom(base, before, |initial|, soFar, newMessages);
      case Some(k) => FollowsFrom(script.turns[k].replacement.value, before, turns[k].upTo, soFar, newMessages);
    }
  }

  lemma FollowsFrom(base: seq<Message>, before: seq<Message>, from: nat, soFar: seq<Message>, newMessages: seq<Message>)
    requires from <= |soFar| && soFar <= newMessages && before == base + soFar[from..]
    ensures before + newMessages[|soFar|..] == base + newMessages[from..]
  {
    assert newMessages[from..] == soFar[from..] + newMessages[|soFar|..];
  }

  /** The first `t` turns of the script have been taken, and none of them ended the run. */
  ghost predicate Taking(script: Script, turns: seq<EndedTurn>, t: nat) {
    && |turns| == t <= |script.turns|
    && forall i | 0 <= i < t ::
         EndedAs(script.turns[i], turns[i]) && !Hangs(script.turns[i]) && !EndsRun(script.turns[i])
  }

  /** The last poll was of the follow-up queue, which was empty. */
  predicate FoundNothing(polls: seq<Poll>) {
    polls != [] && polls[|polls| - 1] == Poll(FollowUp, [], [])
  }

  /**
   Which turns a run has taken: those of the script, in order, up to the first that ends the run. A run that has
   completed without such a turn has found no follow-up; one that has not waits for a tool, or for more script.
   */
  ghost predicate TookTurns(script: Script, turns: seq<EndedTurn>, polls: seq<Poll>, completed: bool) {
    var n := |turns|;
    if completed then
      && 0 < n <= |script.turns| && Taking(script, turns[..n - 1], n - 1)
      && EndedAs(script.turns[n - 1], turns[n - 1]) && !Hangs(script.turns[n - 1])
      && (EndsRun(script.turns[n - 1]) || FoundNothing(polls))
    else
      Taking(script, turns, n) && (n == |script.turns| || Hangs(script.turns[n]))
  }

  lemma TakesTurn(script: Script, turns: seq<EndedTurn>, t: nat, after: seq<EndedTurn>, polls: seq<Poll>, upTo: nat)
    requires Taking(script, turns, t) && t < |script.turns|
    requires if Hangs(script.turns[t]) then after == turns else OneMoreTurn(script.turns[t], turns, after, upTo)
    ensures |turns| == t
    ensures if Hangs(script.turns[t]) then TookTurns(script, after, polls, false)
            else if EndsRun(script.turns[t]) then TookTurns(script, after, polls, true)
            else Taking(script, after, t + 1)
  {
    hide Hangs, EndsRun, EndedAs;
    assert !Hangs(script.turns[t]) ==> after[..t] == turns && forall i | 0 <= i < t :: after[i] == turns[i];
  }

  lemma TakesNoMore(script: Script, turns: seq<EndedTurn>, t: nat, polls: seq<Poll>)
    requires Taking(script, turns, t)
    ensures t == |script.turns| ==> TookTurns(script, turns, polls, false)
    ensures t > 0 && FoundNothing(polls) ==> TookTurns(script, turns, polls, true)
  {
    hide Hangs, EndsRun;
  }

  /** The same round, as the loop sees it: its `t`-th turn. */
  method RunTurnOfLoop(agent: Agent, context: LoopContext, ghost initialContext: LoopContext, ghost base: seq<Message>,
                       ghost initial: seq<Message>, firstTurn: bool, more: bool, pending: seq<Message>,
                       soFar: seq<Message>, script: Script, t: nat, ghost s0: seq<Message>, ghost f0: seq<Message>)
    returns (newMessages: seq<Message>, nextContext: LoopContext, nextPending: seq<Message>, outcome: TurnOutcome)
    requires agent.Valid() && agent.running && AtHead(agent.monitor, firstTurn, more, pending, soFar)
    requires (more || pending != []) && t < |script.turns| && KeepProtocol(script.turns)
    requires agent.monitor.Monitor? && Taking(script, agent.monitor.turns, t)
    requires Consistent(script, agent.monitor.turns, context, initialContext, base, initial, soFar)
    requires Received(script, agent.polls, t + 1, s0, f0, agent.steeringQueue.enqueued, agent.followUpQueue.enqueued)
    modifies agent`messages, agent`streaming, agent`pendingToolCalls, agent`history, agent`polls, agent`monitor,
             agent`executed, context, agent.steeringQueue, agent.followUpQueue
    ensures agent.Valid() && agent.monitor.Monitor?
    ensures nextContext == context || fresh(nextContext)
    ensures outcome.RunOver? ==> agent.monitor.phase == RunEnded && agent.monitor.transcript == newMessages
    ensures outcome.RunOver? ==> Failed(agent.monitor.assistant) || !NeverStops(script.turns)
    ensures if outcome.TurnOver? then Taking(script, agent.monitor.turns, t + 1)
            else TookTurns(script, agent.monitor.turns, agent.polls, outcome.RunOver?)
    ensures outcome.TurnOver? ==>
              AtHead(agent.monitor, false, outcome.more, nextPending, newMessages) && agent.monitor.phase == SteeringPolled
    ensures !outcome.StillRunning? ==>
              Consistent(script, agent.monitor.turns, nextContext, initialContext, base, initial, newMessages)
    ensures agent.ModesKept() && forall skip :: BeginsWithPoll(old(agent.polls), skip) ==> BeginsWithPoll(agent.polls, skip)
    ensures Received(script, agent.polls, if outcome.TurnOver? then t + 2 else t + 1, s0, f0,
                     agent.steeringQueue.enqueued, agent.followUpQueue.enqueued)
  {
    hide Agent.Valid, Watch, Replay, BatchesOf, PollsOf, Observe, MoreTools, AtHead, Failed, Follows, Received, ArrivalsAt,
         Hangs, EndsRun, Taking, TookTurns, OneMoreTurn;
    ghost var turns := agent.monitor.turns;
    ghost var before, polls, s, f :=
      context.messages, agent.polls, agent.steeringQueue.enqueued, agent.followUpQueue.enqueued;
    newMessages, nextContext, nextPending, outcome :=
      RunTurnAndPoll(agent, context, firstTurn, more, pending, soFar, script.turns[t]);
    TakesTurn(script, turns, t, agent.monitor.turns, agent.polls, |agent.monitor.transcript|);
    if !outcome.StillRunning? {
      ConsistentOn(script, t, turns, agent.monitor.turns, before, context, nextContext, initialContext, base,
                   initial, soFar, newMessages);
    }
    if outcome.TurnOver? {
      TurnArrivals(script, t);
      ReceivesMore(script, polls, t + 1, s0, f0, s, f, agent.polls[|polls|], script.turns[t].arrivals);
      assert agent.polls == polls + [agent.polls[|polls|]];
    } else {
      assert polls + [] == polls && s + [] == s && f + [] == f;
    }
  }

  /** The follow-up poll, as the loop sees it: after its `t`-th turn. */
  method PollAfterRound(agent: Agent, ghost newMessages: seq<Message>, script: Script, t: nat,
                        ghost s0: seq<Message>, ghost f0: seq<Message>)
    returns (pending: seq<Message>)
    requires agent.Valid() && agent.running && AtHead(agent.monitor, false, false, [], newMessages)
    requires agent.monitor.phase == SteeringPolled && t < |script.turns|
    requires Received(script, agent.polls, t + 2, s0, f0, agent.steeringQueue.enqueued, agent.followUpQueue.enqueued)
    modifies agent`history, agent`polls, agent`monitor, agent.steeringQueue, agent.followUpQueue
    ensures agent.Valid()
    ensures if pending == [] then MayEnd(agent.monitor, newMessages) && agent.followUpQueue.messages == []
            else AtHead(agent.monitor, false, true, pending, newMessages)
    ensures agent.monitor.Monitor? && agent.monitor.turns == old(agent.monitor.turns)
    ensures agent.ModesKept() && forall skip :: BeginsWithPoll(old(agent.polls), skip) ==> BeginsWithPoll(agent.polls, skip)
    ensures OnePoll(old(agent.polls), agent.polls, FollowUp, pending) && (pending == [] ==> FoundNothing(agent.polls))
    ensures Received(script, agent.polls, t + 2, s0, f0, agent.steeringQueue.enqueued, agent.followUpQueue.enqueued)
  {
    hide Agent.Valid, Watch, Replay, BatchesOf, PollsOf, AtHead, MayEnd, Received, ArrivalsAt;
    ghost var polls, s, f := agent.polls, agent.steeringQueue.enqueued, agent.followUpQueue.enqueued;
    AtHeadIsLive(agent.monitor, false, false, [], newMessages);
    pending := PollBeforeStop(agent, script.turns[t].lateArrivals, newMessages);
    TurnArrivals(script, t);
    ReceivesMore(script, polls, t + 2, s0, f0, s, f, agent.polls[|polls|], script.turns[t].lateArrivals);
    assert agent.polls == polls + [agent.polls[|polls|]];
  }

  // ----- runs of the Agent -----

  /** The monitor after agent_start and turn_start, with `owed` prompts to go. */
  ghost predicate Beginning(m: Monitor, owed: seq<Message>, transcript: seq<Message>) {
    m.Monitor? && m.initialPoll && FreshTurn(m.(initialPoll := false)) && m.owed == owed && m.transcript == transcript
    && m.turns == []
  }

  method EmitPrompts(agent: Agent, prompts: seq<Message>)
    requires agent.Valid() && agent.running && Beginning(agent.monitor, prompts, [])
    modifies agent`messages, agent`streaming, agent`pendingToolCalls, agent`history, agent`monitor
    ensures agent.Valid() && Beginning(agent.monitor, [], prompts)
  {
    hide Agent.Valid, Watch, Replay, BatchesOf, PollsOf;
    for i := 0 to |prompts|
      invariant agent.Valid() && Beginning(agent.monitor, prompts[i..], prompts[..i])
    {
      agent.ProcessEvent(MessageStart(prompts[i]));
      agent.ProcessEvent(MessageEnd(prompts[i]));
      assert prompts[..i + 1] == prompts[..i] + [prompts[i]];
    }
    assert prompts[..|prompts|] == prompts;
  }

  method StartRun(agent: Agent)
    requires agent.Valid() && agent.running && agent.history == [] && agent.monitor == Start(agent.prompts)
    modifies agent`messages, agent`streaming, agent`pendingToolCalls, agent`history, agent`monitor
    ensures agent.Valid() && Beginning(agent.monitor, agent.prompts, [])
  {
    hide Agent.Valid, Watch, Replay, BatchesOf, PollsOf;
    agent.ProcessEvent(AgentStart);
    agent.ProcessEvent(TurnStart);
  }

  lemma ContextGrew(script: Script, turns: seq<EndedTurn>, context: LoopContext, initialContext: LoopContext,
                    base: seq<Message>, prompts: seq<Message>, newMessages: seq<Message>)
    requires Consistent(script, turns, context, initialContext, base + prompts, prompts, newMessages)
    ensures ReplacesNothing(script.turns) ==> context == initialContext && context.messages == base + newMessages
  {
    if ReplacesNothing(script.turns) {
      assert LastReplaced(script.turns, |turns|).None?;
      assert (base + prompts) + newMessages[|prompts|..] == base + (prompts + newMessages[|prompts|..]);
      assert prompts + newMessages[|prompts|..] == newMessages;
    }
  }

  /** `runAgentLoop`: the prompts are the first new messages, and the caller's context stays as it was. */
  method RunAgentLoop(agent: Agent, prompts: seq<Message>, context: LoopContext, script: Script, skip: bool)
    returns (newMessages: seq<Message>, finalContext: LoopContext, completed: bool)
    requires agent.Valid() && agent.running && KeepProtocol(script.turns)
    requires agent.prompts == prompts && agent.history == [] && agent.polls == [] && agent.monitor == Start(prompts)
    modifies agent`messages, agent`streaming, agent`pendingToolCalls, agent`history, agent`polls, agent`monitor,
             agent`executed, agent.steeringQueue, agent.followUpQueue
    ensures agent.Valid() && agent.monitor.Monitor?
    ensures completed ==> agent.monitor.phase == RunEnded && agent.monitor.transcript == newMessages
    ensures TookTurns(script, agent.monitor.turns, agent.polls, completed)
    ensures completed && ReplacesNothing(script.turns) ==> finalContext.messages == context.messages + newMessages
    ensures BeginsWithPoll(agent.polls, skip) && agent.ModesKept()
    ensures agent.steeringQueue.enqueued == old(agent.steeringQueue.enqueued) + Arrived(script, agent.polls, Steering)
    ensures agent.followUpQueue.enqueued == old(agent.followUpQueue.enqueued) + Arrived(script, agent.polls, FollowUp)
    ensures completed && !Failed(agent.monitor.assistant) && NeverStops(script.turns) ==> agent.followUpQueue.messages == []
  {
    hide Agent.Valid, Watch, Replay, BatchesOf, PollsOf, Observe, Beginning, Consistent, Arrived, Failed, NeverStops, TookTurns;
    var currentContext := new LoopContext(context.messages + prompts);
    StartRun(agent);
    EmitPrompts(agent, prompts);
    ghost var polled;
    newMessages, finalContext, completed, polled := RunLoop(agent, currentContext, prompts, script, skip);
    if completed {
      ContextGrew(script, agent.monitor.turns, finalContext, currentContext, context.messages, prompts, newMessages);
    }
  }

  datatype RunStatus = Rejected(reason: string) | Completed | InProgress

  predicate EndsWithAssistant(messages: seq<Message>) {
    messages != [] && messages[|messages| - 1].Assistant?
  }

  /** A run without prompts, whose messages go into the caller's own context. */
  method RunWithoutPrompts(agent: Agent, context: LoopContext, script: Script)
    returns (newMessages: seq<Message>, finalContext: LoopContext, completed: bool)
    requires agent.Valid() && agent.running && KeepProtocol(script.turns)
    requires agent.prompts == [] && agent.history == [] && agent.polls == [] && agent.monitor == Start([])
    modifies agent`messages, agent`streaming, agent`pendingToolCalls, agent`history, agent`polls, agent`monitor,
             agent`executed, context, agent.steeringQueue, agent.followUpQueue
    ensures agent.Valid() && agent.monitor.Monitor?
    ensures completed ==> agent.monitor.phase == RunEnded && agent.monitor.transcript == newMessages
    ensures TookTurns(script, agent.monitor.turns, agent.polls, completed)
    ensures completed && ReplacesNothing(script.turns) ==>
              finalContext == context && context.messages == old(context.messages) + newMessages
    ensures BeginsWithPoll(agent.polls, false) && agent.ModesKept()
    ensures agent.steeringQueue.enqueued == old(agent.steeringQueue.enqueued) + Arrived(script, agent.polls, Steering)
    ensures agent.followUpQueue.enqueued == old(agent.followUpQueue.enqueued) + Arrived(script, agent.polls, FollowUp)
    ensures completed && !Failed(agent.monitor.assistant) && NeverStops(script.turns) ==> agent.followUpQueue.messages == []
  {
    hide Agent.Valid, Watch, Replay, BatchesOf, PollsOf, Observe, Beginning, Arrived, Failed, NeverStops, Follows, TookTurns,
         KeepProtocol, BeginsWithPoll, AtHead, FreshTurn;
    ghost var base := context.messages;
    StartRun(agent);
    ghost var polled;
    newMessages, finalContext, completed, polled := RunLoop(agent, context, [], script, false);
    if completed {
      assert base + [] == base;
      ContextGrew(script, agent.monitor.turns, finalContext, context, base, [], newMessages);
    }
  }

  /** `runAgentLoopContinue`: refused without messages or after an assistant message. */
  method RunAgentLoopContinue(agent: Agent, context: LoopContext, script: Script)
    returns (newMessages: seq<Message>, finalContext: LoopContext, status: RunStatus)
    requires agent.Valid() && agent.running && KeepProtocol(script.turns)
    requires agent.prompts == [] && agent.history == [] && agent.polls == [] && agent.monitor == Start([])
    modifies agent`messages, agent`streaming, agent`pendingToolCalls, agent`history, agent`polls, agent`monitor,
             agent`executed, context, agent.steeringQueue, agent.followUpQueue
    ensures agent.Valid() && agent.monitor.Monitor?
    ensures status.Rejected? <==> old(context.messages) == [] || EndsWithAssistant(old(context.messages))
    ensures status.Rejected? ==> agent.history == [] && context.messages == old(context.messages)
    ensures status.Rejected? ==> unchanged(agent.steeringQueue) && unchanged(agent.followUpQueue)
    ensures status.Completed? ==> agent.monitor.phase == RunEnded && agent.monitor.transcript == newMessages
    ensures !status.Rejected? ==> TookTurns(script, agent.monitor.turns, agent.polls, status.Completed?)
    ensures status.Completed? && ReplacesNothing(script.turns) ==>
              finalContext == context && context.messages == old(context.messages) + newMessages
    ensures agent.ModesKept() && (!status.Rejected? ==> BeginsWithPoll(agent.polls, false))
    ensures agent.steeringQueue.enqueued == old(agent.steeringQueue.enqueued) + Arrived(script, agent.polls, Steering)
    ensures agent.followUpQueue.enqueued == old(agent.followUpQueue.enqueued) + Arrived(script, agent.polls, FollowUp)
    ensures status.Completed? && !Failed(agent.monitor.assistant) && NeverStops(script.turns) ==>
              agent.followUpQueue.messages == []
  {
    NothingArrives(script, agent.steeringQueue.enqueued, Steering);
    NothingArrives(script, agent.followUpQueue.enqueued, FollowUp);
    hide Agent.Valid, Watch, Replay, Arrived, Failed, NeverStops, TookTurns, KeepProtocol, BeginsWithPoll, ReplacesNothing;
    newMessages, finalContext := [], context;
    if context.messages == [] {
      return newMessages, finalContext, Rejected("Cannot continue: no messages in context");
    }
    if context.messages[|context.messages| - 1].Assistant? {
      return newMessages, finalContext, Rejected("Cannot continue from message role: assistant");
    }
    var completed;
    newMessages, finalContext, completed := RunWithoutPrompts(agent, context, script);
    status := if completed then Completed else InProgress;
  }

  lemma NothingArrives(script: Script, messages: seq<Message>, queue: Source)
    ensures messages == messages + Arrived(script, [], queue)
  {}

  /** What a completed run leaves behind, beginning from `messages` with `prompts`. */
  ghost predicate RunDone(prompts: seq<Message>, history: seq<Entry>, before: seq<Message>, after: seq<Message>) {
    && Complete(prompts, history)
    && after == before + MessageEnds(history)
    && Injected(prompts, history) == prompts + Batches(history)
    && Shuffled(MessageEnds(history), Injected(prompts, history), Others(prompts, history))
  }

  lemma RunIsDone(prompts: seq<Message>, history: seq<Entry>, before: seq<Message>, r: Reduced)
    requires Complete(prompts, history) && Replay(Reduced(before, false, {}), history) == r
    ensures RunDone(prompts, history, before, r.messages)
  {
    hide Watch, Replay, Injected, Others, Batches, MessageEnds, Shuffled;
    ReplayAppends(prompts, history, before);
    InjectedExactlyOnce(prompts, history);
    TranscriptIsShuffled(prompts, history);
    assert Injected(prompts, history) + [] == Injected(prompts, history);
  }

  /** Everything that others queued while the run of `history` went on. */
  function ArrivedDuring(script: Script, history: seq<Entry>, queue: Source): seq<Message> {
    Arrived(script, PollsOf(history), queue)
  }

  /** The bookkeeping before the first event of a run. */
  method BeginLifecycle(agent: Agent, prompts: seq<Message>)
    requires agent.Valid() && !agent.running
    modifies agent
    ensures agent.Valid() && agent.running && agent.messages == old(agent.messages)
    ensures agent.prompts == prompts && agent.history == [] && agent.polls == [] && agent.monitor == Start(prompts)
    ensures agent.base == agent.messages
    ensures agent.steeredBefore == agent.steeringQueue.taken && agent.followedBefore == agent.followUpQueue.taken
  {
    agent.running := true;
    agent.history, agent.polls, agent.monitor, agent.prompts, agent.base := [], [], Start(prompts), prompts, agent.messages;
    agent.executed := [];
    agent.steeredBefore, agent.followedBefore := agent.steeringQueue.taken, agent.followUpQueue.taken;
    assert agent.steeredBefore + [] == agent.steeredBefore && agent.followedBefore + [] == agent.followedBefore;
  }

  /** `finishRun`. */
  method FinishRun(agent: Agent)
    requires agent.Valid() && agent.running && agent.monitor.Monitor? && agent.monitor.phase == RunEnded
    modifies agent`running, agent`streaming, agent`pendingToolCalls
    ensures agent.Valid() && !agent.running
    ensures RunDone(agent.prompts, agent.history, agent.base, agent.messages)
  {
    hide Watch, Replay, BatchesOf, PollsOf, RunDone;
    RunIsDone(agent.prompts, agent.history, agent.base, agent.View());
    agent.running, agent.streaming, agent.pendingToolCalls := false, false, {};
  }

  /**
   `runWithLifecycle` around `runAgentLoop` or, if `continuing`, `runAgentLoopContinue`; `completed` is false while the
   run is in progress.  For both queues, what was queued and what arrived is what was taken and what is still queued.
   */
  method RunWithLifecycle(agent: Agent, prompts: seq<Message>, continuing: bool, script: Script, skip: bool)
    returns (completed: bool)
    requires agent.Valid() && !agent.running && KeepProtocol(script.turns)
    requires continuing ==> prompts == [] && !skip && agent.messages != [] && !EndsWithAssistant(agent.messages)
    modifies agent, agent.steeringQueue, agent.followUpQueue
    ensures agent.Valid() && agent.running == !completed
    ensures completed ==> RunDone(prompts, agent.history, old(agent.messages), agent.messages)
    ensures TookTurns(script, TurnEnds(agent.history), PollsOf(agent.history), completed)
    ensures QueueKept(old(agent.steeringQueue.messages), ArrivedDuring(script, agent.history, Steering),
                      BatchesOf(agent.history, Steering), agent.steeringQueue.messages)
    ensures QueueKept(old(agent.followUpQueue.messages), ArrivedDuring(script, agent.history, FollowUp),
                      BatchesOf(agent.history, FollowUp), agent.followUpQueue.messages)
    ensures BeginsWithPoll(PollsOf(agent.history), skip) && agent.ModesKept()
    ensures InMode(PollsOf(agent.history), agent.steeringQueue.mode, agent.followUpQueue.mode)
    ensures completed && !Failed(LastResponse(prompts, agent.history)) && NeverStops(script.turns) ==>
              agent.followUpQueue.messages == []
  {
    hide Watch, Replay, BatchesOf, PollsOf, TurnEnds, RunDone, QueueKept, Arrived, Failed, NeverStops, TookTurns;
    ghost var s0, f0 := agent.steeringQueue.messages, agent.followUpQueue.messages;
    BeginLifecycle(agent, prompts);
    var context := new LoopContext(agent.messages);
    var newMessages, finalContext;
    if continuing {
      var status;
      newMessages, finalContext, status := RunAgentLoopContinue(agent, context, script);
      completed := status.Completed?;
    } else {
      newMessages, finalContext, completed := RunAgentLoop(agent, prompts, context, script, skip);
    }
    Conserved(agent.steeredBefore, s0, Arrived(script, agent.polls, Steering), BatchesOf(agent.history, Steering),
              agent.steeringQueue.messages);
    Conserved(agent.followedBefore, f0, Arrived(script, agent.polls, FollowUp), BatchesOf(agent.history, FollowUp),
              agent.followUpQueue.messages);
    TurnsAreLogged(prompts, agent.history);
    if completed { FinishRun(agent); }
  }

  /** The response of the last turn. */
  function LastResponse(prompts: seq<Message>, history: seq<Entry>): Message {
    var m := Watch(Start(prompts), history);
    if m.Monitor? then m.assistant else User("")
  }

  /** `prompt`. */
  method Prompt(agent: Agent, prompts: seq<Message>, script: Script) returns (status: RunStatus)
    requires agent.Valid() && KeepProtocol(script.turns)
    modifies agent, agent.steeringQueue, agent.followUpQueue
    ensures agent.Valid()
    ensures status.Rejected? <==> old(agent.running)
    ensures status.Rejected? ==> agent.messages == old(agent.messages) && agent.history == old(agent.history)
    ensures status.Rejected? ==> unchanged(agent.steeringQueue) && unchanged(agent.followUpQueue)
    ensures status.Completed? ==> !agent.running && RunDone(prompts, agent.history, old(agent.messages), agent.messages)
    ensures !status.Rejected? ==>
              TookTurns(script, TurnEnds(agent.history), PollsOf(agent.history), status.Completed?)
    ensures !status.Rejected? ==>
              && QueueKept(old(agent.steeringQueue.messages), ArrivedDuring(script, agent.history, Steering),
                           BatchesOf(agent.history, Steering), agent.steeringQueue.messages)
              && QueueKept(old(agent.followUpQueue.messages), ArrivedDuring(script, agent.history, FollowUp),
                           BatchesOf(agent.history, FollowUp), agent.followUpQueue.messages)
    ensures !status.Rejected? ==> InMode(PollsOf(agent.history), agent.steeringQueue.mode, agent.followUpQueue.mode)
    ensures agent.ModesKept()
    ensures status.Completed? && !Failed(LastResponse(prompts, agent.history)) && NeverStops(script.turns) ==>
              agent.followUpQueue.messages == []
  {
    hide Agent.Valid, Watch, Replay, BatchesOf, PollsOf, RunDone, QueueKept, ArrivedDuring, LastResponse, Failed, NeverStops,
         TookTurns, TurnEnds;
    if agent.running { return Rejected("Agent is already processing a prompt"); }
    var completed := RunWithLifecycle(agent, prompts, false, script, false);
    status := if completed then Completed else InProgress;
  }

  /** What `continue` would take as prompts: queued messages, if the transcript ends with the assistant. */
  method TakePrompts(agent: Agent) returns (prompts: seq<Message>, skip: bool)
    requires agent.Valid() && !agent.running
    modifies agent.steeringQueue, agent.followUpQueue
    ensures agent.Valid() && agent.ModesKept() && (prompts != [] ==> EndsWithAssistant(agent.messages))
    ensures EndsWithAssistant(agent.messages) ==>
              prompts == if skip then DueFrom(agent.steeringQueue.mode, old(agent.steeringQueue.messages))
                         else DueFrom(agent.followUpQueue.mode, old(agent.followUpQueue.messages))
    ensures EndsWithAssistant(agent.messages) ==>
              (prompts == [] <==> old(agent.steeringQueue.messages) == [] && old(agent.followUpQueue.messages) == [])
    ensures skip <==> EndsWithAssistant(agent.messages) && old(agent.steeringQueue.messages) != []
    ensures old(agent.steeringQueue.messages) == (if skip then prompts else []) + agent.steeringQueue.messages
    ensures old(agent.followUpQueue.messages) == (if skip then [] else prompts) + agent.followUpQueue.messages
  {
    hide Watch, Replay, BatchesOf, PollsOf;
    prompts, skip := [], false;
    if EndsWithAssistant(agent.messages) {
      prompts := agent.steeringQueue.Drain();
      skip := prompts != [];
      if prompts == [] { prompts := agent.followUpQueue.Drain(); }
    }
  }

  /** `continue`: queued messages become the prompts if the transcript ends with the assistant. */
  method Continue(agent: Agent, script: Script) returns (status: RunStatus, prompts: seq<Message>)
    requires agent.Valid() && KeepProtocol(script.turns)
    modifies agent, agent.steeringQueue, agent.followUpQueue
    ensures agent.Valid()
    ensures status.Rejected? <==>
              || old(agent.running) || old(agent.messages) == []
              || (EndsWithAssistant(old(agent.messages))
                  && old(agent.steeringQueue.messages) == [] && old(agent.followUpQueue.messages) == [])
    ensures status.Rejected? ==> agent.messages == old(agent.messages) && agent.history == old(agent.history)
    ensures status.Rejected? ==>
              && agent.steeringQueue.messages == old(agent.steeringQueue.messages)
              && agent.followUpQueue.messages == old(agent.followUpQueue.messages)
    ensures !status.Rejected? ==> (prompts != [] <==> EndsWithAssistant(old(agent.messages)))
    ensures status.Completed? ==> !agent.running && RunDone(prompts, agent.history, old(agent.messages), agent.messages)
    ensures !status.Rejected? ==>
              TookTurns(script, TurnEnds(agent.history), PollsOf(agent.history), status.Completed?)
    ensures !status.Rejected? ==>
              && var steered := old(agent.steeringQueue.messages) != [];
              && QueueKept(old(agent.steeringQueue.messages), ArrivedDuring(script, agent.history, Steering),
                           (if steered then prompts else []) + BatchesOf(agent.history, Steering),
                           agent.steeringQueue.messages)
              && QueueKept(old(agent.followUpQueue.messages), ArrivedDuring(script, agent.history, FollowUp),
                           (if steered then [] else prompts) + BatchesOf(agent.history, FollowUp),
                           agent.followUpQueue.messages)
              && BeginsWithPoll(PollsOf(agent.history), prompts != [] && steered)
              && (prompts != [] ==>
                    prompts == if steered then DueFrom(agent.steeringQueue.mode, old(agent.steeringQueue.messages))
                               else DueFrom(agent.followUpQueue.mode, old(agent.followUpQueue.messages)))
              && InMode(PollsOf(agent.history), agent.steeringQueue.mode, agent.followUpQueue.mode)
    ensures agent.ModesKept()
    ensures status.Completed? && !Failed(LastResponse(prompts, agent.history)) && NeverStops(script.turns) ==>
              agent.followUpQueue.messages == []
  {
    hide LastResponse, Agent.Valid, Watch, Replay, BatchesOf, PollsOf, Observe, RunDone, QueueKept, ArrivedDuring, NeverStops,
         Failed, TookTurns, TurnEnds;
    prompts := [];
    if agent.running { return Rejected("Agent is already processing"), []; }
    if agent.messages == [] { return Rejected("No messages to continue from"), []; }
    var continuing, skip := !EndsWithAssistant(agent.messages), false;
    prompts, skip := TakePrompts(agent);
    if !continuing && prompts == [] { return Rejected("Cannot continue from message role: assistant"), []; }
    ghost var steered, followUps := agent.steeringQueue.messages, agent.followUpQueue.messages;
    var completed := RunWithLifecycle(agent, prompts, continuing, script, skip);
    status := if completed then Completed else InProgress;
    KeptFromFront(if skip then prompts else [], steered, ArrivedDuring(script, agent.history, Steering),
                  BatchesOf(agent.history, Steering), agent.steeringQueue.messages);
    KeptFromFront(if skip then [] else prompts, followUps, ArrivedDuring(script, agent.history, FollowUp),
                  BatchesOf(agent.history, FollowUp), agent.followUpQueue.messages);
  }
}
