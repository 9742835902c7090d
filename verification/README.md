# Verified model of Athena's sessions, agent loop, client and stream decoders

Athena keeps agent sessions on a server, lets many clients share them over a framed protocol, and drives each agent
with a loop of streamed responses and tool calls. This project models the parts whose correctness ranges over
unbounded runs or inputs, in Dafny 4.11, and proves what they promise.

Asynchronous code is modelled one stretch between two `await`s at a time. A state machine names each stretch as a pure
step, results are proved about every sequence of steps, and a class whose methods update fields in place is proved to
take exactly those steps. What a step does is said a second time without it: for each thing that can be observed, an
equivalence says at which events and under which condition it changes. Decoders and splitters are proved against one-pass specifications. Where a promise fails
for some runs or inputs, a lemma shows one of them and another says exactly when the promise holds.

| files | subject |
|---|---|
| `LiveSessions.dfy`, `LiveSessionManager.dfy` | ownership and disposal of session runtimes on the server |
| `SessionAccess.dfy`, `SessionStages.dfy` | who may use a live session, how it is opened and when it is disposed, as equivalences over every event |
| `ServerConnections.dfy`, `AthenaServer.dfy` | handshake stages, commands, snapshot broadcasts, and what clients store of them |
| `ServerHandshake.dfy` | what a connection does at every event, and what its first message decides |
| `AgentEvents.dfy`, `AgentLoop.dfy` | the event log of a run as a monitor automaton; the loop, its tool batches, queues and reducer |
| `SessionLeases.dfy`, `SessionLeaseTable.dfy` | shared and exclusive session leases of a client |
| `SessionGrants.dfy` | who gets and loses a lease, and what is sent on the way, by the tokens held |
| `ClientConnections.dfy`, `ClientConnection.dfy` | connection attempts, requests and transports |
| `ClientRequests.dfy` | what settles a request and what ends a connection, by the messages that come in |
| `ClientState.dfy`, `ClientHistory.dfy` | stored snapshots and attachments, and which of the events they come from |
| `Framing.dfy`, `FrameDecoder.dfy`, `MessageDecoder.dfy` | length-prefixed frames over byte arrays, and validated messages |
| `StdinSequences.dfy`, `StdinBuffer.dfy`, `StdinReads.dfy` | terminal input split into key sequences and pastes |
| `ProxyStream.dfy` | lines of a proxied response and the blocks their events rebuild |
| `ObjectGraphs.dfy` | path-based cycle detection over object graphs |
| `Scrollbar.dfy` | scrollbar geometry and dragging |
| `Options.dfy` | values that may be missing |

`dafny verify dfyconfig.toml` checks the whole project.

Inputs from outside are nondeterministic events or parameters: the backend, runtimes and their phases, transports,
models, tools, hooks, callers, timers, and the decoding of one message payload. Two results are worth a maintainer's
attention. A session removed while a lease is being acquired or its last lease waits for its detach, or a connection
lost while a lease is being acquired or a successful detach has not been noticed yet, lets an old lease count against
the next generation (`SessionLeases.StaleReleaseBreaksExclusion`; `SessionLeases.InvalidationExact` says exactly when).
And text that begins like a mouse report but is none keeps all further input back until the timer flushes it
(`StdinSequences.MouseReportOrNothing`).

## Model

| member | source | states |
|---|---|---|
| `LiveSessions.AtMostOneRuntime` | packages/server/src/sessions.ts:198-259 | after every run, until `close` sweeps, two calls of `create` that still acquire or hold a runtime for one session id and have not fully disposed it are the same call |
| `LiveSessions.RegistrationNeverOverwrites` | packages/server/src/sessions.ts:198-259 | no event of any run replaces the live session, or the opening promise, registered under an id by a different one |
| `LiveSessions.DisposedOnce` | packages/server/src/sessions.ts:164-181 | every runtime is disposed at most once, on all error paths of `create` and through `close`; once `close` has swept, every runtime ever acquired was disposed exactly once |
| `LiveSessions.OperationsCounted` | packages/server/src/sessions.ts:183-196 | `operationCount` is the number of operations in flight, and before `close` sweeps no operation is in flight on a runtime whose disposal has begun |
| `LiveSessions.MembersAreConnected` | packages/server/src/sessions.ts:132-142 | every member of a registered live session's connection set is not disconnected and lists that session id |
| `LiveSessions.NothingLeaks` | packages/server/src/sessions.ts:333-358 | while the server is open and nothing is suspended, an acquired runtime is disposed or being disposed, or has a member, or was busy when last looked at and still reports its events |
| `LiveSessions.RunInv` | packages/server/src/sessions.ts:57-359 | the invariant behind these results holds after every interleaving of create, attach, detach, operate, disconnect, terminate, runtime events and close |
| `LiveSessions.StepInv` | packages/server/src/sessions.ts:57-359 | each single await-free stretch keeps the invariant |
| `LiveSessions.RunGrows` | packages/server/src/sessions.ts:222-259 | no call of `create` is forgotten and no dispose call taken back |
| `LiveSessions.CreatedInv` | packages/server/src/sessions.ts:198-220 | starting `create` for an id that is neither live nor opening keeps the invariant |
| `LiveSessions.RegisteredInv` | packages/server/src/sessions.ts:240-256 | registering a fresh live session finds its id free and keeps the invariant |
| `LiveSessions.AttachInv` | packages/server/src/sessions.ts:313-320 | attaching, or finding the connection gone and disposing the idle session, keeps the invariant |
| `LiveSessions.DetachInv` | packages/server/src/sessions.ts:85-99 | detaching, with its broadcast or its disposal, keeps the invariant |
| `LiveSessions.StartOperationInv` | packages/server/src/sessions.ts:183-188 | an operation enters the count in the very step that starts it, and the invariant is kept; who may start one is what `SessionAccess.StepAccess` states |
| `SessionAccess.OperationsAreAuthorized` | packages/server/src/sessions.ts:322-331 | in every run an operation in flight was asked for by a connection that had attached to its session before and still listed it, while the session was registered, had not failed and was not being disposed |
| `SessionAccess.OperatorsAreAttached` | packages/server/src/sessions.ts:183-188 | from any state, an operation that has come to be in flight was asked for in a step in which its connection listed the session |
| `SessionAccess.ListedByAttaching` | packages/server/src/sessions.ts:313-320 | from any state, a connection that has come to list a session did so by attaching to it |
| `SessionAccess.StepAccess` | packages/server/src/sessions.ts:313-331 | for every event: an operation is in flight afterwards exactly if it was just authorized or was in flight and has not finished; a connection lists a session exactly if it has just attached or listed it and has neither detached nor ended; a connection can be told things exactly from being ready to its end |
| `SessionAccess.StepSession` | packages/server/src/sessions.ts:132-142 | for every event: a connection is a member of a session exactly if it has just attached or was one and has not left, so a detach removes one member and no other; a session has failed exactly if it had or an error has just been reported while somebody listened |
| `SessionAccess.StepAsking` | packages/server/src/sessions.ts:198-220 | for every event: an acquirer is given a session exactly if it is registered, has not failed and is not being disposed, or the call it waited for has returned it; a call of `create` begins exactly for an id that is neither live nor being opened |
| `SessionAccess.StepRegistry` | packages/server/src/sessions.ts:238-259 | for every event: an id leads to a session exactly if that has just shown its first snapshot, or did so before and neither its disposal has settled nor `close` has swept; a new session has no members and no operations |
| `SessionAccess.RunsAreExact` | packages/server/src/sessions.ts:57-359 | these equivalences hold at every step of every run |
| `SessionAccess.EverybodyIsSentAway` | packages/server/src/sessions.ts:277-287 | after a runtime error, whatever happens, each connection that was attached is disconnected or still on the list of those to be disconnected |
| `SessionAccess.FailureListsMembers` | packages/server/src/sessions.ts:277-284 | that list is made of exactly the connections that were attached |
| `SessionAccess.ListShrinks` | packages/server/src/sessions.ts:284-286 | each turn of that list disconnects its connection and takes it, and nobody else, off the list |
| `SessionStages.StepStages` | packages/server/src/sessions.ts:222-259 | for every event: how far a call of `create` gets, which runtimes are thrown away unused, and that a call that has failed or returned stays so |
| `SessionStages.StepDisposals` | packages/server/src/sessions.ts:333-358 | for every event: a disposal begins exactly if the server is open, some use of the session has just ended, and nobody is attached, no operation runs and the runtime is idle or has failed; it ends exactly when it settles; `dispose` is called exactly then and by the last sweep of `close` |
| `SessionStages.StepTasks` | packages/server/src/sessions.ts:198-220 | for every event: who waits for an opening, for a disposal, for a broadcast to those who stay, or with a list of connections to end, and what is found under an id being opened |
| `SessionStages.RunsAreExact` | packages/server/src/sessions.ts:57-359 | these equivalences hold at every step of every run |
| `LiveSessions.FinishOperationInv` | packages/server/src/sessions.ts:189-195 | an operation leaves the count in the step that looks at disposal |
| `LiveSessions.DisconnectInv` | packages/server/src/sessions.ts:132-142 | a disconnect leaves every session it was attached to and disposes those nobody keeps |
| `LiveSessions.DisposalSettledInv` | packages/server/src/sessions.ts:337-358 | a settled disposal unregisters its own session and no other |
| `LiveSessions.SweepInv` | packages/server/src/sessions.ts:164-181 | the last step of `close` disposes each registered runtime that is not being disposed already |
| `LiveSessionManagers.LiveSessionManager.AcquireSession` | packages/server/src/sessions.ts:198-220 | one turn of the `acquire` loop, updates the live session objects and the manager's maps in place as its step in the state machine says, and leaves every other session alone |
| `LiveSessionManagers.LiveSessionManager.CreateWithRuntime` | packages/server/src/sessions.ts:222-238 | `create` when the backend answers, updates the live session objects and the manager's maps in place as its step in the state machine says, and leaves every other session alone |
| `LiveSessionManagers.LiveSessionManager.CreateWithSnapshot` | packages/server/src/sessions.ts:238-259 | `create` when the first snapshot is there: subscribe, register, or discard, updates the live session objects and the manager's maps in place as its step in the state machine says, and leaves every other session alone |
| `LiveSessionManagers.LiveSessionManager.ObserveOpening` | packages/server/src/sessions.ts:205-219 | an `acquire` resumed by the opening promise, with its `finally`, updates the live session objects and the manager's maps in place as its step in the state machine says, and leaves every other session alone |
| `LiveSessionManagers.LiveSessionManager.Attach` | packages/server/src/sessions.ts:313-320 | `attach`, updates the live session objects and the manager's maps in place as its step in the state machine says, and leaves every other session alone |
| `LiveSessionManagers.LiveSessionManager.DetachConnection` | packages/server/src/sessions.ts:85-99 | the `detach` command, updates the live session objects and the manager's maps in place as its step in the state machine says, and leaves every other session alone |
| `LiveSessionManagers.LiveSessionManager.EndOperation` | packages/server/src/sessions.ts:190-195 | the `finally` of `runOperation`, updates the live session objects and the manager's maps in place as its step in the state machine says, and leaves every other session alone |
| `LiveSessionManagers.LiveSessionManager.MaybeDisposeLive` | packages/server/src/sessions.ts:337-358 | `maybeDispose`, updates the live session objects and the manager's maps in place as its step in the state machine says, and leaves every other session alone |
| `LiveSessionManagers.LiveSessionManager.Terminate` | packages/server/src/sessions.ts:261-287 | an error event that makes a session terminal, updates the live session objects and the manager's maps in place as its step in the state machine says, and leaves every other session alone |
| `LiveSessionManagers.LiveSessionManager.DisconnectConnection` | packages/server/src/sessions.ts:132-142 | `disconnect`, with its loops over the sessions, updates the live session objects and the manager's maps in place as its step in the state machine says, and leaves every other session alone |
| `LiveSessionManagers.LiveSessionManager.SettleDisposal` | packages/server/src/sessions.ts:345-357 | the end of a disposal, updates the live session objects and the manager's maps in place as its step in the state machine says, and leaves every other session alone |
| `LiveSessionManagers.LiveSessionManager.SweepSessions` | packages/server/src/sessions.ts:169-181 | the tail of `close`, updates the live session objects and the manager's maps in place as its step in the state machine says, and leaves every other session alone |
| `LiveSessionManagers.LiveSessionManager.BeginOperation` | packages/server/src/sessions.ts:322-331 | starts an operation exactly if the connection lists the session and that is registered, has not failed and is not being disposed; it is counted in the live session object, and every other session is left alone |
| `LiveSessionManagers.LiveSessionManager.Serve` | packages/server/src/sessions.ts:48-359 | any schedule of stretches takes the manager through that run, so every result about runs holds of the class |
| `ServerConnections.ConnectionsAreOrderly` | packages/server/src/server.ts:171-300 | whatever fails: a command starts only on a connection to which a server hello has been sent, the first frame sent is hello or hello_error, and the broadcasts on a connection carry strictly increasing revisions that are not ahead of the server; which messages come before that is what `ServerHandshake.OnlyTheGreetingOpens` states |
| `ServerHandshake.OnlyTheGreetingOpens` | packages/server/src/server.ts:186-226 | in every run, a connection that is ready, has a command started or deferred, or has been sent a hello got an authenticated hello of the supported version as its first message; one whose first message was anything else has ended and is never sent a hello |
| `ServerHandshake.DecidedAlways` | packages/server/src/server.ts:186-226 | in every run, what the first message was decides: before it nothing has been granted, and after a wrong one nothing ever is |
| `ServerHandshake.StepExactly` | packages/server/src/server.ts:186-337 | for every event and connection: it ends exactly by a broken protocol, a disconnect or the server's close, turns ready exactly when its hello has gone out in time, starts or defers commands exactly for requests that may, is sent exactly these frames, and loses its transport exactly so |
| `ServerHandshake.RequestsRunOnce` | packages/server/src/server.ts:204-220 | in every run a connection has no more commands started and deferred than requests received |
| `ServerHandshake.BroadcastsExactly` | packages/server/src/snapshots.ts:44-63 | a broadcast begins exactly if one is queued, none runs, the server is open and somebody is ready; it counts the revision up by one and is for exactly the ready connections |
| `ServerConnections.NobodyLeftBehind` | packages/server/src/snapshots.ts:44-63 | without a failed broadcast, a live ready connection that no broadcast is still to reach and that waits for no catch-up has a client that stores the current revision |
| `ServerConnections.StepExact` | packages/server/src/snapshots.ts:50-63 | every step keeps each live connection up to date, owed the running broadcast, or owed its catch-up; a failing broadcast keeps this exactly if it has reached every live recipient |
| `ServerConnections.AbandonExact` | packages/server/src/snapshots.ts:50-63 | giving up a broadcast leaves someone behind if and only if a live recipient has not been reached |
| `ServerConnections.FailureLeavesBehind` | packages/server/src/snapshots.ts:50-63 | a concrete run in which a backend failure leaves a live connection on an old revision with nothing on its way to it |
| `ServerConnections.RunGrows` | packages/server/src/server.ts:171-350 | stages only move forward, nothing sent is taken back, the server's revision and the revision a client has stored never decrease, whatever fails |
| `ServerConnections.RunSafe` | packages/server/src/server.ts:171-350 | the invariant without the promise of being up to date survives every event, backend failures included |
| `ServerConnections.RunInv` | packages/server/src/server.ts:222-255 | the full invariant holds after every run whose broadcasts fail only once everybody live is reached |
| `ServerConnections.ClientNeverGoesBack` | packages/client/src/state.ts:100-106 | more frames never lower the revision that a client ends up with |
| `ServerConnections.StageKept` | packages/server/src/server.ts:186-337 | every handler keeps what the stage says: terminal stages send nothing, ready means accepted and greeted |
| `ServerConnections.RevisionsKept` | packages/server/src/server.ts:222-255 | every handler keeps revisions bounded by the server's and broadcasts increasing |
| `ServerConnections.KeptUpStays` | packages/server/src/server.ts:235-254 | no event of a live connection makes it fall behind; turning ready starts a catch-up if the hello was stale |
| `ServerConnections.ReadyAmong` | packages/server/src/snapshots.ts:51-53 | the recipients are exactly the ready, not disconnected connections, each once |
| `AthenaServers.ConnectionState.SendMessage` | packages/server/src/server.ts:302-322 | `sendMessage` on a connection object updates the fields as its step in the state machine says, and so as `ServerHandshake.StepExactly` says |
| `AthenaServers.ConnectionState.Fail` | packages/server/src/server.ts:324-337 | `failProtocol` updates the fields as its step in the state machine says, and so as `ServerHandshake.StepExactly` says |
| `AthenaServers.ConnectionState.DispatchMessage` | packages/server/src/server.ts:186-220 | `dispatchMessage` with the synchronous part of `finishHandshake` updates the fields as its step in the state machine says, and so as `ServerHandshake.StepExactly` says |
| `AthenaServers.ConnectionState.ContinueWithSnapshot` | packages/server/src/server.ts:235-254 | `finishHandshake` when a snapshot is there updates the fields as its step in the state machine says, and so as `ServerHandshake.StepExactly` says |
| `AthenaServers.ConnectionState.ContinueAfterHello` | packages/server/src/server.ts:243-254 | `finishHandshake` after the hello is sent updates the fields as its step in the state machine says, and so as `ServerHandshake.StepExactly` says |
| `AthenaServers.ConnectionState.FailHello` | packages/server/src/server.ts:243-254 | `finishHandshake` when the hello cannot be sent updates the fields as its step in the state machine says, and so as `ServerHandshake.StepExactly` says |
| `AthenaServers.ConnectionState.Disconnect` | packages/server/src/server.ts:291-300 | `disconnect` updates the fields as its step in the state machine says, and so as `ServerHandshake.StepExactly` says |
| `AthenaServers.AthenaServer.ReadyConnections` | packages/server/src/snapshots.ts:50-53 | the filter loop returns the ready connections in order |
| `AthenaServers.AthenaServer.StartBroadcast` | packages/server/src/snapshots.ts:44-56 | a queued broadcast starts only when none runs, and counts the revision up only if it has recipients |
| `AthenaServers.AthenaServer.SendNext` | packages/server/src/snapshots.ts:57-62 | one pass of the sending loop reaches the next recipient and changes no other connection |
| `AthenaServers.AthenaServer.CloseConnections` | packages/server/src/server.ts:339-350 | closing moves every connection that is not disconnected to closing |
| `AthenaServers.AthenaServer.Serve` | packages/server/src/server.ts:113-350 | any sequence of events takes the connection objects through the steps of that run |
| `ClientStates.StoredIsNewest` | packages/client/src/state.ts:100-106 | after any events the stored server snapshot is the last among the newest since the last reset, in whatever order they came |
| `ClientStates.RevisionsNeverDecrease` | packages/client/src/state.ts:88-115 | until a reset the stored server revision never decreases, and a session's decreases only by being let go |
| `ClientHistories.AttachedByTheLastWord` | packages/client/src/state.ts:77-115 | after any events a session counts as attached exactly if the last event that had a say about it said so; a snapshot has a say only if it is the newest of its kind when it comes |
| `ClientHistories.StoredSessionIsNewest` | packages/client/src/state.ts:55-63 | after any events the stored snapshot of a session is the last among the newest since it was let go, as it came or with its mark removed by a detach; one put back counts only where there was none |
| `ClientStates.ClientState.ApplyServerSnapshot` | packages/client/src/state.ts:100-106 | drops an older snapshot, otherwise stores it; the loop replaces the attached ids by exactly those it lists as attached |
| `ClientStates.ClientState.ApplySessionSnapshot` | packages/client/src/state.ts:108-115 | stores a session snapshot unless it is older, and marks the session as that snapshot says |
| `ClientStates.ClientState.ApplyDetached` | packages/client/src/state.ts:77-86 | a detach result unmarks the session and its stored snapshot |
| `ClientStates.ClientState.Apply` | packages/client/src/state.ts:23-106 | each call or event takes the fields through its step |
| `AgentEvents.InjectedExactlyOnce` | packages/agent/src/agent-loop.ts:167-268 | whatever their role, the messages the loop has put into the transcript, followed by those still owed, are the prompts followed by everything the polls returned, in that order: nothing is lost, repeated or reordered |
| `AgentEvents.TranscriptIsShuffled` | packages/agent/src/agent-loop.ts:173-232 | the transcript is the injected messages and the responses and tool results, interleaved, and all its user messages are injected ones |
| `AgentEvents.FollowUpsLast` | packages/agent/src/agent-loop.ts:255-268 | a follow-up poll directly follows a steering poll that returned nothing, and no tool round remains |
| `AgentEvents.ToolsBracketed` | packages/agent/src/agent-loop.ts:433-554 | for every call id there are as many tool starts as ends plus open calls, and none is open outside a tool round |
| `AgentEvents.TurnsAlternate` | packages/agent/src/agent-loop.ts:163-275 | turn_start and turn_end alternate and a complete run has closed its last turn |
| `AgentEvents.RunBracketed` | packages/agent/src/agent-loop.ts:109-117 | agent_start is the first entry and only the first, agent_end the last or absent, and a history is complete exactly if it ends in agent_end |
| `AgentEvents.ResultsAreLogged` | packages/agent/src/agent-loop.ts:756-787 | a tool result that ends in a well-formed history, unless it was put in from a queue, carries the output and the error flag with which the end of its call was logged before it in the same turn |
| `AgentEvents.TurnsAreLogged` | packages/agent/src/agent-loop.ts:185-232 | the monitor keeps the turns of a history as they ended: response, tool results, and how many messages the run had then |
| `AgentEvents.AgentEndReports` | packages/agent/src/agent-loop.ts:268-275 | agent_end carries exactly the messages ended in the run |
| `AgentEvents.ReplayAppends` | packages/agent/src/agent.ts:529-576 | reducing a well-formed history onto an idle agent appends exactly its ended messages, streams exactly while a message is open, and leaves no pending tool call outside a tool round |
| `AgentEvents.PendingExact` | packages/agent/src/agent.ts:544-556 | with distinct ids `pendingToolCalls` is exactly the set of open calls |
| `AgentEvents.WellFormedPrefix` | packages/agent/src/agent-loop.ts:155-275 | every prefix of a well-formed history is well formed |
| `AgentLoop.PendingMessageQueue.Drain` | packages/agent/src/agent.ts:139-152 | gives messages from the front, all of them or one by mode, none only if there are none, and keeps the rest in order |
| `AgentLoop.PendingMessageQueue.Enqueue` | packages/agent/src/agent.ts:131-133 | adds at the back; what was enqueued is always what was taken plus what is queued |
| `AgentLoop.PrepareToolCall` | packages/agent/src/agent-loop.ts:600-664 | a call is executed exactly if its tool is known, its arguments valid, no hook blocks or throws and no abort forestalls it; otherwise the result is an error that does not end the run |
| `AgentLoop.FinalizeReports` | packages/agent/src/agent-loop.ts:600-787 | what a call comes to: the first reason for not executing it, the error of a hook that throws, or the hook's word where it has one and else what the tool returned or the error it threw; the result message answers the call with exactly that |
| `AgentLoop.BatchTells` | packages/agent/src/agent-loop.ts:540-554 | the results of a batch tell, one by one, what became of its calls, and it may end the run exactly if every call asks for it |
| `AgentLoop.Announced` | packages/agent/src/agent-loop.ts:433-487 | how many calls of a batch are begun: all, or up to and including the first after which the signal is aborted, never none |
| `AgentLoop.AbortOnlyShortens` | packages/agent/src/agent-loop.ts:441-487 | what a batch cut short by an abort executes and answers is the non-empty beginning of what the same batch executes and answers if nobody aborts, and that answers every call in source order |
| `AgentLoop.EndsExactly` | packages/agent/src/agent-loop.ts:666-707 | in any schedule of concurrent steps a started tool ends exactly if it settles and its hook ends after that, and then with its own outcome |
| `AgentLoop.FinishedCalls` | packages/agent/src/agent-loop.ts:489-554 | the entries of a concurrent batch are all done exactly if every started tool ends, and each then holds its own call's outcome |
| `AgentLoop.ActiveCallsExecuted` | packages/agent/src/agent-loop.ts:515-540 | the calls started by a concurrent batch are exactly the prepared ones, in source order |
| `AgentLoop.StreamAssistantResponse` | packages/agent/src/agent-loop.ts:281-372 | whatever the partial events, the context gains exactly the final message, and one message is started and ended in the log |
| `AgentLoop.StreamPartials` | packages/agent/src/agent-loop.ts:314-350 | the context stays as it was except that, once a partial message has begun, its tail is the last partial message of the stream |
| `AgentLoop.FailToolCallsFromTruncatedMessage` | packages/agent/src/agent-loop.ts:381-406 | fails every call in order with an error result that says that its arguments may be truncated, executes none and never ends the run |
| `AgentLoop.ReportProgress` | packages/agent/src/agent-loop.ts:666-690 | a report is logged exactly if the tool has not settled yet, and then between the start and end of its call |
| `AgentLoop.ExecutePreparedToolCall` | packages/agent/src/agent-loop.ts:666-754 | the tool is executed once, its reports are logged in order until it settles, and its outcome, the error it throws, or what the after-hook makes of them is the result |
| `AgentLoop.ExecuteToolCallsSequential` | packages/agent/src/agent-loop.ts:433-487 | each result holds what its call's tool returned, the error it threw, the hook's override or the reason why it was not executed, one to one in source order and cut by an abort only after a first one; exactly the prepared calls were executed, and the run may end exactly if all asked for it |
| `AgentLoop.ExecuteToolCallsParallel` | packages/agent/src/agent-loop.ts:489-554 | for every schedule of reports, settlements and ends: it completes exactly if every started tool ends, and then each result holds what became of its call, with the same results and verdict as one call after the other |
| `AgentLoop.RunTools` | packages/agent/src/agent-loop.ts:528-548 | each entry ends up as its own part of the schedule says, whatever the others do |
| `AgentLoop.EmitResults` | packages/agent/src/agent-loop.ts:540-554 | results go out in source order whatever the order of completion |
| `AgentLoop.ExecuteToolRound` | packages/agent/src/agent-loop.ts:202-222 | a length stop executes nothing and fails every call; otherwise the batch is that of the mode, finished unless a concurrent tool never ends, and its results say what became of each call |
| `AgentLoop.ExecuteTurn` | packages/agent/src/agent-loop.ts:185-232 | the messages added to the context and to the transcript are the same: the response and its results; the turn ends with that response and those results, hangs exactly if a concurrent tool never ends, and a failed response, and nothing else, ends the run |
| `AgentLoop.RunTurn` | packages/agent/src/agent-loop.ts:170-232 | a turn injects the pending messages, then responds; context and transcript gain the same messages |
| `AgentLoop.RunLoop` | packages/agent/src/agent-loop.ts:155-275 | the turns taken are those of the script in order, each with its own response and results, up to the first that fails, is stopped or hangs; without such a turn the run ends exactly when a follow-up poll finds nothing; a completed run ends in agent_end with its transcript as new messages, and its context is the last one put in its place by a hook, or its own, plus the messages since then; both queues have received exactly what others sent before each poll |
| `AgentLoop.RunAgentLoop` | packages/agent/src/agent-loop.ts:95-118 | a completed run's new messages are its transcript, beginning with the prompts; unless a hook replaced it, the context it ends with is the caller's, which stays as it was, plus the new messages |
| `AgentLoop.RunAgentLoopContinue` | packages/agent/src/agent-loop.ts:120-143 | refuses exactly a context without messages or ending with the assistant, and touches nothing then; otherwise runs without prompts and puts the new messages into the caller's own context |
| `AgentLoop.Agent.ProcessEvent` | packages/agent/src/agent.ts:529-576 | reduces one event; the state is always the replay of the log |
| `AgentLoop.Agent.Arrive` | packages/agent/src/agent.ts:276-283 | messages steered or followed up while the loop waits are appended to their queues in order |
| `AgentLoop.Agent.PollSteering` | packages/agent/src/agent.ts:434-469 | a steering poll, of which only the first of a run may be skipped, takes what the mode makes due from the front of the queue, all or the first message, records what it found there, and leaves the rest in order |
| `AgentLoop.Agent.PollFollowUps` | packages/agent/src/agent.ts:460-469 | a follow-up poll takes what the mode makes due from the front of its queue, records what it found there, and leaves the rest in order |
| `AgentLoop.PollBeforeStop` | packages/agent/src/agent-loop.ts:257-268 | the loop stops only when the follow-up queue is empty |
| `AgentLoop.RunWithLifecycle` | packages/agent/src/agent.ts:471-520 | for both queues, what was queued and what arrived during the run is what the polls took, in order, followed by what is still queued, whether the run is complete or in progress; every poll took exactly what was due from what it found queued, except a first one to be skipped; the turns in the log are those of the script, up to the first that ends the run or hangs; after a completed run the messages are the old ones plus the run's, every message taken was injected once, and the agent is idle |
| `AgentLoop.Conserved` | packages/agent/src/agent.ts:123-157 | a queue that has received what arrived and given what was taken holds exactly the rest |
| `AgentLoop.Prompt` | packages/agent/src/agent.ts:339-347 | is rejected exactly while running, and then leaves messages and queues alone; otherwise runs with the prompts and takes the turns of the script, and no queued message is lost, repeated or reordered |
| `AgentLoop.Continue` | packages/agent/src/agent.ts:350-377 | is rejected exactly while running, without messages, or after an assistant message with both queues empty; after an assistant message what is due from the queues becomes the prompts, steering first; otherwise there are no prompts and only the polls take from the queues; what was queued and arrived is the prompts, what the polls took, and what is still queued; a run begun from steering messages skips its first poll |
| `SessionLeases.LeasesAreCounted` | packages/client/src/client.ts:152-178 | after every admissible run the count is the number of tokens reserved and not released, an exclusive token is the only one, at most one attach is in flight, and none together with a detach sent by a release |
| `SessionLeases.StepExact` | packages/client/src/client.ts:152-293 | every step keeps the bookkeeping, except that a removal or a lost connection does if and only if it finds no token being acquired and no release whose detach has succeeded or may still succeed |
| `SessionLeases.InvalidationExact` | packages/client/src/client.ts:403-413 | after a removal or a lost connection the counts stay right in every continuation without another one, if and only if no token was being acquired and no release waits for a detach that has succeeded or may still succeed; losing the connection makes pending detaches fail |
| `SessionLeases.InvalidateExact` | packages/client/src/client.ts:403-408 | invalidation, while requests may fail, keeps the bookkeeping exactly under that condition |
| `SessionLeases.DropBeforeAnswer` | packages/client/src/client.ts:254-257 | losing the connection while leases are held, given back, or waiting for a detach that has no answer yet is harmless |
| `SessionLeases.IntruderBreaks` | packages/client/src/client.ts:237-252 | a release of an older generation whose detach can still succeed leads, in some continuation, to a count that misses a lease |
| `SessionLeases.StaleReleaseBreaksExclusion` | packages/client/src/client.ts:237-250 | a concrete run: a session removed while its last lease waits for its detach, and acquired again, ends with a shared and an exclusive handle both active |
| `SessionLeases.StaleSetKeeps` | packages/client/src/client.ts:254-257 | a release overtaken by an invalidation, once its detach has failed, ends without touching what is counted |
| `SessionLeases.RunInv` | packages/client/src/client.ts:152-293 | the bookkeeping holds after every run whose invalidations meet that condition |
| `SessionLeases.AttachExcludesDetach` | packages/client/src/client.ts:152-178 | while an attach is in flight no detach of a release is |
| `SessionLeases.ExclusiveIsAlone` | packages/client/src/client.ts:382-394 | a reserved exclusive token forces count one and no other active handle |
| `SessionLeases.OneAttach` | packages/client/src/client.ts:160-170 | two attaches in flight are one |
| `SessionLeases.LastLeaseDetaches` | packages/client/src/client.ts:232-269 | a step other than an invalidation brings the count to zero only after a fulfilled detach, or with a note that cleanup is required, or because the acquisition itself failed |
| `SessionLeases.OnlyTheLastDetaches` | packages/client/src/client.ts:238-252 | a session is detached on behalf of a lease exactly by the release of the one token that is still reserved, and by no other step |
| `SessionLeases.CleanupBeforeAttach` | packages/client/src/client.ts:156-172 | a session that requires cleanup is attached again only by a lease that has seen its cleanup detach succeed |
| `SessionLeases.AcquireKeeps` | packages/client/src/client.ts:152-178 | an acquisition up to its first await keeps the bookkeeping |
| `SessionLeases.ResumeKeeps` | packages/client/src/client.ts:156-177 | an acquisition or a release resumed after its await keeps the bookkeeping |
| `SessionLeases.ReleaseKeeps` | packages/client/src/client.ts:232-269 | a release, which detaches first if it is the last, keeps the bookkeeping |
| `SessionLeases.ContinueKeeps` | packages/client/src/client.ts:364-380 | the handlers chained to a cleanup detach keep the bookkeeping |
| `SessionGrants.GrantedExactly` | packages/client/src/client.ts:382-394 | an acquisition is refused, and changes nothing, exactly if an exclusive token is held, or it asks for an exclusive one and any token is held; otherwise exactly one token more is held, of the mode asked for |
| `SessionGrants.HeldExactly` | packages/client/src/client.ts:382-401 | for every event: exactly the tokens that it gives back are no longer held, and exactly the one that it grants is held besides |
| `SessionGrants.PhasesExactly` | packages/client/src/client.ts:152-269 | for every event and token: when it becomes an active handle, waits for an attach, a cleanup or a detach, sends the last detach, sees its release fail, or ends, and that otherwise it stays as it is |
| `SessionGrants.RequestsExactly` | packages/client/src/client.ts:152-380 | for every event: an attach or a cleanup is sent exactly for a lease that needs one while none is on record, a detach exactly by the last holder; when promises settle and entries go, and what is known of attachment, cleanup and generation |
| `SessionGrants.RunsAreExact` | packages/client/src/client.ts:152-413 | these equivalences hold at every step that follows an admissible run |
| `SessionGrants.AttachedSharedByAll` | packages/client/src/client.ts:152-178 | on an attached session with no exclusive holder and nothing to be undone first, any number of shared acquisitions all become active handles at once, and nothing is sent |
| `SessionGrants.OneAttachServesAll` | packages/client/src/client.ts:152-178 | any number of shared acquisitions of a session that is not attached send one attach for all, and when that succeeds all become active handles |
| `SessionGrants.FailedRelease` | packages/client/src/client.ts:254-269 | when the detach of a release fails, a detached handle is active again and a disposed one is released with a cleanup noted; one of an older generation just ends |
| `SessionLeaseTables.LeaseTable.ReserveSessionLease` | packages/client/src/client.ts:382-394 | refuses an exclusive lease exactly if the session has a count and a shared one exactly if it has an exclusive lease on record, which while the bookkeeping is right is exactly if the tokens held conflict with it; then nothing changes, otherwise one token is reserved, and all other sessions are left alone |
| `SessionLeaseTables.LeaseTable.AcquireSession` | packages/client/src/client.ts:152-160 | `acquireSession` up to its first await takes the session's ledger through its step; while the bookkeeping is right it gives a token exactly if no exclusive token is held and, for an exclusive lease, no token at all |
| `SessionLeaseTables.LeaseTable.ReleaseSessionLease` | packages/client/src/client.ts:396-401 | `#releaseSessionLease` on the client's maps takes the session's ledger through its step and leaves all other sessions alone |
| `SessionLeaseTables.LeaseTable.Reconcile` | packages/client/src/client.ts:364-380 | `#reconcileSessionCleanup` up to its await on the client's maps takes the session's ledger through its step and leaves all other sessions alone |
| `SessionLeaseTables.LeaseTable.Attach` | packages/client/src/client.ts:160-172 | the attach part of `acquireSession` on the client's maps takes the session's ledger through its step and leaves all other sessions alone |
| `SessionLeaseTables.LeaseTable.ResumeLease` | packages/client/src/client.ts:156-177 | the rest of an acquisition or release after an await on the client's maps takes the session's ledger through its step and leaves all other sessions alone |
| `SessionLeaseTables.LeaseTable.ReleaseHandle` | packages/client/src/client.ts:232-257 | `detach` and `dispose` of a handle on the client's maps takes the session's ledger through its step and leaves all other sessions alone |
| `SessionLeaseTables.LeaseTable.HandleResponse` | packages/client/src/client.ts:295-320 | a response to an attach or detach on the client's maps takes the session's ledger through its step and leaves all other sessions alone |
| `SessionLeaseTables.LeaseTable.RunContinuation` | packages/client/src/client.ts:371-376 | the promise handlers of a cleanup on the client's maps takes the session's ledger through its step and leaves all other sessions alone |
| `SessionLeaseTables.LeaseTable.InvalidateSessionLeases` | packages/client/src/client.ts:403-408 | `#invalidateSessionLeases` on the client's maps takes the session's ledger through its step and leaves all other sessions alone |
| `SessionLeaseTables.LeaseTable.InvalidateAllSessionLeases` | packages/client/src/client.ts:410-413 | the loop of `#invalidateAllSessionLeases` on the client's maps takes the session's ledger through its step and leaves all other sessions alone |
| `SessionLeaseTables.LeaseTable.LoseConnection` | packages/client/src/client.ts:322-341 | the disconnected branch of `#handleConnectionStateChange` on the client's maps takes the session's ledger through its step and leaves all other sessions alone |
| `SessionLeaseTables.LeaseTable.Serve` | packages/client/src/client.ts:51-433 | any interleaving of the events of all sessions takes each ledger through exactly the steps that concern it |
| `ClientConnections.ConnectionIsOrderly` | packages/client/src/connection.ts:67-240 | after every run each handshake promise was settled at most once and is unsettled only while its attempt is being connected; each request was settled at most once and is pending exactly if unsettled, which only a connected client has; every transport is in use, closed by the client, or reported its own close |
| `ClientConnections.ResolvedByItsOwnResponse` | packages/client/src/client.ts:295-320 | a request is resolved only by an ok response that bears its own id and the command it was sent with, also if it was sent in the same step |
| `ClientRequests.DataSettleExactly` | packages/client/src/client.ts:295-320 | data on the connection in use leave it in use if and only if they are events and responses to different pending requests, refused or with the request's command; then each response settles its own request, resolved if and only if ok, and all other requests, the lifecycle and the transports stay as they are |
| `ClientRequests.EndsExactly` | packages/client/src/connection.ts:146-235 | the connection in use ends exactly by such data that do not fit, its transport's close or error, a failed send, or a disconnect; then no request is pending and its transport is closed or has reported its close |
| `ClientRequests.SendsExactly` | packages/client/src/client.ts:190-208 | a request waits for its answer exactly if the client is connected and its frame can be encoded and sent; otherwise it is rejected at once |
| `ClientRequests.RequestsStay` | packages/client/src/client.ts:295-320 | no other event settles a request while the connection is in use |
| `ClientRequests.HelloExactly` | packages/client/src/connection.ts:184-203 | a hello on the transport of the attempt resolves it, with what the listeners asked in the table, unless a listener interrupts or asks what the transport refuses to send; then it is rejected |
| `ClientRequests.OtherGreetingsEnd` | packages/client/src/connection.ts:166-203 | any other first message, or a hello before the transport is there, rejects the attempt |
| `ClientRequests.AttemptExactly` | packages/client/src/connection.ts:67-144 | what becomes of an attempt at every event but data: connecting starts exactly one, the transport handed over in time is its channel, and it is left exactly by a failure of its own or a disconnect, and then rejected |
| `ClientRequests.TransportsExactly` | packages/client/src/connection.ts:120-144 | at every event: a transport handed over is kept if its attempt waits for it and closed at once otherwise; the one in use is closed exactly when the client leaves it and it has not closed by itself, and no other |
| `ClientRequests.ChunksDoNotMatter` | packages/client/src/connection.ts:146-164 | messages in one chunk or in two have the same effect |
| `ClientConnections.RunGrows` | packages/client/src/client.ts:190-208 | nothing settled changes its outcome and no closed transport reopens |
| `ClientConnections.StepKeeps` | packages/client/src/connection.ts:67-240 | every handler keeps the invariant |
| `ClientConnections.MessageKeeps` | packages/client/src/connection.ts:166-208 | every server message, expected or not, keeps the invariant, whatever listeners ask while they are told of a handshake |
| `ClientConnections.HelloKeeps` | packages/client/src/connection.ts:184-203 | a hello resolves the handshake unless the listeners it is told to end the attempt, also by a request whose send fails |
| `ClientConnections.FactoryResolvesKeeps` | packages/client/src/connection.ts:120-144 | a transport handed over late is closed, one in time is used |
| `ClientConnections.FailAndCloseKeeps` | packages/client/src/connection.ts:222-235 | failing leaves the attempt, rejects what is pending and closes the transport |
| `ClientConnectionObjects.ClientConnection.ConnectTo` | packages/client/src/connection.ts:67-91 | `connect` updates the lifecycle and the table of pending requests as its step, and so as the results of `ClientRequests` say |
| `ClientConnectionObjects.ClientConnection.FailConnection` | packages/client/src/connection.ts:229-235 | `#fail` with the client's state-change handler updates the lifecycle and the table of pending requests as its step, and so as the results of `ClientRequests` say |
| `ClientConnectionObjects.ClientConnection.FailAndCloseConnection` | packages/client/src/connection.ts:222-227 | `#failAndClose` updates the lifecycle and the table of pending requests as its step, and so as the results of `ClientRequests` say |
| `ClientConnectionObjects.ClientConnection.TransportOpened` | packages/client/src/connection.ts:120-144 | `#openTransport` when the factory answers updates the lifecycle and the table of pending requests as its step, and so as the results of `ClientRequests` say |
| `ClientConnectionObjects.ClientConnection.HandleMessage` | packages/client/src/connection.ts:166-208 | `#handleMessage` of connection and client updates the lifecycle and the table of pending requests as its step, and so as the results of `ClientRequests` say |
| `ClientConnectionObjects.ClientConnection.CompleteHandshake` | packages/client/src/connection.ts:184-203 | the handshake callback, with the requests that listeners send in it, updates the lifecycle and the table of pending requests as its step, and so as the results of `ClientRequests` say |
| `ClientConnectionObjects.ClientConnection.HandleData` | packages/client/src/connection.ts:146-164 | the message loop of `#handleData` updates the lifecycle and the table of pending requests as its step, and so as the results of `ClientRequests` say |
| `ClientConnectionObjects.ClientConnection.TransportClosed` | packages/client/src/connection.ts:210-220 | `#handleClose` updates the lifecycle and the table of pending requests as its step, and so as the results of `ClientRequests` say |
| `ClientConnectionObjects.ClientConnection.RequestCommand` | packages/client/src/client.ts:190-208 | `#request` updates the lifecycle and the table of pending requests as its step, and so as the results of `ClientRequests` say |
| `ClientConnectionObjects.ClientConnection.RejectPendingRequests` | packages/client/src/client.ts:337-341 | the loop of `#rejectPendingRequests` updates the lifecycle and the table of pending requests as its step, and so as the results of `ClientRequests` say |
| `ClientConnectionObjects.ClientConnection.Serve` | packages/client/src/connection.ts:41-240 | any interleaving of calls and callbacks takes the client through the steps of that run |
| `Framing.ParseIsExact` | packages/protocol/src/framing.ts:73-144 | a parse is the only way to read bytes as encodings of payloads within the limit followed by an undecided rest, or by a header that declares too much |
| `Framing.ParseResumes` | packages/protocol/src/framing.ts:73-144 | a parse may stop at any byte: the frames so far are kept and only the rest is read again; a refusal stays a refusal |
| `Framing.RoundTrip` | packages/protocol/src/framing.ts:28-39 | payloads within the limit, encoded one after the other, parse to themselves with nothing left |
| `Framing.Header` | packages/protocol/src/framing.ts:28-39 | the four bytes written declare the length they were written for |
| `Framing.HeaderOfDeclared` | packages/protocol/src/framing.ts:92-93 | four bytes are the header of the length they declare |
| `FrameDecoders.ResolveMaxFrameLength` | packages/protocol/src/framing.ts:19-25 | accepts exactly a missing limit or one between 0 and 2^32-1 |
| `FrameDecoders.EncodeFrame` | packages/protocol/src/framing.ts:28-39 | fills a fresh array with the encoding, or refuses exactly a payload longer than 2^32-1 bytes |
| `FrameDecoders.AssertCompleteFrame` | packages/protocol/src/framing.ts:42-53 | accepts exactly the encodings of one payload within the limit |
| `FrameDecoders.FrameDecoder.Push` | packages/protocol/src/framing.ts:73-144 | returns the frames that one pass over the pending bytes and the chunk finds and keeps exactly the rest in the header and block arrays, or fails for good exactly if the stream declares too much; over a decoder's life the frames are those of one pass over all bytes; no returned array is written again |
| `FrameDecoders.FrameDecoder.SplitChunk` | packages/protocol/src/framing.ts:78-142 | the outer loop: frames and pending bytes are the parse of what was pending plus the chunk |
| `FrameDecoders.FrameDecoder.TakeHeader` | packages/protocol/src/framing.ts:81-106 | the header half of a pass: incomplete, refused, empty frame, or a payload begins |
| `FrameDecoders.FrameDecoder.AbsorbPayload` | packages/protocol/src/framing.ts:110-127 | the inner loop moves bytes from the chunk into blocks of at most 64 KiB until the payload is complete or the chunk used up |
| `FrameDecoders.FrameDecoder.TakePayload` | packages/protocol/src/framing.ts:128-141 | hands out the only block itself or a fresh array that joins all blocks |
| `FrameDecoders.FrameDecoder.End` | packages/protocol/src/framing.ts:146-153 | succeeds exactly if all bytes pushed are whole frames |
| `FrameDecoders.FrameDecoder.Fail` | packages/protocol/src/framing.ts:155-164 | drops the frame in progress; a failed decoder stays failed |
| `FrameDecoders.FrameDecoder.StorageBounded` | packages/protocol/src/framing.ts:110-127 | between calls the blocks exceed the payload bytes received by less than 64 KiB |
| `FrameDecoders.DecodeChunks` | packages/protocol/src/framing.ts:58-165 | for any chunking of any stream: a decoder gives payloads if and only if the stream is the concatenation of their encodings, all within the limit |
| `FrameDecoders.RefusedForGood` | packages/protocol/src/framing.ts:94-97 | once the bytes so far declare too much, so does every continuation |
| `MessageDecoders.ValidatedMessageDecoder.Push` | packages/protocol/src/codec.ts:102-115 | hands out the messages of exactly the payloads completed, as long as every payload so far was a message and no header declared too much; any failure is final |
| `MessageDecoders.ValidatedMessageDecoder.End` | packages/protocol/src/codec.ts:117-125 | ends without failure exactly between two frames |
| `MessageDecoders.ValidatedMessageDecoder.ParseFrames` | packages/protocol/src/codec.ts:105-109 | gives the messages of all payloads, or stops at the first that is none |
| `ObjectGraphs.ProtocolValuesAreTrees` | packages/protocol/src/codec.ts:25-39 | on every finite heap, cycles included, a value is accepted if and only if it unfolds to a finite tree of protocol values |
| `ObjectGraphs.JsonIsTheTree` | packages/server/src/protocol.ts:138-159 | a value converts if and only if it unfolds to a finite tree of JSON values, and then to the copy of that tree |
| `ObjectGraphs.CopyIsWhole` | packages/server/src/protocol.ts:152-155 | the copy has all properties of the tree if and only if no object in it has a property of its own named `__proto__` |
| `ObjectGraphs.ProtoIsDropped` | packages/server/src/protocol.ts:152-155 | a concrete object whose only property is named `__proto__` is accepted, and its copy is empty |
| `ObjectGraphs.OneTree` | packages/protocol/src/codec.ts:25-39 | a value unfolds to at most one tree |
| `ObjectGraphs.NotAnAncestor` | packages/protocol/src/codec.ts:30-31 | a value that unfolds to a finite tree is never one of its own ancestors, so sharing is not taken for a cycle |
| `ObjectGraphs.GraphWalk.CheckProtocolValue` | packages/protocol/src/codec.ts:25-39 | the walk over one mutable set of ancestors gives that verdict and restores the set |
| `ObjectGraphs.GraphWalk.Convert` | packages/server/src/protocol.ts:138-159 | the walk over one mutable set of seen objects gives that conversion and restores the set, also when it throws |
| `StdinSequences.NothingIsLost` | packages/tui/src/stdin-buffer.ts:192-255 | the sequences and the remainder rebuild the buffer |
| `StdinSequences.RemainderIsIncomplete` | packages/tui/src/stdin-buffer.ts:192-255 | the remainder is empty or begins with ESC, and none of its non-empty prefixes is a sequence |
| `StdinSequences.SequencesAreMinimal` | packages/tui/src/stdin-buffer.ts:192-255 | each sequence is one plain character, a lone ESC, or a complete escape sequence with no complete proper prefix |
| `StdinSequences.CutsDoNotMatter` | packages/tui/src/stdin-buffer.ts:192-255 | splitting the input anywhere and going on from the remainder gives the same result if and only if the cut does not fall between a final ESC ESC and one of the characters [ ] O P _ |
| `StdinSequences.CsiEndsAtFinalByte` | packages/tui/src/stdin-buffer.ts:84-126 | a control sequence that is no mouse report ends at its first final byte in the sense of section 5.4 of ECMA-48 |
| `StdinSequences.MouseReportOrNothing` | packages/tui/src/stdin-buffer.ts:100-120 | what begins like a mouse report is complete exactly at its first final byte and only as a mouse report; otherwise it swallows all further input |
| `StdinSequences.StringEndsAtTerminator` | packages/tui/src/stdin-buffer.ts:128-182 | a device control, application or operating system command ends at its first string terminator, the last of the three also at a bell |
| `StdinSequences.ShortSequences` | packages/tui/src/stdin-buffer.ts:29-78 | an old mouse report is six characters long, a single shift three, any other ESC and character two, except that an escape stands alone before one that opens a sequence |
| `StdinSequences.MouseChecksAgree` | packages/tui/src/stdin-buffer.ts:104-115 | the regular expression and the split check accept the same mouse reports |
| `StdinSequences.ExtractCompleteSequences` | packages/tui/src/stdin-buffer.ts:192-255 | the two nested loops compute that splitting |
| `StdinBuffers.PasteIsTheContent` | packages/tui/src/stdin-buffer.ts:317-336 | a paste gives out exactly what precedes the first end marker in all that was collected, and nothing before that marker has come |
| `StdinBuffers.PastesDoNotDependOnCuts` | packages/tui/src/stdin-buffer.ts:317-336 | while a paste goes on, two reads are as good as one if and only if neither is empty |
| `StdinBuffers.PasteFromManyReads` | packages/tui/src/stdin-buffer.ts:317-336 | a paste that arrives in many non-empty reads is processed as if in one |
| `StdinBuffers.KeyReportIsTheExpression` | packages/tui/src/stdin-buffer.ts:184-190 | the code point of a key report is the first group of the regular expression if that is at least 32, and nothing else has one |
| `StdinBuffers.PendingIsTheLast` | packages/tui/src/stdin-buffer.ts:389-398 | after any sequences only the last one decides which plain character would be dropped as an echo |
| `StdinReads.EmittedExactly` | packages/tui/src/stdin-buffer.ts:389-398 | a sequence is dropped exactly if it is the plain form of the key that the sequence just before it reported |
| `StdinReads.TypingDoesNotDependOnReads` | packages/tui/src/stdin-buffer.ts:363-375 | two reads of typed input are as good as one if and only if the cut does not fall between a final ESC ESC and a character that opens a sequence |
| `StdinReads.PasteAmongTyping` | packages/tui/src/stdin-buffer.ts:338-361 | typed input, a paste and more input in one read: the sequences before are given out, an unfinished one is dropped, then the paste as it is, and what follows is read as if nothing had been before |
| `StdinBuffers.StdinBuffer.ProcessData` | packages/tui/src/stdin-buffer.ts:287-375 | one read updates the fields and emits as the specification of input and paste modes says, with the recursion on what follows a paste |
| `StdinBuffers.StdinBuffer.EmitDataSequence` | packages/tui/src/stdin-buffer.ts:389-398 | drops a plain character exactly if the sequence before it was the key report of that code point |
| `ProxyStreams.LinesResume` | packages/agent/src/proxy.ts:183-188 | splitting lines may stop anywhere and go on from the unfinished line |
| `ProxyStreams.ReadBody` | packages/agent/src/proxy.ts:183-207 | however the body is cut into reads, the data handed on are those of the complete lines of the whole text |
| `ProxyStreams.SentIsHandedOn` | packages/agent/src/proxy.ts:183-198 | the events of a response are handed on, each once and in order, whatever space, empty data lines and other lines come between; what follows the last line break is not |
| `ProxyStreams.LineReader.Read` | packages/agent/src/proxy.ts:190-206 | one read hands on the data of the lines it completes and keeps the rest |
| `ProxyStreams.IndicesAreIndependent` | packages/agent/src/proxy.ts:238-348 | processing succeeds if and only if it does for the events of each index alone, and each block is what its own events make of it |
| `ProxyStreams.InterleavedBlocksRebuild` | packages/agent/src/proxy.ts:238-348 | a message's events, with deltas cut anywhere and blocks interleaved, rebuild exactly its blocks |
| `ProxyStreams.AnyEventsRebuild` | packages/agent/src/proxy.ts:238-348 | whatever events come for an index, they are taken exactly if each fits the block started last; the block then holds the deltas since its start, the signature of its last end, and the arguments of the text up to its last delta, which starts anew from the word `undefined` after the end of a tool call |
| `ProxyStreams.ScriptRebuilds` | packages/agent/src/proxy.ts:245-345 | start, deltas and end of one block rebuild that block |
| `ProxyStreams.PartialMessage.ProcessProxyEvent` | packages/agent/src/proxy.ts:238-367 | one event updates its own block in place, or changes nothing and throws exactly if the block is of another kind, except for the end of a tool call |
| `ProxyStreams.PartialMessage.ProcessEvents` | packages/agent/src/proxy.ts:195-204 | events are processed up to the first that does not fit |
| `Scrollbars.DragThenPaint` | packages/tui/src/tui-alt-screen.ts:424-437 | for every track and content, scrolling to the row computed for any thumb offset paints the thumb back at that offset |
| `Scrollbars.TravelFitsRows` | packages/tui/src/layout.ts:268-275 | there are never more places for the thumb than rows to scroll to |
| `Scrollbars.ThumbIsProportional` | packages/tui/src/layout.ts:268-272 | the thumb fills the track if the content fits, and between its bounds its height is the rounded share of the track |
| `Scrollbars.ThumbStaysInTrack` | packages/tui/src/layout.ts:268-287 | the thumb stays inside the track and is at its ends at the ends of the content |
| `Scrollbars.ThumbFollowsScroll` | packages/tui/src/layout.ts:275 | scrolling down never moves the thumb up |
| `Scrollbars.DragStaysInContent` | packages/tui/src/tui-alt-screen.ts:434-436 | a drag never scrolls past the content |
| `Scrollbars.ThumbHeight` | packages/tui/src/layout.ts:268-272 | the thumb is at least two rows high where the track is, and no higher than the track |
| `Scrollbars.ScrollbarPointer.Drag` | packages/tui/src/tui-alt-screen.ts:423-438 | the grabbed cell of the thumb is painted under the pointer as far as the track allows |
| `Scrollbars.ScrollbarPointer.Press` | packages/tui/src/tui-alt-screen.ts:386-456 | a press is handled exactly if it is of the left button and hits the thumb; it then grabs the cell that was hit, which is one of the thumb, and a drag to the same place would leave the thumb where it is; otherwise nothing is grabbed |
| `Scrollbars.ScrollbarPointer.HandleMouseEvent` | packages/tui/src/tui-alt-screen.ts:418-456 | while a thumb is held every event is handled, a release lets go and any other moves the thumb; otherwise only a press on the thumb has an effect |

## Left out

- Sockets, timers, `fetch`, `TextDecoder`, token digests, UUIDs and timestamps: they are events, parameters or fresh identities.
- CBOR and schema checks: decoding one payload is a parameter of `MessageDecoders`, and the answers of the hello check are part of the event.
- Runtimes and promises as separate objects: a live session object of `LiveSessionManagers` also stands for its runtime and for the promise of the call of `create` that makes it.
- The order in which one disconnect visits its sessions, and errors that a single disposal reports: only the outcome for each session is modelled.
- The content of session snapshots and summaries, and listener notification: they do not feed back into the state that is modelled, except that a listener may send requests and then disconnect or throw inside a handshake callback.
- A listener that disconnects and reconnects synchronously inside a callback: the code then handles the rest of the old chunk on the new connection.
- Messages whose hooks or listeners throw, contrary to the loop's documented contracts, and `handleRunFailure`.
- AgentLoop.RunLoop: says nothing about the new messages of a script that gives out while the run is still going; what was emitted until then is still well formed, and what is said of the queues holds.
- AgentLoop.ExecuteToolCallsParallel: the log of tool ends is in completion order and only its brackets and verdicts are stated; the result messages are stated in full.
- Clearing or resetting an agent's queues: `PendingMessageQueue.Clear` starts a new history, and results about queues hold between clears.
- Disposal of a whole client: it is a lost connection after which every call is refused.
- Encoding failures of a request's frame are an input; the size limit that causes them is stated in `FrameDecoders`.
- SessionLeases.LeasesAreCounted: holds for runs in which every removal or lost connection meets the condition that `SessionLeases.InvalidationExact` shows to be necessary and sufficient.
- AthenaServers.ConnectionState.SendMessage: leaves a send that fails, with the close and disconnect that follow, to the events of a lost transport and of a hello that cannot be sent.
- ServerConnections.NobodyLeftBehind: holds for runs without a failed broadcast, which `ServerConnections.StepExact` shows to be needed for live recipients.
- ServerConnections.ConnectionsAreOrderly: requests deferred during the handshake are counted, not kept in order, because the code does not promise their order.
- Code points beyond 2^53 in key reports: numbers are unbounded here.
- ProxyStreams.InterleavedBlocksRebuild: the arguments of a tool call are represented by the text they were parsed from, because the streaming JSON parser is not part of this model.
- Scrollbars.DragThenPaint: `Math.round` of a quotient is modelled on integers; the rounding of the quotient to a double first is not.
- `ScrollView`, `allocateStackSizes`, painting, clipping, overlays and the choice among several scrollbars: they are not part of this model.
- Property keys that collide or accessors on objects: own properties are a list of distinct keys with plain values.
- Provider adapters, model catalogues, command line, editor and key tables: configuration or finite tables.
