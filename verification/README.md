# Verified model of the actor runtime, its trace tools and its service language

This project models a small distributed actor system and proves what its documentation promises of it:
that a recorded run can be replayed strictly, that the verifiers of its traces accept every honest run
and mean what they say, that the fault injector loses and invents nothing, and that programs of its
service language do only what they declare.

**The node.** A node runs one actor per service. An actor has a store of 64-bit counters and a
first-in-first-out inbox of `(message id, payload)` entries. In record mode each step drains the network
through the fault injector, fires the due timers in the order of their ids, and delivers the least
`(node, actor, message)` candidate; the handler's actions update the store, write log lines, and send
messages at once or after a delay. Everything that happens is appended to a trace. In replay mode the
trace drives the node: deliveries, receipts and timer firings are taken from it, and every event the node
emits has to be the next event of the trace.

**Two layers.** The specification layer (`Interp`, `Node`, `RecordSpec`, `ReplaySpec`, `InjectorSpec`,
`VerifySpec`, `LineageSpec`, `ClusterSpec`, `ParserSpec`) gives each operation as a function on values.
The executable layer (`Executor`, `Runtime`, `FaultInjection`, `Recording`, `Replaying`, `Scheduler`,
`Verifying`, `ClusterVerifying`, `LineagePath`, `Loader`, `Lexer`, `Parsing`) has the loops, classes and
fields of the source, and every method is proved to compute the specified result and state, errors
included. The theorems are about the specification functions, so they hold of the methods.

**What the functions mean.** A specification function could itself be wrong, together with the method that
computes it. So what the functions do is said once more without them: of the outbox in `ActionMeaning`, of
the events of a delivery and a step in `DeliveryMeaning`, of start-up in `StartupMeaning`, of each event of
a replayed trace in `ReplayMeaning`, of what the injector writes in `InjectorEvents`, of loading in
`LoaderMeaning`, of envelopes and their addressees in `Addressing`, of every problem in a report in
`VerifyReports` and `ClusterReports`, and of every way to write a program in `Numerals`, `Grammar` and
`LineGrammar`.

**Record and replay.** `Node` factors both modes through one event-driven machine. `ReplaySpec` shows that
replay accepts exactly the traces this machine follows to empty inboxes; `RecordReplay` shows by a
simulation that a record run is such a trace. The simulation relates equal actors and counters, and timer
lists that are equal as multisets up to due step, because replay removes timers by swapping.

**Whole runs.** What is proved of single steps is carried to runs: `TimerRuns` follows a timer from the
handler that asks for it to its firing, `RunSound` shows that runs of loaded programs do not go wrong, and
`RunEvidence` that a recorded trace shows the policy in force and the fate of every accepted envelope.

**The verifiers.** `VerifyMeaning` states over the trace itself, without the verifier's state, when
`verify_trace` finds no problem, `VerifyCategories` does so for each kind of problem on its own, and
`VerifyReports` gives the whole report of any trace. `ClusterReports` does the same for `verify_cluster`,
and `ClusterMeaning` derives what a clean report implies about messages and lineage. `HonestNode`,
`HonestRun`, `ClusterHonest`, `ClusterVerified` and `ClusterClean` go the other way: a ledger of all
messages ever made, with the node each is to be delivered at, is kept in step with every node's inboxes,
timers, injector and verifier state.

**The cluster.** `ClusterRun` lets nodes take recorded steps in any order. A channel per node holds the
envelopes under way to it as a multiset; a step takes any part of it, in any order, and puts what the node
sends under way. So each envelope sent to a node of the cluster is delivered at most once, and exactly once
when nothing is under way at the end.

**Conventions.** Ids are numbers below 2^128. The text of an id field is a datatype: printed form, another
spelling that parses, or no id. A payload is a message or something that does not decode. `Config.render`
(templates), `Config.parseId` (UUID parsing), `Config.actorOf` and `Config.systemActor` (name-based actor
ids) are parameters; the only thing assumed of the ids is that different services, and the system actor,
have different ones. Hash maps are iterated in an arbitrary order. What the network yields in a step is a
parameter. `u64` counters are modelled as they behave: message and timer counters saturate, the event
number and the injector's arrival count wrap.

## Model

| member | source | states |
|---|---|---|
| RecordReplay.RecordThenReplay | crates/runtime/src/main.rs:1862-2113 | for every program, fault policy, inbound schedule and number of steps, the trace of a successful record run whose timer counter has not saturated, or whose pending timers at least differ in id or actor whenever some fire, is accepted by replay if and only if the recording left every inbox empty and replay has the iterations the trace needs (the recording's own number is always enough); replay then ends with equal actors and counters and the same pending timers up to order and due step |
| RecordReplay.UntellableTimersDiverge | crates/runtime/src/main.rs:1618-1672 | beyond that condition replay can refuse: of two pending timers with one id and actor it fires the one first in its list, and rejects a trace that goes on with the message of the other |
| ReplaySpec.ReplayExact | crates/runtime/src/main.rs:1507-1716 | replay of any trace ends in a state if and only if the trace is the start-up block followed by exactly the trace the machine makes of the inputs in it, all inboxes end empty, and the iterations suffice |
| ReplaySpec.ReplayStepsExact | crates/runtime/src/main.rs:1862-2113 | the replay loop with its pushback, skipped idle steps and end checks accepts exactly the traces the event-driven machine follows to empty inboxes within the iterations |
| ReplaySpec.FollowsIsRun | crates/runtime/src/main.rs:1507-1716 | a trace is followed to a state if and only if running the machine on the trace's own inputs makes that trace and ends in that state |
| ReplaySpec.ReplayDeterminesTrace | crates/runtime/src/main.rs:1674-1716 | two traces accepted under one configuration that agree on their deliveries, receipts, firings and fault events are equal event by event and end in the same state |
| ReplayMeaning.PassedOver | crates/runtime/src/main.rs:1507-1615 | events of other nodes and events about faults make no difference to a replay |
| ReplayMeaning.ReceiptReplayed | crates/runtime/src/main.rs:1568-1586 | a message received by this node goes to the end of its actor's inbox, and nowhere if there is no such actor |
| ReplayMeaning.FiringReplayed | crates/runtime/src/main.rs:1618-1672 | of the pending timers with the id and actor of a TimerFired the first is taken out and its message sent; the trace has to go on with exactly that event, and ending or going on otherwise are the two errors |
| ReplayMeaning.FiringRefused | crates/runtime/src/main.rs:1628-1640 | a firing without a pending timer of that id and actor is refused as an unknown timer |
| ReplayMeaning.DeliveryReplayed | crates/runtime/src/main.rs:1932-2083 | a delivery needs the actor, a message in its inbox, and the traced id at the head of it, each with its own error; then the handler runs, the trace has to go on with exactly what it emits and not with one emission more, and one iteration is used up |
| ReplayMeaning.EmissionRefused | crates/runtime/src/main.rs:1507-1566 | a Spawn, send, log or effect event that no input has announced is refused |
| ReplayMeaning.EndReplayed | crates/runtime/src/main.rs:2092-2113 | a replay ends with the trace or with its iterations: events left over, and messages left in an inbox, are refused |
| ReplayMeaning.VerdictOnFollowed | crates/runtime/src/main.rs:2092-2113 | a trace the machine can follow is refused only for too few iterations, which goes first, or for messages left over |
| ReplayMeaning.StartRefused | crates/runtime/src/main.rs:1784-1848 | a trace that does not begin with the node's own start-up, or goes on with one send, log or effect more, is refused at once |
| Replaying.RecordedFileReplays | crates/runtime/src/main.rs:1862-2113 | a recorded trace file, replayed for at least as many steps, is accepted if and only if the recording left no message undelivered, under the same condition on timers |
| ClusterReplay.NodesRecord | crates/runtime/src/main.rs:1862-2091 | at every moment of a cluster run each node's state and trace are those of a record run of that node alone on the envelopes it was given |
| ClusterReplay.ClusterNodesReplay | crates/runtime/src/main.rs:1862-2113 | each node of a cluster run can be replayed from its own trace without the network, under the same condition on its timers; replay accepts exactly when the node has no message left, and ends in the node's state |
| Recording.RunRecord | crates/runtime/src/main.rs:1779-2119 | the record-mode main loop ends in the state and writes the file of the specified run, or fails with its error |
| TraceFile.StampAt | crates/runtime/src/main.rs:1153-1172 | each event of the file has its place as its number, modulo 2^64, and the seed 12345 |
| Recording.Step | crates/runtime/src/main.rs:1863-2084 | one iteration: network, due timers, one delivery, with the events in that order |
| DeliveryMeaning.StepParts | crates/runtime/src/main.rs:1863-2084 | the events of a step are network and fault events, then firings with their messages, then at most one Deliver followed by exactly what its handler reports; nothing is delivered only if all inboxes are empty |
| DeliveryMeaning.LeastServed | crates/runtime/src/main.rs:1919-2000 | the delivery of a step goes to the least actor with a message once the step's receipts and firings are in, and takes the head of its inbox |
| Recording.DrainNetwork | crates/runtime/src/main.rs:1420-1472 | ingests the arrivals under the step's policy, flushes the rest of the reorder buffer, and appends every released envelope to its actor's inbox with a NetRecv event |
| Recording.TakeDueTimers | crates/runtime/src/main.rs:1884-1895 | splits the pending timers into the due ones, sorted by id, and the others in their order |
| Recording.FireTimers | crates/runtime/src/main.rs:1896-1917 | fires the timers in order, each TimerFired followed by the event of its message, stopping at the first that cannot be dispatched |
| Recording.ChooseDelivery | crates/runtime/src/main.rs:1919-1931 | whatever order the actors are listed in, picks the head of the inbox of the least actor that has a message, or nothing when all are empty |
| Recording.Start | crates/runtime/src/main.rs:1784-1848 | writes the Spawn events in program order and the bootstrap messages to the entry service, Gateway if there is one |
| Replaying.RunReplay | crates/runtime/src/main.rs:1779-2113 | the replay-mode main loop succeeds on exactly the files the specification accepts, whatever their numbers and seeds, and ends in the specified state; otherwise it fails with the specified error |
| Replaying.NextReplayDelivery | crates/runtime/src/main.rs:1507-1566 | advances over receipts, fault events, other nodes' events and timer firings to the next delivery of this node or the end of the trace |
| Replaying.DrainReplayInbound | crates/runtime/src/main.rs:1588-1615 | consumes network and fault events only, and pushes the first other event back |
| Replaying.ReplayFireTimer | crates/runtime/src/main.rs:1618-1672 | fires the pending timer with this id and actor, removed by swapping, and demands that the next event of the trace is its message |
| Replaying.VerifyReplayEmits | crates/runtime/src/main.rs:1674-1716 | succeeds if and only if the trace goes on with exactly the expected events and then not with another handler emission, leaving the cursor right after them |
| Replaying.ReplayCursor.Next | crates/runtime/src/main.rs:1491-1496 | yields and removes the first of the events still to be read, the pushed-back one first |
| Replaying.ReplayCursor.Unread | crates/runtime/src/main.rs:1498-1504 | puts an event back in front of the events still to be read |
| Replaying.PendingInboxMessages | crates/runtime/src/main.rs:1474-1476 | counts the messages in all inboxes; zero exactly when every inbox is empty |
| Runtime.Runtime.constructor | crates/runtime/src/main.rs:662-686 | one actor per service with its initial store and an empty inbox |
| Runtime.Runtime.DispatchOutgoing | crates/runtime/src/main.rs:793-865 | a local message gets the next id and goes to the end of the target's inbox, a remote one gets the next id and leaves; unknown services and missing actors are errors |
| Runtime.Runtime.EnqueueBootstrap | crates/runtime/src/main.rs:1718-1777 | the configured number of root messages with consecutive ids, each its own origin and parent |
| StartupMeaning.StartupMeans | crates/runtime/src/main.rs:1718-1848 | start-up announces the system actor and then every service in program order; Gateway, or the first service if there is none, has exactly the configured number of messages waiting, of type start from System with the texts bootstrap #1, bootstrap #2 and so on, each a root with the next message id and announced as sent by the system actor; every other inbox is empty, every store initial, and the counters go on from there |
| StartupMeaning.FirstTexts | crates/runtime/src/main.rs:1739-1756 | the texts of the first two start messages, letter by letter |
| StartupMeaning.FirstDelivery | crates/runtime/src/main.rs:1862-2084 | without inbound traffic the first step of a run delivers the first of these messages: the entry service's handler for start runs on its initial store |
| Runtime.Runtime.SendOutbox | crates/runtime/src/main.rs:2055-2083 | processes the outbox in order: delayed sends become timers due after their delay, the others are dispatched |
| Runtime.Runtime.Deliver | crates/runtime/src/main.rs:1983-2083 | pops the head of the inbox, demands the id the trace expects, runs the handler on it, and reports effects, logs and sends in that order; every error of the source is the specified one |
| DeliveryMeaning.DeliveryMeans | crates/runtime/src/main.rs:1983-2083 | a delivery keeps the store its handler leaves and no other actor's is changed; it reports the declared and observed effects, then each log line, then one event for each message sent at once, in order, to the actor of the named service or to the named node |
| DeliveryMeaning.AnswerInTrace | crates/runtime/src/main.rs:1097-1112 | when a handler of a message from another node sends to sender, the trace of the step has a NetSend of that message type to that node after the Deliver event |
| Executor.ExecuteAction | crates/runtime/src/main.rs:906-1151 | an action updates store, outbox, logs and observed effects in place as specified, or fails with the specified error |
| Executor.ExecuteActions | crates/runtime/src/main.rs:867-898 | runs the handler for the message type, if the service has one, up to the first failing action |
| ActionMeaning.SendingMeans | crates/runtime/src/main.rs:954-1128 | a sending action adds to the end of the outbox, with the named service, message type, rendered template, continued lineage and delay: one message to this node for a local send; one to the node the handled message came from for sender, or none if that is no UUID; one to the named node for node:id; and for peers one each in ascending order, or one to this node if there are none; a message for this node is local |
| ActionMeaning.StatefulMeans | crates/runtime/src/main.rs:916-953 | log adds one line rendered from the template, set and inc change the one declared key by exactly the value and fail on an undeclared key or on overflow, and a condition runs its action exactly if the key has the value |
| ActionMeaning.HandlerMeans | crates/runtime/src/main.rs:867-898 | a handler runs the plan for its service and message type from the actor's store with nothing sent, logged or observed, and declares the plan's effects; without a plan nothing happens |
| ActionMeaning.ActionsInOrder | crates/runtime/src/main.rs:888-896 | actions run first to last, each on what those before it left, up to the first failing one |
| Executor.SortedPeerIds | crates/runtime/src/main.rs:787-791 | lists the peer ids in ascending order, whatever order the map yields them in |
| Executor.SortedListing | crates/runtime/src/main.rs:787-791 | sorting any duplicate-free listing of a set of ids gives the one ascending enumeration of it |
| Interp.EffectSeqExact | crates/runtime/src/main.rs:650-652 | the effect list in a trace has exactly the effects of the set, each once |
| Scheduler.ChoosesLeast | crates/runtime/src/scheduler.rs:14-20 | the chosen delivery is a candidate, and none comes before it in the order of node, actor and message |
| Scheduler.ChoiceIgnoresOrder | crates/runtime/src/scheduler.rs:14-20 | every permutation of the candidates gives the same choice |
| Scheduler.ChoosesLeastActor | crates/runtime/src/main.rs:1919-1931 | from a node's inbox heads, however listed, the scheduler picks that of the least actor with a message |
| Base.IdsDetermineCounters | crates/runtime/src/main.rs:184-200 | a message id and a timer id determine the counter value they were made at, even across the wrap at 2^128, and no message id of a node is one of its timer ids |
| RecordTrace.FollowsNumbered | crates/runtime/src/main.rs:184-188 | along any trace the machine follows, the messages sent carry the node's ids for consecutive counter values, as long as the counter has not saturated |
| RecordTrace.NumberedIds | crates/runtime/src/main.rs:184-188 | so no two messages of a node have the same id |
| TimerRuns.FiresExactlyWhenDue | crates/runtime/src/main.rs:1883-1917 | over any record run: a timer that the handler of step s asks for with delay d is pending from step s + 1 until step s + d, and if the run gets there the events of step s + d have its TimerFired, followed at once by one message with its payload, from its actor and to its target |
| TimerRuns.FiresNoOtherTime | crates/runtime/src/main.rs:1883-1917 | while the timer counter is unsaturated, no other step of the run fires that timer |
| TimerRuns.FiringsWereAskedFor | crates/runtime/src/main.rs:2055-2066 | conversely, every TimerFired of a step k is that of a timer some handler asked for in an earlier step s with delay k - s |
| TimerRuns.HandlerAsks | crates/runtime/src/main.rs:2055-2066 | the timers of a handler run are exactly its delayed sends, in order, with their delays and consecutive timer ids |
| TimerTiming.FiringBlocks | crates/runtime/src/main.rs:1896-1917 | each firing is a TimerFired event followed at once by one message with the timer's payload, from the timer's actor to its target |
| TimerRuns.FiresInOrderMade | crates/runtime/src/main.rs:190-200 | over any record run: of two timers that fire in the same step, the one asked for in an earlier step, or earlier in the same outbox, comes first in the trace, as long as the ids do not wrap at 2^128 |
| TimerTiming.FiresAtMostOnce | crates/runtime/src/main.rs:1884-1917 | no two TimerFired events of a run name the same timer, and a fired timer is pending no more |
| Faults.ValidateSorted | crates/runtime/src/main.rs:94-119 | the checks on phases sorted by start succeed if and only if every phase covers a step and no two cover the same step |
| Faults.SortAndValidatePhases | crates/runtime/src/main.rs:91-121 | the same for phases in any order; on success the phases are sorted and the policy of every step is unchanged |
| Faults.LookupPermuted | crates/runtime/src/main.rs:81-89 | with disjoint phases the last-wins lookup gives the same policy for every order of the phases |
| Faults.AtMostOneActive | crates/runtime/src/main.rs:52-62 | with accepted phases at most one is active at any step |
| FaultInjection.FindPolicy | crates/runtime/src/main.rs:81-89 | the policy of the last active phase, or the base policy |
| InjectorEvents.PolicyMeans | crates/runtime/src/main.rs:52-89 | the policy of a step is that of the last listed phase that covers it, both bounds included, and the base policy if none does |
| FaultInjection.FaultInjector.SyncPolicy | crates/runtime/src/main.rs:1232-1261 | on a policy change flushes the reorder buffer under the old window first, then announces the new policy; announces the first policy once |
| FaultInjection.FaultInjector.Ingest | crates/runtime/src/main.rs:1263-1331 | counts the envelope, drops it on a multiple of drop_every, and otherwise stages it with its release step, with the events the trace has to show |
| FaultInjection.FaultInjector.FlushChunk | crates/runtime/src/main.rs:1333-1372 | moves up to a window of buffered envelopes to the queue in reverse, with one Reorder event each when there are several |
| FaultInjection.FaultInjector.ReleaseDue | crates/runtime/src/main.rs:1407-1417 | takes the longest due prefix off the queue, in order |
| InjectorProps.DrainClosedForm | crates/runtime/src/main.rs:1420-1448 | one drain in closed form: the survivors of the arrivals, in reversed window-size chunks, join the queue, the due prefix leaves it, and the reorder buffer is empty again |
| InjectorProps.ReorderMovesLittle | crates/runtime/src/main.rs:1333-1372 | reordering is a self-inverse permutation that moves no envelope by a window or more |
| InjectorProps.QueueForm | crates/runtime/src/main.rs:1407-1417 | over any run and any policy changes, before each step exactly the longest prefix of the queue that has been due has left, the rest is pending in order, and the reorder buffer is empty |
| InjectorProps.HasLeft | crates/runtime/src/main.rs:1407-1448 | the i-th entry of the queue has left before step n if and only if the run has reached its own release step and those of all ahead of it |
| InjectorProps.LeavesInStep | crates/runtime/src/main.rs:1407-1448 | so a step releases, in queue order, exactly the entries for which the latest release step of themselves and all ahead of them is that step: each envelope leaves once, at the first step that reaches them all |
| InjectorProps.PendingSorted | crates/runtime/src/main.rs:1293-1296 | while every policy delays by the same number of steps, the pending queue is sorted by release step |
| InjectorProps.Conservation | crates/runtime/src/main.rs:1232-1417 | over any run and any policy changes, the accepted envelopes are as a multiset the dropped ones, the released ones and those still pending |
| InjectorProps.DropsEveryNth | crates/runtime/src/main.rs:1274-1291 | while the policy of every step has drop_every = d, whatever else the phases change, floor(k / d) of k accepted envelopes are dropped |
| InjectorProps.ExactDelay | crates/runtime/src/main.rs:1293-1296 | while the policy of every step has delay_steps = d, windows and drops free to change, every survivor is released exactly d steps after its arrival, in its reordered place |
| InjectorProps.DrainEvidence | crates/runtime/src/main.rs:1278-1331 | the Drop events of a drain are exactly those of the dropped envelopes and the Reorder events exactly those of the envelopes in chunks of more than one, in order |
| InjectorEvents.DrainTells | crates/runtime/src/main.rs:1232-1448 | the whole of what a drain writes, event by event: the policy if it is new; for each arrival either its Drop, exactly at the multiples of drop_every, or its Delay with the policy's steps if they are positive and, whenever the window is full, a Reorder for each envelope in it; and a Reorder for each envelope of a last chunk of more than one |
| InjectorEvents.SyncTells | crates/runtime/src/main.rs:1232-1261 | on a change of policy the next chunk buffered under the old window leaves reversed and reported under that window, before the new policy is announced; an unchanged policy and the first one let nothing out |
| RunEvidence.PolicyDuringStep | crates/runtime/src/main.rs:1232-1261 | in the trace of a record run: from the drain of a step to its end, at each receipt, firing and delivery, the latest FaultPolicy event so far announces the policy of that step |
| RunEvidence.PolicyInRecording | crates/runtime/src/main.rs:1232-1261 | and in the whole trace, start-up included, it announces the policy of the last step |
| RunEvidence.ConservedInTrace | crates/runtime/src/main.rs:1232-1472 | in the trace of a record run, under any policy changes: the accepted envelopes are as a multiset those of the NetRecv events, those of the Drop events and those still pending, and the reorder buffer is empty |
| RunEvidence.ReceiptsInStep | crates/runtime/src/main.rs:1420-1472 | the NetRecv and Drop events of step k of a record run are exactly those of the envelopes the injector, run on its own, releases and drops in that step |
| RunEvidence.ReceivedWhenReached | crates/runtime/src/main.rs:1407-1472 | in the trace, under any policy changes: what is received in step k is, in queue order, what has k as the latest release step of itself and all ahead of it |
| RunEvidence.ReceivedAfterDelay | crates/runtime/src/main.rs:1293-1296 | in the trace, under a constant delay d: what is received in step k is what arrived in step k - d and was not dropped, in its reordered order |
| RunEvidence.DropsInTrace | crates/runtime/src/main.rs:1274-1291 | in the trace, under a constant drop_every = d: floor(k / d) Drop events for k accepted envelopes |
| Loader.LoadProgram | crates/runtime/src/main.rs:433-504 | loading succeeds if and only if names are used once, effects are declared once per message type, every handler passes validation, and declared effects equal inferred ones; it then gives the module's program; otherwise the error names the first service that does not fit and what is wrong with it, or a handler with its first invalid action or its wrong effects |
| Loader.ProgramMeans | crates/runtime/src/main.rs:438-480 | the program holds each service's own initial store, with the declared value under every declared key and no other key, and, per message type, its handlers' actions in order and the last one's effects |
| Loader.InferHandlerEffects | crates/runtime/src/main.rs:587-620 | the effects of all actions of a handler together |
| Loader.CheckHandler | crates/runtime/src/main.rs:482-497 | a handler passes if and only if all its actions are valid and its declared effects are exactly those its actions may have |
| LoaderMeaning.ValidMeans | crates/runtime/src/main.rs:506-585 | an action is valid if and only if all keys it tests or changes are declared, the service it sends to exists, its timer waits at least one step and the node it names is a UUID, however deep it is nested |
| LoaderMeaning.InvalidMeans | crates/runtime/src/main.rs:506-585 | the complaint about an invalid action names a key, service or node that is wrong with it, or its timer of no steps |
| LoaderMeaning.EffectsMean | crates/runtime/src/main.rs:587-620 | an action has the effect of its innermost action, and state_read exactly if it has a condition |
| LoaderMeaning.HandlerOkMeans | crates/runtime/src/main.rs:482-497 | a handler is accepted if and only if each of its actions is valid and it declares an effect exactly when one of them has it |
| LangSound.LoadedHandlersSound | crates/runtime/src/main.rs:867-1151 | a handler of a loaded program fails only on overflow; it observes no undeclared effect, and all declared ones if it declares no state_read; undeclared state_write, log, or all send and timer effects mean an unchanged store, no logs, or nothing sent; what it sends goes to services of the program and continues the handled message's provenance |
| RunSound.HandlingSucceeds | crates/runtime/src/main.rs:793-865 | delivering a decodable message to an actor of a loaded program, its outbox included, fails only on overflow, and every timer it asks for has a service to send to |
| RunSound.FireAllSound | crates/runtime/src/main.rs:1896-1917 | firing pending timers never fails: each delayed send still finds its service and its actor |
| RunSound.StepsSound | crates/runtime/src/main.rs:1862-2091 | for any number of steps, run on inbound traffic and fault policies of any kind, a loaded program fails only on overflow or, if one was accepted, on an undecodable envelope; after every step all services have their actors with the declared state and all pending timers a service |
| RunSound.LoadedProgramsRun | crates/runtime/src/main.rs:1779-2119 | the same for whole record runs, start-up included, which never fails |
| LeanRefine.InterpreterRefinesKernel | semantics-lean/Main.lean:15-91 | on log, set, inc, local send and nested if, a successful run of the interpreter agrees with the kernel's applyActions on every declared key and message by message in the outbox |
| LeanRefine.SucceedsInRange | crates/runtime/src/main.rs:916-937 | and on declared keys the run succeeds if and only if the kernel's counters fit 64 bits in every state on the way |
| Verifying.VerifyTrace | crates/tool/src/main.rs:856-1125 | the verifier loop reports the specified problems in order and the number of messages left in its queues |
| Verifying.VerifyPayloadLineage | crates/tool/src/main.rs:513-640 | reports the specified lineage problems and records the delivery, stopping at the first field that cannot be read |
| VerifyMeaning.CleanMeans | crates/tool/src/main.rs:856-1125 | no problem is reported if and only if every event has its index as number and the common seed, deliveries and EffectObserved events come in adjacent matching pairs, firings are followed by a send of the same actor, used actors are spawned once, nothing dropped is received, every delivery has a message left to deliver, and every delivered payload continues what was delivered; the pending count is then productions minus deliveries |
| VerifyCategories.CategoryCleanMeans | crates/tool/src/main.rs:868-1124 | for numbering, seed, timers, effect pairing and delivery sources each on its own, whatever other problems there are: no problem of the category if and only if all numbers equal the index, all seeds agree, every firing is followed at once by a send of its actor, deliveries and EffectObserved events come only as adjacent matching pairs, or no prefix delivers more than it produces |
| VerifyCategories.PendingWhenSourced | crates/tool/src/main.rs:1121-1124 | when every delivery has a source, the pending count is productions minus deliveries, even in a trace with other problems |
| VerifyReports.ReportExact | crates/tool/src/main.rs:868-1124 | for every problem the verifier can report, lineage, spawns, drops and effect lists included, and whatever else is wrong with the trace: it is reported exactly as often as events raise it, each kind by its own condition on the trace, and once more if the end of the trace does |
| VerifyReports.EarlierFirst | crates/tool/src/main.rs:868-1124 | problems are reported in the order of the events that raise them |
| VerifyReports.PendingExact | crates/tool/src/main.rs:1121-1124 | whatever is wrong with a trace, the pending count is the number of productions that no delivery has taken |
| QueueMirror.VerifierSeesPoppedPayload | crates/tool/src/main.rs:642-688 | on any trace the machine follows, whatever arrives and even when two nodes made the same message id, the payload the verifier's queues yield at a Deliver is the one the runtime pops there |
| RecordVerified.PendingIsWhatInboxesHold | crates/tool/src/main.rs:1121-1124 | on every record run with inbound envelopes for known actors, clean or not, the verifier's queues are the projections of the inboxes and its pending count is what the inboxes hold |
| RecordVerified.SingleNodeRunVerifies | crates/tool/src/main.rs:856-1125 | a successful record run without inbound traffic gets zero problems, lineage checks included, for every loaded program, fault policy and number of steps |
| Verifying.CollectDeliveriesWithPayload | crates/tool/src/main.rs:642-688 | the deliveries that find a payload, each with the oldest undelivered payload under its actor and message id |
| Verifying.BuildLineageIndex | crates/tool/src/main.rs:702-731 | the index of all deliveries whose provenance and sender can be read, the latest per key |
| VerifyReports.IndexMeans | crates/tool/src/main.rs:702-731 | the index holds under each node and message id exactly the latest delivery that hands over a message with a provenance from that node, as the trace has it |
| ClusterVerifying.VerifyCluster | crates/tool/src/main.rs:1157-1429 | every problem is in the report exactly as often as the traces give reason for it: each receipt without a send, payload mismatch, drop without a send, message both received and dropped or neither, repeated note or delivery, invalid, missing or contradicted parent, and trace of no node or of several; there is none if and only if each trace is of one node, evidence is unique, receipts and drops match sends, every send into the cluster is received or dropped but not both, deliveries are unique across traces and parents are continued; its numbers are the sizes of the matched, dropped, external, resolved and unresolved sets |
| ClusterReports.TablesMean | crates/tool/src/main.rs:1157-1262 | the tables of sends, receipts and drops hold exactly the keys the traces mention, each with the payload mentioned last, and a repeated mention is counted each time but the first |
| ClusterReports.IncludedMeans | crates/tool/src/main.rs:1142-1182 | the nodes of a cluster are those that any event but a Send names as its own |
| ClusterMeaning.SendsPartitioned | crates/tool/src/main.rs:1264-1328 | on a clean report the sent messages split disjointly into those received with equal payload, those dropped and those that left the cluster, and the three counts add up to the number of NetSend events |
| ClusterMeaning.SendAccountedFor | crates/tool/src/main.rs:1306-1328 | event by event: a NetSend into the cluster has either a receipt with its payload or a drop, never both |
| ClusterMeaning.LineageReachesRoot | crates/tool/src/main.rs:1330-1426 | when all trace reports and the cluster report are clean, no parent is external and hops have not saturated, following h parent links from a message with h hops reaches a root, every record on the way has one hop less and the same origin, and the origin is the root's own id, node and service |
| ClusterMeaning.LineageAcyclic | crates/tool/src/main.rs:1330-1426 | so no message but a root is its own ancestor |
| LineagePath.WalkLineagePath | crates/tool/src/main.rs:786-850 | the printed walk ends where the specified walk over the trace's index ends |
| LineagePath.WalkMeans | crates/tool/src/main.rs:799-850 | a walk follows parent links from its start, meeting no message but the last twice, and ends for the reason found where its last link leads: nothing recorded, a root, an unreadable parent, itself, a message met before, or 256 links |
| LineagePath.WalkEndsWell | crates/tool/src/main.rs:799-850 | in a verified cluster the walk reaches the root after exactly as many links as the message has hops, unless it leaves the trace or reaches the limit of 256 first; it never finds a cycle, an invalid reference or a record that is its own parent |
| ClusterVerified.ClusterStepKeeps | crates/runtime/src/main.rs:1862-2091 | every step of a cluster keeps: clean traces, ids not reused, inboxes, injectors and wires holding exactly what was sent and not yet delivered or dropped, and true lineage indexes |
| ClusterVerified.EveryTraceVerifies | crates/tool/src/main.rs:856-1125 | at every moment of every cluster run, whatever is still under way, each node's trace gets zero problems |
| ClusterClean.ClusterRunVerifies | crates/tool/src/main.rs:1157-1429 | any number of nodes with distinct ids recording the same loaded program, each under its own fault policies, over channels that deliver every envelope once and in any order: when nothing is under way any more the cluster report is clean for every order of the traces, with no external receipts, drops or parents, and no external sends unless a node addressed one |
| ClusterRun.DrainConserves | crates/runtime/src/main.rs:1420-1448 | what arrives in a drain and what was pending is dropped, released or pending after it |
| Wire.StepSends | crates/runtime/src/main.rs:819-848 | the NetSend events of a step are the evidence of exactly the envelopes put on the wire, in order |
| Wire.StepTakes | crates/runtime/src/main.rs:1263-1472 | the NetRecv and Drop events of a step are the evidence of exactly the envelopes released and dropped |
| Addressing.WireAddressed | crates/runtime/src/main.rs:819-848 | a step puts on the wire exactly one envelope for each message for another node that its firing timers carry or its handler sends at once, in order, from this node to that one, for the actor of the service that handler named |
| Addressing.ReceivedAsAddressed | crates/runtime/src/main.rs:819-848 | whatever a node of a cluster receives was sent in an earlier move by a handler or timer of the sending node to this node, for the actor of the service it named and with the same payload, and that move has the NetSend event with the receipt's id |
| Lexer.Tokenize | crates/lang/src/parser.rs:495-540 | the tokenizer loop gives the specified tokens or complaint |
| Lexer.TokensRoundTrip | crates/lang/src/parser.rs:495-540 | tokens written bare or in quotes with escapes are read back as they are, whatever quotes, backslashes and blanks they contain |
| LineGrammar.LayoutTokens | crates/lang/src/parser.rs:495-540 | a line has exactly the tokens written in it, however each is put together of bare and quoted stretches with escapes, and whatever white space separates them |
| LineGrammar.OpenQuotes | crates/lang/src/parser.rs:495-540 | a quote that is not closed and a backslash with nothing behind it are refused, each with its complaint |
| LineGrammar.WhiteSpace | crates/lang/src/parser.rs:521-526 | blanks, tabs, carriage returns and line feeds separate tokens, and no visible ASCII character does |
| Decimal.IntRoundTrip | crates/lang/src/parser.rs:190-207 | a printed integer is read back |
| Numerals.ParseMeans | crates/lang/src/parser.rs:190-207 | a signed or unsigned 64-bit number is read from exactly its decimal spellings, leading zeros and a sign included, and nothing else is |
| Numerals.PrintedShort | crates/lang/src/parser.rs:190-207 | a printed number has no leading zero |
| Parsing.ParseEffectsDecl | crates/lang/src/parser.rs:209-256 | comma- and blank-separated effect names, each once; unknown names and empty lists are refused |
| Grammar.EffectsSpelled | crates/lang/src/parser.rs:209-256 | an effects line stands for the effects it names in the order of first mention, however blanks and commas separate the names; an unknown name, no name, or no token is refused |
| Grammar.NamedMeans | crates/lang/src/parser.rs:209-256 | the effects of a list of names are, if all names are known, those named in it, each once |
| Grammar.EffectNames | crates/lang/src/parser.rs:227-240 | the seven names, and the effect each one names |
| Grammar.CommasOrBlanks | crates/lang/src/parser.rs:209-256 | names separated by commas and names separated by blanks are the same names |
| Parsing.ParseSource | crates/lang/src/parser.rs:20-130 | the line loop gives the specified module, or the number of the first wrong line and what is wrong with it |
| ParserRoundTrip.ActionRoundTrip | crates/lang/src/parser.rs:269-493 | every printed action is parsed back, `if` nested to any depth |
| Grammar.ActionSpelled | crates/lang/src/parser.rs:258-493 | tokens are taken for an action if and only if they are one of the ways to write it: all accepted spellings of every action, conditions nested to any depth |
| Grammar.IncByOne | crates/lang/src/parser.rs:324-343 | inc k is inc k 1 |
| Grammar.TimerWithoutScope | crates/lang/src/parser.rs:374-433 | a timer without a scope is a local one |
| Grammar.TemplateOfTokens | crates/lang/src/parser.rs:295-477 | a template of several tokens is the one token with single blanks between them |
| Grammar.UnderIf | crates/lang/src/parser.rs:345-372 | two ways to write an action are so behind a condition too |
| Grammar.ActionComplaint | crates/lang/src/parser.rs:258-493 | a token list is refused as an action with a complaint if and only if that is the first thing wrong with it, under its own line number |
| Grammar.EmptyLines | crates/lang/src/parser.rs:25-31 | a blank line or a comment changes nothing but the numbers of the lines after it |
| Grammar.Indented | crates/lang/src/parser.rs:25-31 | indentation and trailing blanks make no difference |
| Grammar.LastLineOpen | crates/lang/src/parser.rs:25 | the last line needs no line break |
| LineGrammar.EveryLineJudged | crates/lang/src/parser.rs:20-130 | a line is refused with a complaint if and only if that is the first thing wrong with it where it stands, missing actions and effects of the handler before it included, and under its own number |
| LineGrammar.SourceEnds | crates/lang/src/parser.rs:114-129 | the end of the source finishes the handler and service under way, and an unfinished handler or a source without services is refused there |
| ParserRoundTrip.ModuleRoundTrip | crates/lang/src/parser.rs:20-130 | every module with non-empty one-line names and templates, non-empty duplicate-free effects, non-empty actions and timer steps of at least one is parsed back from its printed form |
| ParserRoundTrip.ParsedModuleOk | crates/lang/src/parser.rs:20-130 | and the parser returns only such modules |
| ParserRoundTrip.PrintingNormalizes | crates/lang/src/parser.rs:20-130 | so parsing, printing and parsing again gives the same module for every accepted source |

## Left out

- RecordReplay.RecordThenReplay: requires a timer counter below 2^64-1, which a caller can check on the final counter, or at least pending timers that differ in id or actor whenever some fire. After saturation all new timers share one id; the condition then suffices but is not necessary, since timers that share id and actor may still send the same.
- Replaying.RecordedFileReplays: carries the condition of RecordReplay.RecordThenReplay.
- ClusterReplay.ClusterNodesReplay: carries it too, for the node that is replayed.
- RecordVerified.SingleNodeRunVerifies: requires unsaturated message and timer counters and at most 2^64 events, because saturated message ids repeat and event numbers wrap. So do ClusterVerified.EveryTraceVerifies and ClusterClean.ClusterRunVerifies.
- ClusterClean.ClusterRunVerifies: channels are assumed to deliver what was sent, so it does not cover a node that sends to a cluster node missing from its peer list, for which the runtime records a NetSend and puts nothing on the wire.
- ClusterMeaning.LineageReachesRoot: requires hops below 2^64-1, where they saturate and the verifier's check that a child has one hop more can no longer tell levels apart.
- LeanRefine.InterpreterRefinesKernel: speaks of runs that do not fail, which LeanRefine.SucceedsInRange characterizes for declared keys; the kernel has an entry for every key, so a run on an undeclared key has no counterpart.
- TimerRuns.FiresInOrderMade: ids order timers only as far as they do not wrap at 2^128; beyond that the source's order by id differs from the order of asking.
- TimerRuns.FiresNoOtherTime: requires an unsaturated timer counter, as does TimerTiming.FiresAtMostOnce; after 2^64-1 timers new ones share one id.
- A service named System: its actor would share the id of the system actor and be spawned twice; runs are assumed to have none.
- Fairness: the scheduler always serves the least actor id, so no progress of other actors is claimed.
- `render_template` is an uninterpreted function of template, node, service, message and store. It reads `$state.x` without the effect `state_read`, so effect soundness is about actions, not about the text of templates.
- UUID parsing and printing and name-based ids (version 5, section 5.5 of RFC 9562) are parameters or a datatype.
- Payloads are either messages or undecodable. The runtime needs a `text` field and a `parent_node` that the tool can do without; payloads on which the two decoders differ are not modelled.
- The depth limit for nested `if` (a limit of eight is coded) is not modelled, because the check is only reached with depth zero; the round trip holds at any depth.
- Messages of problems and errors are datatypes of tags; their classification, the JSON reports and summaries are string formatting. Replay's two messages for a missing and for a different emitted event are one error.
- Partial changes of a run that ends in an error are not specified; the error is.
- TCP, retries, threads, files, command-line parsing, sleeps and console output are I/O.
- Dispatching a remote message in record mode hands the envelope to the network even if sending fails; delivery is the channel's part of the model.
