# Verification model of the shared-pool proxy core

This project models, in Dafny, the part of pqproxy that lets many PostgreSQL frontends share a few backend
connections: the event loop with its deferred-message queues and its fair wait ring, the backend pool, the
re-framing of backend responses, the statement cache and the Bind rewrite that injects the verified identity.

The same behaviour appears twice where the source changes state in place. A *value* form
(`Scheduler`, `Frontend`, `BackendPool`) says what each operation makes of a state; `Scheduler.Step` is one event,
`Scheduler.Run` any sequence of events. A *class* form (`EventLoop.Loop`, `PoolSlots.SlotPool`, `Queues.RequestQueue`,
`Queues.WaitRing`, `StmtCache.Cache`, `Framer.Receiver`, `SendBuffer.FrontendOut`) works on arrays, ring indices and
loops as the source does, and each of its methods is proved to do exactly what the value form says. The theorems
about every step and every run are then lemmas about the value form. All capacities are parameters.

Each connection carries two traces that no decision depends on: `sent`, what was queued to its socket, and `acts`, what
happened to it. What it is owed is said of `acts` alone (`Dialogue.Told`, `Dialogue.Pieces`): one answer for each kind of
thing that can happen. `Transcript.ToldExactly` is that it gets that, in order, and nothing else.

| files | contents |
|---|---|
| `Ring`, `Wire` | circular addressing; messages, parameters, identities |
| `StmtCache`, `IdentitySlot`, `SlotInverse`, `Rewrite` | the statement cache, the column-list scan, the Bind rewrite |
| `Framer`, `Unread` | response framing, chunked and blocking; exactly when a reply is left unread |
| `SendBuffer`, `GroupList` | the frontend send buffer, the group list |
| `BackendPool`, `PoolOwnership`, `PoolCheckout`, `PoolSupply`, `PoolCreate` | the pool as a value, and what is true of it |
| `Frontend`, `Scheduler` | one connection, and the event loop, as values |
| `Invariant`, `Steps` | the invariant of the event loop and its proof for every event |
| `History`, `Refinement`, `Loss` | deferred execution against a proxy that handles one message at a time |
| `Injection` | whose identity goes into which parameter of a pipeline, from the accepted connection on |
| `Answers` | one answer for every pipeline, in its place; answers to Parse and Query against one-at-a-time handling |
| `Dialogue`, `DialogueSteps`, `Transcript` | everything a connection is told, as a function of what happened to it |
| `Responses` | whose output is relayed, and exactly when it is whole |
| `Delivery` | under which login a pipeline runs, and that all of its bytes are sent |
| `Waiting`, `FairPass`, `FairSteps`, `Fairness` | FIFO grants, no overtaking, work conservation, bounded waiting |
| `FairNetwork` | no overtaking of places and bounded waiting on an arbitrary network |
| `Stuck`, `Counterexamples` | who is not served: ill-formed Binds, and waiters beside revived backends |
| `Tally`, `Revival`, `Census`, `CensusSteps` | by counting the pool: exactly which events leave a waiter beside a live backend |
| `Isolation` | whose reply a connection is given, over whole runs |
| `Results` | the invariant in the terms of the source's fields |
| `Queues`, `PoolSlots`, `EventLoop` | the classes |

## Assumptions

- Fair scheduling and asynchronous backends are on, and there is a pool: the configuration the scheduler exists for.
- Submission to the ring and memory allocation succeed. A completion is delivered only for an operation that is pending.
- The protocol library is seen through small contracts: a prepared statement copies the fields of its Parse; a
  message is as long as one plus its big-endian length field; tracking a pipeline notes ErrorResponse and
  ReadyForQuery. Which messages it accepts and which types it filters are arbitrary; `Framer.CompletionIsRelayed`
  alone assumes that the filter keeps ErrorResponse and ReadyForQuery. Message flow is that of section 55.2.3 of the
  PostgreSQL 16 documentation, "Extended Query".
- The network is an arbitrary sequence of answers, one for each connection attempt, probe or blocking round trip.
  A blocking read is given the bytes that arrive before it fails, for whatever reason: end of stream, an error, or
  nothing there yet on a descriptor set non-blocking (`src/backend_pool.c:205-211`).

The fairness theorems add `Waiting.Steady`: no group login, no health checks, and reconnects that are off or always
succeed, which is what makes the set of usable backends fixed. A waiter is `Waiting.Able` when the rewrite of its
Bind is accepted and fits the send buffer. Bounded waiting needs nothing more, nor does the order of the ring: nobody
new comes to stand ahead of an able waiter. That nobody is *granted* a backend past an able waiter holds for every event
but one: input that arrives while such a waiter stands beside a backend. Work conservation needs one thing more, and
exactly that (`Fairness.ServedExactly`): that no Bind arrives, while a backend is to be had, whose queued copy could be
sent although the Bind itself cannot (`Fairness.ServesRun`).

`FairNetwork.BoundedAnywhere` is bounded waiting without `Steady`, on an arbitrary network: it counts only the releases
that leave a live backend for the waiters. It, and the exact results of `Revival`, `Census` and `CensusSteps`, are for
pools without group login and health checks (`Tally.AnyLogin`).

## Where the code differs from its documentation

- `ARCHITECTURE.md:81` says a frontend parks when the checkout fails. The code parks it whenever the pipeline cannot be
  started, also when the Bind itself is refused (`src/iouring_loop.c:944-956`). Such a frontend is never served, in any
  configuration and on any network: `Stuck.IllFormedWaitsForever`, and `Fairness.ArrivalExact` for exactly when a Bind
  is parked.
- `ARCHITECTURE.md:82` says waiters are resumed on a release. Backends that maintenance brings back resume nobody,
  whether the maintenance is periodic (`src/iouring_loop.c:176-178`) or part of a checkout
  (`src/backend_pool.c:737-740`), which may revive more slots than it takes. Checkouts happen for an arriving Bind, for
  a forwarded query, in each turn of a scheduling pass and as a releaser drains its queue.
  `Counterexamples.TickOverlooked` and `Counterexamples.CheckoutOverlooked` are runs from an initial state that leave a
  waiter with a well-formed Bind beside a live idle backend; `Census.SecondServedFirst` is a pass that serves the second
  waiter past the first and leaves the first beside a live backend. In pools without group login and health checks, on
  an arbitrary network: `CensusSteps.StepExact` says for every event exactly when it leaves an able waiter beside a live
  idle backend, `Census.PassAttended` for one pass, and `Revival.TickExact` (in any pool), `Revival.ArrivalAttended`
  and `Revival.QueryAttended` for the single checkouts in closed form.
- A text parameter of a queued Bind is copied as a C string (`src/iouring_loop.c:513-525`), so a NUL cuts it short.
  `Rewrite.DeferredBindExact` says exactly when the deferred Bind is still rewritten to the same pipeline. The cut copy
  may fit the send buffer when the Bind does not: then the frontend waits beside a backend that would do for it
  (`Counterexamples.LongBindOverlooked`), until the next release.
- The column-list scan stops inside an identifier that ends in "values" and cuts names at 63 characters
  (`src/rewrite_engine.c:220-283`). `IdentitySlot.ResolveInsert` says what it finds for every printed statement,
  `SlotInverse.InvertsExactly` for exactly which statements it inverts the printer, and `SlotInverse.HarmfulMissed`
  gives the parameter name that fails for every other.
- A blocking round trip gives its slot back live with the ReadyForQuery of its reply unread when the messages kept
  before it, each of which fits, do not fit the caller's 16384 bytes together (`src/backend_pool.c:859-861`), or when the
  reply has more than 256 messages (`src/backend_pool.c:841-871`): exactly then, by `Unread.ReplyExact`, with replies of
  two long rows and of 256 short ones in `Unread.TwoRows` and `Unread.ManyRows`. (A single message over 16384 bytes
  loses the connection instead, `Unread.OversizeLost`.) The next pipeline on the slot is then answered with what was
  left, and otherwise with its own reply: `Unread.NextReply`.
- `src/iouring_loop.c:716-717` describes a waiting response as what the backend answered. A forwarded query is given the
  same buffer (`src/iouring_loop.c:1010-1012`, `src/iouring_loop.c:1186-1188`), and the Sync then relays the old length of
  the new bytes (`src/iouring_loop.c:1147-1152`): `Responses.OutputSpoiled`, in a state that `Responses.OutputWaits`
  reaches. `Responses.SurvivesExactly` says which queries leave such an output whole: exactly those that wrote nothing.
  `Responses.ResponsesAreOwn` says whose outputs are relayed, in every run.

## Model

| member | source | states |
|---|---|---|
| Refinement.DeferredRefinesSequential | src/iouring_loop.c:915-1035 | In every reachable state, for a connection that lost no message and none of whose text parameters has a NUL: handled messages followed by the queue are what arrived; its cache is what handling that prefix one message at a time gives; the pipelines issued to backends are exactly that prefix's, hence a prefix of all a sequential proxy issues |
| Refinement.IdentityAlwaysInjected | src/rewrite_engine.c:314-380 | In every reachable state, whatever was lost: the pipelines issued come from as many different Binds the connection handled, in their order; each has the prepared statement of its time, the verified router id in the slot the identity prescribes or else the one recorded with the statement, and every other parameter unchanged |
| Refinement.ReachableTraced | src/iouring_loop.c:1037-1208 | Handled messages and queue are a subsequence of the arrivals; cache and issued pipelines are those of sequential handling, in every reachable state and without any condition on losses |
| Refinement.StepTraced | src/iouring_loop.c:826-842 | Every event keeps every connection's history in step with sequential handling |
| Refinement.DrainKeeps | src/iouring_loop.c:915-1035 | Working off the queue keeps the connection's history in step |
| Refinement.IssuedInjected | src/rewrite_engine.c:329-350 | Sequential handling issues its pipelines from as many different Binds, in their order, each with the identity in its slot |
| History.IssuesPrefix | src/iouring_loop.c:860-913 | Handling more messages only adds pipelines at the end |
| History.MovesTraced | src/iouring_loop.c:472-482 | Moving the queue head to the handled messages, with its effect on cache and pipelines, keeps the history in step |
| History.JoinsTraced | src/iouring_loop.c:458-470 | Joining the queue, or being refused by a full one, keeps the history in step |
| History.DropTraced | src/iouring_loop.c:449-456 | Clearing the queue keeps the history in step and accounts for what is lost |
| Results.HandledInOrder | src/iouring_loop.c:449-482 | In every reachable state handled messages are an order-preserving subsequence of arrivals, none twice, and arrivals are handled, queued or lost |
| Loss.LossExact | src/iouring_loop.c:690-744 | Every event accounts exactly for what each connection gains and loses: losses only by a full queue, by an SQL error with messages queued, or by close |
| Loss.InputAdds | src/iouring_loop.c:1043-1175 | A batch of input adds its real messages in order, and loses exactly those that find the queue full |
| Loss.CompleteAdds | src/iouring_loop.c:690-744 | The end of a pipeline loses the queue of its own connection iff an ErrorResponse was seen, and nothing of any other |
| Loss.CloseAdds | src/iouring_loop.c:301-332 | Closing loses exactly the queue of the closed connection |
| Loss.PassEven | src/iouring_loop.c:622-665 | Scheduling never loses or invents a message |
| Injection.PipelineProvenance | src/rewrite_engine.c:286-380 | In every reachable state, whatever was lost: every pipeline issued comes from a Bind the connection handled and the last Parse of its statement before that, with that Parse's query and types; the router id accepted for the connection is in the slot prescribed for the connection, or else in the one the parameter name means for that query, or else configured; every other parameter is the Bind's own |
| Injection.ParseRecorded | src/rewrite_engine.c:286-312 | A Parse that fits the cache puts its query and types there, with the slot its parameter name means and else the prescribed or configured one, and changes no other statement; one that does not fit changes nothing |
| Injection.SlotNames | src/rewrite_engine.c:186-301 | What a parameter name means: a number is that slot, a number after a dollar sign the one before, a name the first matching column of a printed INSERT that the scan sees, which is the first matching column if the statement is invertible; without parentheses, or with no name, the slot configured |
| Injection.CachedFrom | src/rewrite_engine.c:30-76 | A statement in the cache is the one last prepared under its name |
| Injection.IdentityIsAccepted | src/iouring_loop.c:284-299 | In every reachable state a connection is served under the identity it was accepted with |
| Answers.EveryPipelineAnswered | src/iouring_loop.c:690-765 | In every reachable state each pipeline issued has an outcome, but for the one in progress, and there are as many BindCompletes as good outcomes |
| Answers.PipelineAnswered | src/iouring_loop.c:690-765 | Each outcome is that of the pipeline at its position: one event ends it, and if it ends well that event adds the BindComplete that comes after one for every good outcome before it |
| Answers.AnsweredInOrder | src/iouring_loop.c:915-1035 | In every reachable state the ParseComplete, cache-full and query-rejected replies of a connection, in order, are exactly those of handling its messages one at a time |
| Answers.StepAnswers | src/iouring_loop.c:826-842 | Every event keeps both; the pipeline it ends is answered by one BindComplete exactly if it ends well, and nothing else is |
| Answers.RunAnswers | src/iouring_loop.c:1573-1690 | The same over any run, through every change of connection in the slot |
| Answers.CompleteSays | src/iouring_loop.c:711-737 | Completion says one BindComplete if there was no SQL error and none if there was, in every combination of Sync and response |
| Answers.HandleCoreSays | src/iouring_loop.c:1056-1175 | A message handled without a backend gets the answer it has coming and no other that counts |
| Answers.DrainGo | src/iouring_loop.c:915-1035 | Working off the queue answers what it handles |
| Answers.PassGo | src/iouring_loop.c:622-665 | Scheduling answers nobody out of turn |
| Transcript.ToldExactly | src/iouring_loop.c:690-1208 | In every reachable state: the proxy's own messages to a connection are exactly what it is owed for what happened to it, in order, and so is the output relayed; none of it is held back; the acts are the messages handled and the pipelines issued, in order, and the connection is closing iff it said Terminate |
| Transcript.AnsweredInPlace | src/iouring_loop.c:1056-1196 | Each thing that happened is answered in its place: a Parse, a rejected or a forwarded query, an Execute, a Sync, a refused message, a pipeline that ended well, badly or broke |
| Transcript.CompletionTold | src/iouring_loop.c:711-737 | A completed receive relays its output at once iff it is not empty and a Sync has arrived since the Bind or the backend reported an error, adds a BindComplete iff there was no error, and its own ReadyForQuery iff a Sync has nothing to be answered with |
| Transcript.StepTalks | src/iouring_loop.c:1573-1690 | Every event records how it ended a pipeline, first, and leaves every connection told what it is owed |
| Transcript.OutcomesRecorded | src/iouring_loop.c:690-765 | In every reachable state the outcomes on record are those of the events of the run: each output as received, each pipeline lost |
| Transcript.QueriesTravel | src/backend_pool.c:926-955 | In every reachable state a forwarded query ran under the login of the frontend's group, where groups log in themselves, and its answer on record is the network's |
| Transcript.BusyActs | src/iouring_loop.c:1056-1175 | A message to a busy frontend is kept iff the queue has room, and a Sync among them is what the end of the pipeline goes by |
| Dialogue.DidFaithful | src/iouring_loop.c:986-1025 | Handling a message without a backend answers it as owed: Execute by CommandComplete and Sync by ReadyForQuery iff no output waits, a Sync by that output iff one does |
| Dialogue.AskedFaithful | src/iouring_loop.c:1177-1196 | A forwarded query is answered by relaying its result iff the round trip succeeded with one, and else by ErrorResponse 08006 and ReadyForQuery |
| Dialogue.EnqueuedFaithful | src/iouring_loop.c:1056-1175 | A message that finds the queue full is answered by ErrorResponse 53300, with ReadyForQuery for a Bind or a query; Execute and Sync are not answered |
| Dialogue.EndedFaithful | src/iouring_loop.c:711-737 | The end of a pipeline is answered as owed in every combination of error, Sync and output |
| Dialogue.BrokeFaithful | src/iouring_loop.c:746-765 | A pipeline that breaks is answered by ErrorResponse 08006 and ReadyForQuery, and its output dropped |
| Responses.ResponsesAreOwn | src/iouring_loop.c:717-737 | In every reachable state the responses relayed are outputs received for this connection's own pipelines, in order and each at most once; whole unless a forwarded query wrote over one that waited |
| Responses.OwnInOrder | src/iouring_loop.c:690-744 | Relayed outputs, and then the one that waits, are a subsequence of the outputs received |
| Responses.OutputIs | src/iouring_loop.c:1185-1192 | What a Sync relays is the output received with what forwarded queries wrote since over its start |
| Responses.SurvivesExactly | src/iouring_loop.c:1185-1192 | A waiting output survives, whatever it is, iff no query forwarded meanwhile wrote anything |
| Responses.OutputSpoiled | src/iouring_loop.c:1147-1192 | The failing input: a query that is answered before the Sync an output waits for; its result is relayed, and then the output with that result over its start |
| Responses.OutputWaits | src/iouring_loop.c:711-744 | A pipeline that ends well with no Sync and nothing queued leaves its connection idle with the output waiting |
| Delivery.PipelineDelivered | src/backend_pool.c:1054-1081 | In every reachable state: the bytes the backend has taken of the pipeline in progress, whatever the sizes of the sends, followed by those still to be sent, are the encoding of the pipeline last issued; the frontend reads iff all were taken, and sends iff some are left |
| Delivery.PipelinesRunAsGroup | src/backend_pool.c:998-1048 | In every reachable state: where groups log in themselves, a frontend with a group holds only a slot logged in as that group |
| Delivery.AdvancedToSend | src/backend_pool.c:1072-1081 | A send completion moves exactly the bytes taken, and no more than were left |
| Rewrite.OnBindInjects | src/rewrite_engine.c:314-380 | A Bind is accepted iff its statement is known and the chosen slot is one of its parameters; then the router id is a text value in that slot, which is the prescribed or else the recorded one, and every other parameter is as the client sent it |
| Rewrite.DeferredBindExact | src/iouring_loop.c:493-539 | A queued Bind is accepted iff it would have been at once, and rewritten to the same pipeline iff no text parameter other than the identity has a NUL |
| Rewrite.QueuedMeaning | src/iouring_loop.c:493-539 | A message waits unchanged iff no text parameter of it has a NUL |
| Rewrite.CopyForQueue | src/iouring_loop.c:493-539 | The copy loop computes the queued form of every parameter |
| Rewrite.CopyText | src/iouring_loop.c:513-525 | A text value is copied up to its first NUL |
| Fairness.ReachableBounded | src/iouring_loop.c:622-681 | From any reachable state, whatever arrives, the waiter at position k has its pipeline issued no later than the (k+1)-st release, unless it is closed |
| Fairness.BoundedWaiting | src/iouring_loop.c:622-681 | The same from any state that satisfies the invariant, whatever arrives: bounded waiting by induction over the run |
| Fairness.NoOvertaking | src/iouring_loop.c:622-681 | For every event: an able waiter gets its backend or keeps its place with nobody new ahead, and a release serves it or moves it up. Nobody is granted a backend past it, unless by input while it waits beside one; and an event leaves an able waiter beside a backend exactly if a Bind arrives whose queued form alone could be sent |
| Fairness.ServedExactly | src/iouring_loop.c:1087-1095 | No able waiter ever waits beside a backend, at any point of a run, iff no Bind of the run arrives at an idle frontend while a backend is to be had with a queued form that could be sent and an own form that could not |
| Fairness.ProcessLocal | src/iouring_loop.c:1076-1095 | One message keeps every place, and leaves an able waiter beside a backend exactly under that condition |
| Fairness.SameFormKept | src/iouring_loop.c:493-539 | A Bind whose queued copy is rewritten to the same pipeline never does |
| Fairness.WorkConservation | src/iouring_loop.c:622-681 | Between events, in a run in which every Bind that arrives keeps its form, a waiter with a well-formed Bind implies that every backend is busy or beyond reconnecting |
| Fairness.RunServed | src/iouring_loop.c:1087-1095 | Then no able waiter is left beside a backend at the end of the run |
| Stuck.IllFormedWaitsForever | src/iouring_loop.c:944-956 | In every configuration, on every network: a parked Bind that the rewrite refuses, or whose pipeline does not fit, stays in the ring and issues nothing until its connection is closed |
| Stuck.PassStays | src/iouring_loop.c:622-665 | A scheduling pass leaves such a waiter in the ring as it was, whatever the pool |
| Counterexamples.LongBindOverlooked | src/iouring_loop.c:1087-1095 | From an initial state of a steady pool: a Bind too long to be sent, with a NUL in a text value, is left waiting beside an idle backend that its queued copy could use |
| Counterexamples.TickOverlooked | src/iouring_loop.c:170-183 | From an initial state: the first reconnect fails, the periodic one succeeds, and a well-formed waiter is left beside the live idle backend |
| Counterexamples.CheckoutOverlooked | src/backend_pool.c:737-740 | From an initial state: the checkout of a newcomer revives two backends and takes one, and the waiter before it is left beside the other |
| Revival.TickExact | src/iouring_loop.c:170-183 | In any pool, on an arbitrary network, where no able waiter stood beside a live idle backend: after maintenance none does iff none waits, reconnecting is off, or no answer that the revivable slots take is a connection |
| Revival.ArrivalAttended | src/backend_pool.c:737-740 | The same for the checkout of an arriving Bind, in a pool without group login and health checks: iff it starts and nobody able waits or no second backend is found, or it is refused and none is found or nobody could use one |
| Revival.QueryAttended | src/backend_pool.c:926-955 | The same for the checkout of a forwarded query, in a pool without group login and health checks |
| CensusSteps.StepExact | src/iouring_loop.c:1573-1690 | For every event, on an arbitrary network, in a pool without group login and health checks: how many backends are live and how many can come back after it, whether an able waiter is left, and so exactly when one is left beside a live idle backend, all from the counts before the event |
| CensusSteps.ReleaseCounted | src/iouring_loop.c:670-681 | The same for what follows a release: the pass over the waiters, then the releaser and its queue |
| CensusSteps.DrainCounted | src/iouring_loop.c:915-1035 | The same for working off a queue, with every Bind and query in it |
| CensusSteps.InputCounted | src/iouring_loop.c:1037-1208 | The same for a batch of input of an idle frontend |
| Census.PassAttended | src/iouring_loop.c:622-665 | A pass leaves an able waiter beside a live idle backend iff one was not served at its turn and a backend is live at the end, in a pool without group login and health checks |
| Census.PassCounted | src/iouring_loop.c:622-665 | Turn by turn: who is served, and the live backends left |
| Census.TurnCounted | src/iouring_loop.c:629-662 | A turn serves its waiter iff it is able and a backend is live after the maintenance in that turn |
| Census.MissedBehind | src/iouring_loop.c:622-665 | An able waiter is missed only if no backend was live when the pass began or one ahead of it was served |
| Census.SecondServedFirst | src/iouring_loop.c:622-665 | The failing input: with no backend found for the first of two able waiters and two coming back at the turn of the second, the second is served past the first, which waits on beside a live backend |
| Tally.MaintainTally | src/backend_pool.c:506-529 | Maintenance adds exactly the slots whose answer is a connection, and takes one answer for each slot that can come back |
| Tally.BeginTally | src/backend_pool.c:998-1048 | A checkout finds what is live and what it revives; a pipeline that starts takes one of them, a refused Bind none, in a pool without group login and health checks |
| Tally.QueryTally | src/backend_pool.c:926-955 | A forwarded query finds the same, and loses its backend iff the round trip does, in a pool without group login and health checks |
| Tally.FinishTally | src/backend_pool.c:1142-1168 | A slot given back is live; after a failure it is live iff reconnecting is on and succeeds, and stays dead otherwise |
| FairNetwork.BoundedAnywhere | src/iouring_loop.c:622-681 | On an arbitrary network, without group login and health checks: the able waiter at position k has its pipeline issued no later than the (k+1)-st release that leaves a live backend for the waiters, unless it is closed |
| FairNetwork.StepPlaced | src/iouring_loop.c:622-681 | For every event on such a network: an able waiter gets its backend or keeps its place with nobody new ahead, and moves up or is served when a live backend is left for the waiters |
| Fairness.ArrivalExact | src/iouring_loop.c:1076-1095 | A Bind of an idle frontend starts at once iff it is well-formed and a backend is to be had; otherwise it joins the ring at the tail |
| Fairness.RemoveOrder | src/iouring_loop.c:582-609 | Leaving the ring costs no other waiter its place |
| Fairness.CloseFair | src/iouring_loop.c:301-332 | Closing a connection is fair to every other waiter, and serves them if it gave a backend back |
| Fairness.InputAlone | src/iouring_loop.c:1037-1208 | Frontend input joins the ring at most once, at the tail, and takes no backend while none is to be had |
| FairPass.PassGrantsPrefix | src/iouring_loop.c:622-665 | If every waiter is able, one pass grants exactly the oldest min(backends to be had, waiters) and leaves the rest in order |
| FairPass.PassSwept | src/iouring_loop.c:622-665 | After the first a turns: those tried are granted or wait on unchanged, once an able one is left nobody behind it is granted, grants use up one backend each, and the untried stand before those tried in vain |
| FairPass.FairScheduleSwept | src/iouring_loop.c:622-665 | A full pass tries every waiter once, and those left keep their order although they were put back into the ring being consumed |
| FairSteps.SweptAhead | src/iouring_loop.c:622-665 | A waiter left by a pass stands no further back, only behind waiters that were ahead, and strictly ahead of before if a backend was spare |
| FairSteps.DrainLocal | src/iouring_loop.c:915-1035 | The releaser drains its own queue without taking a backend while none is to be had |
| FairSteps.ReleaseFair | src/iouring_loop.c:670-681 | Waiters come before the releaser: the whole of what follows a release is fair |
| FairSteps.CompleteFair | src/iouring_loop.c:690-744 | The end of a pipeline moves every able waiter up or serves it |
| FairSteps.FailFair | src/iouring_loop.c:746-765 | So does a failed pipeline when reconnecting is on |
| Waiting.TurnTried | src/iouring_loop.c:629-662 | One turn: the oldest waiter gets a backend iff it is able and one is to be had, else it waits on as it was |
| Waiting.StartSupply | src/iouring_loop.c:845-913 | A Bind starts iff it is sendable and a backend is to be had, and uses up one |
| Results.ExclusiveOwnership | src/iouring_loop.c:738-765 | In every reachable state no two frontends hold one backend, a backend is busy iff a frontend holds it, and busy implies alive |
| Results.RingMatchesStates | src/iouring_loop.c:558-620 | In every reachable state ring entries are distinct, and a slot is in the ring iff its connection is in use and waits |
| Results.StatesMatchQueues | src/iouring_loop.c:767-842 | In every reachable state an idle frontend has an empty queue, a waiting one its Bind at the head, a sending or reading one a backend and exactly one pending operation |
| Results.ParkNeverFails | src/iouring_loop.c:612-620 | Parking never fails, even mid-step: the blocking fallback behind it is dead code |
| Steps.ReachableInv | src/iouring_loop.c:1573-1690 | Every reachable state satisfies the invariant |
| Steps.StepInv | src/iouring_loop.c:1573-1690 | Every event keeps the invariant |
| Steps.CloseInv | src/iouring_loop.c:301-332 | Closing keeps it, in every state of the closed connection |
| Steps.CompleteInv | src/iouring_loop.c:690-744 | Completing a pipeline keeps it |
| Steps.FailInv | src/iouring_loop.c:746-765 | Failing a pipeline keeps it |
| Steps.ProcessInv | src/iouring_loop.c:1037-1208 | Every frontend message keeps it |
| Steps.AfterReleaseInv | src/iouring_loop.c:670-681 | Resuming waiters and then the releaser restores it |
| Steps.RemoveMeaning | src/iouring_loop.c:582-609 | Removal by compaction drops that slot only |
| Invariant.PassInv | src/iouring_loop.c:622-665 | The scheduling pass keeps the invariant while one connection is open, and touches waiters only |
| Invariant.TurnIsAttempt | src/iouring_loop.c:635-662 | In a proper state a turn is one attempt to start the awaited Bind: the stale-entry and empty-queue branches are unreachable |
| Invariant.DrainConfined | src/iouring_loop.c:915-1035 | Draining changes one connection, takes at most one idle backend, and joins the ring iff it ends up waiting |
| Invariant.RingHasRoom | src/iouring_loop.c:570-572 | By pigeonhole there is room for a frontend not in the ring |
| Ring.Pigeonhole | src/iouring_loop.c:558-580 | Distinct slot numbers below n are at most n |
| PoolOwnership.CheckoutMoves | src/backend_pool.c:728-801 | Checkout takes one idle slot or none and disturbs no busy one; with group login it is logged in as the group, across reconnect, health check and lazy login; busy implies alive is kept |
| PoolOwnership.BeginMoves | src/backend_pool.c:998-1048 | A pipeline starts on the slot checked out with exactly its bytes; a refused Bind gives the slot back |
| PoolOwnership.FinishFrees | src/backend_pool.c:1142-1168 | Finishing, failed or not, frees that slot and changes no other |
| PoolOwnership.MaintainMoves | src/backend_pool.c:506-529 | Maintenance takes no slot and leaves busy ones alone |
| PoolOwnership.QueryMoves | src/backend_pool.c:926-955 | A forwarded query leaves no slot taken |
| PoolCheckout.CheckoutExact | src/backend_pool.c:728-801 | Without health checks, after maintenance: checkout comes back empty iff no slot it may use is live and idle |
| PoolCheckout.CheckoutExactLazy | src/backend_pool.c:767-788 | With lazy login: empty iff there is no live idle slot of the group and the one warm-up attempt fails or has no dead slot |
| PoolCheckout.RoundRobinFair | src/backend_pool.c:741-788 | With equal logins, group login on or off, over any history, no slot is handed out twice while another, live and idle throughout, is never handed out |
| PoolCheckout.PickIsFirstLive | src/backend_pool.c:741-801 | With equal logins, group login on or off: while a slot is live and idle the one handed out is the first such slot from the cursor, and the cursor moves right behind it |
| PoolCheckout.CursorBehind | src/backend_pool.c:741-801 | However a slot was come by, lazy login included, the next walk starts right behind it |
| PoolSupply.CheckoutSupply | src/backend_pool.c:705-801 | In a homogeneous pool checkout succeeds iff a slot is spare, and uses up just that one |
| PoolSupply.MaintainSupply | src/backend_pool.c:506-529 | Maintenance turns every spare slot live and makes or loses none |
| PoolSupply.FinishSupply | src/backend_pool.c:1142-1168 | A slot given back is spare, after a failure if reconnecting is on |
| PoolCreate.SharesExact | src/backend_pool.c:627-648 | The division of slots is exact and even: all slots are given out, each group gets at least one, shares differ by at most one, each group's slots are consecutive |
| PoolCreate.EveryGroupFits | src/backend_pool.c:603-616 | The sizes computed leave every group a slot |
| PoolCreate.CreatedMeaning | src/backend_pool.c:576-669 | The pool as created: consistent, nothing busy, a live slot iff a backend was reached; every live slot of a group is logged in as that group, or as the pool's user without group login; lazy slots unused |
| PoolOwnership.FinishLeaves | src/backend_pool.c:1142-1168 | A slot given back keeps its login and nothing of the pipeline; after a failure it is live iff reconnecting is on and succeeds |
| PoolOwnership.QueryTrip | src/backend_pool.c:926-955 | A forwarded query finds no backend iff checkout finds none; else it runs under the group's login and its answer is the next of the network |
| PoolCheckout.CheckoutProved | src/backend_pool.c:705-801 | With health checks a slot is handed out only on an answer of this checkout: a probe that passed or a fresh connection |
| Tally.WarmLeaves | src/backend_pool.c:443-468 | A slot warmed up is live under its login with nothing left of the pipeline before; one that failed is retried by maintenance iff it was ever reached |
| Results.AcceptTakes | src/iouring_loop.c:284-299 | A new connection takes the first free slot, with its own identity and nothing of the one before; without one nothing changes |
| Results.CloseFrees | src/iouring_loop.c:301-332 | A closed connection leaves its slot free, holds no backend, waits for none and has nothing queued |
| Framer.ChunkingIndependent | src/backend_pool.c:1083-1130 | Two ways of cutting one stream into chunks, neither of which fails, give the same output, status and completion |
| Framer.FeedAllMeaning | src/backend_pool.c:965-1130 | The output is the unfiltered messages up to and including the first ReadyForQuery; an incomplete call leaves exactly the unparsed suffix, which holds no whole message |
| Framer.AsyncAgreesWithBlocking | src/backend_pool.c:816-871 | Whatever the blocking path completes, the chunked path completes with the same bytes and status on any chunking that fits |
| Framer.CompletionIsRelayed | src/backend_pool.c:965-996 | The output of a completed receive ends in the whole ReadyForQuery message |
| Unread.ReplyExact | src/backend_pool.c:841-871 | Over any readable reply that no further one follows, with any capacities: the blocking read succeeds iff there are no more messages than rounds and all that is kept fits the caller, never loses the connection, and leaves a ReadyForQuery unread iff there are more messages than rounds or what comes before it does not fit |
| Unread.FlushExact | src/backend_pool.c:841-871 | The same from any point of the read and whatever follows the reply, with what is left on the connection |
| Unread.SeveralTooLong | src/backend_pool.c:859-861 | With equal buffers: two messages that fit one by one but not together leave the ReadyForQuery unread on a live connection |
| Unread.TooManyMessages | src/backend_pool.c:841-841 | So does a reply of more messages than there are rounds |
| Unread.TwoRows | src/backend_pool.c:821-861 | At the 16384 bytes and 256 rounds of the source: two data rows of 10001 bytes |
| Unread.ManyRows | src/backend_pool.c:841-841 | And 256 short rows before the ReadyForQuery |
| Unread.OversizeLost | src/backend_pool.c:842-846 | A single message that does not fit the read buffer loses the connection |
| Unread.StaleReply | src/backend_pool.c:1083-1130 | The next pipeline on a connection with a ReadyForQuery unread is answered with the unread messages and nothing of its own |
| Unread.OwnReply | src/backend_pool.c:1083-1130 | With nothing unread it is answered with its own |
| Unread.NextReply | src/backend_pool.c:816-871 | After a blocking round trip the next pipeline on the slot is given its own reply, or what was left of the one before: the latter if the read stopped short, and only then |
| Isolation.ResponseIsOwn | src/backend_pool.c:1083-1130 | Over every run from an initial state: the response of a completed pipeline is what the filter keeps of the messages delivered to this pipeline since it was issued, up to the first ReadyForQuery, and of nothing delivered to any other |
| Isolation.RunHears | src/iouring_loop.c:826-842 | Over every run the receive state of a pipeline in progress is that of a scan of the bytes delivered to it |
| Isolation.StepTouched | src/iouring_loop.c:1573-1690 | Every event leaves the receive state of a pipeline in progress alone unless it ends that pipeline or delivers to it, and a pipeline that starts has received nothing |
| Framer.CutUnique | src/backend_pool.c:1095-1119 | There is only one way to cut a stream into messages up to ReadyForQuery |
| Framer.CutMeaning | src/backend_pool.c:1095-1119 | Messages and unparsed rest make up the stream |
| Framer.FramesMeaning | src/backend_pool.c:1083-1130 | What a scan outputs, in terms of the messages of the stream |
| Framer.FramesExtend | src/backend_pool.c:1083-1130 | More bytes never change what has been scanned |
| Framer.Receiver.OnRecv | src/backend_pool.c:1083-1130 | The receive call over the accumulator array computes one step of the scan |
| Framer.Receiver.FilterAppend | src/backend_pool.c:965-996 | Tracks one message and copies it out unless it is filtered |
| Framer.Socket.FlushPipeline | src/backend_pool.c:816-871 | The blocking loop over socket reads, which fail once no more is delivered, computes the blocking scan, and tells a lost connection from one that lives on with bytes unread |
| Framer.Socket.ReadMessage | src/backend_pool.c:197-244 | Reads one message whatever sizes the socket delivers, or fails as the source does, also when a read fails in the middle of a message |
| StmtCache.Cache.Put | src/rewrite_engine.c:30-76 | For any hash: map update, which fails and changes nothing iff the name is new and the table full |
| StmtCache.Cache.Get | src/rewrite_engine.c:78-99 | For any hash: map lookup |
| StmtCache.Cache.Remove | src/rewrite_engine.c:101-153 | Map deletion; fails and changes nothing iff the name is absent |
| StmtCache.Cache.Rebuild | src/rewrite_engine.c:121-147 | Rehashing restores the probe invariant with the same entries, and no put in it ever fails |
| StmtCache.Absent | src/rewrite_engine.c:78-99 | A walk that met an empty slot, or every slot, proves the name absent |
| StmtCache.Store | src/rewrite_engine.c:30-76 | Writing where the walk ended updates the map and keeps names distinct, walks unbroken and the count exact |
| StmtCache.EraseIsDeletion | src/rewrite_engine.c:116-120 | Emptying the slot of a name deletes exactly that name |
| IdentitySlot.ResolveInsert | src/rewrite_engine.c:186-285 | For every printed INSERT statement: the resolver returns the first name the scan sees that matches case-insensitively, else the fallback |
| IdentitySlot.ResolveInvertsPrinter | src/rewrite_engine.c:186-285 | With no identifier ending in "values" or over 63 characters, that is the first matching column |
| SlotInverse.InvertsExactly | src/rewrite_engine.c:186-285 | The scan inverts the printer, for every column parameter and fallback, iff every column is harmless: seen whole, or a number that no parameter means |
| SlotInverse.InvertibleNames | src/rewrite_engine.c:186-285 | Without columns that are numbers that is: neither the table nor a column ends in "values", and no column is over 63 characters |
| SlotInverse.HarmfulMissed | src/rewrite_engine.c:246-284 | The failing input: the first harmful column, asked for by its own name, gives the fallback |
| IdentitySlot.ResolveIdentitySlot | src/rewrite_engine.c:186-285 | The pointer loops of the source compute the resolver |
| IdentitySlot.FindColumns | src/rewrite_engine.c:220-243 | One pointer finds the keyword and the last parenthesis before it |
| IdentitySlot.MatchColumns | src/rewrite_engine.c:244-284 | The loop over column names finds what the recursive search finds |
| IdentitySlot.NameEqCi | src/rewrite_engine.c:161-184 | Case-insensitive equality |
| GroupList.RoundTrip | src/backend_pool.c:94-128 | A joined list that fits is parsed back to itself iff it has at most as many names as the table and each has 1 to 63 characters, no comma and no outer blank |
| GroupList.JoinFits | src/config_yaml.c:167-212 | Joining succeeds exactly when text and terminator fit the buffer, with the comma-separated text |
| GroupList.JoinGroups | src/config_yaml.c:167-212 | The buffer loop computes the join |
| GroupList.ParseGroups | src/backend_pool.c:94-128 | The pointer loop computes the split and ends on every string |
| GroupList.SplitClean | src/backend_pool.c:94-128 | Whatever the string, only clean names come out, and no more than fit |
| SendBuffer.FrontendOut.Queue | src/iouring_loop.c:402-433 | Appends in order, or fails exactly when the bytes do not fit behind those held; the send in flight keeps its offset, its end and its bytes |
| SendBuffer.FrontendOut.OnSendDone | src/iouring_loop.c:1636-1655 | A partial completion moves exactly the bytes taken from held to accepted |
| SendBuffer.FrontendOut.SubmitSend | src/iouring_loop.c:357-379 | A send in flight whenever something is held, over exactly the held bytes |
| SendBuffer.Run | src/iouring_loop.c:357-433 | For every interleaving: which operations are accepted, by the fill of the buffer at each; and bytes accepted by the peer followed by bytes held are exactly the accepted appends in order |
| Queues.RequestQueue.Push | src/iouring_loop.c:458-470 | The circular request queue: append, or refuse iff full |
| Queues.RequestQueue.Pop | src/iouring_loop.c:472-482 | Remove the oldest, none iff empty |
| Queues.RequestQueue.PushFront | src/iouring_loop.c:946-951 | Put back at the head, the tail index unchanged |
| Queues.RequestQueue.Clear | src/iouring_loop.c:449-456 | Empty the queue |
| Queues.WaitRing.Push | src/iouring_loop.c:558-580 | Join at the tail unless already in the ring; fails iff full |
| Queues.WaitRing.Pop | src/iouring_loop.c:629-633 | Take the oldest waiter out |
| Queues.WaitRing.Remove | src/iouring_loop.c:582-609 | Compact the others to the start of the buffer in their order |
| Queues.WaitRing.Has | src/iouring_loop.c:564-569 | Is the slot in the ring |
| Ring.AtIsRemainder | src/iouring_loop.c:565-574 | The remainder arithmetic of the source is the cyclic index |
| Ring.PushFront | src/iouring_loop.c:946-951 | Moving the head back and writing there prepends |
| PoolSlots.SlotPool.CheckOut | src/backend_pool.c:728-801 | The two scans, the lazy login and the fallback over the slot array compute checkout |
| PoolSlots.SlotPool.FirstTurn | src/backend_pool.c:740-760 | The first scan loop |
| PoolSlots.SlotPool.TrySlot | src/backend_pool.c:705-726 | Taking a slot, with health check and reconnect |
| PoolSlots.SlotPool.ReconnectSlot | src/backend_pool.c:475-504 | Reconnecting keeps the busy flag and the login |
| PoolSlots.SlotPool.WarmSlot | src/backend_pool.c:443-468 | Warming a slot up, with both ways to fail |
| PoolSlots.SlotPool.MaintainAll | src/backend_pool.c:506-529 | The maintenance loop |
| PoolSlots.SlotPool.Begin | src/backend_pool.c:998-1048 | Starting a pipeline in place |
| PoolSlots.SlotPool.Sent | src/backend_pool.c:1072-1081 | Advancing the send offset, capped at the length |
| PoolSlots.SlotPool.Release | src/backend_pool.c:1142-1168 | Finishing a pipeline in place |
| PoolSlots.SlotPool.Query | src/backend_pool.c:926-955 | Forwarding a simple query |
| PoolSlots.SlotPool.WarmGroups | src/backend_pool.c:627-648 | The nested division loops warm every slot with its group's login, and no test of the slot number cuts a share short |
| PoolSlots.CreatePool | src/backend_pool.c:576-669 | A pool is returned exactly if a backend was reached, with every slot as warming each with its login leaves it |
| EventLoop.Launch | src/iouring_loop.c:1475-1573 | With a backend reached, an event loop starts in an initial state over the pool created, which satisfies the invariant; with none reached there is no pool |
| EventLoop.Loop.Serve | src/iouring_loop.c:1573-1690 | Serving any events in place computes the run and keeps the invariant |
| EventLoop.Loop.Dispatch | src/iouring_loop.c:1573-1690 | One event in place computes one step |
| EventLoop.Loop.OneEvent | src/iouring_loop.c:1573-1690 | The handler chosen for an event computes its step |
| EventLoop.Loop.FairScheduleWaiters | src/iouring_loop.c:622-665 | The loop that pops from and pushes into the same ring computes the pass |
| EventLoop.Loop.OneTurn | src/iouring_loop.c:629-662 | One turn of that loop |
| EventLoop.Loop.DrainQueue | src/iouring_loop.c:915-1035 | The drain loop in place |
| EventLoop.Loop.StartAsyncBind | src/iouring_loop.c:845-913 | Starting a pipeline from an event or from the queue |
| EventLoop.Loop.ParkForBackend | src/iouring_loop.c:612-620 | Parking in place |
| EventLoop.Loop.WaitForBackend | src/iouring_loop.c:1087-1095 | Queueing and parking a Bind that cannot start; both always succeed |
| EventLoop.Loop.AfterBackendRelease | src/iouring_loop.c:670-681 | Waiters first, then the releaser |
| EventLoop.Loop.CompletePipeline | src/iouring_loop.c:690-744 | Completion in place |
| EventLoop.Loop.FailPipeline | src/iouring_loop.c:746-765 | Failure in place |
| EventLoop.Loop.SubmitBackendSend | src/iouring_loop.c:767-792 | Submitting the rest of a pipeline or its first receive |
| EventLoop.Loop.BackendSendDone | src/iouring_loop.c:813-824 | A send completion |
| EventLoop.Loop.BackendRecvDone | src/iouring_loop.c:826-842 | A receive completion |
| EventLoop.Loop.ProcessFrontend | src/iouring_loop.c:1037-1208 | A batch of frontend messages |
| EventLoop.Loop.EnqueueMessage | src/iouring_loop.c:1058-1064 | A message to a frontend that is not idle |
| EventLoop.Loop.CloseConnection | src/iouring_loop.c:301-332 | Closing in place |
| EventLoop.Loop.AcceptConnection | src/iouring_loop.c:284-299 | Taking the first free connection slot |

## Left out

- Fair scheduling off, asynchronous backends off, or no pool: the blocking Bind path of the event loop. With fair
  scheduling on it is proved unreachable (`EventLoop.Loop.WaitForBackend`, `Results.ParkNeverFails`).
- Exhaustion of submission entries or memory, and with it the re-entrancy guard of the drain loop, which only a failed
  submission inside a drain can hit. There the queue invariant does not hold (`src/iouring_loop.c:909-911`).
- Stale completions: user data carries operation and slot but no generation, so a completion for a closed connection
  could reach its successor (`src/iouring_loop.c:221-230`).
- A full frontend send buffer inside the event loop: `SendBuffer.FrontendOut.Queue` has the exact condition, the event loop
  model takes replies as an unbounded list.
- Sockets, TLS and kTLS, timers, signals, metrics, logging, the command line, YAML apart from the group list, SCRAM and
  X.509. The TLS handshake state is part of accepting a connection.
- The statement cache inside the event loop is a map: `StmtCache.Cache` is proved to be one for any hash function, so
  FNV-1a itself is not modelled. `pqproxy_stmt_cache_remove` is not called by the event loop.
- The close that follows Terminate or an unusable socket is an event of its own and may come later than in the source;
  Terminate and Startup, which are handled at once and never queued, have no place in the ordering claims.
- Maintenance before each completion (`src/iouring_loop.c:1594-1604`) is an event of its own.
- Arrays the protocol library bounds: counts of parameters and result formats, and lengths of statement, portal and query
  texts, are not clipped. Portals are not modelled. pqwire.h is not part of this model.
- Overflow of atoi in a numeric parameter name, and truncation of login names at 127 characters.
- Per-group round-robin fairness between different logins: one cursor serves all groups, so it does not hold.
- Unconditional liveness: see `Stuck.IllFormedWaitsForever`, `Counterexamples`, `Revival` and `Census`.
- One ReadyForQuery per Sync, or BindComplete before the results: the code promises neither, because a response is
  relayed before the protocol library's own output is drained (`src/iouring_loop.c:717-737`). For the same reason the
  order of each of the two streams is stated (`Transcript.ToldExactly`), and not how they interleave.
- Response bytes of a forwarded query are those the network oracle gives; `Framer.Socket.FlushPipeline` has that path in
  full, and what it leaves on the slot is composed with the next pipeline for that slot alone (`Unread.NextReply`). In
  the event loop the bytes delivered to a pipeline are arbitrary: `Isolation.ResponseIsOwn` says over whole runs that its
  response is made of them alone, not that the backend wrote them in answer to it.
- EventLoop.Launch: without a reachable backend it returns nothing, whereas the source goes on without a pool and rewrites
  locally (`src/iouring_loop.c:1509-1512`).
- Which events leave a waiter beside a backend in a pool with group login or health checks: there what a checkout finds
  depends on logins and probes, not on counts. `Revival.TickExact` is for every pool.
- EventLoop.Loop.BackendRecvDone: the framing of the received bytes is the function `Framer.Recv`; `Framer.Receiver.OnRecv`
  computes it in place over the accumulator array, in a class of its own.
- EventLoop.Loop.StartAsyncBind: the wire encoding of the rewritten pipeline is a parameter, and bytes left in the protocol
  library by a refused Bind are not modelled.
