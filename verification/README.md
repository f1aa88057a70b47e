# Undertone, verified

A Dafny model of the parts of Undertone - a PipeWire mixer daemon - that carry hard properties
over unbounded runs and inputs, with proofs of those properties.

    dafny verify dfyconfig.toml

checks the whole project. What Undertone does by calling PipeWire, SQLite, USB, a socket or a
clock is a parameter, or a step of a transition system that may succeed or fail.

| file | what it models |
|---|---|
| IpcHandler, IpcPipeline, IpcRefinement, IpcGuarantees, IpcHistory | one client's `select!` loop; all handlers, the two bounded queues and the daemon's request arm; what reaches whom over a run |
| IpcClient | concurrent callers, the pending map and the reader task |
| Graph, GraphCache | the graph cache, the registry callbacks and the event queue between the two threads |
| Factory, Coupling, Reuse | request/response calls with timeouts; how they share the two threads with the event queue; nodes found instead of made |
| Naming, StartUp, Topology | node names; the start-up links and where audio can flow over them |
| Reconcile, Demand, Convergence, Impostors, Headphones | desired against actual graph, and what carrying out the difference achieves; what the search for the Wave:3 can answer |
| AppRouting | moving an application from one channel to another |
| Routing, Mixing, Database, Daemon, MainLoop, DaemonRuns, RoundTrips, DefaultData | routing rules, the tables, the main loop's commands and controls, profiles, a new database |
| FixedPoint, WaveXlr | gain conversions through rounded floats; the 34-byte state blob behind its cache |
| FilterChain, Decimal | reading a node id out of a listing |
| Effects, MicControls | the microphone chain, its presets, persistence; what the filter-chain node is told of it |

Code that changes state is a class or a method with loops, proved against a function or relation on
values; the theorems are about those functions and relations, over every run.

## What the code does not do

Where the code falls short of what it or its documentation promises, the model keeps the code, a
lemma shows a concrete case, and another says exactly when the promise is met.

- An IPC handler whose client has closed its side leaves once nothing is pending, unless the last
  answer failed to serialise: the `continue` on that path skips the exit test, and the handler is
  then stranded for good (`LeavesExactlyWhen`, `StrandedForGood`, `StrandingHappens`). A client gets
  all its answers exactly when none failed to serialise (`LeavingAnsweredAll`). The responses the
  daemon sends today, a number and a JSON value or error, never fail to: as long as that is so every
  handler leaves (`LeavesWithoutLoss`).
- A client with 18 requests pending can deadlock the daemon while others fill the request queue, and
  one with 82 can do so alone; with at most 17, or 81 when all queued requests are one client's,
  nobody can (`ModestClientsNeverDeadlock`, `EighteenPendingCanDeadlock`, `EightyTwoOfOneCanDeadlock`).
- A client's reader waits for room in its event channel of 64. A call whose response is on the wire
  gets it exactly when the reader is alive and the channel can hold all the events ahead: `events`
  borrows the client exclusively, so nobody can take one out while a call waits
  (`AnsweredExactlyWhen`, `UnreadEventsCanBlockCalls`). Once the reader has ended, calls wait for ever
  (`ReaderCanLeaveCallsWaiting`), and a failed write leaks its entry in the pending map
  (`FailedWriteLeaks`).
- After `t` timeouts every factory call takes the answer to the call `t` places earlier
  (`CallTakesShiftedAnswer`, `ShiftHappens`); a call gets its own answer exactly when none timed out
  before.
- A call made while more than 256 graph events arrive can only end by timing out: the daemon waits
  for the thread, the thread for room in the queue (`ProgressExactlyUnlessJammed`, `JamHappens`).
- A node found under its name instead of made is recorded under its registry id, while setting a
  volume or mute looks for ids granted to the session's own creations: it fails exactly when the
  registry id is none of those (`ControlsReachOwnNodesOnly`), and when it is one, it moves the other
  node (`CollisionMovesAnotherNode`).
- A node announced under an id whose `NodeRemoved` is still queued is dropped from the cache for
  good, and only then (`ReuseLosesExactly`, `ReuseHappens`).
- `route_app_to_channel` passes registry ids to a handler that tries them as proxy ids first. A
  collision of the two cuts an unrelated link and leaves the application's old one, unless it leads
  from one unwanted link to another (`RoutesExactlyWhen`, `CollisionCutsTheWrongLink`). When no new
  link can be made, the old ones are gone already (`Router.Route`).
- A channel named "stream-vol" or "monitor-vol", besides those ending in the two suffixes, is not
  recognised as a channel (`RecognisedExactlyWhen`), so start-up does not link it.
- The reconciler settles in two rounds if its Wave:3 search has one possible outcome
  (`TwoRoundsSettle`). Several unnamed candidates can unsettle it after that (`AmbiguousSinkUnsettles`,
  `AmbiguityHappens`, for any channels), but every further round with anything to do links another one, so that at most
  one round and one more for each candidate do (`EveryRunOfRoundsSettles`). Distinct channel names
  are not needed for any of it; in `TwoRoundsSettle` names mentioning both "Elgato" and "Wave" must be
  avoided.
- The search for the Wave:3 can answer with a sink of Undertone's own exactly when no node carries
  the custom name and some channel name mentions both "Elgato" and "Wave"
  (`AnswerIsForeignExactlyWhen`); the monitor mix is then linked into a channel that feeds it
  (`FeedbackHappens`). The channels that are started today have no such name.
- Start-up loads the default profile's channels and routes but not its mixer (`RestartAfterSave`,
  `RestartForgetsMaster`).
- A new application route is overruled by an earlier rule of priority 100 or more
  (`RouteTakesEffectExactlyWhen`): in a new database, by that for names starting with "discord"
  (`OverrulingHappens`).
- A physical mute of the Wave XLR is undone by a gain change when the button is pressed between the
  reading of the request's snapshot and its command, or when that reading fails: the cache is written
  back (`RequestKeepsByteExactlyWhen`, `ButtonUndone`). Pressed before a snapshot that was read, it
  stays (`ChangeBeforeSnapshotSurvives`).
- A write to the Wave XLR cut short is reported as failed, but the next read takes over the bytes
  that arrived (`ReadTakesOverShortWrite`).
- Every microphone effect is pushed to one node under bare control names, so of effects that share a
  name the one pushed last is heard. Every preset has such a clash, between the thresholds of gate
  and compressor, and with "Voice" the node's one bypass flag is set while the compressor is active
  (`HeldExactlyWhen`, `PushingAllHoldsAllExactlyWhen`, `EveryPresetClashes`, `VoiceIsBypassed`).
- A bypass of noise suppression is not pushed at all: it is heard once the configuration file is
  rewritten and read, which the command does not see to (`BypassIsHeardExactlyWhen`).
- A non-finite effect parameter is stored as `null`, and the whole chain is then the default one
  after a restart (`StoredChainReturnsExactlyWhen`). A parameter for an unknown effect still drops the
  preset's label (`UnknownEffectDropsLabel`).

The documentation says events go to subscribed clients; nothing ever fills the subscription list, and
an empty list means every event, so every event is offered to every client. The model does the same.

## Assumptions

- IPC: `read_line` is atomic, and a request's serialisation succeeds; a response's may fail.
- Graph cache: an id is not reused while the removal of its node is travelling. `ReuseLosesExactly`
  shows this is needed for each announcement.
- Reconciliation: node names are unique, and an action carried out succeeds and is announced before
  the next round.
- Main loop: recorded nodes have different ids, which a node found instead of made can break, as
  `CollisionMovesAnotherNode` shows; those just made play at unity, unmuted; nodes are looked up by role instead of by name, which `NamesInjective` justifies. Database statements succeed unless a
  constraint forbids them; setting a control may fail.
- Microphone: the filter-chain node is loaded, and setting one of its controls succeeds. Which port
  PipeWire moves for a bare control name is its own affair.
- Volumes are reals: JSON carries no infinities or NaN, and storing an f32 as a REAL is exact.
- Float rounding errs by at most 2^-24 relative to the result (section 4.3.1 of IEEE 754-2019), or
  relative to 1 below that.

## Model

| member | source | states |
|---|---|---|
| IpcHandler.HandleClient | crates/undertone-ipc/src/server.rs:128-209 | The loop over `select!` outcomes, as a method with the source's variables, ends in the state given by folding `Turn` over them |
| IpcHandler.TurnKeepsConsistent | crates/undertone-ipc/src/server.rs:135-188 | Whichever arm runs: answers dealt with plus pending equal requests accepted; leaving means EOF, nothing pending and no lost answer last; still serving after EOF with nothing pending means a lost answer was last |
| IpcPipeline.StepKeeps | crates/undertone-ipc/src/server.rs:132-209 | Every step of every client, handler and the daemon keeps: each client's accepted ids are its answered ids followed by those in its response queue, in main's hand, in the request queue and held by its handler, in that order |
| IpcRefinement.HandlersAreLoopRuns | crates/undertone-ipc/src/server.rs:132-209 | Every handler of every run of the pipeline is in a state the loop of `HandleClient` can be in |
| IpcRefinement.EventsStopAtEof | crates/undertone-ipc/src/server.rs:190-204 | Once EOF is read the loop forwards no event, only answers |
| IpcPipeline.AnswerKeeps | crates/undertone-ipc/src/server.rs:166-188 | Writing, losing or failing to write the oldest response keeps the invariant |
| IpcPipeline.OldestFirst | crates/undertone-ipc/src/server.rs:166-183 | The response about to be written answers the oldest unanswered request of its client |
| IpcGuarantees.PendingCountsInFlight | crates/undertone-ipc/src/server.rs:129-183 | `pending_requests` is the number of requests under way anywhere; the ids dealt with, and as long as no response is lost the ids written, are a prefix of those accepted |
| IpcGuarantees.LeavingAnsweredAll | crates/undertone-ipc/src/server.rs:137-144 | A handler that left after EOF has dealt with every accepted request, in order; what it wrote answers all of them exactly when no response failed to serialise |
| IpcGuarantees.LeavesExactlyWhen | crates/undertone-ipc/src/server.rs:167-187 | At EOF with nothing pending the handler has left exactly when its last output since EOF is not a response that failed to serialise |
| IpcGuarantees.LeavesWithoutLoss | crates/undertone-ipc/src/server.rs:167-187 | So at EOF with nothing pending a handler that lost no response has left |
| IpcGuarantees.StrandedForGood | crates/undertone-ipc/src/server.rs:167-187 | No step of anyone changes a stranded handler |
| IpcGuarantees.StrandingHappens | crates/undertone-ipc/src/server.rs:167-173 | A reachable run that strands a handler |
| IpcGuarantees.DeadlockNeedsBacklog | crates/undertone-ipc/src/server.rs:54-54 | In a deadlock the client has exactly 18 requests pending besides those it has queued |
| IpcGuarantees.ModestClientsNeverDeadlock | crates/undertone-ipc/src/server.rs:117-150 | No reachable deadlock with a client of at most 17 pending requests, or at most 81 when all queued requests are its own |
| IpcGuarantees.EighteenPendingCanDeadlock | crates/undertone-ipc/src/server.rs:117-150 | A reachable deadlock with one client at 18 pending and the others at 16 |
| IpcGuarantees.EightyTwoOfOneCanDeadlock | crates/undertone-ipc/src/server.rs:117-150 | A reachable deadlock of one client alone, with 82 pending |
| IpcGuarantees.WorkDecreases | crates/undertone-ipc/src/server.rs:132-209 | Every step not made by a client's sending strictly decreases a measure of the work left |
| IpcGuarantees.StuckIsDrained | crates/undertone-daemon/src/main.rs:489-561 | When all clients have at most 17 requests outstanding, or one has at most 81 and no other asks, and no step is possible: both queues are empty, everything accepted is answered and closed clients' handlers are gone or stranded |
| IpcGuarantees.EveryScheduleDrains | crates/undertone-daemon/src/main.rs:489-561 | From either discipline every schedule of such steps ends within the measure, in a drained state |
| IpcHistory.AbortsExactlyWhen | crates/undertone-ipc/src/server.rs:153-204 | A turn of the loop gives up exactly on a read error or a failed write |
| IpcHistory.WhatAHandlerWaitsFor | crates/undertone-ipc/src/server.rs:132-192 | A handler with a request to queue does nothing else; after EOF it neither reads nor forwards |
| IpcHistory.AbortedExactlyWhen | crates/undertone-ipc/src/server.rs:132-209 | Over every run a handler has given up exactly when its client's socket failed; a malformed line or a lost response never does it |
| IpcHistory.RequestsAndEventsArrive | crates/undertone-ipc/src/server.rs:132-209 | Over every run: the requests a client sent are those taken by the daemon, queued, held and unread, whole and in order; what was dealt with are the first responses made of those taken; the events written are those forwarded |
| IpcHistory.WorkingSocket | crates/undertone-ipc/src/server.rs:132-209 | While a client's socket works its handler never gives up, the counter is the number of requests under way, and every response made is dealt with, queued or in the daemon's hand |
| IpcHistory.LeavingServedAll | crates/undertone-ipc/src/server.rs:137-188 | With a working socket, at EOF and nothing pending: every request sent was taken, every response to it dealt with, in order, and the handler has left unless the last of them failed to serialise |
| IpcHistory.EveryWorkingClientIsServed | crates/undertone-daemon/src/main.rs:489-561 | A schedule that drains a patient pipeline leaves every client of a working socket with every request it sent answered, in order |
| IpcClient.Connection.FetchAdd | crates/undertone-ipc/src/client.rs:95-95 | The atomic counter gives the n-th call the id 1 + n, modulo 2^64 |
| IpcClient.Connection.Insert | crates/undertone-ipc/src/client.rs:100-103 | Registers a call under its id |
| IpcClient.Connection.OnLine | crates/undertone-ipc/src/client.rs:51-65 | A line goes to the call registered under its id, to the event channel, or nowhere; an event the channel of 64 has no room for is not dispatched |
| IpcClient.Connection.Reader | crates/undertone-ipc/src/client.rs:40-71 | The reader loop dispatches the lines in order, up to the first event there is no room for |
| IpcClient.IdsDistinctExactlyWhen | crates/undertone-ipc/src/client.rs:22-22 | The ids of n calls differ exactly when n is at most 2^64 |
| IpcClient.StepKeeps | crates/undertone-ipc/src/client.rs:94-113 | For any interleaving and any server: a call past registration is in the map under its own id or has a response with its own id, never both |
| IpcClient.OwnResponseOnly | crates/undertone-ipc/src/client.rs:94-113 | Calls have different ids and receive only the response carrying their own |
| IpcClient.BoxIsFilledOnce | crates/undertone-ipc/src/client.rs:55-57 | A call is handed a response at most once |
| IpcClient.HonestStepKeeps | crates/undertone-ipc/src/client.rs:100-110 | With a server that answers each request at most once: every response on the wire has its call registered and waiting |
| IpcClient.ResponseFindsItsCall | crates/undertone-ipc/src/client.rs:54-58 | The response the reader is at finds its entry, and the call can receive it |
| IpcClient.SentCallsAreTracked | crates/undertone-ipc/src/client.rs:105-112 | A waiting call is in the map or has its response |
| IpcClient.WaitsForever | crates/undertone-ipc/src/client.rs:47-70 | Once the reader has ended, or more events are ahead of the response than there is room for, nothing anybody does gets the waiting call its response |
| IpcClient.AnsweredExactlyWhen | crates/undertone-ipc/src/client.rs:36-61 | A call whose response is on the wire gets it in some continuation exactly when the reader is alive and the event channel can hold the events ahead of the response |
| IpcClient.StaysOutOfReach | crates/undertone-ipc/src/client.rs:116-118 | No step brings such a response closer: a waiting call borrows the client, so nobody takes events |
| IpcClient.UnreadEventsCanBlockCalls | crates/undertone-ipc/src/client.rs:36-61 | A reachable state with a live reader, 64 unread events and an answered call that cannot get its answer |
| IpcClient.TakingAnEventMakesRoom | crates/undertone-ipc/src/client.rs:116-118 | With no call in progress the oldest event can be taken, which makes room for one |
| IpcClient.ReaderCanLeaveCallsWaiting | crates/undertone-ipc/src/client.rs:47-70 | A reachable state in which that is so |
| IpcClient.FailedWriteLeaks | crates/undertone-ipc/src/client.rs:107-110 | After a failed write the call's entry is still in the map |
| IpcClient.FailedWriteHappens | crates/undertone-ipc/src/client.rs:107-110 | A reachable such state |
| Graph.GraphManager.AddNode | crates/undertone-pipewire/src/graph.rs:43-46 | Inserts under the node's own id, so keys stay the nodes' ids |
| Graph.GraphManager.RemoveNode | crates/undertone-pipewire/src/graph.rs:49-53 | Removes that id and nothing else |
| Graph.GraphManager.GetNodeByName | crates/undertone-pipewire/src/graph.rs:63-65 | Some node of that name, or none exactly when there is none |
| Graph.GraphManager.HasLink | crates/undertone-pipewire/src/graph.rs:162-167 | Whether any link joins the two nodes, whatever the ports |
| Graph.GraphManager.FindWave3Sink | crates/undertone-pipewire/src/graph.rs:191-218 | The node called wave3-sink if there is one, else some node answering the fallback description, none exactly when there is none |
| Registry.RegistryListener.HandleGlobal | crates/undertone-pipewire/src/runtime.rs:1197-1326 | Caches the announced object and sends its events |
| Registry.RegistryListener.HandleGlobalRemove | crates/undertone-pipewire/src/runtime.rs:1328-1354 | A node's removal is only announced; any other object leaves the link and port caches |
| Registry.HandleGraphEvent | crates/undertone-daemon/src/main.rs:380-397 | The daemon's share of cache maintenance |
| Registry.AnnouncedLinkJoins | crates/undertone-pipewire/src/runtime.rs:1278-1318 | A link whose four properties are printed numbers is cached and sent with those ends and ports, the right way round |
| Registry.AnnouncedPortBelongs | crates/undertone-pipewire/src/runtime.rs:1258-1276 | A port is cached and sent under its node, name and channel, an input exactly when it says "in" |
| Registry.AnnouncedNodeIs | crates/undertone-pipewire/src/runtime.rs:1205-1237 | A node is cached with the name, class and application it says; it is Undertone's own exactly by its prefix or its mark |
| Registry.NodeEvents | crates/undertone-pipewire/src/runtime.rs:1237-1256 | Its own event first; a microphone and a playing application are announced exactly when it is one, with serial and name |
| Registry.MissingProperties | crates/undertone-pipewire/src/runtime.rs:1207-1297 | What is missing or no number counts as 0, a missing name as "unknown" |
| Registry.WithdrawalSays | crates/undertone-pipewire/src/runtime.rs:1334-1353 | The events and the cache's losses of a removal |
| Registry.HandledSays | crates/undertone-daemon/src/main.rs:380-397 | Reading an event takes out the node or port that is gone, and nothing else |
| GraphCache.StepKeeps | crates/undertone-pipewire/src/runtime.rs:1197-1354 | Every step of either thread keeps cache, names, queue and live objects in agreement |
| GraphCache.CacheAgrees | crates/undertone-pipewire/src/runtime.rs:1334-1353 | In every interleaving cached nodes are exactly the live ones plus those whose removal is travelling, none live is missing or stale, and ports and links agree exactly |
| GraphCache.QuietCacheIsExact | crates/undertone-daemon/src/main.rs:380-397 | With nothing travelling the cache is the registry |
| GraphCache.HandshakeLosesNothing | crates/undertone-daemon/src/main.rs:130-136 | Waiting for `Connected` throws no event away |
| GraphCache.SettledCache | crates/undertone-daemon/src/main.rs:303-397 | Draining the queue removes exactly the nodes whose removal was travelling |
| GraphCache.ReuseLosesExactly | crates/undertone-pipewire/src/runtime.rs:1334-1347 | A node announced under an id survives the drain exactly when no removal of that id was travelling |
| GraphCache.ReuseHappens | crates/undertone-pipewire/src/runtime.rs:1334-1347 | A reachable such announcement, after careful ones only |
| Factory.RequestHandler.Handle | crates/undertone-pipewire/src/runtime.rs:878-991 | The request handler sends the reply and changes the proxy maps as `Reply` and `Effect` say |
| Factory.ReplyAnswers | crates/undertone-pipewire/src/runtime.rs:878-991 | Every request but shutdown gets a reply of its own kind, about its own object, or an error |
| Factory.StepKeeps | crates/undertone-pipewire/src/runtime.rs:179-193 | Every step keeps: one response per request, in order; those not taken are queued; each call took the response at its place in that order |
| Factory.CallTakesShiftedAnswer | crates/undertone-pipewire/src/runtime.rs:188-193 | After t timeouts a call takes the answer to the call t places earlier |
| Factory.ShiftHappens | crates/undertone-pipewire/src/runtime.rs:91-101 | A run in which a call times out and the next is told of the first one's node as its own |
| Factory.OwnAnswerExactlyWithoutTimeouts | crates/undertone-pipewire/src/runtime.rs:91-101 | A call takes its own answer exactly when none timed out before, and then reports it faithfully |
| Factory.LeftoversCountTimeouts | crates/undertone-pipewire/src/runtime.rs:658-667 | Between calls, queued requests and responses together number the timeouts so far |
| Factory.AnswerIsComing | crates/undertone-pipewire/src/runtime.rs:599-604 | While the thread lives, a waiting call has an answer coming |
| Factory.ShutdownIsObeyed | crates/undertone-pipewire/src/runtime.rs:986-991 | Asked to shut down, the thread answers what was asked before and can then end |
| Factory.CallsSeeEarlierOnes | crates/undertone-pipewire/src/runtime.rs:878-945 | A run in which a node made by one call is set by the next |
| Coupling.ProgressExactlyUnlessJammed | crates/undertone-pipewire/src/runtime.rs:50-53 | While a call waits, one of the threads can move exactly when not jammed |
| Coupling.JamEndsInTimeout | crates/undertone-pipewire/src/runtime.rs:188-193 | The only step out of a jam is the call's timeout |
| Coupling.JamHappens | crates/undertone-pipewire/src/runtime.rs:51-53 | A reachable jam |
| Reuse.Runtime.CreateNode | crates/undertone-pipewire/src/runtime.rs:77-101 | A managed node of that name is taken, under its registry id and without a request; otherwise the request handler makes one, under a proxy id |
| Reuse.ControlsReachOwnNodesOnly | crates/undertone-pipewire/src/runtime.rs:1080-1091 | After any requests, setting volume or mute on an id gets through exactly when a creation of the session was granted that id, and otherwise fails and moves nothing |
| Reuse.CollisionMovesAnotherNode | crates/undertone-pipewire/src/runtime.rs:1080-1091 | A found node whose registry id equals another node's proxy id: setting it gets through and moves the other node |
| Reuse.LinkIsHeldExactlyWhen | crates/undertone-pipewire/src/runtime.rs:917-985 | After any requests a link is held under an id, from one node to another, exactly when its creation was granted that id and nothing ended it since |
| Reuse.DestroysJustTheHeld | crates/undertone-pipewire/src/runtime.rs:966-985 | Destroying the links from one node to another takes exactly those held, in that direction, and replies with their number |
| Reuse.CreationsAreAnswered | crates/undertone-pipewire/src/runtime.rs:880-931 | A creation is answered with the id it was granted; a refused one changes nothing |
| Naming.NamesInjective | crates/undertone-core/src/channel.rs:37-53 | No two of sinks, filters, mixes and the stream output share a node name, for channel names without the filter suffixes |
| Naming.FilterNamesInjective | crates/undertone-core/src/channel.rs:42-52 | Filters of different channels or mixes have different names, for any channel names |
| Naming.RecognisedExactlyWhen | crates/undertone-pipewire/src/node.rs:50-57 | `is_undertone_channel` recognises a channel's sink exactly when the channel has neither suffix and is neither "stream-vol" nor "monitor-vol" |
| StartUp.Linker.GetUndertoneChannels | crates/undertone-pipewire/src/graph.rs:248-250 | Lists exactly the cached channel sinks |
| StartUp.Linker.CreateStereoLinks | crates/undertone-pipewire/src/runtime.rs:203-234 | Left to left, then right to right, by the ports the cache knows on each side, or the fixed names; a pair counts as linked once its left half is, and gives its ids only with both |
| StartUp.PortsByName | crates/undertone-pipewire/src/runtime.rs:208-224 | Left is channel "FL", right "FR"; without such a port monitor_FL, monitor_FR, playback_FL or playback_FR is asked for |
| StartUp.Linker.CreateChannelLinks | crates/undertone-pipewire/src/runtime.rs:280-403 | Succeeds exactly when both mixes and every channel's two filters exist; links made and recorded are those of the plan, also when it fails half-way |
| StartUp.RecordsExactly | crates/undertone-pipewire/src/runtime.rs:322-399 | Recorded are exactly the halves of the pairs of which both were made, each under its channel, leg and side with its own id |
| Topology.StartUpWires | crates/undertone-pipewire/src/runtime.rs:322-399 | Whatever succeeds, every link made joins a channel to its own filter, or a filter to its own mix |
| Topology.Acyclic | crates/undertone-pipewire/src/runtime.rs:280-403 | No path meets a node twice, none is longer than four nodes |
| Topology.Isolated | crates/undertone-pipewire/src/runtime.rs:280-403 | Every path from a channel is: its own filter for a mix, that mix, and from the monitor mix the headphones |
| Topology.NoCrossTalk | crates/undertone-pipewire/src/runtime.rs:280-403 | No path from a channel reaches another channel's sink or filters |
| Topology.HeardExactlyWhen | crates/undertone-pipewire/src/runtime.rs:322-399 | A channel reaches a mix exactly when both links through its filter for that mix were made |
| Topology.EveryChannelHeard | crates/undertone-pipewire/src/runtime.rs:271-277 | When every request succeeds every channel reaches both mixes |
| Reconciliation.Reconciler.Run | crates/undertone-pipewire/src/reconcile.rs:43-193 | With unique node names the loops return exactly the missing nodes in order, a warning without a Wave:3, and a stereo pair for each demanded pair whose ends exist and are not linked |
| Reconciliation.Reconciler.IsHealthy | crates/undertone-pipewire/src/reconcile.rs:197-199 | With unique node names, healthy exactly when all demanded nodes and a Wave:3 exist and all demanded pairs are linked |
| Reconciliation.DemandSize | crates/undertone-pipewire/src/reconcile.rs:46-190 | For n channels 3n+3 nodes and, with a Wave:3, 2n+2 pairs are demanded |
| Demand.DemandedNames | crates/undertone-pipewire/src/reconcile.rs:46-93 | The demanded names are those of every channel's sink and two filters, both mixes and the stream output |
| Demand.DemandedPairs | crates/undertone-pipewire/src/reconcile.rs:103-190 | The demanded pairs are each filter into its own mix, the stream mix into the stream output, and the monitor mix into the Wave:3 |
| Demand.DemandedPairNames | crates/undertone-pipewire/src/reconcile.rs:103-190 | The demanded pairs by node name |
| Demand.DemandedDescriptions | crates/undertone-pipewire/src/reconcile.rs:46-93 | The names and descriptions of every channel's three nodes |
| Reconciliation.HealthyExactlyWhenNothingToDo | crates/undertone-pipewire/src/reconcile.rs:197-199 | The answer is empty exactly when the graph is healthy |
| Reconciliation.ActionsJustified | crates/undertone-pipewire/src/reconcile.rs:43-193 | A create names something missing and demanded, a link joins existing unlinked ends of a demanded pair by a left or right port pair, and nothing is destroyed |
| Reconciliation.LinksJustified | crates/undertone-pipewire/src/reconcile.rs:111-190 | Link actions come in pairs, left ports to left ports and then right to right, of one demanded, unlinked pair |
| Reconciliation.MissingPairIsAskedFor | crates/undertone-pipewire/src/reconcile.rs:111-190 | For every demanded unlinked pair the answer asks for monitor_FL to playback_FL and next for monitor_FR to playback_FR |
| Reconciliation.MissingNodeIsAskedFor | crates/undertone-pipewire/src/reconcile.rs:46-93 | For every demanded missing node the answer asks for it |
| Reconciliation.StartUpLeavesStreamOut | crates/undertone-pipewire/src/runtime.rs:130-136 | After a complete start-up the reconciler asks for the stream output alone |
| Convergence.RoundResult | crates/undertone-pipewire/src/reconcile.rs:43-193 | One round makes every demanded node, links every demanded pair it found, keeps names unique and changes nothing else |
| Convergence.EveryRoundProgresses | crates/undertone-pipewire/src/reconcile.rs:43-193 | While a demanded node or linked pair is missing, a round leaves strictly fewer missing |
| Convergence.TwoRoundsSettle | crates/undertone-pipewire/src/reconcile.rs:43-193 | From any graph with unique names in which the Wave:3 search has one possible outcome, for any channels none of which passes for a Wave:3: after two rounds there is nothing to do but warn of a missing Wave:3 |
| Convergence.SettledExactlyWhen | crates/undertone-pipewire/src/graph.rs:195-218 | With several Wave:3 candidates, exactly when the one found was linked |
| Convergence.AmbiguousSinkUnsettles | crates/undertone-pipewire/src/graph.rs:199-218 | A second, unlinked candidate leaves something to do after a round |
| Convergence.IdleExactlyWhen | crates/undertone-pipewire/src/reconcile.rs:43-193 | With all nodes and the other pairs there, a search leaves nothing to do exactly when the monitor mix feeds what it answered |
| Convergence.BusyRoundFeedsAnother | crates/undertone-pipewire/src/reconcile.rs:43-193 | From then on every round with anything to do leaves strictly fewer candidates unfed |
| Convergence.EveryRunOfRoundsSettles | crates/undertone-pipewire/src/reconcile.rs:43-193 | Over any run of rounds, whatever the searches answer, at most one round and one more for each candidate, two if there is none, have anything to do |
| Convergence.NewcomersAreManaged | crates/undertone-pipewire/src/runtime.rs:77-88 | A sink asked for twice is made once |
| Impostors.NoImpostorExactlyWhen | crates/undertone-pipewire/src/graph.rs:206-216 | No demanded sink passes for a Wave:3 exactly when no channel name mentions both "Elgato" and "Wave" |
| Headphones.SecondCandidateUnsettles | crates/undertone-pipewire/src/reconcile.rs:43-193 | For any channels and any graph with two foreign candidates, the second unlinked: after two rounds given the first, a search that answers with the second has something to do |
| Headphones.AmbiguityHappens | crates/undertone-pipewire/src/graph.rs:199-218 | A graph in which that is so, for any channels |
| Headphones.FallbackMatches | crates/undertone-pipewire/src/graph.rs:199-218 | What the search's fallback looks for |
| Headphones.AnswerIsForeignExactlyWhen | crates/undertone-pipewire/src/graph.rs:191-218 | With the nodes of a start-up there, the search never answers with one of them exactly when some node carries the custom name or no channel name mentions both words |
| Headphones.StartUpIsWired | crates/undertone-pipewire/src/runtime.rs:486-506 | Under that condition start-up's links, the headphones' included, are wired as `Topology` assumes, whichever nodes are there and whatever succeeds |
| Headphones.ImpostorFeedsItself | crates/undertone-pipewire/src/runtime.rs:486-506 | Otherwise the search can answer with a recognised channel's sink, and linking the monitor mix to it closes a cycle |
| Headphones.FeedbackHappens | crates/undertone-pipewire/src/runtime.rs:486-506 | A graph with such a cycle, for any channels a recognised one of which mentions both words |
| AppRouting.AsTheHandlerDoes | crates/undertone-pipewire/src/runtime.rs:951-964 | Destroying a link answers as the request handler does and drops the same proxy |
| AppRouting.Router.CutLinks | crates/undertone-pipewire/src/runtime.rs:727-740 | What is left after the unwanted links were destroyed, in any order |
| AppRouting.Router.Route | crates/undertone-pipewire/src/runtime.rs:704-788 | Fails untouched without the channel or the application; otherwise cuts and links, and gives the proxies of the links made; when it succeeds the application plays into the channel |
| AppRouting.NewLinksAreMade | crates/undertone-pipewire/src/runtime.rs:749-788 | Each request granted leaves its own link from the application to the channel, under its own proxy; mono counts only when left failed; nothing else is added |
| AppRouting.RoutesExactlyWhen | crates/undertone-pipewire/src/runtime.rs:951-964 | The application plays into the new channel alone and all other links stay exactly when every unwanted id that is a proxy id belongs to an unwanted link's proxy, and no two of them stand for one link; it does play into it once any request was granted |
| AppRouting.RoutesWithoutCollision | crates/undertone-pipewire/src/runtime.rs:951-964 | That is so when no unwanted link's registry id is a proxy id; for a single unwanted link, exactly when its id is none or its own proxy's |
| AppRouting.CollisionCutsTheWrongLink | crates/undertone-pipewire/src/runtime.rs:951-964 | A collision cuts another link and leaves the old one |
| Routing.SortByPriority | crates/undertone-core/src/routing.rs:104-105 | Some order lists every position once, higher priority first, ties in place, and the result is the rules in that order |
| Routing.FirstMatch | crates/undertone-core/src/routing.rs:108-112 | The first match, or the end when there is none |
| Routing.FindChannelForApp | crates/undertone-core/src/routing.rs:98-125 | Sort and scan equal the best rule for the name, else for the binary, else "system" |
| Routing.BestOfIsBest | crates/undertone-core/src/routing.rs:103-112 | The simple form is the highest priority, then earliest, matching rule, and none exactly when nothing matches |
| Routing.KindsOfRules | crates/undertone-core/src/routing.rs:60-95 | What exact, prefix and regular-expression rules match |
| Routing.NameBeforeBinary | crates/undertone-core/src/routing.rs:106-125 | The best rule for the name decides; without any, the best for the binary; without either, "system" |
| Routing.OrderIrrelevantExactlyWhen | crates/undertone-core/src/routing.rs:104-112 | A name's channel survives every reordering of the rules exactly when the top rules matching it agree |
| Routing.SameDecision | crates/undertone-core/src/routing.rs:98-125 | The same set of rules in any order decides alike where no tie decides |
| Routing.NewcomerLosesTies | crates/undertone-daemon/src/main.rs:691-698 | A rule appended decides only where it matches with a strictly higher priority |
| Database.Connection.LoadChannels | crates/undertone-db/src/queries.rs:24-56 | Every channel in order with its stored state, unity where there is none |
| Database.Connection.LoadRoutes | crates/undertone-db/src/queries.rs:80-103 | Every rule once, highest priority first |
| Database.Connection.SaveRoute | crates/undertone-db/src/queries.rs:106-123 | Upserts by pattern; fails exactly for an unknown channel |
| Database.Connection.DeleteRoute | crates/undertone-db/src/queries.rs:126-129 | Removes that pattern |
| Database.Connection.SaveProfile | crates/undertone-db/src/queries.rs:166-255 | Succeeds with distinct names and patterns; writes exactly the rows of known channels; never touches another profile's rows |
| Database.Connection.LoadProfile | crates/undertone-db/src/queries.rs:258-319 | None exactly for an unknown profile; else its rows, each once, routes by priority, default mixer for NULL |
| Database.Connection.DeleteProfile | crates/undertone-db/src/queries.rs:322-340 | Deletes exactly an existing, non-default profile, with its rows |
| Database.Connection.GetDefaultProfile | crates/undertone-db/src/queries.rs:421-430 | Some default profile, none exactly when there is none |
| DatabaseLaws.SaveThenLoad | crates/undertone-db/src/queries.rs:166-319 | A saved profile loads back with its mixer and exactly the strips and rules whose channel is known |
| DatabaseLaws.SnapshotLoads | crates/undertone-db/src/queries.rs:166-319 | The very profile that was saved is one of the answers |
| DatabaseLaws.RulesComeSorted | crates/undertone-db/src/queries.rs:80-103 | Loaded rules come highest priority first, each of the table's once |
| DatabaseLaws.SavedConsistent | crates/undertone-db/src/schema.rs:54-72 | Saving keeps keys, foreign keys and the one default profile |
| DatabaseLaws.OthersKept | crates/undertone-db/src/queries.rs:192-224 | Saving a profile leaves every other profile's rows |
| DatabaseLaws.OthersSurviveDeletion | crates/undertone-db/src/schema.rs:54-72 | So does deleting one, whose own rows go with it |
| DaemonRuns.RequestsAreHonoured | crates/undertone-daemon/src/server.rs:40-164 | A change is refused exactly for an unknown channel, and otherwise carried out as asked with its volume clamped; a query changes nothing |
| DaemonRuns.QueriesAreAnswered | crates/undertone-daemon/src/server.rs:40-82 | A query changes nothing and is answered exactly when what it asks for is there |
| MainLoop.Controls.SetVolume | crates/undertone-pipewire/src/runtime.rs:655-668 | Clamps and sets one known node's volume, or remembers a failure |
| MainLoop.Loop.constructor | crates/undertone-daemon/src/main.rs:250-285 | Start-up: stored channel states, routes, then the default profile's rows |
| MainLoop.Loop.SetVolume | crates/undertone-daemon/src/main.rs:569-602 | Memory and control of that channel and mix |
| MainLoop.Loop.SetMute | crates/undertone-daemon/src/main.rs:604-637 | Memory and control of that channel and mix |
| MainLoop.Loop.SetMasterVolume | crates/undertone-daemon/src/main.rs:639-661 | Mixer and control of that mix |
| MainLoop.Loop.SetMasterMute | crates/undertone-daemon/src/main.rs:663-685 | Mixer and control of that mix |
| MainLoop.Loop.SetRoute | crates/undertone-daemon/src/main.rs:687-704 | Replaces the pattern's rule by one at the end with priority 100, in memory and table |
| MainLoop.Loop.RemoveRoute | crates/undertone-daemon/src/main.rs:749-757 | Drops the pattern's rule from memory and table |
| MainLoop.Loop.Save | crates/undertone-daemon/src/main.rs:759-785 | Writes the snapshot, which in a sound state never violates a key |
| MainLoop.Loop.ApplyRows | crates/undertone-daemon/src/main.rs:793-818 | Copies the rows onto channels of the same name and pushes both faders of each |
| MainLoop.Loop.Load | crates/undertone-daemon/src/main.rs:787-855 | Channels, routes if there are any, mixer, controls and the profile's name |
| MainLoop.Loop.Delete | crates/undertone-daemon/src/main.rs:857-869 | Deletes a non-default profile |
| MainLoop.Loop.Handle | crates/undertone-daemon/src/main.rs:556-869 | One request: the response, a step of the model, and soundness kept |
| DaemonRuns.StepKeepsSound | crates/undertone-daemon/src/main.rs:568-869 | Every command keeps tables consistent, names, distinct patterns, known channels and volumes in [0, 1] |
| DaemonRuns.StepKeepsShown | crates/undertone-daemon/src/main.rs:569-855 | Every command keeps controls equal to what is stored, unless a set failed |
| DaemonRuns.StepKeepsRoutesFollowing | crates/undertone-daemon/src/main.rs:687-757 | Memory and table hold the same rules until a profile brings its own |
| DaemonRuns.EveryRunIsGood | crates/undertone-daemon/src/main.rs:489-869 | All of that after every run of requests |
| DaemonRuns.StartIsGood | crates/undertone-daemon/src/main.rs:250-285 | Start-up establishes it, with channel states at unity |
| DaemonRuns.StartShowsStripsExactlyWhen | crates/undertone-daemon/src/main.rs:256-279 | Otherwise the controls agree exactly when every channel not at unity has a row in the default profile |
| RoundTrips.SaveThenLoadRestores | crates/undertone-daemon/src/main.rs:759-855 | Save, any requests but saving or deleting that profile, load: all channels and the mixer are back, and the rules if there were any |
| RoundTrips.SaveThenLoadRoutesAlike | crates/undertone-core/src/routing.rs:98-125 | Then every application is routed as before, unless a tie decides |
| RoundTrips.RestartAfterSave | crates/undertone-daemon/src/main.rs:250-285 | After a restart channels and rules are back, the mixer exactly when it was the default one |
| RoundTrips.MixerIsForgotten | crates/undertone-daemon/src/main.rs:243-285 | Every state can be saved and restarted from, with a new daemon's mixer |
| RoundTrips.SessionLeavesTablesOk | crates/undertone-daemon/src/main.rs:489-869 | What a session leaves is what start-up needs |
| RoundTrips.DeletedProfileIsGone | crates/undertone-daemon/src/main.rs:857-869 | Deleting a stored profile other than the default one: no query finds it and no row of it is left; of any other name nothing is deleted |
| RoundTrips.RemovedRouteIsGone | crates/undertone-daemon/src/main.rs:749-757 | No rule of that pattern is left in memory or table, and every other one is |
| RoundTrips.SetRouteIsThere | crates/undertone-daemon/src/main.rs:687-704 | An exact rule of priority 100 stands last in memory and in the table, in place of any other of that pattern; all others stay |
| RoundTrips.TheTargetMoves | crates/undertone-daemon/src/main.rs:569-685 | A fader command sets its volume or mute, in memory and PipeWire, and not the other |
| RoundTrips.OnlyTheTargetMoves | crates/undertone-daemon/src/main.rs:569-685 | It changes nothing of any other channel, mix, rule or table |
| RoundTrips.RouteTakesEffectExactlyWhen | crates/undertone-daemon/src/main.rs:687-698 | An application of that name goes to the channel exactly when no other best rule of priority 100 or more leads elsewhere |
| DefaultData.NewTablesAreOk | crates/undertone-db/src/schema.rs:99-128 | The tables of a new database satisfy what start-up needs, its nine rules included |
| DefaultData.FirstStart | crates/undertone-daemon/src/main.rs:250-285 | The first start on them reaches a good state, with those rules |
| DefaultData.OverrulingHappens | crates/undertone-db/src/schema.rs:112-122 | There a route for "discordcanary" has no effect: the rule for "discord" decides |
| DefaultData.RestartForgetsMaster | crates/undertone-daemon/src/main.rs:250-285 | A first session that turns the stream master down and saves "Default": after the restart the master is up again |
| FixedPoint.GainRoundTrip | crates/undertone-hid/src/wavexlr.rs:480-489 | `gain_to_u16(gain_from_u16(raw))` is raw, 0x3FFF at most, under any rounding within bounds |
| FixedPoint.PercentRoundTrip | crates/undertone-hid/src/wavexlr.rs:458-465 | `unit_to_percent(percent_to_unit(p))` is p, 100 at most |
| FixedPoint.ConversionsAreClose | crates/undertone-hid/src/wavexlr.rs:458-484 | Read values are the fraction of full scale to two roundings, written ones the nearest step |
| FixedPoint.ConversionsAreMonotone | crates/undertone-hid/src/wavexlr.rs:458-484 | Louder in, no quieter out |
| FixedPoint.ConversionsClamp | crates/undertone-hid/src/wavexlr.rs:458-484 | Ends are reached and never passed; NaN gives zero |
| WaveXlr.Handle.ReadRawState | crates/undertone-hid/src/wavexlr.rs:266-296 | A full read fills the cache; an error or short read changes nothing |
| WaveXlr.Handle.WriteRawState | crates/undertone-hid/src/wavexlr.rs:308-330 | A full write fills the cache; a short one changes the device only |
| WaveXlr.Handle.CurrentOrFetchBlob | crates/undertone-hid/src/wavexlr.rs:332-337 | The cached blob, read first if there is none |
| WaveXlr.Handle.SetMute | crates/undertone-hid/src/wavexlr.rs:363-369 | Read-modify-write of the mute byte |
| WaveXlr.Handle.SetGain | crates/undertone-hid/src/wavexlr.rs:371-379 | Read-modify-write of the two gain bytes |
| WaveXlr.Handle.SetLed | crates/undertone-hid/src/wavexlr.rs:391-408 | Read-modify-write of the nine LED bytes |
| WaveXlr.Layout | crates/undertone-hid/src/wavexlr.rs:363-408 | Gain in bytes 0 and 1, low first, mute in byte 4, colours in bytes 16 to 24; every other byte stays |
| WaveXlr.LayoutRead | crates/undertone-hid/src/wavexlr.rs:469-477 | ... and how they are read |
| WaveXlr.UnownedBytesKept | crates/undertone-hid/src/wavexlr.rs:234-237 | Over any calls and transfers, short ones included, every byte outside offsets 0, 1, 4 and 16-24 keeps its first value |
| WaveXlr.SuccessSynchronises | crates/undertone-hid/src/wavexlr.rs:294-328 | After each successful call cache and device agree |
| WaveXlr.SucceedsExactlyWhen | crates/undertone-hid/src/wavexlr.rs:332-408 | A call succeeds exactly when the transfers it needs are complete |
| WaveXlr.PatchesCommute | crates/undertone-hid/src/wavexlr.rs:363-408 | Writes to different fields commute |
| WaveXlr.CacheHoldsSuccesses | crates/undertone-hid/src/wavexlr.rs:266-408 | Over any calls, reads included, any transfers and any changes of the device's own: the cache is the blob last read, patched by the writes that succeeded since, in order, and None exactly without one |
| WaveXlr.DeviceHoldsSuccesses | crates/undertone-hid/src/wavexlr.rs:266-408 | Over any calls, reads included, where a failed write changes nothing: the device is its first blob patched by the successful writes, and the cache is None or equal to it |
| WaveXlr.ReadTakesOverShortWrite | crates/undertone-hid/src/wavexlr.rs:308-330 | A write cut short after n bytes is not cached, and the next read takes over those n bytes |
| WaveXlr.DeviceReportsLastWritten | crates/undertone-hid/src/wavexlr.rs:469-477 | Over the same runs `parse_state` gives the mute and quantised gain last written with success |
| WaveXlr.ZonesShowColours | crates/undertone-hid/src/wavexlr.rs:396-404 | Each zone shows its colour, or the last one given |
| WaveXlr.KeepsForeignByteExactlyWhen | crates/undertone-hid/src/wavexlr.rs:332-337 | A write keeps a byte it does not own exactly when the cache was right about it, or empty |
| WaveXlr.RequestKeepsByteExactlyWhen | crates/undertone-daemon/src/main.rs:508-515 | Over a request - snapshot, changes of the device's own, command: if the snapshot was read, a byte the command does not own survives exactly when it did not change in between; if not, when the cache was right about it or empty |
| WaveXlr.ChangeBeforeSnapshotSurvives | crates/undertone-daemon/src/main.rs:508-515 | Whatever the device changed before a snapshot that was read survives the command, even one that fails |
| WaveXlr.ButtonUndone | crates/undertone-daemon/src/main.rs:508-515 | A mute by the device's button between a snapshot and its command is undone by a gain change |
| FilterChain.ParseNodeId | crates/undertone-pipewire/src/filter_chain.rs:140-166 | The line loop returns the id above the first matching name line |
| FilterChain.QuotedOnce | crates/undertone-pipewire/src/filter_chain.rs:158-161 | The quoted name occurs in a name line exactly when it is that line's name |
| FilterChain.LinesInvertText | crates/undertone-pipewire/src/filter_chain.rs:149-149 | `str::lines` gives back the lines of a text |
| FilterChain.ParseInvertsListing | crates/undertone-pipewire/src/filter_chain.rs:140-166 | Of a rendered listing it returns the first block of the wanted name, none when there is none |
| Decimal.ParseInvertsPrint | crates/undertone-pipewire/src/filter_chain.rs:153-153 | `parse::<u32>` inverts printing, a leading '+' or not, and fails from 2^32 on |
| Decimal.ParseRejects | crates/undertone-pipewire/src/filter_chain.rs:153-153 | Nothing but digits, with one '+' in front at most, is a number |
| Effects.Mic.Change | crates/undertone-effects/src/chain.rs:42-44 | Changes the first effect of the named kind |
| Effects.Mic.Handle | crates/undertone-daemon/src/main.rs:931-985 | The four effect commands, in place |
| Effects.OnlyTheNamedEffectChanges | crates/undertone-daemon/src/main.rs:931-951 | A command changes the one thing it names in the one effect it names; a parameter drops the label |
| Effects.UnknownEffectDropsLabel | crates/undertone-daemon/src/main.rs:940-951 | An unknown effect is ignored, but for the label |
| Effects.EffectNames | crates/undertone-daemon/src/main.rs:1262-1270 | The names an effect goes by |
| Effects.PresetUses | crates/undertone-effects/src/presets.rs:42-109 | Which effects a preset activates; the others are bypassed at their defaults |
| Effects.PresetIsLoaded | crates/undertone-daemon/src/main.rs:953-985 | A preset's name replaces chain, label and stored chain; resetting is loading "Off"; any other name changes nothing |
| Effects.Compression | crates/undertone-effects/src/presets.rs:42-109 | The compressor's parameters under each preset |
| Effects.Equalisation | crates/undertone-effects/src/presets.rs:42-109 | The equaliser's parameters under each preset |
| Effects.StepKeepsLabel | crates/undertone-effects/src/presets.rs:42-109 | A label still means its preset's parameters |
| Effects.StoredChainReturnsExactlyWhen | crates/undertone-daemon/src/main.rs:1143-1183 | Storing and loading give the chain back exactly when all values are finite |
| Effects.EveryRunIsGood | crates/undertone-daemon/src/main.rs:931-985 | After any commands: four effects in signal order, the label holds, a restart resumes the chain or the default |
| Effects.RestartIsGood | crates/undertone-daemon/src/main.rs:1143-1167 | The next daemon starts as well |
| MicControls.FilterNode.PushChainToPipewire | crates/undertone-daemon/src/main.rs:1233-1260 | Sets the bypass flag, but for noise suppression, and then every parameter of the named effect on the one node, under bare names |
| MicControls.FilterNode.PushEveryEffect | crates/undertone-daemon/src/main.rs:963-965 | The loop over all kinds pushes them in signal order |
| MicControls.LoadedPresetIsPushed | crates/undertone-daemon/src/main.rs:953-985 | Loading a preset or resetting pushes the whole new chain on top of what the node held |
| MicControls.Handle | crates/undertone-daemon/src/main.rs:931-985 | The four effect commands, on the chain and on the node |
| MicControls.EveryRunIsHeard | crates/undertone-daemon/src/main.rs:931-985 | After any commands the node holds, for every name, the value of the most recently pushed effect that has a control of that name |
| MicControls.HeldExactlyWhen | crates/undertone-pipewire/src/filter_chain.rs:95-114 | So it holds what the chain stores for an effect's control exactly when that effect stores the same |
| MicControls.PushingAllHoldsAllExactlyWhen | crates/undertone-daemon/src/main.rs:963-965 | Pushing a whole chain gets everything it stores to the node exactly when no two effects disagree on a name they share |
| MicControls.EveryPresetClashes | crates/undertone-effects/src/presets.rs:42-109 | After any preset the node's threshold is the compressor's, which is not the gate's |
| MicControls.VoiceIsBypassed | crates/undertone-effects/src/presets.rs:50-60 | After "Voice" the bypass flag is set, though the compressor is active |
| MicControls.LastNamedIsHeard | crates/undertone-daemon/src/main.rs:931-951 | The effect a command names is held whole, whatever shares its names |
| MicControls.GraphNames | crates/undertone-daemon/src/main.rs:1233-1238 | The names under which an effect is pushed |
| MicControls.BypassIsHeardExactlyWhen | crates/undertone-daemon/src/main.rs:1250-1260 | Which way bypass is switched makes a difference to the node exactly for an effect other than noise suppression that no parameter "bp" shadows |
| Effects.ConfigLinks | crates/undertone-effects/src/chain.rs:77-81 | The configuration links the effects in signal order |

## Left out

- PipeWire objects, pods, `pw-cli`, `pactl`, `amixer` and USB transfers: each is a step that succeeds or fails.
- Tokio's internals, the text of JSON messages, and a `read_line` cancelled half-way through a line.
- Regular expressions: an uninterpreted predicate, one per pattern and name.
- Database input/output errors, and the partial rows they leave; a key violation's partial rows are modelled.
- Descriptions and time stamps in the tables, and the event and device-settings tables.
- The user interface, the legacy node factory and graph monitor, configuration, signals and packaging.
- Switching the monitor output: its links are not exclusive when one stereo half fails.
- The list of active applications: nothing ever announces an application's end.
- Links to applications in the topology: `Topology` is about the start-up links and the headphones only.
- The text under which a created link is remembered: a record names channel, leg and side instead.
- The text of the effect configuration beyond the order of its links, the zero threshold it gives a bypassed noise suppression, and the descriptor tables' ranges.
- Convergence.TwoRoundsSettle: each action succeeds once; retries after failed actions are further rounds.
- IpcClient.AnsweredExactlyWhen: a caller that gives up waiting, which would end its borrow of the client, is not modelled.
- Reuse.Runtime.CreateNode: the thread answers in time; what a late answer does is `Factory`.
- AppRouting.Router.Route: every destroy request is answered; a timed-out one would leave its link.
- MainLoop.Loop.SetRoute: re-routing the applications that already play is `AppRouting`, not part of this step.
- FixedPoint.GainRoundTrip: the rounding function is any real function within the error bound, not IEEE arithmetic itself.
