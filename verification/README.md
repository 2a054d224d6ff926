# Verified models of the async and Raft experiments

Dafny models of the repository's concurrent and stateful cores, with proofs of what they
promise. `dafny verify dfyconfig.toml` checks everything.

| part of the repository | modules |
|---|---|
| Replicated key-value node (`19-raft-replication`) | `RaftLog`, `KvStores`, `RaftNodes`, `PendingPuts`, `Workers`, `WorkerMessages`, `WorkerRuns`, `WorkerOutput`, `AckSimulation`, `AckCompletion`, `RaftCluster`, `RaftSafety`, `RaftRefinement`, `RaftTheorems`, `RaftProposers`, `RaftWorker`, `RaftCompletion`, `RaftWitness`, `PeerFrames`, `ConsoleParser` |
| In-memory Raft cluster (`18-hello-raft`) | `HelloRaft`, `HelloMessages`, `HelloTheorems` |
| Chat broker (`9-local-chat-mesh`) | `BroadcastRing`, `Brokers`, `BrokerRuns`, `BrokerSafety`, `BrokerTheorems`, `BrokerDelivery`, `BrokerEndings`, `BrokerRefinement`, `BrokerWitness`, `Framing` |
| Priority executor with work stealing (`16-async-queue`) | `Executors`, `ExecutorTheorems`, `ExecutorOrder` |
| Try-lock futures (`14-sharing-data-between-futures`, `15-async-logger`) | `SharedCounter`, `AsyncLogger` |
| Shared vocabulary | `Basics`, `Text` |

## How the models are built

Code that changes state step by step is a class whose methods are proved against a
specification function of the old state (`RaftNode.PollReady` against `Polled`,
`Worker.Run` against `Ran`, `Executor.WorkerTurn` against `Turn`, `Reader.ReadMessage`
against `ReadFrom`, `Ring.Receive` against `ReceiveFrom`). What such a function computes is
then stated without it, mostly by the positions it selects: which messages of which
batches go out (`EveryRunSendsToItsPeers`), which entries are reported
(`ReportsAreThePuts`), which emitted message was stepped where (`PolledMessageIsSteppedOnce`),
in which order runnables leave their queues (`QueuesAreFifo`). What runs concurrently is a
state machine whose steps lie between the points where others may act (await points,
lock operations, channel operations); theorems about it quantify over every run, that
is, over every interleaving. Where a class and a machine describe the same thing, lemmas
or methods connect them: `LoopIsARunOfSteps` for the worker and its Raft node, `BrokerRefinement` for
the broker's shared state, `UninterruptedPoll` and `UninterruptedWrite` for the futures.

Choices of the environment are arguments: what the Raft library hands out on each call,
which messages it refuses, which events the channels and the clock deliver, what
`try_lock` finds, where the pieces of a byte stream begin and end, and which reads and
writes fail.

The Raft library is an abstract machine with what sections 5.3 and 5.4.3 of the extended
Raft paper ("In Search of an Understandable Consensus Algorithm") guarantee: one agreed
log that only grows, whose prefixes are what nodes see as committed. Between polls a
node's uncommitted entries may be extended, dropped or replaced, so proposals may be
lost. Beside the agreed log the machine records which put request each entry came from,
if any: a request that a node accepted before, with its pair, and that becomes at most
one entry. Every entry with a command came from such a request, as nothing else proposes
commands. No node sees this record; the theorems about acknowledgements compare with it.
What is proved is what the repository adds on top.

### Where code and comments disagree, or the code falls short

- The worker matches an applied entry to a waiting put by key and value only, although
  the answer is meant for the client whose proposal was applied. In every run this is
  right exactly when no applied entry finds a waiting put of its pair before its
  proposer's own (`OksReachTheirProposersIffUnambiguous`, both directions). In
  `ForeignEntryMisleadsACluster` a leader that lost its put to the next term acknowledges
  it on account of an equal put that another node's client made to the new leader.
- The broker's cleanup runs only when a session ends without an error. A connection that
  is over leaves its record behind if and only if an error ended it after it registered
  (`RecordRemainsIffError`); then its nickname is refused for the rest
  of the run (`AbortedNicknameStaysTaken`), which can happen to any free nickname
  (`FreeNicknameCanBeLost`).
- A broadcast that nobody is subscribed to is not stored, so the channel that sessions
  read can hold a leave without its join (`LeaveWithoutJoin`); `StoredJoinsAndLeaves`
  says exactly when it does.
- `read_message` is used inside `select!`. A read that is dropped while it waits for the
  rest of a line loses the bytes that had arrived; nothing is lost exactly when none had
  (`CancelledReadLosesTheMessage`), and `AfterACancelledRead` says what is read instead.
- The comment about low workers stealing high tasks describes a branch that is never
  taken: they block in `recv`, and the static sender never goes away. With low workers
  only, a high task starves; and a pool's threads start with the first task of its
  priority, so a low task starves before any high task was spawned if there are no low
  workers (`TasksStarve`, `ProgressUnlessStarved`).
- The logger's future answers `Ok(true)` even when its write failed. A file that nobody
  is writing to holds one whole line for each future that got its lock if and only if no
  write to it failed (`WholeLinesIffNoWriteFailed`); `FailedWriteLeavesPartOfALine` is a
  run in which one did.
- Peer frames carry a 32-bit length, so longer payloads arrive cut (`FrameRoundTrip`).

## Model

| member | source | states |
|---|---|---|
| RaftLog.ApplyInBatches | 19-raft-replication/src/node.rs:197-247 | Applying entries gives the same store however they are cut into Ready and LightReady batches and polls. |
| RaftLog.ReportsInBatches | 19-raft-replication/src/node.rs:197-247 | The reports produced do not depend on the batches either. |
| RaftLog.ReportsDifferOnlyInNode | 19-raft-replication/src/node.rs:257-289 | Two nodes that apply the same entries report the same applications, up to their own id. |
| RaftLog.ReportsFollowTheLog | 19-raft-replication/src/node.rs:257-289 | Every report names an entry that puts its pair, with that entry's term, and reports come in strictly increasing index order. |
| RaftLog.ReportsAreThePuts | 19-raft-replication/src/node.rs:257-289 | Reports and put entries correspond one to one: the k-th report is that of the k-th normal entry that holds a command, with its pair, index and term. |
| RaftLog.EveryPutIsReported | 19-raft-replication/src/node.rs:264-267 | No entry is applied without its report. |
| RaftLog.DecodablePrefixStops | 19-raft-replication/src/node.rs:257-273 | The entries applied before a failing decode are exactly those in front of the first entry that does not decode. |
| RaftLog.LastPutWins | 19-raft-replication/src/store.rs:47-57 | A key of the replayed store has the value of the last entry that puts it. |
| RaftLog.UnputKeyIsAbsent | 19-raft-replication/src/store.rs:55-57 | A key that no entry puts has no value. |
| KvStores.KvStore.Put | 19-raft-replication/src/store.rs:47-49 | One key changes, all others keep their values. |
| KvStores.KvStore.Get | 19-raft-replication/src/store.rs:55-57 | The stored value, or nothing. |
| KvStores.KvStore.Snapshot | 19-raft-replication/src/store.rs:70-72 | The whole store at that moment. |
| RaftNodes.RaftNode.ApplyEntries | 19-raft-replication/src/node.rs:257-273 | The loop applies the entries up to the first that does not decode; on that failure the store keeps what was applied and the reports are lost. |
| RaftNodes.RaftNode.ApplyCommand | 19-raft-replication/src/node.rs:276-289 | A put changes its key only, and the report carries its pair, index and term. |
| RaftNodes.RaftNode.PollReady | 19-raft-replication/src/node.rs:197-247 | The whole new storage and store, and the bundle or the failure, of one turn of the two-phase loop. |
| RaftNodes.RaftNode.ValueFor | 19-raft-replication/src/node.rs:296-298 | A local read answers from what this node has applied. |
| PendingPuts.FirstMatch | 19-raft-replication/src/runtime.rs:527-548 | The first waiting put of the pair: it matches and none before it does; past the end when there is none. |
| PendingPuts.NotifyAllInBatches | 19-raft-replication/src/runtime.rs:474-484 | Answers do not depend on how reports are spread over bundles. |
| PendingPuts.AnswersBalanceRequests | 19-raft-replication/src/runtime.rs:392-420 | For every sequence of accepted puts, refusals and reports: answers sent plus puts still waiting are the requests received, as multisets of clients. |
| PendingPuts.SingleRequestSingleAnswer | 19-raft-replication/src/runtime.rs:392-420 | A client with one request is either answered once or waits once, never both; a refused one does not wait. |
| PendingPuts.EqualPairsAreServedInOrder | 19-raft-replication/src/runtime.rs:527-548 | Of the puts of one pair, those acknowledged are the earliest accepted, in order, and those waiting are the rest, in order. |
| PendingPuts.OfPairAreThePutsOfThePair | 19-raft-replication/src/runtime.rs:527-548 | The puts of one pair meant there are, in order, exactly those with its key and value. |
| PendingPuts.PendingKeepsArrivalOrder | 19-raft-replication/src/runtime.rs:218-222 | The waiting puts are an order-preserving subsequence of the accepted ones. |
| PendingPuts.AcksInjectIntoApplications | 19-raft-replication/src/runtime.rs:527-548 | Each Ok belongs to an applied entry of its own with the same pair and index, in order. |
| AckSimulation.OneEntry | 19-raft-replication/src/runtime.rs:527-548 | At one entry and from equal tables, the worker answers as matching by request id would, and an Ok goes to the proposer, each if and only if no waiting put of the pair stands before the proposer's own. |
| AckSimulation.MatchingByPairSimulatesMatchingById | 19-raft-replication/src/runtime.rs:218-222 | Over a whole history, all Oks go where request ids would send them if and only if every applied entry finds the table clear. |
| AckSimulation.OksReachProposersIffUnambiguous | 19-raft-replication/src/runtime.rs:527-548 | Over a whole history, every Ok sent goes to the client whose proposal became the entry that caused it if and only if every applied entry finds the table clear. |
| AckSimulation.InOrderRunsAreUnambiguous | 19-raft-replication/src/runtime.rs:409-420 | If own proposals apply in order without loss and foreign entries never equal a waiting pair, every Ok reaches its proposer, duplicate pairs included. |
| AckSimulation.DistinctPairsAreUnambiguous | 19-raft-replication/src/runtime.rs:409-420 | If waiting pairs are pairwise distinct and foreign entries never equal a waiting pair, every Ok reaches its proposer even when proposals are lost. |
| AckSimulation.LostProposalTakesAnAnswer | 19-raft-replication/src/runtime.rs:527-548 | A history in which a lost proposal's client gets the Ok of a later equal put. |
| AckSimulation.ForeignEntryGivesAnAnswer | 19-raft-replication/src/runtime.rs:527-548 | A history in which an equal entry from elsewhere acknowledges a put that was never applied. |
| AckCompletion.AppliedPutIsAcknowledged | 19-raft-replication/src/runtime.rs:527-548 | In an unambiguous history a put whose own entry was applied has its Ok, for that entry, and waits no longer. |
| Workers.Worker.HandleClientRequest | 19-raft-replication/src/runtime.rs:392-458 | Each request's effect: a put waits only on a leader that took the proposal and gets one refusal with its reason otherwise; reads, status, campaign and shutdown leave the table alone. |
| Workers.Worker.DispatchMessage | 19-raft-replication/src/runtime.rs:493-508 | A message to this node goes back to the library, one to a known peer is sent, one to an unknown peer is skipped. |
| WorkerMessages.SentIsTheMessagesToPeers | 19-raft-replication/src/runtime.rs:493-508 | Of the messages up to the first one to the node itself that is rejected, exactly those for another node that is a known peer are sent, each once and in order. |
| WorkerMessages.PollOutcome | 19-raft-replication/src/node.rs:197-247 | A poll fails to append exactly when its entries leave a gap, fails to decode exactly when an entry of either phase is malformed, and otherwise brings the messages of both phases (first phase, persisted, second phase) and their reports. |
| WorkerMessages.PollStores | 19-raft-replication/src/node.rs:206-240 | A successful poll leaves term and vote of the first phase, the commit index of the second, the log overwritten from the first new entry on, and all entries of both phases applied. |
| WorkerMessages.PassTells | 19-raft-replication/src/runtime.rs:474-484 | A pass sends the messages of its batch for known peers, up to a rejected one, and handles its reports only when all messages were dispatched; it fails for no other reason than those. |
| Workers.Worker.NotifyPut | 19-raft-replication/src/runtime.rs:527-548 | Removes the first waiting put of the report's pair and sends it its Ok; without one nothing but the report is recorded. |
| Workers.Worker.ProcessReady | 19-raft-replication/src/runtime.rs:474-484 | The drain loop: for each batch the poll, then its messages, then its answers; a failing poll or a rejected message stops it before the answers. |
| Workers.Worker.Run | 19-raft-replication/src/runtime.rs:338-379 | The event loop over any events, including closed channels, shutdown, timeouts and crashes, reaches the state its specification gives. |
| WorkerRuns.RunExplained | 19-raft-replication/src/runtime.rs:338-379 | However a run of the worker goes, its put table and answers are what its own history of accepts, refusals and reports, in the order they happened, makes of them. |
| WorkerRuns.RunTells | 19-raft-replication/src/runtime.rs:338-379 | How far a run gets and why it ends, told by its turns: all turns before went through; its record is the outcomes of their put requests and the reports of their delivered batches, complete and in order; and it sent exactly the messages for known peers among those it dispatched. |
| WorkerRuns.RunParts | 19-raft-replication/src/runtime.rs:338-379 | Hence the requests received, the puts accepted and the reports handled are those of the turns. |
| WorkerRuns.EveryRunAccountsForItsPuts | 19-raft-replication/src/runtime.rs:392-458 | In every run of the worker, crashed or stopped ones included, answers sent and puts waiting are the put requests that its turns brought, up to the turn that ended it; and the puts of one pair that a leading library took are served first in, first out. |
| WorkerRuns.EveryRunAnswersInOrder | 19-raft-replication/src/runtime.rs:527-548 | In every run each Ok answers its own report, of the same pair and index, in the order of the batches that the turns delivered, and waiting puts keep the order in which the turns brought them. |
| WorkerRuns.EveryRunAnswersProposersIffUnambiguous | 19-raft-replication/src/runtime.rs:338-379 | For every run of the worker with a channel of its own for each put and any attribution of its applied entries to earlier puts of the same pair: its Oks reach the proposers if and only if its history, in the order it happened, is unambiguous. |
| WorkerOutput.EveryRunSendsToItsPeers | 19-raft-replication/src/runtime.rs:493-508 | In every run the messages sent are, in order and each once, exactly those for other nodes that are known peers among the messages of its batches: of all batches when the run goes on, and otherwise up to the message, poll or event that ended it. |
| WorkerOutput.BatchIsDealt | 19-raft-replication/src/runtime.rs:474-484 | The messages of each batch of both phases stand together, in order, among those dispatched. |
| WorkerOutput.EveryRunRefusesWithReason | 19-raft-replication/src/runtime.rs:400-420 | In every run exactly the puts that came to a node that does not lead, or that its library did not take, are refused, each once, in order, with the reason: no leader known, which node leads, or the failed proposal. |
| WorkerOutput.EveryRunRepliesInOrder | 19-raft-replication/src/runtime.rs:422-456 | In every run each read, status request and campaign gets one reply, in order, to the client that asked: the value in the store at that moment, the role, leader, term and store, or whether the campaign was taken. |
| RaftSafety.NodeStepKeeps | 19-raft-replication/src/node.rs:197-247 | Every step of a node (library moves, both phases of a poll, dispatch, answers, requests, halting) keeps the invariant that ties storage, store, reports and answers to the agreed log. |
| RaftSafety.RunKeeps | 19-raft-replication/src/runtime.rs:474-484 | The invariant holds of every node in every reachable cluster state. |
| RaftRefinement.PollIsARunOfSteps | 19-raft-replication/src/node.rs:197-247 | A poll as the code performs it is a run of the small steps of the cluster machine: same storage, same store, same bundle or failure. |
| RaftRefinement.DrainIsARunOfSteps | 19-raft-replication/src/runtime.rs:474-484 | The drain loop, over any batches a library hands out and whether it ends well or fails in a poll or at a rejected message, with the library moving while messages are dispatched, is a run of those small steps to an idle or halted node, with the same storage, store, waiting puts and answers. |
| RaftRefinement.LoopIsARunOfSteps | 19-raft-replication/src/runtime.rs:338-379 | The event loop, over any turns with the library moving at each event and each put on a channel of its own, is a run of those small steps, whether it goes on, stops or crashes, with the same storage, store, waiting puts, Oks and values read. |
| RaftRefinement.TraceExtendsRun | 19-raft-replication/src/runtime.rs:338-379 | What one node does by itself from a reachable state can happen in the cluster. |
| RaftTheorems.AppendNeverFails | 19-raft-replication/src/node.rs:210-216 | In a reachable state the entries of a Ready never leave a gap in storage. |
| RaftTheorems.StoresConverge | 19-raft-replication/src/store.rs:47-57 | Every store is the replay of a prefix of the agreed log; a node that has applied more continues one that has applied less; equal counts give equal stores. |
| RaftTheorems.ReportsConverge | 19-raft-replication/src/node.rs:257-289 | Idle nodes that have applied equally much have handled the same reports, those of the agreed prefix. |
| RaftTheorems.QuietNodeHasCaughtUp | 19-raft-replication/src/runtime.rs:474-484 | When a drain ends because nothing is ready, the node has stored its log and commit index, applied everything it knows to be committed and handled all those reports. |
| RaftTheorems.AppliedEntriesAreDurable | 19-raft-replication/src/node.rs:206-243 | In every reachable state what is applied is in storage, equals the agreed log and is covered by the stored commit index. |
| RaftTheorems.MessagesFollowStorage | 19-raft-replication/src/runtime.rs:474-484 | When a message leaves, the hard state, the entries and the commit index of its bundle are already stored. |
| RaftTheorems.NothingGoesBack | 19-raft-replication/src/node.rs:206-247 | Along every run the stored commit index, the applied count, the handled reports and the answers given only grow, and the agreed log is never rewritten. |
| RaftTheorems.OkMeansAppliedForGood | 19-raft-replication/src/runtime.rs:527-548 | An Ok names an entry with the client's pair that is agreed and applied on that node, and that entry stays for the rest of the run. |
| RaftTheorems.ReadYourWrites | 19-raft-replication/src/runtime.rs:424-426 | After an Ok for a put on a key, every later Get of it on that node answers the last put in its applied prefix, which is that entry or a later one. |
| RaftTheorems.ReadsAreMonotone | 19-raft-replication/src/node.rs:296-298 | Each Get answers from one prefix of the agreed log, and later Gets never from a shorter one. |
| RaftProposers.RunKeepsProposers | 19-raft-replication/src/runtime.rs:409-420 | In every reachable state each node's table and Oks are what its history makes of them, its history is in log order, and every entry attributed to one of its puts was accepted by it before, with that pair. |
| RaftProposers.OksReachTheirProposersIffUnambiguous | 19-raft-replication/src/runtime.rs:527-548 | In every reachable cluster state and on every node: each Ok that clients saw went to the put that became the entry it names if and only if no entry was applied while a waiting put of its pair stood before its proposer's own. |
| RaftProposers.OksReachTheirProposers | 19-raft-replication/src/runtime.rs:218-222 | They all do when foreign entries never equal a waiting pair and either proposals are applied in order without loss, equal pairs allowed, or waiting pairs are distinct, losses allowed. |
| RaftWorker.LoopReaches | 19-raft-replication/src/runtime.rs:338-379 | From every reachable state of the cluster the event loop of a node leads to a reachable state whose node has the worker's storage, store, waiting puts, Oks and values read. |
| RaftWorker.WorkerReadsItsWrites | 19-raft-replication/src/runtime.rs:424-426 | Once the event loop has sent an Ok, its entry is agreed with the client's pair and the store answers a read of the key with the last put among the entries applied, which is that entry or a later one. |
| RaftWorker.WorkerReadsAreOfThePrefix | 19-raft-replication/src/runtime.rs:424-426 | The values that the event loop replies to reads are those of prefixes of the agreed log that never shrink. |
| RaftWorker.WorkerOksReachTheirProposers | 19-raft-replication/src/runtime.rs:527-548 | The Oks of the event loop reach the clients whose puts became the entries if and only if no entry was applied while a waiting put of its pair stood before its proposer's own. |
| RaftCompletion.EveryAppliedPutIsHandled | 19-raft-replication/src/node.rs:257-289 | In every reachable state a node between two polls has handled a report for every put among its applied entries. |
| RaftCompletion.AppliedPutsAreAcknowledged | 19-raft-replication/src/runtime.rs:527-548 | In every reachable state and on every node between two polls with an unambiguous history: each of its own clients whose put was applied has its Ok for that entry and waits no longer. |
| RaftCompletion.WorkerAcknowledgesWhatItApplies | 19-raft-replication/src/runtime.rs:338-379 | The same of the event loop when it goes on: all own puts among the entries in its store are acknowledged. |
| RaftWitness.ForeignEntryMisleadsACluster | 19-raft-replication/src/runtime.rs:527-548 | A run of three nodes from their start: node 0 stores and loses a put as leader of term 1, node 1 as leader of term 2 gets an equal put agreed on, and node 0's client gets the Ok for that entry. |
| HelloRaft.PolledApplies | 18-hello-raft/src/main.rs:243-292 | A successful poll applies and reports exactly the entries of both phases, and emits the messages of both. |
| HelloRaft.PolledAppliesPart | 18-hello-raft/src/main.rs:243-308 | A poll, failed or not, applies an initial part of those entries. |
| HelloRaft.FailedRoundAppliesPart | 18-hello-raft/src/main.rs:112-143 | In a failed round each store has applied an initial part of the entries there were for it. |
| HelloRaft.ViewAfterStore | 18-hello-raft/src/main.rs:294-308 | Over rounds that succeed, a node's store has applied exactly the entries it was handed, in order. |
| HelloRaft.Cluster.PollAll | 18-hello-raft/src/main.rs:116-125 | Polling all nodes in id order gives progress, messages and reports exactly as the round's work says; each node with work is left, storage and store, as its poll leaves it, and one without is untouched; a failing poll ends the round there, with the nodes after it untouched. |
| HelloRaft.Cluster.Deliver | 18-hello-raft/src/main.rs:135-139 | Every message up to the first rejected one is stepped once, in order, at its addressee, or dropped for an unknown id; without a rejected one that is all of them. |
| HelloRaft.DeliveredOnceToTheAddressee | 18-hello-raft/src/main.rs:135-139 | What a delivery adds at a node are, in order and each once, exactly the messages for it; each message counts at its addressee as often as it was sent, and nowhere else. |
| HelloRaft.Cluster.ProcessReady | 18-hello-raft/src/main.rs:112-143 | When it settles, its last round found no ready work and no message in flight; all that was emitted before was delivered or had no addressee; reports, storage and stores are those of the work handed out. When it fails, whole rounds went before, and the failed one stopped at its failing poll or, all nodes polled, at a rejected message. |
| HelloMessages.PolledMessagesAreEmitted | 18-hello-raft/src/main.rs:119-125 | Every message of every poll is among those emitted, at a place given by round, node and position. |
| HelloMessages.EmittedMessagesWerePolled | 18-hello-raft/src/main.rs:119-125 | Every emitted message is one that some poll handed out. |
| HelloMessages.EmittedMessagesAreStepped | 18-hello-raft/src/main.rs:112-143 | After whole rounds each node has stepped, besides what it had before, exactly the emitted messages for it, each once, in the order of emission. |
| HelloMessages.PolledMessageIsSteppedOnce | 18-hello-raft/src/main.rs:135-139 | A message that a poll handed out for a node of the cluster was stepped there at one position and no other. |
| HelloMessages.ReportsStandInOrder | 18-hello-raft/src/main.rs:119-125 | Reports come round by round, in a round by node id, and for a node in the order of its entries. |
| HelloRaft.ReportsOfNode | 18-hello-raft/src/main.rs:294-308 | The reports restricted to one node are those of the entries it was handed, in log order. |
| HelloTheorems.HandedIsLogOrder | 18-hello-raft/src/main.rs:112-143 | When the nodes' libraries keep their contract, what a node is handed over any number of rounds is a stretch of the agreed log. |
| HelloTheorems.SettledMeansApplied | 18-hello-raft/src/main.rs:112-143 | When the cluster settles, no library has anything ready, every node has applied all it knows to be committed, its store has moved by exactly those entries of the agreed log, and the reports naming it are theirs, in log order. |
| HelloRaft.Cluster.AllNodesAgree | 18-hello-raft/src/main.rs:163-171 | Answers a value if and only if there are nodes and all of them have that value for the key. |
| BroadcastRing.Ring.Send | 9-local-chat-mesh/src/broker.rs:150-154 | Stores the message at the end of the log, unless nobody listens, and keeps the last `capacity` messages readable in their slots. |
| BroadcastRing.Ring.Receive | 9-local-chat-mesh/src/broker.rs:341-367 | A receiver gets the next message as long as it is among the last `slots.Length`; otherwise the exact number of messages it cannot have any more, and stands at the first it can; nothing at the end; all as the unbounded log would give. |
| BroadcastRing.SlotsDiffer | 9-local-chat-mesh/src/broker.rs:111-119 | Positions less than a ring apart never share a slot. |
| BroadcastRing.NothingUnaccounted | 9-local-chat-mesh/src/broker.rs:348-367 | Messages delivered plus messages reported as skipped equal the distance the receiver moved. |
| BroadcastRing.EveryPositionIsCovered | 9-local-chat-mesh/src/broker.rs:348-367 | Each position between a receiver's start and its cursor was delivered as it is in the log or lies in a reported gap. |
| BroadcastRing.ReceiversAgreeOnOrder | 9-local-chat-mesh/src/broker.rs:156-158 | Receivers that took the same two messages took them in the same order. |
| Brokers.BrokerState.NextId | 9-local-chat-mesh/src/broker.rs:121-123 | Hands out the counter and moves it on by one. |
| Brokers.BrokerState.RegisterClient | 9-local-chat-mesh/src/broker.rs:125-143 | Refuses if and only if the nickname is in use, changing nothing; otherwise the roster is everybody who was there, each once, and only the newcomer's record is added. |
| Brokers.BrokerState.RemoveClient | 9-local-chat-mesh/src/broker.rs:145-148 | Removes that record only and returns the nickname it held, if any. |
| Brokers.BrokerState.Broadcast | 9-local-chat-mesh/src/broker.rs:150-154 | The message reaches the channel exactly when somebody is subscribed. |
| BrokerSafety.RunKeeps | 9-local-chat-mesh/src/broker.rs:166-184 | The phase-indexed invariant of all connections holds in every reachable state. |
| BrokerTheorems.JoinsBalanceLeaves | 9-local-chat-mesh/src/broker.rs:166-184 | For every nickname, joins broadcast equal leaves broadcast plus announced connections still in the map (live or aborted) plus those removed and not yet announced as gone. |
| BrokerTheorems.CallsAreCounted | 9-local-chat-mesh/src/broker.rs:150-154 | The joins and leaves counted are the occurrences of those messages. |
| BrokerTheorems.ConnectionsAreCounted | 9-local-chat-mesh/src/broker.rs:166-184 | The connections counted are the sizes of the sets of announced registered and of departed connections. |
| BrokerDelivery.BroadcastsAreWhatWasSaid | 9-local-chat-mesh/src/broker.rs:308-339 | The broadcasts of a run are, in order and each once, exactly what was said in it: chat lines that are not blank with the name of their session and their own text, joins, leaves, and the shutdown notice. |
| BrokerDelivery.NicknameIsTheTrimmedHello | 9-local-chat-mesh/src/broker.rs:201-207 | The name a connection goes by is the nickname of its own hello, trimmed. |
| BrokerTheorems.LeavesNeverOvertakeJoins | 9-local-chat-mesh/src/broker.rs:370-379 | On no prefix of the broadcasts sent do the leaves of a nickname exceed its joins. |
| BrokerTheorems.StoredJoinsAndLeaves | 9-local-chat-mesh/src/broker.rs:150-154 | In the channel, joins stored plus joins unheard equal leaves stored plus leaves unheard plus standing connections; so leaves exceed joins there if and only if more joins than leaves went unheard beyond those standing. |
| BrokerWitness.LeaveWithoutJoin | 9-local-chat-mesh/src/broker.rs:150-154 | A run, for any two nicknames, after which the channel holds a leave of the first and no join of it. |
| BrokerTheorems.NobodySeesThemselvesJoin | 9-local-chat-mesh/src/broker.rs:173-181 | No session ever takes a join of its own nickname from the channel, although nicknames are reused. |
| BrokerTheorems.SessionsAccountForTheChannel | 9-local-chat-mesh/src/broker.rs:278-306 | A session takes the channel in order from its subscription; deliveries plus reported skips equal its cursor advance; every position is delivered or in a reported gap. |
| BrokerDelivery.SessionTakesTheNextMessage | 9-local-chat-mesh/src/broker.rs:341-367 | A session at most 128 messages behind takes the next message; one further behind is told the exact number it lost and stands at the first of the last 128. |
| BrokerDelivery.GapsAreOverruns | 9-local-chat-mesh/src/broker.rs:355-364 | A reported gap ends at the 129th message from the end of the channel at that moment, so it covers only messages out of reach. |
| BrokerDelivery.PromptSessionsMissNothing | 9-local-chat-mesh/src/broker.rs:278-306 | A session that is never more than 128 behind when it takes gets every message from where it subscribed, in order. |
| BrokerTheorems.SessionsAgreeOnOrder | 9-local-chat-mesh/src/broker.rs:348-367 | Two sessions see common messages in the same order. |
| BrokerTheorems.RegistryIsSound | 9-local-chat-mesh/src/broker.rs:121-148 | Registered nicknames are pairwise distinct, trimmed and non-empty; ids are below the counter and never shared. |
| BrokerTheorems.RosterExcludesTheNewcomer | 9-local-chat-mesh/src/broker.rs:226-251 | A successful registration returns exactly the nicknames registered just before it, never the newcomer's, and overwrites no record. |
| BrokerTheorems.CleanEndFindsItsRecord | 9-local-chat-mesh/src/broker.rs:370-379 | A session that ends cleanly always finds its own record, so its leave is broadcast and its nickname is free again. |
| BrokerTheorems.EndedConnectionKeepsItsRecordIffAborted | 9-local-chat-mesh/src/broker.rs:166-184 | A connection that is over has its record in the map if and only if an error ended it after it had registered. |
| BrokerEndings.AbortedIffError | 9-local-chat-mesh/src/broker.rs:166-184 | A connection is aborted exactly when a write of its welcome, a write answering a second hello or a read of its input failed. |
| BrokerEndings.RecordRemainsIffError | 9-local-chat-mesh/src/broker.rs:166-184 | A connection that is over leaves its record behind if and only if one of these errors occurred on it. |
| BrokerEndings.SessionsEndForAReason | 9-local-chat-mesh/src/broker.rs:278-306 | A session ends, cleaned up, exactly when its input ends or a broadcast cannot be delivered, and without clean-up exactly when its input or an answer fails. |
| BrokerEndings.HandshakeOutcome | 9-local-chat-mesh/src/broker.rs:186-251 | A hello is refused exactly when its nickname is blank and a registration exactly when the trimmed nickname is taken; otherwise the map gains just this record. |
| BrokerTheorems.AbortedNicknameStaysTaken | 9-local-chat-mesh/src/broker.rs:166-184 | After an error that skips the cleanup the nickname is taken in every later state. |
| BrokerWitness.FreeNicknameCanBeLost | 9-local-chat-mesh/src/broker.rs:226-251 | From every reachable state that accepts connections, any free nickname can come to be taken with no living connection of that name. |
| BrokerWitness.FreeNicknameRegisters | 9-local-chat-mesh/src/broker.rs:125-143 | From every such state any free nickname can also register. |
| BrokerRefinement.Enter | 9-local-chat-mesh/src/broker.rs:125-143 | On a shared state that represents a machine state, registering is the machine's step, accepted or refused, with the same roster. |
| BrokerRefinement.Tell | 9-local-chat-mesh/src/broker.rs:150-154 | Handing a message to the ring is the machine's broadcast, stored exactly when some connection is in session. |
| BrokerRefinement.TellJoin | 9-local-chat-mesh/src/broker.rs:173-181 | Announcing a join is the machine's step. |
| BrokerRefinement.OpenSession | 9-local-chat-mesh/src/broker.rs:156-158 | Subscribing is the machine's step and starts at the end of the channel. |
| BrokerRefinement.TellChat | 9-local-chat-mesh/src/broker.rs:308-339 | A chat line is the machine's step: nothing when blank, one broadcast otherwise. |
| BrokerRefinement.TakeFromChannel | 9-local-chat-mesh/src/broker.rs:341-368 | Taking from the ring, and ending the session when the write fails, is the machine's step. |
| BrokerRefinement.CloseSession | 9-local-chat-mesh/src/broker.rs:278-306 | The end of a client's input is the machine's step and gives up the receiver. |
| BrokerRefinement.AbortSession | 9-local-chat-mesh/src/broker.rs:278-306 | A failed read is the machine's step: the receiver goes, the record stays. |
| BrokerRefinement.RemoveRecord | 9-local-chat-mesh/src/broker.rs:370-379 | Removing the record is the machine's step, and its owner is departed exactly when it was found. |
| BrokerRefinement.TellLeave | 9-local-chat-mesh/src/broker.rs:370-379 | Announcing a leave is the machine's step. |
| BrokerRefinement.TakeNumber | 9-local-chat-mesh/src/broker.rs:121-123 | Taking a client id is the machine's step. |
| Executors.Executor.SpawnTask | 16-async-queue/src/main.rs:408-434 | The task's runnable goes to the queue of its priority and starts that pool; everything else stays. |
| Executors.Executor.WorkerTurn | 16-async-queue/src/main.rs:457-525 | One pass of a worker's loop, for both kinds of worker, including stealing, panics and self-waking futures. |
| ExecutorOrder.HighRunnablesAreTakenFirst | 16-async-queue/src/main.rs:467-471 | A high worker that looks while high runnables wait takes the first of them. |
| ExecutorOrder.HighWorkersStealOnlyWhenIdle | 16-async-queue/src/main.rs:467-481 | In every run a high worker takes a low task only when the high queue was empty at its last look, after which it did nothing else. |
| ExecutorOrder.LowWorkersServeLowTasks | 16-async-queue/src/main.rs:503-521 | In every run low workers hold low tasks only. |
| ExecutorOrder.QueuesAreFifo | 16-async-queue/src/main.rs:408-434 | Over every run the runnables ever put in a queue, spawned or woken, are those ever taken from it, in the order taken, followed by those that wait. |
| ExecutorTheorems.RunKeeps | 16-async-queue/src/main.rs:457-531 | The conservation invariant holds in every reachable state, for any numbers of workers and tasks. |
| ExecutorTheorems.NoRunnableIsLostOrMoved | 16-async-queue/src/main.rs:408-434 | An unfinished task has exactly one runnable, queued or held, a finished or panicked one has none, and a queued runnable is in the queue of its task's own priority. |
| ExecutorTheorems.CountersCountToThree | 16-async-queue/src/main.rs:546-563 | A counter that ended was polled exactly three times and yielded three; one that has not ended was polled fewer times. |
| ExecutorOrder.TasksEndAsTheirFuturesDo | 16-async-queue/src/main.rs:541-563 | Every task ends as its future does: async blocks and panics after one poll, counters at three. |
| ExecutorTheorems.TurnsUseUpTheMeasure | 16-async-queue/src/main.rs:457-525 | Taking, polling and handing back strictly lower a measure of the tasks; idle turns change no task. |
| ExecutorTheorems.WorkIsBounded | 16-async-queue/src/main.rs:457-525 | Between spawns no run, however long, has more productive turns than the measure at its start. |
| ExecutorTheorems.AllEndedWhenUsedUp | 16-async-queue/src/main.rs:36-51 | The measure is zero if and only if every task has ended, so joined tasks do end. |
| ExecutorTheorems.ProgressUnlessStarved | 16-async-queue/src/main.rs:467-521 | While a task is unfinished, some worker is productive now or after one more look at the queues, if and only if the executor is not starved of workers that serve its queues. |
| ExecutorTheorems.NoDeadlockWithHighWorkers | 16-async-queue/src/main.rs:374-383 | With at least one high worker and a first high task, an unfinished task always has a worker about to make progress, even without low workers. |
| ExecutorTheorems.StarvationLasts | 16-async-queue/src/main.rs:467-521 | A starved executor stays exactly as it is, however long its workers run, until another task is spawned. |
| ExecutorTheorems.TasksStarve | 16-async-queue/src/main.rs:492-525 | Without those conditions a task starves: low workers never take a high task, and high workers do not run before a high task was spawned. |
| SharedCounter.CounterFuture.Poll | 14-sharing-data-between-futures/src/main.rs:62-99 | A poll that finds the lock taken changes nothing; one that gets it makes one signed update, counts it, and is ready at three. |
| SharedCounter.Count | 14-sharing-data-between-futures/src/main.rs:167-195 | The async loop run alone moves the counter by its signed argument and returns it. |
| SharedCounter.UninterruptedPoll | 14-sharing-data-between-futures/src/main.rs:62-99 | The lock, update, release and count steps without interference have the effect of one whole poll. |
| SharedCounter.PollingRunIsAsyncRun | 14-sharing-data-between-futures/src/main.rs:62-99 | Every interleaving of polling futures, failed attempts left out, is an interleaving of the async version with three rounds each. |
| SharedCounter.AsyncRunIsPollingRun | 14-sharing-data-between-futures/src/main.rs:167-195 | Every interleaving of the async version with three rounds each is one of polling futures. |
| SharedCounter.AsyncCounterIsExact | 14-sharing-data-between-futures/src/main.rs:167-195 | In every interleaving the counter is its start plus the signed updates made, and at the end it has moved by the sum of the arguments, which are also the values returned. |
| SharedCounter.CounterGoesUpAndDown | 14-sharing-data-between-futures/src/main.rs:34-42 | In every interleaving the counter has gone up once for each increment made and down once for each decrement. |
| SharedCounter.PollingCounterIsExact | 14-sharing-data-between-futures/src/main.rs:62-99 | The same law for polling futures, counting an update whose count is still to come; the lock excludes; every future that ends yields three. |
| SharedCounter.PollingCounterIsBounded | 14-sharing-data-between-futures/src/main.rs:34-42 | The counter never moves more than three for each future from its start, so an i32 with that room does not overflow. |
| AsyncLogger.AsyncWriteFuture.Poll | 15-async-logger/src/main.rs:60-86 | Nothing is written without the lock; with it the whole line is appended, or its start when the write fails, and the future is ready with true either way. |
| AsyncLogger.UninterruptedWrite | 15-async-logger/src/main.rs:60-86 | The lock, write and release steps without interference have the effect of one whole poll and touch no other file. |
| AsyncLogger.RunKeeps | 15-async-logger/src/main.rs:60-94 | In every interleaving each file holds, in the order in which the lock was got, what each of its futures has written so far. |
| AsyncLogger.FilesHoldWholeLines | 15-async-logger/src/main.rs:60-94 | While nobody writes to a file and no write failed, it holds one whole line for each future of that file that is done, each exactly once. |
| AsyncLogger.WholeLinesIffNoWriteFailed | 15-async-logger/src/main.rs:73-86 | While nobody writes to a file, it holds one whole line for each future that got its lock, in that order, if and only if no write to it failed. |
| AsyncLogger.FailedWriteLeavesPartOfALine | 15-async-logger/src/main.rs:73-86 | A run in which a write fails after one character and the file keeps that part of the line. |
| AsyncLogger.FilesSplitIntoEntries | 15-async-logger/src/main.rs:119-140 | At the end, splitting a file at newlines gives exactly the entries of its own futures, each once, and nothing of another file. |
| Framing.Reader.ReadLine | 9-local-chat-mesh/src/message.rs:26-48 | The line read, or the failure of the transport, depends only on the bytes and on whether the stream breaks, not on how it was chunked, and exactly the line's bytes are consumed. |
| Framing.Reader.PollLine | 9-local-chat-mesh/src/message.rs:26-48 | A read that may be dropped while it waits: it gives the line as if never interrupted, or is dropped and has lost exactly the bytes that had arrived, among them no line end. |
| Framing.Reader.ReadMessage | 9-local-chat-mesh/src/message.rs:26-48 | The next message, the end of the stream, a decoding failure or a broken transport, and the rest of the stream, are functions of the bytes and the ending alone. |
| Framing.Writer.WriteMessage | 9-local-chat-mesh/src/message.rs:50-61 | Writes the encoding and a newline, or the start of them when the transport fails, and succeeds exactly when all was taken and flushed. |
| Framing.GapsAreSkipped | 9-local-chat-mesh/src/message.rs:26-48 | Blank lines of CR and LF in front of a message change nothing. |
| Framing.WrittenIsReadBack | 9-local-chat-mesh/src/message.rs:26-61 | Any list of messages, with any blank lines before, between and after, is read back exactly, and then the end of the stream or its break. |
| Framing.UnendedLine | 9-local-chat-mesh/src/message.rs:33-46 | What a last line without a newline reads as: it is decoded without its CRs, or skipped when there is nothing else, if the stream ends, and lost if the stream breaks. |
| Framing.LastMessageNeedsNoNewline | 9-local-chat-mesh/src/message.rs:26-48 | After any messages, a last one without newline is read when the stream ends cleanly; when it breaks, only that one is lost. |
| Framing.Transfer | 9-local-chat-mesh/src/message.rs:26-61 | Messages written one by one, cut into pieces in any way and read one by one until the end are the same messages in order. |
| Framing.AfterACancelledRead | 9-local-chat-mesh/src/message.rs:26-48 | What such a stream reads as: the message is replaced by what the rest of its encoding decodes to, or reading fails there; and it is missing when its whole encoding was taken. |
| Framing.CancelledReadLosesTheMessage | 9-local-chat-mesh/src/message.rs:26-48 | After a read was dropped with any part of a message's line taken, up to all of it but its line end, the stream reads as if untouched if and only if nothing had been taken. |
| PeerFrames.FrameRoundTrip | 19-raft-replication/src/runtime.rs:626-671 | A payload survives the length-prefixed frame if and only if its length is below 2^32, and arrives cut to the low 32 bits of its length otherwise. |
| PeerFrames.FrameLayout | 19-raft-replication/src/runtime.rs:652-671 | Four bytes of length, most significant first, then the payload. |
| PeerFrames.CutFramesAreRefused | 19-raft-replication/src/runtime.rs:626-650 | A frame cut short anywhere is refused. |
| PeerFrames.LaterBytesAreIgnored | 19-raft-replication/src/runtime.rs:626-650 | Bytes after a whole frame are not looked at. |
| ConsoleParser.SplitOfJoin | 19-raft-replication/src/protocol.rs:54-63 | Words joined with any whitespace split back into those words. |
| ConsoleParser.EveryTextIsAJoin | 19-raft-replication/src/protocol.rs:54-63 | Every line is a join of the words it splits into, none of them empty or containing whitespace. |
| ConsoleParser.TrimKeepsWords | 19-raft-replication/src/protocol.rs:54-63 | Trimming a line changes none of its words. |
| ConsoleParser.ParsesWhatIsSpelled | 19-raft-replication/src/protocol.rs:54-109 | A line parses to a command if and only if its words are a spelling of it, in full Unicode upper case, and, for a put, puts are allowed. |
| ConsoleParser.ErrorsSayWhatIsWrong | 19-raft-replication/src/protocol.rs:54-109 | For every line and each error: it is given if and only if the line has no words, its first word names no command, a get has not one or a put not two arguments, or a put is well formed and not allowed. |
| ConsoleParser.AsciiUpper | 19-raft-replication/src/protocol.rs:67-68 | ASCII names are upper-cased letter by letter. |
| ConsoleParser.PrintedIsParsed | 19-raft-replication/src/protocol.rs:54-109 | A command printed by name or alias, in any spelling with that upper case and with any whitespace, parses to itself. |
| ConsoleParser.ParsedArgumentsAreWords | 19-raft-replication/src/protocol.rs:54-109 | Parsed keys and values are non-empty and free of whitespace, and no line gives a put where puts are not allowed. |
| Text.TrimSplits | 9-local-chat-mesh/src/broker.rs:186-224 | Trimming takes whitespace off both ends and nothing else. |
| Text.BlankIffTrimmedAway | 9-local-chat-mesh/src/broker.rs:209-224 | A nickname or chat text is refused exactly when it is all whitespace. |

## Left out

- Raft itself (elections, votes, log matching, terms): it lives in `raft-rs`, which is not part of this model; its contract is the abstract machine of `RaftCluster`.
- Snapshots in `poll_ready`: nothing in the repository compacts a log, so snapshots are always empty.
- `MemStorage` internals, which belong to `raft-rs`: an append overwrites a suffix, and a gap is a failed append whatever form the failure takes.
- RaftTheorems.AppendNeverFails: rests on the library handing out every entry it does not know to be stored, which is part of the abstract machine.
- Workers.Worker.ProcessReady: takes the batches that the library has ready as a finite list; that the library ever runs out of work is not claimed, and what holds when it does is `QuietNodeHasCaughtUp`.
- HelloRaft.Cluster.ProcessReady: takes a finite list of rounds and answers `StillBusy` when they run out, so it does not say that the cluster ever settles; node ids are 0 to n - 1. What it does not say of the libraries is in `HelloTheorems`.
- HelloRaft.Cluster.Deliver: says what was stepped before a rejected message, not what the library made of it.
- Framing.CancelledReadLosesTheMessage: assumes that no proper suffix of an encoding decodes to the same message, which holds of JSON objects; `AfterACancelledRead` does not.
- Framing.Writer.WriteMessage: encoding itself always succeeds, as it does for messages made of strings.
- Framing.Reader.PollLine: a read of a message that is dropped is a line read that is dropped, after blank lines that `GapsAreSkipped` covers.
- SharedCounter.PollingCounterIsBounded: the counter is an unbounded integer and the lemma gives the room an i32 needs.
- Integer widths elsewhere (u64 ids and indices, u32 counts): unbounded, as none is reached by any run of realistic length.
- Sockets, listeners, connection threads, TLS, the HTTP connector and `ServerFuture`: I/O plumbing.
- The terminal UI, log channels, role-change logging, tracing and argument parsing.
- Real time: ticks, sleeps, timeouts and `AsyncSleep`; idle polls are steps that change nothing.
- Fairness of the thread scheduler: the executor theorems bound the work and show that a productive worker exists, not that it is scheduled.
- Results of `join!` and `try_join!`, and cancelling a task by dropping its handle: tasks are joined, as the repository does.
- Bincode and serde: an entry's data is empty, a decodable command or malformed; a JSON codec is a pair of functions with the properties of section 7 of RFC 8259.
- Contents of a log file from before it was opened: `content` is what was appended since.
- Poisoned mutexes and the broker's logging of failed tasks.
- The broadcast channel's own internals: a ring of 128 slots whose `send` stores nothing when no receiver exists.
- `handle_connection` as one method: its phases are steps of `BrokerRuns`, and what each does to the shared state is a method of `BrokerRefinement`; writing to and reading from the client in between only succeeds or fails.
- The tail loop of `6-async-tail-f`: one reader moving one offset through an append-only file, with no concurrency and no second party.
- The unused `QUEUE` executor and the other demos: one-shot or I/O programs without a law over runs.
