/** The cluster as a state machine. The Raft library is an abstract machine with the
    guarantees of sections 5.3 and 5.4.3 of the extended Raft paper ("In Search of an
    Understandable Consensus Algorithm"): one agreed log that only grows, of which
    every node's committed entries are a prefix. Around it run the poll of node.rs
    and the loop of runtime.rs, one small step at a time and interleaved in any way. */
module RaftCluster {
  import opened Basics
  import opened RaftLog
  import opened RaftNodes
  import opened PendingPuts
  import opened Workers

  // ---------- The library ----------

  /** A node's library: its log with the length known to be in storage, the committed
      length, the length handed out for application, and the last commit index that
      it told the node to store. */
  datatype Raw = Raw(log: seq<Entry>, persisted: nat, committed: nat, handed: nat, announced: nat)

  ghost predicate CommittedIsAgreed(agreed: seq<Entry>, raw: Raw) {
    && WellIndexed(raw.log)
    && raw.committed <= |raw.log| && raw.committed <= |agreed|
    && raw.log[..raw.committed] == agreed[..raw.committed]
  }

  /** A tick, a message, a proposal or a campaign: the uncommitted part of the log may
      be extended, dropped or replaced, and more of it may become committed. */
  ghost predicate LibraryMoves(agreed: seq<Entry>, raw: Raw, raw': Raw) {
    && CommittedIsAgreed(agreed, raw')
    && raw'.handed == raw.handed && raw'.announced == raw.announced
    && raw.committed <= raw'.committed
    && Min(raw.persisted, raw.committed) <= raw'.persisted <= raw.persisted
    && raw'.persisted <= |raw.log| && raw'.persisted <= |raw'.log|
    && raw'.log[..raw'.persisted] == raw.log[..raw'.persisted]
  }

  ghost predicate ReadyContract(raw: Raw, ready: Ready, raw': Raw) {
    var handed := raw.handed + |ready.committed|;
    && raw' == raw.(handed := handed, announced := raw.committed)
    && (ready.hs.Some? ==> ready.hs.value.commit == raw.committed)
    && (ready.hs.None? ==> raw.announced == raw.committed)
    && handed <= raw.committed && handed <= raw.persisted && handed <= |raw.log|
    && ready.committed == raw.log[raw.handed..handed]
    && |raw.log| - |ready.entries| <= raw.persisted
    && |ready.entries| <= |raw.log|
    && ready.entries == raw.log[|raw.log| - |ready.entries|..]
  }

  ghost predicate AdvanceContract(agreed: seq<Entry>, raw: Raw, light: LightReady, raw': Raw) {
    && CommittedIsAgreed(agreed, raw')
    && raw'.log == raw.log && raw'.persisted == |raw.log|
    && raw.committed <= raw'.committed
    && raw'.announced == raw'.committed
    && light.commit == (if raw'.committed > raw.announced then Some(raw'.committed) else None)
    && raw'.handed == raw.handed + |light.committed|
    && raw'.handed <= raw'.committed
    && light.committed == raw.log[raw.handed..raw'.handed]
  }

  /** Nothing to store, to hand out or to announce, as when the library has no Ready. */
  predicate NothingReady(raw: Raw) {
    raw.persisted == |raw.log| && raw.handed == raw.committed && raw.announced == raw.committed
  }

  // ---------- A node ----------

  datatype Phase =
    | Idle
    | Taken(ready: Ready)
    | HardStateStored(ready: Ready)
    | EntriesStored(ready: Ready)
    | ReadyApplied(ready: Ready, reports: seq<ApplyReport>)
    | Acknowledged(ready: Ready, light: LightReady, reports: seq<ApplyReport>)
    | CommitStored(ready: Ready, light: LightReady, reports: seq<ApplyReport>)
    | Delivering(ready: Ready, light: LightReady, messages: seq<Message>, reports: seq<ApplyReport>)
    | Halted

  /** What clients of the node saw, in order. `at` is how many entries were applied. */
  datatype Seen =
    | PutOk(put: PendingPut, index: nat)
    | GetAnswer(key: string, value: Option<string>, at: nat)

  /** `applied` counts the entries that were applied or skipped; `notified` are the
      reports that went to the table of waiting puts, and `history` all that was done
      to the table. */
  datatype Node = Node(raw: Raw, view: NodeView, phase: Phase, applied: nat,
                       book: Book, notified: seq<ApplyReport>, history: seq<Op>, seen: seq<Seen>)

  datatype Step =
    | LibraryStep
    | Take(ready: Ready)
    | StoreHardState
    | StoreEntries
    | ApplyReady
    | Acknowledge(light: LightReady)
    | StoreCommit
    | ApplyLight
    | Dispatch
    | NotifyPut
    | FinishBundle
    | ReceivePut(req: Request, lib: Library)
    | ReceiveGet(key: string)
    | Halt

  /** Applying a batch: up to the first entry that does not decode, which halts the node. */
  function Apply(n: Node, es: seq<Entry>, next: Phase): Node {
    var good := DecodablePrefix(es);
    n.(view := EntriesApplied(n.view, es),
       applied := n.applied + |good|,
       phase := if good == es then next else Halted)
  }

  function Record(n: Node, r: ApplyReport): seq<Seen> {
    var i := FirstMatch(n.book.pending, r.key, r.value);
    if i < |n.book.pending| then n.seen + [PutOk(n.book.pending[i], r.index)] else n.seen
  }

  ghost predicate NodeNext(agreed: seq<Entry>, id: nat, n: Node, step: Step, n': Node) {
    match step
    case LibraryStep =>
      && (n.phase.Idle? || n.phase.Delivering?)
      && LibraryMoves(agreed, n.raw, n'.raw) && n' == n.(raw := n'.raw)
    case Take(ready) =>
      && n.phase.Idle?
      && ReadyContract(n.raw, ready, n'.raw)
      && n' == n.(raw := n'.raw, phase := Taken(ready))
    case StoreHardState =>
      && n.phase.Taken?
      && n' == n.(view := HardStateWritten(n.view, n.phase.ready.hs), phase := HardStateStored(n.phase.ready))
    case StoreEntries =>
      && n.phase.HardStateStored?
      && n' == (if Appendable(n.view.stored, n.phase.ready.entries)
                then n.(view := EntriesWritten(n.view, n.phase.ready.entries), phase := EntriesStored(n.phase.ready))
                else n.(phase := Halted))
    case ApplyReady =>
      && n.phase.EntriesStored?
      && var es := n.phase.ready.committed;
      && n' == Apply(n, es, ReadyApplied(n.phase.ready, Reports(id, es)))
    case Acknowledge(light) =>
      && n.phase.ReadyApplied?
      && AdvanceContract(agreed, n.raw, light, n'.raw)
      && n' == n.(raw := n'.raw, phase := Acknowledged(n.phase.ready, light, n.phase.reports))
    case StoreCommit =>
      && n.phase.Acknowledged?
      && n' == n.(view := CommitWritten(n.view, n.phase.light.commit),
                  phase := CommitStored(n.phase.ready, n.phase.light, n.phase.reports))
    case ApplyLight =>
      && n.phase.CommitStored?
      && var ready, light := n.phase.ready, n.phase.light;
      && n' == Apply(n, light.committed,
                     Delivering(ready, light, ready.messages + ready.persistedMessages + light.messages,
                                n.phase.reports + Reports(id, light.committed)))
    case Dispatch =>
      && n.phase.Delivering? && n.phase.messages != []
      && n' == n.(phase := n.phase.(messages := n.phase.messages[1..]))
    case NotifyPut =>
      && n.phase.Delivering? && n.phase.messages == [] && n.phase.reports != []
      && var r := n.phase.reports[0];
      && n' == n.(book := Notify(n.book, r), notified := n.notified + [r], history := n.history + [NotifyOp(r)],
                  seen := Record(n, r), phase := n.phase.(reports := n.phase.reports[1..]))
    case FinishBundle =>
      && n.phase.Delivering? && n.phase.messages == [] && n.phase.reports == []
      && n' == n.(phase := Idle)
    case ReceivePut(req, lib) =>
      && n.phase.Idle? && req.PutRequest? && req.client !in Requested(n.history)
      && var w := PutHandled(AsWorker(n), req, lib);
      && n' == n.(book := w.book, history := w.history)
    case ReceiveGet(key) =>
      && n.phase.Idle?
      && n' == n.(seen := n.seen + [GetAnswer(key, Lookup(n.view.store, key), n.applied)])
    case Halt =>
      && (n.phase.Idle? || n.phase.Delivering?)
      && n' == n.(phase := Halted)
  }

  function AsWorker(n: Node): WorkerState {
    WorkerState(n.view, n.book, [], [], n.history)
  }

  const FRESH_NODE :=
    Node(Raw([], 0, 0, 0, 0), NodeView(HardState(0, 0, 0), [], map[]), Idle, 0, EMPTY_BOOK, [], [], [])

  // ---------- The cluster and its runs ----------

  /** A put request: the node that took it and the channel its answer goes to. */
  datatype Proposer = Proposer(node: nat, client: nat)

  /** `proposers` tells, entry by entry of the agreed log, which put request the entry
      came from, if any. No node knows it. */
  datatype Cluster = Cluster(agreed: seq<Entry>, proposers: seq<Option<Proposer>>, nodes: seq<Node>)

  datatype Action = Agree(es: seq<Entry>, from: seq<Option<Proposer>>) | NodeStep(id: nat, step: Step)

  ghost predicate Init(c: Cluster) {
    c.agreed == [] && c.proposers == [] && forall i :: 0 <= i < |c.nodes| ==> c.nodes[i] == FRESH_NODE
  }

  /** Entries that come from puts are proposals that some node accepted, with their pair. */
  ghost predicate WasProposed(nodes: seq<Node>, e: Entry, p: Proposer) {
    && p.node < |nodes|
    && exists k :: 0 <= k < |nodes[p.node].history| && ProposedAs(nodes[p.node].history[k], e, p.client)
  }

  ghost predicate ProposedAs(op: Op, e: Entry, client: nat) {
    op.AcceptOp? && op.put.client == client && IsPut(e, op.put.key, op.put.value)
  }

  /** A proposal becomes at most one entry. */
  ghost predicate ProposedOnce(proposers: seq<Option<Proposer>>) {
    forall x, y :: 0 <= x < y < |proposers| && proposers[x].Some? ==> proposers[x] != proposers[y]
  }

  /** An entry that carries a command came from a put, as nothing else proposes commands. */
  ghost predicate AllProposed(nodes: seq<Node>, es: seq<Entry>, from: seq<Option<Proposer>>) {
    && |from| == |es|
    && (forall k :: 0 <= k < |es| && Carries(es[k]) && es[k].data.Encoded? ==> from[k].Some?)
    && (forall k :: 0 <= k < |es| && from[k].Some? ==> WasProposed(nodes, es[k], from[k].value))
  }

  ghost predicate Next(c: Cluster, a: Action, c': Cluster) {
    match a
    case Agree(es, from) =>
      && WellIndexed(c'.agreed) && ProposedOnce(c'.proposers) && AllProposed(c.nodes, es, from)
      && c' == c.(agreed := c.agreed + es, proposers := c.proposers + from)
    case NodeStep(id, step) =>
      && id < |c.nodes| == |c'.nodes|
      && NodeNext(c.agreed, id, c.nodes[id], step, c'.nodes[id])
      && c' == c.(nodes := c.nodes[id := c'.nodes[id]])
  }

  ghost predicate IsRun(run: seq<Cluster>, actions: seq<Action>) {
    && |run| == |actions| + 1
    && Init(run[0])
    && forall i :: 0 <= i < |actions| ==> StepAt(run, actions, i)
  }

  ghost predicate StepAt(run: seq<Cluster>, actions: seq<Action>, i: nat)
    requires |run| == |actions| + 1 && i < |actions|
  {
    Next(run[i], actions[i], run[i + 1])
  }

  // ---------- The invariant of a node ----------

  ghost predicate RawOk(agreed: seq<Entry>, raw: Raw) {
    && WellIndexed(agreed)
    && CommittedIsAgreed(agreed, raw)
    && raw.persisted <= |raw.log|
    && raw.handed <= raw.committed && raw.handed <= raw.persisted
  }

  /** What the library believes to be in storage is there. */
  ghost predicate StorageOk(n: Node) {
    && n.raw.persisted <= |n.view.stored| && n.raw.persisted <= |n.raw.log|
    && n.view.stored[..n.raw.persisted] == n.raw.log[..n.raw.persisted]
  }

  /** The committed entries that were handed out and not applied yet. */
  function InHand(p: Phase): seq<Entry> {
    match p
    case Taken(ready) => ready.committed
    case HardStateStored(ready) => ready.committed
    case EntriesStored(ready) => ready.committed
    case Acknowledged(_, light, _) => light.committed
    case CommitStored(_, light, _) => light.committed
    case _ => []
  }

  /** The reports that were produced and not handled yet. */
  function Unhandled(p: Phase): seq<ApplyReport> {
    match p
    case ReadyApplied(_, reports) => reports
    case Acknowledged(_, _, reports) => reports
    case CommitStored(_, _, reports) => reports
    case Delivering(_, _, _, reports) => reports
    case _ => []
  }

  ghost predicate AppliedOk(agreed: seq<Entry>, n: Node) {
    && n.applied <= n.raw.handed <= |agreed|
    && n.view.store == Replay(agreed[..n.applied])
    && (!n.phase.Halted? ==> agreed[n.applied..n.raw.handed] == InHand(n.phase))
  }

  /** The stored commit index covers what is applied, and outside the two points where
      a new one is in hand it is the one the library announced. */
  ghost predicate CommitOk(n: Node) {
    && n.applied <= n.view.hard.commit <= n.raw.announced
    && n.raw.handed <= n.raw.announced <= n.raw.committed
    && (n.phase.Taken? ==>
          if n.phase.ready.hs.Some? then n.phase.ready.hs.value.commit == n.raw.announced
          else n.view.hard.commit == n.raw.announced)
    && (n.phase.Acknowledged? ==>
          if n.phase.light.commit.Some? then n.phase.light.commit.value == n.raw.announced
          else n.view.hard.commit == n.raw.announced)
    && (!n.phase.Taken? && !n.phase.Acknowledged? && !n.phase.Halted? ==> n.view.hard.commit == n.raw.announced)
  }

  /** The suffix of the log that a Ready carries is what storage still lacks. */
  ghost predicate EntriesOk(n: Node) {
    && (n.phase.Taken? || n.phase.HardStateStored? ==>
          && |n.raw.log| - |n.phase.ready.entries| <= n.raw.persisted
          && |n.phase.ready.entries| <= |n.raw.log|
          && n.phase.ready.entries == n.raw.log[|n.raw.log| - |n.phase.ready.entries|..])
    && (n.phase.EntriesStored? || n.phase.ReadyApplied? ==>
          |n.raw.log| <= |n.view.stored| && n.view.stored[..|n.raw.log|] == n.raw.log)
  }

  ghost predicate InStorage(stored: seq<Entry>, es: seq<Entry>) {
    es != [] ==>
      && 1 <= es[0].index && es[0].index - 1 + |es| <= |stored|
      && stored[es[0].index - 1..es[0].index - 1 + |es|] == es
  }

  ghost predicate HardStateCovers(hard: HardState, hs: Option<HardState>) {
    hs.Some? ==> hard.term == hs.value.term && hard.vote == hs.value.vote && hs.value.commit <= hard.commit
  }

  /** From the moment a Ready is stored until its bundle is delivered it stays stored. */
  ghost predicate BatchStored(n: Node) {
    && (n.phase.HardStateStored? ==> HardStateCovers(n.view.hard, n.phase.ready.hs))
    && (n.phase.EntriesStored? || n.phase.ReadyApplied? || n.phase.Acknowledged? || n.phase.CommitStored?
        || n.phase.Delivering? ==>
          HardStateCovers(n.view.hard, n.phase.ready.hs) && InStorage(n.view.stored, n.phase.ready.entries))
    && (n.phase.CommitStored? || n.phase.Delivering? ==>
          n.phase.light.commit.Some? ==> n.phase.light.commit.value <= n.view.hard.commit)
  }

  ghost predicate ReportsOk(agreed: seq<Entry>, id: nat, n: Node)
    requires n.applied <= |agreed|
  {
    var all := Reports(id, agreed[..n.applied]);
    && n.notified <= all
    && (!n.phase.Halted? ==> n.notified + Unhandled(n.phase) == all)
  }

  /** Everything clients saw agrees with the log, and never moves backwards. */
  ghost predicate SeenOk(agreed: seq<Entry>, n: Node)
    requires n.applied <= |agreed|
  {
    && (forall i :: 0 <= i < |n.seen| ==> FactOk(agreed, n, n.seen[i]))
    && (forall i, j :: 0 <= i < j < |n.seen| ==> Ordered(n.seen[i], n.seen[j]))
  }

  ghost predicate FactOk(agreed: seq<Entry>, n: Node, s: Seen)
    requires n.applied <= |agreed|
  {
    match s
    case PutOk(put, x) =>
      && 1 <= x <= n.applied && IsPut(agreed[x - 1], put.key, put.value)
      && n.notified != [] && x <= n.notified[|n.notified| - 1].index
    case GetAnswer(key, value, at) => at <= n.applied && value == Lookup(Replay(agreed[..at]), key)
  }

  ghost predicate Ordered(a: Seen, b: Seen) {
    match (a, b)
    case (PutOk(_, x), PutOk(_, y)) => x < y
    case (PutOk(_, x), GetAnswer(_, _, at)) => x <= at
    case (GetAnswer(_, _, at), GetAnswer(_, _, at')) => at <= at'
    case _ => true
  }

  ghost predicate NodeInv(agreed: seq<Entry>, id: nat, n: Node) {
    && RawOk(agreed, n.raw) && StorageOk(n) && AppliedOk(agreed, n) && CommitOk(n)
    && EntriesOk(n) && BatchStored(n) && ReportsOk(agreed, id, n) && SeenOk(agreed, n)
  }

  ghost predicate Inv(c: Cluster) {
    WellIndexed(c.agreed) && forall i :: 0 <= i < |c.nodes| ==> NodeInv(c.agreed, i, c.nodes[i])
  }
}
