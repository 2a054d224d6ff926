/** A run of the cluster in which an Ok goes astray. Node 0 leads term 1 and accepts a put,
    which it stores and loses: nodes 1 and 2 make node 1 the leader of term 2, which accepts
    an equal put from a client of its own. That entry is agreed on and reaches node 0, which
    acknowledges the lost put. */
module RaftWitness {
  import opened Basics
  import opened RaftLog
  import opened RaftNodes
  import opened PendingPuts
  import opened Workers
  import opened RaftCluster
  import opened RaftRefinement
  import opened RaftProposers

  /** What the library says while a node leads a term; leaders are counted from 1 there. */
  function Leading(id: nat, term: nat): Library {
    Library(Leader, id + 1, term, true, true)
  }

  /** The log of a term whose leader got one put: its empty entry, and the put. */
  function TermLog(term: nat, key: string, value: string): seq<Entry> {
    [Entry(1, term, EntryNormal, Empty), Entry(2, term, EntryNormal, Encoded(Put(key, value)))]
  }

  lemma TermLogReports(id: nat, term: nat, key: string, value: string)
    ensures var log := TermLog(term, key, value);
            DecodablePrefix(log) == log && Reports(id, log) == [ApplyReport(id, key, value, 2, term)]
  {
    var log := TermLog(term, key, value);
    var empty, put := log[0], log[1];
    assert log[1..] == [put] && [put][1..] == [];
    assert DecodablePrefix([put]) == [put];
    assert log == [empty] + [put];
    assert log[..1] == [empty] && [empty][..0] == [];
    assert Reports(id, [empty]) == [];
  }

  // ---------- What the libraries hand out ----------

  /** The log is to be stored; nothing is committed. */
  function StoreBatch(term: nat, log: seq<Entry>): Poll {
    Poll(Ready(Some(HardState(term, 0, 0)), log, [], [], []), LightReady(None, [], []), {})
  }

  function StoreMoves(log: seq<Entry>): Moves {
    Moves(Raw(log, 0, 0, 0, 0), Raw(log, |log|, 0, 0, 0), Raw(log, |log|, 0, 0, 0))
  }

  /** The log is to be stored, and then to be applied. */
  function ApplyBatch(term: nat, log: seq<Entry>): Poll {
    Poll(Ready(Some(HardState(term, 0, |log|)), log, [], [], []), LightReady(None, log, []), {})
  }

  function ApplyMoves(log: seq<Entry>): Moves {
    Moves(Raw(log, 0, |log|, 0, |log|), Raw(log, |log|, |log|, |log|, |log|), Raw(log, |log|, |log|, |log|, |log|))
  }

  lemma HandsOutOne(agreed: seq<Entry>, raw: Raw, poll: Poll, moves: Moves)
    requires ReadyContract(raw, poll.ready, moves.taken)
    requires AdvanceContract(agreed, moves.taken, poll.light, moves.advanced)
    requires LibraryMoves(agreed, moves.advanced, moves.stepped)
    ensures HandsOut(agreed, raw, [poll], [moves])
  {
    assert [poll][1..] == [] && [moves][1..] == [];
    assert HandsOut(agreed, moves.stepped, [], []);
  }

  lemma StoreBatchIsHandedOut(term: nat, log: seq<Entry>)
    requires WellIndexed(log)
    ensures HandsOut([], Raw(log, 0, 0, 0, 0), [StoreBatch(term, log)], [StoreMoves(log)])
  {
    assert log[0..0] == [] && log[0..] == log;
    HandsOutOne([], Raw(log, 0, 0, 0, 0), StoreBatch(term, log), StoreMoves(log));
  }

  lemma ApplyBatchIsHandedOut(term: nat, log: seq<Entry>)
    requires WellIndexed(log)
    ensures HandsOut(log, Raw(log, 0, |log|, 0, 0), [ApplyBatch(term, log)], [ApplyMoves(log)])
  {
    assert log[0..0] == [] && log[0..] == log && log[0..|log|] == log;
    HandsOutOne(log, Raw(log, 0, |log|, 0, 0), ApplyBatch(term, log), ApplyMoves(log));
  }

  // ---------- What the worker does with it ----------

  lemma OnePass(id: nat, w: WorkerState, poll: Poll)
    requires Passed(id, {}, w, poll).1.Running?
    ensures Drained(id, {}, w, [poll]) == Passed(id, {}, w, poll)
  {
    assert [poll][1..] == [];
  }

  lemma NoMessages()
    ensures var none: seq<Message> := [];
            none + none + none == none
  {
  }

  lemma StoringAnswersNothing(id: nat, w: WorkerState, term: nat, log: seq<Entry>)
    requires w.view == FRESH_NODE.view && WellIndexed(log)
    ensures var (w', o) := Drained(id, {}, w, [StoreBatch(term, log)]);
            && o.Running? && w'.book == w.book && w'.history == w.history && w'.replies == w.replies
            && w'.view == NodeView(HardState(term, 0, 0), log, map[])
  {
    var poll := StoreBatch(term, log);
    NoMessages();
    assert [] + log == log;
    assert Reports(id, []) + Reports(id, []) == [];
    assert w.history + NotifyOps([]) == w.history;
    OnePass(id, w, poll);
  }

  lemma ApplyingReports(id: nat, view: NodeView, term: nat, key: string, value: string)
    requires 2 <= |view.stored|
    ensures var poll := ApplyBatch(term, TermLog(term, key, value));
            Polled(id, view, Some(poll.ready), poll.light).1 ==
            Ok(Some(ReadyBundle([], [ApplyReport(id, key, value, 2, term)])))
  {
    TermLogReports(id, term, key, value);
    NoMessages();
    var report := ApplyReport(id, key, value, 2, term);
    assert Reports(id, []) + [report] == [report];
  }

  lemma ApplyingAnswers(id: nat, w: WorkerState, term: nat, p: PendingPut)
    requires 2 <= |w.view.stored| && w.book == Accept(EMPTY_BOOK, p)
    ensures var (w', o) := Drained(id, {}, w, [ApplyBatch(term, TermLog(term, p.key, p.value))]);
            o.Running? && w'.book.acked == [Ack(p, 2)]
  {
    var poll := ApplyBatch(term, TermLog(term, p.key, p.value));
    var r := ApplyReport(id, p.key, p.value, 2, term);
    ApplyingReports(id, w.view, term, p.key, p.value);
    assert [r][1..] == [];
    assert NotifyAll(w.book, [r]) == NotifyAll(Notify(w.book, r), []);
    assert FirstMatch([p], p.key, p.value) == 0;
    OnePass(id, w, poll);
  }

  // ---------- What a node does in the cluster ----------

  /** Nothing but one node changes, and it is idle again. */
  ghost predicate OnlyNode(c: Cluster, id: nat, c': Cluster) {
    && c'.agreed == c.agreed && c'.proposers == c.proposers && |c'.nodes| == |c.nodes|
    && id < |c.nodes| && c'.nodes[id].phase.Idle?
    && forall i :: 0 <= i < |c.nodes| && i != id ==> c'.nodes[i] == c.nodes[i]
  }

  /** The node that has this put waiting and nothing else to its name. */
  ghost predicate HasOnly(n: Node, p: PendingPut) {
    n.phase.Idle? && n.book == Accept(EMPTY_BOOK, p) && n.history == [AcceptOp(p)]
  }

  function Accepted(n: Node, p: PendingPut): Node {
    n.(book := Accept(EMPTY_BOOK, p), history := [AcceptOp(p)])
  }

  lemma PutArrives(run: seq<Cluster>, actions: seq<Action>, id: nat, term: nat, p: PendingPut)
    returns (run': seq<Cluster>, actions': seq<Action>)
    requires IsRun(run, actions) && id < |run[|actions|].nodes| && run[|actions|].nodes[id] == FRESH_NODE
    ensures IsRun(run', actions') && OnlyNode(run[|actions|], id, run'[|actions'|])
    ensures run'[|actions'|].nodes[id] == Accepted(FRESH_NODE, p)
  {
    var c := run[|actions|];
    var c' := c.(nodes := c.nodes[id := Accepted(FRESH_NODE, p)]);
    var step := ReceivePut(PutRequest(p.client, p.key, p.value), Leading(id, term));
    AcceptsPut(c.agreed, id, term, p);
    OneMoreStep(run, actions, NodeStep(id, step), c');
    run', actions' := run + [c'], actions + [NodeStep(id, step)];
  }

  lemma AcceptsPut(agreed: seq<Entry>, id: nat, term: nat, p: PendingPut)
    ensures NodeNext(agreed, id, FRESH_NODE, ReceivePut(PutRequest(p.client, p.key, p.value), Leading(id, term)),
                     Accepted(FRESH_NODE, p))
  {
    assert [] + [AcceptOp(p)] == [AcceptOp(p)] && [] + [p] == [p];
  }

  /** The node's library moves, and the worker drains what it then hands out. */
  lemma LibraryMovesAndDrains(run: seq<Cluster>, actions: seq<Action>, id: nat, raw: Raw, polls: seq<Poll>,
                              moves: seq<Moves>, w: WorkerState)
    returns (run': seq<Cluster>, actions': seq<Action>)
    requires IsRun(run, actions) && id < |run[|actions|].nodes|
    requires run[|actions|].nodes[id].phase.Idle? && SameWorker(run[|actions|].nodes[id], w)
    requires LibraryMoves(run[|actions|].agreed, run[|actions|].nodes[id].raw, raw)
    requires HandsOut(run[|actions|].agreed, raw, polls, moves) && Drained(id, {}, w, polls).1.Running?
    ensures IsRun(run', actions') && OnlyNode(run[|actions|], id, run'[|actions'|])
    ensures var n' := run'[|actions'|].nodes[id];
            SameWorker(n', Drained(id, {}, w, polls).0) && n'.raw == RawAfter(raw, moves)
  {
    var c := run[|actions|];
    var moved := c.nodes[id].(raw := raw);
    var more, steps' := DrainIsARunOfSteps(c.agreed, id, {}, moved, w, polls, moves);
    Extend(c.agreed, id, [c.nodes[id]], [], LibraryStep, moved);
    var trace, steps := [c.nodes[id]] + [moved], [] + [LibraryStep];
    JoinTraces(c.agreed, id, trace, steps, more, steps');
    trace, steps := trace + more[1..], steps + steps';
    run', actions' := TraceExtendsRun(run, actions, id, trace, steps);
  }

  lemma LibraryGetsLog(log: seq<Entry>)
    requires WellIndexed(log)
    ensures LibraryMoves([], FRESH_NODE.raw, Raw(log, 0, 0, 0, 0))
  {
  }

  lemma StoresLog(run: seq<Cluster>, actions: seq<Action>, id: nat, term: nat, log: seq<Entry>)
    returns (run': seq<Cluster>, actions': seq<Action>)
    requires IsRun(run, actions) && id < |run[|actions|].nodes| && run[|actions|].agreed == [] && WellIndexed(log)
    requires run[|actions|].nodes[id].phase.Idle? && run[|actions|].nodes[id].raw == FRESH_NODE.raw
    requires run[|actions|].nodes[id].view == FRESH_NODE.view && run[|actions|].nodes[id].seen == []
    ensures IsRun(run', actions') && OnlyNode(run[|actions|], id, run'[|actions'|])
    ensures var (n, n') := (run[|actions|].nodes[id], run'[|actions'|].nodes[id]);
            && n'.book == n.book && n'.history == n.history && ValuesSeen(n'.seen) == []
            && n'.raw == Raw(log, |log|, 0, 0, 0) && n'.view == NodeView(HardState(term, 0, 0), log, map[])
  {
    var w := AsWorker(run[|actions|].nodes[id]);
    LibraryGetsLog(log);
    StoreBatchIsHandedOut(term, log);
    StoringAnswersNothing(id, w, term, log);
    run', actions' := LibraryMovesAndDrains(run, actions, id, Raw(log, 0, 0, 0, 0), [StoreBatch(term, log)],
                                            [StoreMoves(log)], w);
  }

  // ---------- The run ----------

  /** Node 0 has accepted the put of client 1 as leader of term 1, node 1 the equal put of
      client 2 as leader of term 2, and all have stored what their leaders sent. */
  lemma BothLeadersStore(key: string, value: string) returns (run: seq<Cluster>, actions: seq<Action>)
    ensures IsRun(run, actions)
    ensures var c := run[|actions|];
            && |c.nodes| == 3 && c.agreed == [] && c.proposers == []
            && HasOnly(c.nodes[0], PendingPut(1, key, value)) && HasOnly(c.nodes[1], PendingPut(2, key, value))
            && ValuesSeen(c.nodes[0].seen) == [] && c.nodes[0].raw == Raw(TermLog(1, key, value), 2, 0, 0, 0)
            && c.nodes[0].view.stored == TermLog(1, key, value)
  {
    run, actions := [Cluster([], [], [FRESH_NODE, FRESH_NODE, FRESH_NODE])], [];
    run, actions := PutArrives(run, actions, 0, 1, PendingPut(1, key, value));
    run, actions := StoresLog(run, actions, 0, 1, TermLog(1, key, value));
    run, actions := PutArrives(run, actions, 1, 2, PendingPut(2, key, value));
    run, actions := StoresLog(run, actions, 1, 2, TermLog(2, key, value));
    run, actions := StoresLog(run, actions, 2, 2, TermLog(2, key, value));
  }

  lemma LogWasProposed(nodes: seq<Node>, log: seq<Entry>, from: seq<Option<Proposer>>, p: PendingPut)
    requires |nodes| == 3 && nodes[1].history == [AcceptOp(p)]
    requires |log| == 2 && log[0].data.Empty? && IsPut(log[1], p.key, p.value)
    requires from == [None, Some(Proposer(1, p.client))]
    ensures AllProposed(nodes, log, from)
  {
    assert ProposedAs(nodes[1].history[0], log[1], p.client);
    assert WasProposed(nodes, log[1], Proposer(1, p.client));
  }

  lemma FirstAgreement(c: Cluster, log: seq<Entry>, from: seq<Option<Proposer>>)
    requires c.agreed == [] && c.proposers == [] && WellIndexed(log) && ProposedOnce(from)
    requires AllProposed(c.nodes, log, from)
    ensures Next(c, Agree(log, from), c.(agreed := log, proposers := from))
  {
    assert [] + log == log && [] + from == from;
  }

  lemma SecondTermIsAgreed(run: seq<Cluster>, actions: seq<Action>, log: seq<Entry>, p: PendingPut)
    returns (run': seq<Cluster>, actions': seq<Action>)
    requires IsRun(run, actions) && run[|actions|].agreed == [] && run[|actions|].proposers == []
    requires |run[|actions|].nodes| == 3 && HasOnly(run[|actions|].nodes[1], p)
    requires |log| == 2 && WellIndexed(log) && log[0].data.Empty? && IsPut(log[1], p.key, p.value)
    ensures IsRun(run', actions')
    ensures run'[|actions'|] == run[|actions|].(agreed := log, proposers := [None, Some(Proposer(1, p.client))])
  {
    var from := [None, Some(Proposer(1, p.client))];
    LogWasProposed(run[|actions|].nodes, log, from, p);
    FirstAgreement(run[|actions|], log, from);
    var c' := run[|actions|].(agreed := log, proposers := from);
    OneMoreStep(run, actions, Agree(log, from), c');
    run', actions' := run + [c'], actions + [Agree(log, from)];
  }

  lemma LosesItsLog(lost: seq<Entry>, log: seq<Entry>)
    requires WellIndexed(log)
    ensures LibraryMoves(log, Raw(lost, |lost|, 0, 0, 0), Raw(log, 0, |log|, 0, 0))
  {
    assert log[..0] == lost[..0];
  }

  lemma SameAsWorker(n: Node)
    requires ValuesSeen(n.seen) == []
    ensures SameWorker(n, AsWorker(n))
  {
  }

  lemma LogIsApplied(run: seq<Cluster>, actions: seq<Action>, id: nat, raw: Raw, poll: Poll, moves: Moves,
                     acked: seq<Ack>)
    returns (run': seq<Cluster>, actions': seq<Action>)
    requires IsRun(run, actions) && id < |run[|actions|].nodes|
    requires run[|actions|].nodes[id].phase.Idle? && ValuesSeen(run[|actions|].nodes[id].seen) == []
    requires LibraryMoves(run[|actions|].agreed, run[|actions|].nodes[id].raw, raw)
    requires HandsOut(run[|actions|].agreed, raw, [poll], [moves])
    requires var (w', o) := Drained(id, {}, AsWorker(run[|actions|].nodes[id]), [poll]);
             o.Running? && w'.book.acked == acked
    ensures IsRun(run', actions') && OnlyNode(run[|actions|], id, run'[|actions'|])
    ensures run'[|actions'|].nodes[id].book.acked == acked
  {
    var n := run[|actions|].nodes[id];
    SameAsWorker(n);
    run', actions' := LibraryMovesAndDrains(run, actions, id, raw, [poll], [moves], AsWorker(n));
  }

  lemma LostLogIsReplaced(run: seq<Cluster>, actions: seq<Action>, lost: seq<Entry>, log: seq<Entry>, acked: seq<Ack>)
    returns (run': seq<Cluster>, actions': seq<Action>)
    requires IsRun(run, actions) && |run[|actions|].nodes| > 0 && run[|actions|].agreed == log && WellIndexed(log)
    requires run[|actions|].nodes[0].phase.Idle? && ValuesSeen(run[|actions|].nodes[0].seen) == []
    requires run[|actions|].nodes[0].raw == Raw(lost, |lost|, 0, 0, 0)
    requires var (w', o) := Drained(0, {}, AsWorker(run[|actions|].nodes[0]), [ApplyBatch(2, log)]);
             o.Running? && w'.book.acked == acked
    ensures IsRun(run', actions') && OnlyNode(run[|actions|], 0, run'[|actions'|])
    ensures run'[|actions'|].nodes[0].book.acked == acked
  {
    LosesItsLog(lost, log);
    ApplyBatchIsHandedOut(2, log);
    run', actions' := LogIsApplied(run, actions, 0, Raw(log, 0, |log|, 0, 0), ApplyBatch(2, log), ApplyMoves(log),
                                   acked);
  }

  lemma OksAreAcks(run: seq<Cluster>, actions: seq<Action>, i: nat, id: nat)
    requires IsRun(run, actions) && i < |run| && id < |run[i].nodes|
    ensures OksIn(run[i].nodes[id].seen) == run[i].nodes[id].book.acked
  {
    RunKeepsProposers(run, actions, i);
    assert HistoryOk(run[i].proposers, id, run[i].nodes[id]);
  }

  /** The put of client 1 at node 0 is lost; the equal put of client 2 at node 1 becomes
      entry 2 of the agreed log; client 1 gets the Ok for it. */
  lemma ForeignEntryMisleadsACluster(key: string, value: string) returns (run: seq<Cluster>, actions: seq<Action>)
    ensures IsRun(run, actions)
    ensures var c := run[|actions|];
            && |c.nodes| == 3 && c.agreed == TermLog(2, key, value)
            && c.proposers == [None, Some(Proposer(1, 2))]
            && AcceptOp(PendingPut(1, key, value)) in c.nodes[0].history
            && OksIn(c.nodes[0].seen) == [Ack(PendingPut(1, key, value), 2)]
            && ProposerAt(c.proposers, 0, 2) == None
  {
    run, actions := BothLeadersStore(key, value);
    var p, lost, log := PendingPut(1, key, value), TermLog(1, key, value), TermLog(2, key, value);
    run, actions := SecondTermIsAgreed(run, actions, log, PendingPut(2, key, value));
    ApplyingAnswers(0, AsWorker(run[|actions|].nodes[0]), 2, p);
    run, actions := LostLogIsReplaced(run, actions, lost, log, [Ack(p, 2)]);
    OksAreAcks(run, actions, |actions|, 0);
    LostPutIsKnown(run, actions, 0, PendingPut(1, key, value));
  }

  lemma LostPutIsKnown(run: seq<Cluster>, actions: seq<Action>, id: nat, p: PendingPut)
    requires IsRun(run, actions) && id < |run[|actions|].nodes|
    requires run[|actions|].nodes[id].book.acked == [Ack(p, 2)]
    ensures AcceptOp(p) in run[|actions|].nodes[id].history
  {
    RunKeepsProposers(run, actions, |actions|);
    var n := run[|actions|].nodes[id];
    assert HistoryOk(run[|actions|].proposers, id, n);
    EqualPairsAreServedInOrder(n.history, p.key, p.value);
    AcceptedAreAccepted(n.history);
    assert AckedPuts(n.book.acked) == [p] && [p][1..] == [];
    assert OfPair([p], p.key, p.value) == [p];
    assert p in OfPair(n.book.accepted, p.key, p.value);
    OfPairIsPart(n.book.accepted, p.key, p.value, p);
    AcceptedByOp(n.history, p);
  }

  lemma {:induction false} OfPairIsPart(ps: seq<PendingPut>, key: string, value: string, p: PendingPut)
    requires p in OfPair(ps, key, value)
    ensures p in ps
  {
    if ps != [] && p != ps[0] {
      OfPairIsPart(ps[1..], key, value, p);
    }
  }

  lemma {:induction false} AcceptedByOp(ops: seq<Op>, p: PendingPut)
    requires p in AcceptedIn(ops)
    ensures AcceptOp(p) in ops
  {
    var op := ops[|ops| - 1];
    if p in AcceptedBy(op) {
      assert op == AcceptOp(p);
    } else {
      AcceptedByOp(ops[..|ops| - 1], p);
    }
  }
}
