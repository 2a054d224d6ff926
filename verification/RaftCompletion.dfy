/** No put is forgotten: what a node has applied it has reported and handled, and in an
    unambiguous history every put of its own that was applied has its Ok. */
module RaftCompletion {
  import opened Basics
  import opened RaftLog
  import opened PendingPuts
  import opened Workers
  import opened AckSimulation
  import opened AckCompletion
  import opened RaftCluster
  import opened RaftSafety
  import opened RaftProposers
  import opened RaftRefinement
  import opened RaftWorker

  /** The table of puts was told of the reports that the node handled, and of no others. */
  lemma {:induction false} NotifiedIsInHistory(run: seq<Cluster>, actions: seq<Action>, i: nat, id: nat)
    requires IsRun(run, actions) && i < |run| && id < |run[i].nodes|
    ensures ReportsIn(run[i].nodes[id].history) == run[i].nodes[id].notified
  {
    if i > 0 {
      assert StepAt(run, actions, i - 1);
      NotifiedIsInHistory(run, actions, i - 1, id);
      if actions[i - 1].NodeStep? && actions[i - 1].id == id {
        StepNotifies(run[i - 1].agreed, id, run[i - 1].nodes[id], actions[i - 1].step, run[i].nodes[id]);
      }
    }
  }

  lemma StepNotifies(agreed: seq<Entry>, id: nat, n: Node, step: Step, n': Node)
    requires NodeNext(agreed, id, n, step, n') && ReportsIn(n.history) == n.notified
    ensures ReportsIn(n'.history) == n'.notified
  {
    match step
    case NotifyPut =>
      NotifyAddsReport(agreed, id, n, n');
      PerformedMore(n.history, NotifyOp(n.phase.reports[0]));
    case ReceivePut(req, lib) =>
      PutAddsOutcome(agreed, id, n, req, lib, n');
      OutcomeNotifiesNothing(n.history, PutOutcome(req, lib));
    case _ =>
      StepAddsOps(agreed, id, n, step, n');
      assert n.history + [] == n.history;
  }

  lemma OutcomeNotifiesNothing(ops: seq<Op>, op: Op)
    requires !op.NotifyOp?
    ensures ReportsIn(ops + [op]) == ReportsIn(ops)
  {
    PerformedMore(ops, op);
    assert ReportsIn(ops) + [] == ReportsIn(ops);
  }

  /** A node between two polls has handled a report for every put among the entries it has
      applied, with the entry's pair, index and term. */
  lemma EveryAppliedPutIsHandled(run: seq<Cluster>, actions: seq<Action>, i: nat, id: nat, x: nat, key: string,
                                 value: string)
    requires IsRun(run, actions) && i < |run| && id < |run[i].nodes| && run[i].nodes[id].phase.Idle?
    requires x < run[i].nodes[id].applied && x < |run[i].agreed|
    requires run[i].agreed[x].kind.EntryNormal? && run[i].agreed[x].data == Encoded(Put(key, value))
    ensures var (c, n) := (run[i], run[i].nodes[id]);
            && ApplyReport(id, key, value, x + 1, c.agreed[x].term) in n.notified
            && NotifyOp(ApplyReport(id, key, value, x + 1, c.agreed[x].term)) in n.history
  {
    RunKeeps(run, actions, i);
    var (c, n) := (run[i], run[i].nodes[id]);
    assert NodeInv(c.agreed, id, n);
    assert n.notified + [] == n.notified;
    var es := c.agreed[..n.applied];
    assert es[x] == c.agreed[x];
    EveryPutIsReported(id, es, x, key, value);
    NotifiedIsInHistory(run, actions, i, id);
    var k := ReportIsNotified(n.history, ApplyReport(id, key, value, x + 1, c.agreed[x].term));
  }

  lemma {:induction false} ReportIsNotified(ops: seq<Op>, r: ApplyReport) returns (k: nat)
    requires r in ReportsIn(ops)
    ensures k < |ops| && ops[k] == NotifyOp(r)
  {
    var last := |ops| - 1;
    if r in NotifiedBy(ops[last]) {
      k := last;
    } else {
      k := ReportIsNotified(ops[..last], r);
    }
  }

  /** The client has the Ok of its put, for this entry, and waits no longer. */
  ghost predicate Acknowledged(b: Book, e: Entry, x: nat, client: nat) {
    && e.data.Encoded?
    && Ack(PendingPut(client, e.data.cmd.key, e.data.cmd.value), x) in b.acked
    && forall k :: 0 <= k < |b.pending| ==> b.pending[k].client != client
  }

  lemma ProposedEntryHoldsPut(c: Cluster, x: nat)
    requires |c.proposers| == |c.agreed| && AllProposed(c.nodes, c.agreed, c.proposers)
    requires x < |c.agreed| && c.proposers[x].Some?
    ensures c.agreed[x].kind.EntryNormal? && c.agreed[x].data.Encoded?
  {
    var p := c.proposers[x].value;
    assert WasProposed(c.nodes, c.agreed[x], p);
    var k :| 0 <= k < |c.nodes[p.node].history| && ProposedAs(c.nodes[p.node].history[k], c.agreed[x], p.client);
  }

  /** In every reachable state and on every node between two polls: if its history is
      unambiguous, then every put that clients made to this node and that has been applied
      there has its Ok, for its own entry, and waits no longer. */
  lemma AppliedPutsAreAcknowledged(run: seq<Cluster>, actions: seq<Action>, i: nat, id: nat, x: nat, client: nat)
    requires IsRun(run, actions) && i < |run| && id < |run[i].nodes| && run[i].nodes[id].phase.Idle?
    requires x < run[i].nodes[id].applied && x < |run[i].agreed|
    requires ProposerAt(run[i].proposers, id, x + 1) == Some(client)
    requires Unambiguous(run[i].nodes[id].history, ProposerOn(run[i].proposers, id))
    ensures Acknowledged(run[i].nodes[id].book, run[i].agreed[x], x + 1, client)
  {
    RunKeepsProposers(run, actions, i);
    var (c, n) := (run[i], run[i].nodes[id]);
    ProposedEntryHoldsPut(c, x);
    var cmd := c.agreed[x].data.cmd;
    EveryAppliedPutIsHandled(run, actions, i, id, x, cmd.key, cmd.value);
    var r := ApplyReport(id, cmd.key, cmd.value, x + 1, c.agreed[x].term);
    var k :| 0 <= k < |n.history| && n.history[k] == NotifyOp(r);
    assert HistoryOk(c.proposers, id, n);
    HistoryIsWellFormed(c.proposers, id, n);
    AppliedPutIsAcknowledged(n.history, k, ProposerOn(c.proposers, id), client);
  }

  /** The same of the event loop: when it goes on after its turns, its store holds the
      first `at` entries of the agreed log, and if its history is unambiguous every put among
      them that came from one of its own clients has its Ok and waits no longer. */
  lemma WorkerAcknowledgesWhatItApplies(run: seq<Cluster>, actions: seq<Action>, id: nat, peers: set<nat>,
                                        w: WorkerState, turns: seq<Turn>, moves: seq<TurnMoves>)
    returns (at: nat)
    requires BetweenTurns(run, actions, id, w) && CanCome(run[|actions|], id, w, turns, moves)
    requires Ran(id, peers, w, turns).1.Running?
    requires Unambiguous(Ran(id, peers, w, turns).0.history, ProposerOn(run[|actions|].proposers, id))
    ensures var (w', c) := (Ran(id, peers, w, turns).0, run[|actions|]);
            && at <= |c.agreed| && w'.view.store == Replay(c.agreed[..at])
            && forall x, client :: 0 <= x < at && ProposerAt(c.proposers, id, x + 1) == Some(client) ==>
                 Acknowledged(w'.book, c.agreed[x], x + 1, client)
  {
    var c := run[|actions|];
    var run', actions' := LoopReaches(run, actions, id, peers, w, turns, moves);
    var n := run'[|actions'|].nodes[id];
    RunKeeps(run', actions', |actions'|);
    assert NodeInv(c.agreed, id, n);
    at := n.applied;
    forall x, client | 0 <= x < at && ProposerAt(c.proposers, id, x + 1) == Some(client)
      ensures Acknowledged(n.book, c.agreed[x], x + 1, client)
    {
      AppliedPutsAreAcknowledged(run', actions', |actions'|, id, x, client);
    }
  }
}
