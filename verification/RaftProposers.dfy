/** Whose proposals the Oks of a cluster answer. Nodes do not know which put an entry came
    from; the cluster machine does, and in every reachable state each node's history is
    one to which the simulation of acknowledging by request id applies. */
module RaftProposers {
  import opened Basics
  import opened RaftLog
  import opened PendingPuts
  import opened Workers
  import opened AckSimulation
  import opened RaftCluster
  import opened RaftSafety

  /** The client of node `id` whose put became the entry at index x. */
  function ProposerAt(proposers: seq<Option<Proposer>>, id: nat, x: nat): Option<nat> {
    if 1 <= x <= |proposers| && proposers[x - 1].Some? && proposers[x - 1].value.node == id
    then Some(proposers[x - 1].value.client)
    else None
  }

  function ProposerOn(proposers: seq<Option<Proposer>>, id: nat): nat -> Option<nat> {
    x => ProposerAt(proposers, id, x)
  }

  /** The Oks among what clients saw. */
  function OksIn(seen: seq<Seen>): seq<Ack> {
    if seen == [] then [] else OksIn(seen[..|seen| - 1]) + OkOf(seen[|seen| - 1])
  }

  function OkOf(s: Seen): seq<Ack> {
    if s.PutOk? then [Ack(s.put, s.index)] else []
  }

  // ---------- The invariant ----------

  /** The book is what the history makes of it, and clients saw exactly its Oks. */
  ghost predicate BookOk(n: Node) {
    n.book == Performed(n.history) && n.book.acked == OksIn(n.seen)
  }

  /** Reports are notified in log order. */
  ghost predicate NotifiedInOrder(ops: seq<Op>) {
    forall i, j :: 0 <= i < j < |ops| && ops[i].NotifyOp? && ops[j].NotifyOp? ==>
      ops[i].report.index < ops[j].report.index
  }

  ghost predicate NotifiedUpTo(ops: seq<Op>, notified: seq<ApplyReport>) {
    forall i :: 0 <= i < |ops| && ops[i].NotifyOp? ==>
      notified != [] && ops[i].report.index <= notified[|notified| - 1].index
  }

  ghost predicate AllHaveProposals(ops: seq<Op>, proposer: nat -> Option<nat>) {
    forall j :: 0 <= j < |ops| && ops[j].NotifyOp? && proposer(ops[j].report.index).Some? ==>
      HasProposal(ops, proposer, j)
  }

  ghost predicate ReportsWithin(ops: seq<Op>, length: nat) {
    forall i :: 0 <= i < |ops| && ops[i].NotifyOp? ==> 1 <= ops[i].report.index <= length
  }

  ghost predicate HistoryOk(proposers: seq<Option<Proposer>>, id: nat, n: Node) {
    && BookOk(n)
    && ClientsDiffer(n.history)
    && NotifiedInOrder(n.history) && NotifiedUpTo(n.history, n.notified)
    && ReportsWithin(n.history, |proposers|)
    && AllHaveProposals(n.history, ProposerOn(proposers, id))
  }

  ghost predicate ProposersOk(c: Cluster) {
    && |c.proposers| == |c.agreed| && ProposedOnce(c.proposers)
    && AllProposed(c.nodes, c.agreed, c.proposers)
    && forall id :: 0 <= id < |c.nodes| ==> HistoryOk(c.proposers, id, c.nodes[id])
  }

  // ---------- What a step adds to a history ----------

  function OpsOf(n: Node, step: Step): seq<Op> {
    match step
    case NotifyPut => if n.phase.Delivering? && n.phase.reports != [] then [NotifyOp(n.phase.reports[0])] else []
    case ReceivePut(req, lib) => if req.PutRequest? then [PutOutcome(req, lib)] else []
    case _ => []
  }

  lemma StepAddsOps(agreed: seq<Entry>, id: nat, n: Node, step: Step, n': Node)
    requires NodeNext(agreed, id, n, step, n')
    ensures n'.history == n.history + OpsOf(n, step)
    ensures !step.NotifyPut? ==> n'.notified == n.notified
    ensures !step.NotifyPut? && !step.ReceivePut? ==> n'.book == n.book && OksIn(n'.seen) == OksIn(n.seen)
  {
    if step.ReceiveGet? {
      assert n'.seen[..|n.seen|] == n.seen;
    }
  }

  /** Once proposed, always proposed: histories only grow. */
  lemma StillProposed(nodes: seq<Node>, id: nat, n': Node, es: seq<Entry>, from: seq<Option<Proposer>>)
    requires AllProposed(nodes, es, from) && id < |nodes| && nodes[id].history <= n'.history
    ensures AllProposed(nodes[id := n'], es, from)
  {
    forall k | 0 <= k < |es| && from[k].Some?
      ensures WasProposed(nodes[id := n'], es[k], from[k].value)
    {
      var p := from[k].value;
      assert WasProposed(nodes, es[k], p);
      var i :| 0 <= i < |nodes[p.node].history| && ProposedAs(nodes[p.node].history[i], es[k], p.client);
      assert ProposedAs(nodes[id := n'][p.node].history[i], es[k], p.client);
    }
  }

  lemma {:induction false} AcceptedWereRequested(ops: seq<Op>, i: nat)
    requires i < |ops| && ops[i].AcceptOp?
    ensures ops[i].put.client in Requested(ops)
  {
    if i < |ops| - 1 {
      AcceptedWereRequested(ops[..|ops| - 1], i);
    }
  }

  ghost predicate IsProposed(ops: seq<Op>, proposer: nat -> Option<nat>, r: ApplyReport) {
    exists i :: 0 <= i < |ops| && Proposes(ops[i], proposer, r)
  }

  lemma ProposalsSurvive(ops: seq<Op>, op: Op, proposer: nat -> Option<nat>)
    requires AllHaveProposals(ops, proposer)
    requires op.NotifyOp? && proposer(op.report.index).Some? ==> IsProposed(ops, proposer, op.report)
    ensures AllHaveProposals(ops + [op], proposer)
  {
    var more := ops + [op];
    forall j | 0 <= j < |more| && more[j].NotifyOp? && proposer(more[j].report.index).Some?
      ensures HasProposal(more, proposer, j)
    {
      if j < |ops| {
        assert HasProposal(ops, proposer, j);
        var i :| 0 <= i < j && Proposes(ops[i], proposer, ops[j].report);
        assert Proposes(more[i], proposer, more[j].report);
      } else {
        var i :| 0 <= i < |ops| && Proposes(ops[i], proposer, op.report);
        assert Proposes(more[i], proposer, more[j].report);
      }
    }
  }

  // ---------- Steps keep it ----------

  lemma PutAddsOutcome(agreed: seq<Entry>, id: nat, n: Node, req: Request, lib: Library, n': Node)
    requires NodeNext(agreed, id, n, ReceivePut(req, lib), n')
    ensures req.PutRequest? && req.client !in Requested(n.history)
    ensures var op := PutOutcome(req, lib);
            n' == n.(book := Perform(n.book, op), history := n.history + [op])
  {
  }

  lemma OutcomeKeepsClients(ops: seq<Op>, op: Op)
    requires ClientsDiffer(ops) && (op.AcceptOp? ==> op.put.client !in Requested(ops))
    ensures ClientsDiffer(ops + [op])
  {
    if op.AcceptOp? {
      forall i | 0 <= i < |ops| && ops[i].AcceptOp?
        ensures ops[i].put.client != op.put.client
      {
        AcceptedWereRequested(ops, i);
      }
    }
  }

  lemma OutcomeKeepsOrder(ops: seq<Op>, op: Op, notified: seq<ApplyReport>, length: nat)
    requires NotifiedInOrder(ops) && NotifiedUpTo(ops, notified) && ReportsWithin(ops, length) && !op.NotifyOp?
    ensures NotifiedInOrder(ops + [op]) && NotifiedUpTo(ops + [op], notified) && ReportsWithin(ops + [op], length)
  {
  }

  lemma PutKeepsHistory(proposers: seq<Option<Proposer>>, agreed: seq<Entry>, id: nat, n: Node, req: Request,
                        lib: Library, n': Node)
    requires HistoryOk(proposers, id, n) && NodeNext(agreed, id, n, ReceivePut(req, lib), n')
    ensures HistoryOk(proposers, id, n')
  {
    PutAddsOutcome(agreed, id, n, req, lib, n');
    OutcomeKeepsHistory(proposers, id, n, PutOutcome(req, lib), n');
  }

  lemma OutcomeKeepsHistory(proposers: seq<Option<Proposer>>, id: nat, n: Node, op: Op, n': Node)
    requires HistoryOk(proposers, id, n) && !op.NotifyOp?
    requires op.AcceptOp? ==> op.put.client !in Requested(n.history)
    requires n' == n.(book := Perform(n.book, op), history := n.history + [op])
    ensures HistoryOk(proposers, id, n')
  {
    PerformedMore(n.history, op);
    OutcomeKeepsClients(n.history, op);
    OutcomeKeepsOrder(n.history, op, n.notified, |proposers|);
    ProposalsSurvive(n.history, op, ProposerOn(proposers, id));
  }

  lemma NotifyAddsReport(agreed: seq<Entry>, id: nat, n: Node, n': Node)
    requires NodeNext(agreed, id, n, NotifyPut, n')
    ensures n.phase.Delivering? && n.phase.reports != []
    ensures var r := n.phase.reports[0];
            && n'.book == Notify(n.book, r) && n'.seen == Record(n, r)
            && n'.history == n.history + [NotifyOp(r)] && n'.notified == n.notified + [r]
  {
  }

  lemma NotifyKeepsBook(n: Node, r: ApplyReport, n': Node)
    requires BookOk(n) && n'.book == Notify(n.book, r) && n'.seen == Record(n, r)
    requires n'.history == n.history + [NotifyOp(r)]
    ensures BookOk(n')
  {
    PerformedMore(n.history, NotifyOp(r));
    if n'.seen != n.seen {
      assert n'.seen[..|n.seen|] == n.seen;
    }
  }

  /** The entry that a report announces, when it came from a put of this node, came from
      one in the node's history. */
  lemma ReportWasProposed(c: Cluster, id: nat, r: ApplyReport)
    requires |c.proposers| == |c.agreed| && AllProposed(c.nodes, c.agreed, c.proposers) && id < |c.nodes|
    requires 1 <= r.index <= |c.agreed| && IsPut(c.agreed[r.index - 1], r.key, r.value)
    ensures ProposerAt(c.proposers, id, r.index).Some? ==>
            IsProposed(c.nodes[id].history, ProposerOn(c.proposers, id), r)
  {
    if ProposerAt(c.proposers, id, r.index).None? {
      return;
    }
    var p := c.proposers[r.index - 1].value;
    assert WasProposed(c.nodes, c.agreed[r.index - 1], p);
    var i :| 0 <= i < |c.nodes[id].history| && ProposedAs(c.nodes[id].history[i], c.agreed[r.index - 1], p.client);
    assert Proposes(c.nodes[id].history[i], ProposerOn(c.proposers, id), r);
  }

  lemma NotifyKeepsOrder(ops: seq<Op>, notified: seq<ApplyReport>, r: ApplyReport, length: nat)
    requires NotifiedInOrder(ops) && NotifiedUpTo(ops, notified) && ReportsWithin(ops, length)
    requires notified != [] ==> notified[|notified| - 1].index < r.index
    requires 1 <= r.index <= length
    ensures NotifiedInOrder(ops + [NotifyOp(r)]) && NotifiedUpTo(ops + [NotifyOp(r)], notified + [r])
    ensures ReportsWithin(ops + [NotifyOp(r)], length)
  {
  }

  lemma NotifyKeepsHistory(c: Cluster, id: nat, n': Node)
    requires id < |c.nodes| && NodeInv(c.agreed, id, c.nodes[id]) && HistoryOk(c.proposers, id, c.nodes[id])
    requires |c.proposers| == |c.agreed| && AllProposed(c.nodes, c.agreed, c.proposers)
    requires NodeNext(c.agreed, id, c.nodes[id], NotifyPut, n')
    ensures HistoryOk(c.proposers, id, n')
  {
    var n := c.nodes[id];
    NotifyAddsReport(c.agreed, id, n, n');
    NextNotified(c.agreed, id, n);
    ReportWasProposed(c, id, n.phase.reports[0]);
    ReportKeepsHistory(c.proposers, id, n, n.phase.reports[0], n');
  }

  lemma ReportKeepsHistory(proposers: seq<Option<Proposer>>, id: nat, n: Node, r: ApplyReport, n': Node)
    requires HistoryOk(proposers, id, n)
    requires n'.book == Notify(n.book, r) && n'.seen == Record(n, r)
    requires n'.history == n.history + [NotifyOp(r)] && n'.notified == n.notified + [r]
    requires n.notified != [] ==> n.notified[|n.notified| - 1].index < r.index
    requires 1 <= r.index <= |proposers|
    requires ProposerAt(proposers, id, r.index).Some? ==> IsProposed(n.history, ProposerOn(proposers, id), r)
    ensures HistoryOk(proposers, id, n')
  {
    NotifyKeepsBook(n, r, n');
    OutcomeKeepsClients(n.history, NotifyOp(r));
    NotifyKeepsOrder(n.history, n.notified, r, |proposers|);
    ProposalsSurvive(n.history, NotifyOp(r), ProposerOn(proposers, id));
  }

  lemma NextNotified(agreed: seq<Entry>, id: nat, n: Node)
    requires NodeInv(agreed, id, n) && n.phase.Delivering? && n.phase.reports != []
    ensures var r := n.phase.reports[0];
            && 1 <= r.index <= |agreed| && IsPut(agreed[r.index - 1], r.key, r.value)
            && (n.notified != [] ==> n.notified[|n.notified| - 1].index < r.index)
  {
    HandOver(n.notified, n.phase.reports, Reports(id, agreed[..n.applied]));
    NextReportIsAgreed(agreed, id, n.applied, n.notified, n.phase.reports[0]);
  }

  lemma OtherStepsKeepHistory(proposers: seq<Option<Proposer>>, agreed: seq<Entry>, id: nat, n: Node, step: Step,
                              n': Node)
    requires HistoryOk(proposers, id, n) && NodeNext(agreed, id, n, step, n') && !step.NotifyPut? && !step.ReceivePut?
    ensures HistoryOk(proposers, id, n')
  {
    StepAddsOps(agreed, id, n, step, n');
    assert n.history + [] == n.history;
  }

  lemma NodeStepKeepsHistory(c: Cluster, id: nat, step: Step, n': Node)
    requires id < |c.nodes| && NodeInv(c.agreed, id, c.nodes[id]) && HistoryOk(c.proposers, id, c.nodes[id])
    requires |c.proposers| == |c.agreed| && AllProposed(c.nodes, c.agreed, c.proposers)
    requires NodeNext(c.agreed, id, c.nodes[id], step, n')
    ensures HistoryOk(c.proposers, id, n')
  {
    match step
    case NotifyPut => NotifyKeepsHistory(c, id, n');
    case ReceivePut(req, lib) => PutKeepsHistory(c.proposers, c.agreed, id, c.nodes[id], req, lib, n');
    case _ => OtherStepsKeepHistory(c.proposers, c.agreed, id, c.nodes[id], step, n');
  }

  /** Agreement on more entries leaves the proposers of notified ones alone. */
  lemma AgreementKeepsHistory(proposers: seq<Option<Proposer>>, more: seq<Option<Proposer>>, id: nat, n: Node)
    requires HistoryOk(proposers, id, n)
    ensures HistoryOk(proposers + more, id, n)
  {
    var all := proposers + more;
    forall j | 0 <= j < |n.history| && n.history[j].NotifyOp? && ProposerOn(all, id)(n.history[j].report.index).Some?
      ensures HasProposal(n.history, ProposerOn(all, id), j)
    {
      assert HasProposal(n.history, ProposerOn(proposers, id), j);
      var i :| 0 <= i < j && Proposes(n.history[i], ProposerOn(proposers, id), n.history[j].report);
      assert Proposes(n.history[i], ProposerOn(all, id), n.history[j].report);
    }
  }

  lemma AllProposedTogether(nodes: seq<Node>, es: seq<Entry>, from: seq<Option<Proposer>>, es': seq<Entry>,
                            from': seq<Option<Proposer>>)
    requires AllProposed(nodes, es, from) && AllProposed(nodes, es', from')
    ensures AllProposed(nodes, es + es', from + from')
  {
  }

  lemma NextKeepsProposers(c: Cluster, a: Action, c': Cluster)
    requires Inv(c) && ProposersOk(c) && Next(c, a, c')
    ensures ProposersOk(c')
  {
    match a
    case Agree(es, from) =>
      AllProposedTogether(c.nodes, c.agreed, c.proposers, es, from);
      forall id | 0 <= id < |c.nodes|
        ensures HistoryOk(c'.proposers, id, c'.nodes[id])
      {
        AgreementKeepsHistory(c.proposers, from, id, c.nodes[id]);
      }
    case NodeStep(id, step) =>
      StepAddsOps(c.agreed, id, c.nodes[id], step, c'.nodes[id]);
      StillProposed(c.nodes, id, c'.nodes[id], c.agreed, c.proposers);
      NodeStepKeepsHistory(c, id, step, c'.nodes[id]);
  }

  lemma {:induction false} RunKeepsProposers(run: seq<Cluster>, actions: seq<Action>, i: nat)
    requires IsRun(run, actions) && i < |run|
    ensures ProposersOk(run[i])
  {
    if i > 0 {
      RunKeepsProposers(run, actions, i - 1);
      RunKeeps(run, actions, i - 1);
      assert StepAt(run, actions, i - 1);
      NextKeepsProposers(run[i - 1], actions[i - 1], run[i]);
    }
  }

  // ---------- Theorems ----------

  /** Each entry has one proposer, so histories in log order are well formed. */
  lemma HistoryIsWellFormed(proposers: seq<Option<Proposer>>, id: nat, n: Node)
    requires HistoryOk(proposers, id, n) && ProposedOnce(proposers)
    ensures WellFormed(n.history, ProposerOn(proposers, id))
  {
    var ops, proposer := n.history, ProposerOn(proposers, id);
    forall i, j | 0 <= i < j < |ops| && ops[i].NotifyOp? && ops[j].NotifyOp? && proposer(ops[i].report.index).Some?
      ensures proposer(ops[i].report.index) != proposer(ops[j].report.index)
    {
      var x, y := ops[i].report.index - 1, ops[j].report.index - 1;
      assert proposers[x] != proposers[y];
    }
  }

  /** In every reachable state of every run, and on every node: each Ok that clients saw
      went to the client whose put became the entry it names, if and only if no entry was
      applied while a waiting put of its pair stood before its proposer's own. */
  lemma OksReachTheirProposersIffUnambiguous(run: seq<Cluster>, actions: seq<Action>, i: nat, id: nat)
    requires IsRun(run, actions) && i < |run| && id < |run[i].nodes|
    ensures var (c, n) := (run[i], run[i].nodes[id]);
            && n.book.acked == OksIn(n.seen)
            && (OksReachProposers(OksIn(n.seen), ProposerOn(c.proposers, id)) <==>
                Unambiguous(n.history, ProposerOn(c.proposers, id)))
  {
    RunKeepsProposers(run, actions, i);
    var (c, n) := (run[i], run[i].nodes[id]);
    assert HistoryOk(c.proposers, id, n);
    HistoryIsWellFormed(c.proposers, id, n);
    OksReachProposersIffUnambiguous(n.history, ProposerOn(c.proposers, id));
  }

  /** In particular they all do when a node's proposals are agreed in order and without
      loss and entries from elsewhere never equal a waiting pair, even if equal pairs wait
      together; and, losses or not, when no two equal pairs ever wait together. */
  lemma OksReachTheirProposers(run: seq<Cluster>, actions: seq<Action>, i: nat, id: nat)
    requires IsRun(run, actions) && i < |run| && id < |run[i].nodes|
    requires var (ops, proposer) := (run[i].nodes[id].history, ProposerOn(run[i].proposers, id));
             && ForeignPairsDiffer(ops, proposer)
             && (InOrderWithoutLoss(ops, proposer) || WaitingPairsDistinct(ops, proposer))
    ensures OksReachProposers(OksIn(run[i].nodes[id].seen), ProposerOn(run[i].proposers, id))
  {
    RunKeepsProposers(run, actions, i);
    var (c, n) := (run[i], run[i].nodes[id]);
    var proposer := ProposerOn(c.proposers, id);
    assert HistoryOk(c.proposers, id, n);
    HistoryIsWellFormed(c.proposers, id, n);
    if InOrderWithoutLoss(n.history, proposer) {
      InOrderRunsAreUnambiguous(n.history, proposer);
    } else {
      DistinctPairsAreUnambiguous(n.history, proposer);
    }
    OksReachProposersIffUnambiguous(n.history, proposer);
  }
}
