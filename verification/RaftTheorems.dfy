/** What this node software guarantees on top of the Raft library, in every reachable
    state of every run of the cluster. */
module RaftTheorems {
  import opened Basics
  import opened RaftLog
  import opened RaftNodes
  import opened RaftCluster
  import opened RaftSafety

  /** The only way a poll fails is an entry that does not decode: in a reachable state
      the entries of a Ready never leave a gap in storage. */
  lemma AppendNeverFails(run: seq<Cluster>, actions: seq<Action>, i: nat, id: nat)
    requires IsRun(run, actions) && i < |run| && id < |run[i].nodes| && run[i].nodes[id].phase.HardStateStored?
    ensures Appendable(run[i].nodes[id].view.stored, run[i].nodes[id].phase.ready.entries)
  {
    RunKeeps(run, actions, i);
    var n := run[i].nodes[id];
    assert NodeInv(run[i].agreed, id, n);
    var es := n.phase.ready.entries;
    var n' := if Appendable(n.view.stored, es)
              then n.(view := EntriesWritten(n.view, es), phase := EntriesStored(n.phase.ready))
              else n.(phase := Halted);
    StoreEntriesKeeps(run[i].agreed, id, n, n');
  }

  // ---------- Convergence ----------

  /** Every store is the replay of a prefix of the one agreed log, so a node that has
      applied more is the continuation of one that has applied less, and nodes that
      have applied equally much agree on every key. */
  lemma StoresConverge(run: seq<Cluster>, actions: seq<Action>, i: nat, a: nat, b: nat)
    requires IsRun(run, actions) && i < |run| && a < |run[i].nodes| && b < |run[i].nodes|
    ensures var (c, m, n) := (run[i], run[i].nodes[a], run[i].nodes[b]);
            && m.applied <= |c.agreed| && n.applied <= |c.agreed|
            && m.view.store == Replay(c.agreed[..m.applied])
            && (m.applied <= n.applied ==> n.view.store == ApplyTo(m.view.store, c.agreed[m.applied..n.applied]))
            && (m.applied == n.applied ==> n.view.store == m.view.store)
  {
    RunKeeps(run, actions, i);
    var (c, m, n) := (run[i], run[i].nodes[a], run[i].nodes[b]);
    assert NodeInv(c.agreed, a, m) && NodeInv(c.agreed, b, n);
    if m.applied <= n.applied {
      ReplayContinues(c.agreed, m.applied, n.applied);
    }
  }

  lemma ReplayContinues(log: seq<Entry>, a: nat, b: nat)
    requires a <= b <= |log|
    ensures Replay(log[..b]) == ApplyTo(Replay(log[..a]), log[a..b])
  {
    ApplyInBatches(map[], log[..a], log[a..b]);
    assert log[..a] + log[a..b] == log[..b];
  }

  /** The reports a node has handled follow the log, whatever the batches were; a node
      between two polls has handled all of them. */
  lemma ReportsConverge(run: seq<Cluster>, actions: seq<Action>, i: nat, a: nat, b: nat)
    requires IsRun(run, actions) && i < |run| && a < |run[i].nodes| && b < |run[i].nodes|
    requires run[i].nodes[a].phase.Idle? && run[i].nodes[b].phase.Idle?
    requires run[i].nodes[a].applied == run[i].nodes[b].applied
    ensures var (m, n) := (run[i].nodes[a], run[i].nodes[b]);
            && m.applied <= |run[i].agreed|
            && m.notified == Reports(a, run[i].agreed[..m.applied])
            && |m.notified| == |n.notified|
            && forall k :: 0 <= k < |m.notified| ==> m.notified[k] == n.notified[k].(nodeId := a)
  {
    RunKeeps(run, actions, i);
    var (c, m, n) := (run[i], run[i].nodes[a], run[i].nodes[b]);
    assert NodeInv(c.agreed, a, m) && NodeInv(c.agreed, b, n);
    assert m.notified + [] == m.notified && n.notified + [] == n.notified;
    ReportsDifferOnlyInNode(a, b, c.agreed[..m.applied]);
  }

  /** When the drain loop finds nothing ready, the node has caught up: it has stored its
      whole log, stored the commit index, applied every entry that it knows to be committed
      and handled all their reports. */
  lemma QuietNodeHasCaughtUp(run: seq<Cluster>, actions: seq<Action>, i: nat, id: nat)
    requires IsRun(run, actions) && i < |run| && id < |run[i].nodes|
    requires run[i].nodes[id].phase.Idle? && NothingReady(run[i].nodes[id].raw)
    ensures var (c, n) := (run[i], run[i].nodes[id]);
            && n.applied == n.raw.committed == n.view.hard.commit <= |c.agreed|
            && |n.raw.log| <= |n.view.stored| && n.view.stored[..|n.raw.log|] == n.raw.log
            && n.view.store == Replay(c.agreed[..n.raw.committed])
            && n.notified == Reports(id, c.agreed[..n.raw.committed])
  {
    RunKeeps(run, actions, i);
    var (c, n) := (run[i], run[i].nodes[id]);
    assert NodeInv(c.agreed, id, n);
    assert |c.agreed[n.applied..n.raw.handed]| == 0;
    assert n.notified + [] == n.notified;
    assert n.raw.log[..|n.raw.log|] == n.raw.log;
  }

  // ---------- Write-ahead order ----------

  /** No entry is applied before it is in storage under a stored commit index that
      covers it. */
  lemma AppliedEntriesAreDurable(run: seq<Cluster>, actions: seq<Action>, i: nat, id: nat)
    requires IsRun(run, actions) && i < |run| && id < |run[i].nodes|
    ensures var (c, n) := (run[i], run[i].nodes[id]);
            && n.applied <= n.view.hard.commit <= |c.agreed|
            && n.applied <= |n.view.stored|
            && n.view.stored[..n.applied] == c.agreed[..n.applied]
  {
    RunKeeps(run, actions, i);
    var (c, n) := (run[i], run[i].nodes[id]);
    assert NodeInv(c.agreed, id, n);
    calc {
      n.view.stored[..n.applied];
      n.view.stored[..n.raw.persisted][..n.applied];
      n.raw.log[..n.raw.persisted][..n.applied];
      n.raw.log[..n.raw.committed][..n.applied];
      c.agreed[..n.applied];
    }
  }

  /** No message leaves the node before the hard state, the entries and the commit
      index of its bundle are in storage. */
  lemma MessagesFollowStorage(run: seq<Cluster>, actions: seq<Action>, i: nat, id: nat)
    requires IsRun(run, actions) && i < |actions| && actions[i] == NodeStep(id, Dispatch) && id < |run[i].nodes|
    ensures var n := run[i].nodes[id];
            && n.phase.Delivering?
            && HardStateCovers(n.view.hard, n.phase.ready.hs)
            && InStorage(n.view.stored, n.phase.ready.entries)
            && (n.phase.light.commit.Some? ==> n.phase.light.commit.value <= n.view.hard.commit)
  {
    RunKeeps(run, actions, i);
    assert StepAt(run, actions, i);
    assert NodeInv(run[i].agreed, id, run[i].nodes[id]);
  }

  /** What one step may do to a node: nothing goes back. */
  ghost predicate Forward(n: Node, n': Node) {
    && n.view.hard.commit <= n'.view.hard.commit
    && n.applied <= n'.applied
    && n.notified <= n'.notified
    && n.seen <= n'.seen
  }

  lemma StepIsForward(agreed: seq<Entry>, id: nat, n: Node, step: Step, n': Node)
    requires NodeInv(agreed, id, n) && NodeNext(agreed, id, n, step, n')
    ensures Forward(n, n')
  {
  }

  /** Stored commit indices, applied counts, handled reports and what clients saw only
      ever grow along a run, and the agreed log is never rewritten. */
  lemma {:induction false} NothingGoesBack(run: seq<Cluster>, actions: seq<Action>, i: nat, j: nat, id: nat)
    requires IsRun(run, actions) && i <= j < |run| && id < |run[i].nodes|
    ensures |run[j].nodes| == |run[i].nodes|
    ensures run[i].agreed <= run[j].agreed && Forward(run[i].nodes[id], run[j].nodes[id])
  {
    if i < j {
      NothingGoesBack(run, actions, i, j - 1, id);
      RunKeeps(run, actions, j - 1);
      assert StepAt(run, actions, j - 1);
      NextIsForward(run[j - 1], actions[j - 1], run[j], id);
      ForwardIsTransitive(run[i].nodes[id], run[j - 1].nodes[id], run[j].nodes[id]);
    }
  }

  lemma NextIsForward(c: Cluster, a: Action, c': Cluster, id: nat)
    requires Inv(c) && Next(c, a, c') && id < |c.nodes|
    ensures |c'.nodes| == |c.nodes|
    ensures c.agreed <= c'.agreed && Forward(c.nodes[id], c'.nodes[id])
  {
    if a.NodeStep? && a.id == id {
      StepIsForward(c.agreed, id, c.nodes[id], a.step, c'.nodes[id]);
    }
  }

  lemma ForwardIsTransitive(a: Node, b: Node, c: Node)
    requires Forward(a, b) && Forward(b, c)
    ensures Forward(a, c)
  {
  }

  // ---------- What clients see ----------

  /** An Ok is never premature: its entry is agreed, applied on the answering node, and
      puts the client's pair; and it stays in the log for the rest of the run. */
  lemma OkMeansAppliedForGood(run: seq<Cluster>, actions: seq<Action>, i: nat, j: nat, id: nat, p: nat)
    requires IsRun(run, actions) && i <= j < |run| && id < |run[i].nodes|
    requires p < |run[i].nodes[id].seen| && run[i].nodes[id].seen[p].PutOk?
    ensures var ok := run[i].nodes[id].seen[p];
            && 1 <= ok.index <= run[i].nodes[id].applied <= |run[i].agreed| <= |run[j].agreed|
            && IsPut(run[j].agreed[ok.index - 1], ok.put.key, ok.put.value)
  {
    RunKeeps(run, actions, i);
    NothingGoesBack(run, actions, i, j, id);
    var n := run[i].nodes[id];
    assert NodeInv(run[i].agreed, id, n) && FactOk(run[i].agreed, n, n.seen[p]);
    assert run[j].agreed[..|run[i].agreed|] == run[i].agreed;
  }

  lemma {:induction false} FindLastPut(es: seq<Entry>, key: string, x: nat) returns (z: nat)
    requires x < |es| && PutsTo(es[x], key)
    ensures x <= z < |es| && PutsTo(es[z], key) && forall j :: z < j < |es| ==> !PutsTo(es[j], key)
    decreases |es|
  {
    if x == |es| - 1 || PutsTo(es[|es| - 1], key) {
      z := |es| - 1;
    } else {
      z := FindLastPut(es[..|es| - 1], key, x);
    }
  }

  /** Read your writes: after an Ok for a put on a key through entry x, a Get of that key
      on the same node answers the last put to it among the first `at` entries of the
      agreed log, and that put (at position z, index z + 1) is entry x or a later one. */
  lemma ReadYourWrites(run: seq<Cluster>, actions: seq<Action>, i: nat, id: nat, p: nat, q: nat) returns (z: nat)
    requires IsRun(run, actions) && i < |run| && id < |run[i].nodes|
    requires p < q < |run[i].nodes[id].seen|
    requires run[i].nodes[id].seen[p].PutOk? && run[i].nodes[id].seen[q].GetAnswer?
    requires run[i].nodes[id].seen[p].put.key == run[i].nodes[id].seen[q].key
    ensures var (ok, got, agreed) := (run[i].nodes[id].seen[p], run[i].nodes[id].seen[q], run[i].agreed);
            && 1 <= ok.index <= z + 1 <= got.at <= |agreed|
            && PutsTo(agreed[z], got.key)
            && (forall j :: z < j < got.at ==> !PutsTo(agreed[j], got.key))
            && got.value == Some(agreed[z].data.cmd.value)
  {
    RunKeeps(run, actions, i);
    var (ok, got, agreed) := (run[i].nodes[id].seen[p], run[i].nodes[id].seen[q], run[i].agreed);
    var n := run[i].nodes[id];
    assert NodeInv(agreed, id, n);
    assert FactOk(agreed, n, ok) && FactOk(agreed, n, got) && Ordered(ok, got);
    var es := agreed[..got.at];
    assert es[ok.index - 1] == agreed[ok.index - 1];
    z := FindLastPut(es, got.key, ok.index - 1);
    LastPutWins(es, got.key, z);
    forall j | z < j < got.at
      ensures !PutsTo(agreed[j], got.key)
    {
      assert !PutsTo(es[j], got.key);
    }
  }

  /** Every Get answers from one prefix of the agreed log, and no later Get on the same
      node answers from a shorter one. */
  lemma ReadsAreMonotone(run: seq<Cluster>, actions: seq<Action>, i: nat, id: nat, p: nat, q: nat)
    requires IsRun(run, actions) && i < |run| && id < |run[i].nodes|
    requires p < q < |run[i].nodes[id].seen|
    requires run[i].nodes[id].seen[p].GetAnswer? && run[i].nodes[id].seen[q].GetAnswer?
    ensures var (first, second, agreed) := (run[i].nodes[id].seen[p], run[i].nodes[id].seen[q], run[i].agreed);
            && first.at <= second.at <= |agreed|
            && first.value == Lookup(Replay(agreed[..first.at]), first.key)
            && second.value == Lookup(Replay(agreed[..second.at]), second.key)
  {
    RunKeeps(run, actions, i);
    var n := run[i].nodes[id];
    assert NodeInv(run[i].agreed, id, n);
    assert FactOk(run[i].agreed, n, n.seen[p]) && FactOk(run[i].agreed, n, n.seen[q]);
    assert Ordered(n.seen[p], n.seen[q]);
  }
}
