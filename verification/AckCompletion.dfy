/** The other half of acknowledging by first match: in an unambiguous history no put whose
    entry was applied is left waiting. */
module AckCompletion {
  import opened Basics
  import opened RaftLog
  import opened PendingPuts
  import opened AckSimulation

  lemma UnambiguousTake(ops: seq<Op>, n: nat, proposer: nat -> Option<nat>)
    requires n <= |ops| && Unambiguous(ops, proposer)
    ensures Unambiguous(ops[..n], proposer)
  {
    forall i | 0 <= i < n
      ensures ClearAt(ops[..n], proposer, i)
    {
      assert ClearAt(ops, proposer, i);
      assert ops[..n][..i] == ops[..i];
    }
  }

  /** The client has its Ok for the entry, and no put of it waits. */
  ghost predicate Completed(b: Book, ack: Ack) {
    ack in b.acked && forall k :: 0 <= k < |b.pending| ==> b.pending[k].client != ack.put.client
  }

  lemma StaysCompleted(b: Book, op: Op, ack: Ack)
    requires Completed(b, ack) && (op.AcceptOp? ==> op.put.client != ack.put.client)
    ensures Completed(Perform(b, op), ack)
  {
    if op.NotifyOp? && FirstMatch(b.pending, op.report.key, op.report.value) < |b.pending| {
      var k :| 0 <= k < |b.acked| && b.acked[k] == ack;
      assert Notify(b, op.report).acked[k] == ack;
    }
  }

  lemma {:induction false} CompletedForGood(ops: seq<Op>, n: nat, ack: Ack)
    requires n <= |ops| && Completed(Performed(ops[..n]), ack)
    requires forall i :: n <= i < |ops| && ops[i].AcceptOp? ==> ops[i].put.client != ack.put.client
    ensures Completed(Performed(ops), ack)
    decreases |ops|
  {
    if n == |ops| {
      assert ops[..n] == ops;
    } else {
      var init := ops[..|ops| - 1];
      assert init[..n] == ops[..n];
      CompletedForGood(init, n, ack);
      StaysCompleted(Performed(init), ops[|ops| - 1], ack);
    }
  }

  /** The put that became entry r waits when r is applied, at the position where the
      reference finds it. */
  lemma OwnPutWaits(ops: seq<Op>, i: nat, proposer: nat -> Option<nat>, client: nat) returns (j: nat)
    requires WellFormed(ops, proposer) && i < |ops| && ops[i].NotifyOp?
    requires proposer(ops[i].report.index) == Some(client)
    ensures j < i && ops[j] == AcceptOp(PendingPut(client, ops[i].report.key, ops[i].report.value))
    ensures var (pending, r) := (Waiting(ops[..i], proposer), ops[i].report);
            var own := OwnPosition(pending, Some(client));
            DifferentClients(pending) && own < |pending| && pending[own] == PendingPut(client, r.key, r.value)
  {
    var pending, r := Waiting(ops[..i], proposer), ops[i].report;
    assert HasProposal(ops, proposer, i);
    j :| 0 <= j < i && Proposes(ops[j], proposer, r);
    ProposedWaits(ops, j, i, proposer);
    WellFormedTake(ops, i, proposer);
    WaitingWereAccepted(ops[..i], proposer);
    var k :| 0 <= k < |pending| && pending[k] == ops[j].put;
    assert OwnPosition(pending, Some(client)) == k;
  }

  lemma OwnPutIsServed(b: Book, r: ApplyReport, client: nat)
    requires DifferentClients(b.pending) && OwnPosition(b.pending, Some(client)) < |b.pending|
    requires b.pending[OwnPosition(b.pending, Some(client))] == PendingPut(client, r.key, r.value)
    requires Clear(b.pending, Some(client), r.key, r.value)
    ensures Completed(Notify(b, r), Ack(PendingPut(client, r.key, r.value), r.index))
  {
    var own := OwnPosition(b.pending, Some(client));
    assert FirstMatch(b.pending, r.key, r.value) == own;
    assert Notify(b, r).acked[|b.acked|] == Ack(b.pending[own], r.index);
  }

  lemma ServedAtItsEntry(ops: seq<Op>, i: nat, proposer: nat -> Option<nat>, client: nat)
    requires WellFormed(ops, proposer) && Unambiguous(ops, proposer) && i < |ops| && ops[i].NotifyOp?
    requires proposer(ops[i].report.index) == Some(client)
    ensures var r := ops[i].report;
            Completed(Performed(ops[..i + 1]), Ack(PendingPut(client, r.key, r.value), r.index))
  {
    var j := OwnPutWaits(ops, i, proposer, client);
    WellFormedTake(ops, i, proposer);
    UnambiguousTake(ops, i, proposer);
    MatchingByPairSimulatesMatchingById(ops[..i], proposer);
    assert ClearAt(ops, proposer, i);
    OwnPutIsServed(Performed(ops[..i]), ops[i].report, client);
    assert ops[..i + 1][..i] == ops[..i];
  }

  /** In an unambiguous history a put whose own entry was applied has its Ok, for that
      entry, and waits no longer. */
  lemma AppliedPutIsAcknowledged(ops: seq<Op>, i: nat, proposer: nat -> Option<nat>, client: nat)
    requires WellFormed(ops, proposer) && Unambiguous(ops, proposer) && i < |ops| && ops[i].NotifyOp?
    requires proposer(ops[i].report.index) == Some(client)
    ensures var (b, r) := (Performed(ops), ops[i].report);
            && Ack(PendingPut(client, r.key, r.value), r.index) in b.acked
            && forall k :: 0 <= k < |b.pending| ==> b.pending[k].client != client
  {
    var j := OwnPutWaits(ops, i, proposer, client);
    ServedAtItsEntry(ops, i, proposer, client);
    var r := ops[i].report;
    CompletedForGood(ops, i + 1, Ack(PendingPut(client, r.key, r.value), r.index));
  }
}
