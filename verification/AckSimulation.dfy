/** Acknowledging by first (key, value) match against acknowledging by request id.

    The reference knows whose proposal each applied entry was: `proposer` gives, for a
    log index, the client of this node that proposed the entry (None when another node
    or an earlier leader did). The worker has no such knowledge. The theorems say exactly
    when its answers are nevertheless the reference's. */
module AckSimulation {
  import opened Basics
  import opened RaftLog
  import opened PendingPuts

  // ---------- The worker ----------

  /** Whom the worker answers on applying an entry. */
  function WorkerAnswer(b: Book, r: ApplyReport): Option<nat> {
    var i := FirstMatch(b.pending, r.key, r.value);
    if i < |b.pending| then Some(b.pending[i].client) else None
  }

  function WorkerAnswers(ops: seq<Op>): seq<Option<nat>> {
    if ops == [] then []
    else
      var init, op := ops[..|ops| - 1], ops[|ops| - 1];
      WorkerAnswers(init) + if op.NotifyOp? then [WorkerAnswer(Performed(init), op.report)] else []
  }

  // ---------- The reference ----------

  /** Position of the proposer's own put, or the length when it is not waiting. */
  function OwnPosition(pending: seq<PendingPut>, origin: Option<nat>): (r: nat)
    ensures r <= |pending|
    ensures r < |pending| ==> origin == Some(pending[r].client)
    ensures forall j :: 0 <= j < r ==> origin != Some(pending[j].client)
  {
    if pending == [] || origin == Some(pending[0].client) then 0
    else 1 + OwnPosition(pending[1..], origin)
  }

  function WaitingAfter(pending: seq<PendingPut>, op: Op, proposer: nat -> Option<nat>): seq<PendingPut> {
    match op
    case AcceptOp(p) => pending + [p]
    case RefuseOp(_) => pending
    case NotifyOp(r) =>
      var i := OwnPosition(pending, proposer(r.index));
      if i < |pending| then RemoveAt(pending, i) else pending
  }

  function Waiting(ops: seq<Op>, proposer: nat -> Option<nat>): seq<PendingPut> {
    if ops == [] then []
    else WaitingAfter(Waiting(ops[..|ops| - 1], proposer), ops[|ops| - 1], proposer)
  }

  function ReferenceAnswer(pending: seq<PendingPut>, origin: Option<nat>): Option<nat> {
    if OwnPosition(pending, origin) < |pending| then origin else None
  }

  function ReferenceAnswers(ops: seq<Op>, proposer: nat -> Option<nat>): seq<Option<nat>> {
    if ops == [] then []
    else
      var init, op := ops[..|ops| - 1], ops[|ops| - 1];
      ReferenceAnswers(init, proposer) +
      if op.NotifyOp? then [ReferenceAnswer(Waiting(init, proposer), proposer(op.report.index))] else []
  }

  // ---------- What a history looks like ----------

  /** Each put has a channel of its own, and an entry that came from a put carries
      that put's pair, comes after it, and is applied once. */
  ghost predicate WellFormed(ops: seq<Op>, proposer: nat -> Option<nat>) {
    && ClientsDiffer(ops)
    && (forall i, j ::
          0 <= i < j < |ops| && ops[i].NotifyOp? && ops[j].NotifyOp? && proposer(ops[i].report.index).Some? ==>
          proposer(ops[i].report.index) != proposer(ops[j].report.index))
    && (forall j :: 0 <= j < |ops| && ops[j].NotifyOp? && proposer(ops[j].report.index).Some? ==>
        HasProposal(ops, proposer, j))
  }

  ghost predicate ClientsDiffer(ops: seq<Op>) {
    forall i, j :: 0 <= i < j < |ops| && ops[i].AcceptOp? && ops[j].AcceptOp? ==> ops[i].put.client != ops[j].put.client
  }

  ghost predicate HasProposal(ops: seq<Op>, proposer: nat -> Option<nat>, j: nat)
    requires j < |ops| && ops[j].NotifyOp?
  {
    exists i :: 0 <= i < j && Proposes(ops[i], proposer, ops[j].report)
  }

  predicate Proposes(op: Op, proposer: nat -> Option<nat>, r: ApplyReport) {
    op.AcceptOp? && proposer(r.index) == Some(op.put.client) && Matches(op.put, r.key, r.value)
  }

  /** No waiting put of this pair stands before the proposer's own, or anywhere
      when the proposer is not waiting. */
  ghost predicate Clear(pending: seq<PendingPut>, origin: Option<nat>, key: string, value: string) {
    forall i :: 0 <= i < OwnPosition(pending, origin) ==> !Matches(pending[i], key, value)
  }

  ghost predicate ClearFor(pending: seq<PendingPut>, op: Op, proposer: nat -> Option<nat>) {
    op.NotifyOp? ==> Clear(pending, proposer(op.report.index), op.report.key, op.report.value)
  }

  ghost predicate ClearAt(ops: seq<Op>, proposer: nat -> Option<nat>, i: nat)
    requires i < |ops|
  {
    ClearFor(Waiting(ops[..i], proposer), ops[i], proposer)
  }

  ghost predicate Unambiguous(ops: seq<Op>, proposer: nat -> Option<nat>) {
    forall i :: 0 <= i < |ops| ==> ClearAt(ops, proposer, i)
  }

  /** Every Ok went to the client whose proposal became the entry that caused it. */
  ghost predicate OksReachProposers(acks: seq<Ack>, proposer: nat -> Option<nat>) {
    forall i :: 0 <= i < |acks| ==> proposer(acks[i].index) == Some(acks[i].put.client)
  }

  lemma WellFormedPrefix(ops: seq<Op>, proposer: nat -> Option<nat>)
    requires ops != [] && WellFormed(ops, proposer)
    ensures WellFormed(ops[..|ops| - 1], proposer)
  {
    var init := ops[..|ops| - 1];
    forall j | 0 <= j < |init| && init[j].NotifyOp? && proposer(init[j].report.index).Some?
      ensures HasProposal(init, proposer, j)
    {
      assert HasProposal(ops, proposer, j);
      var i :| 0 <= i < j && Proposes(ops[i], proposer, ops[j].report);
      assert init[i] == ops[i];
    }
  }

  lemma UnambiguousPrefix(ops: seq<Op>, proposer: nat -> Option<nat>)
    requires ops != []
    ensures Unambiguous(ops, proposer) <==> Unambiguous(ops[..|ops| - 1], proposer) && ClearAt(ops, proposer, |ops| - 1)
  {
    var init := ops[..|ops| - 1];
    forall i | 0 <= i < |init|
      ensures ClearAt(ops, proposer, i) == ClearAt(init, proposer, i)
    {
      assert init[..i] == ops[..i];
    }
  }

  // ---------- The puts that wait ----------

  ghost predicate DifferentClients(pending: seq<PendingPut>) {
    forall i, j :: 0 <= i < j < |pending| ==> pending[i].client != pending[j].client
  }

  ghost predicate AllAccepted(pending: seq<PendingPut>, ops: seq<Op>) {
    forall i :: 0 <= i < |pending| ==> AcceptOp(pending[i]) in ops
  }

  /** Waiting puts were accepted, and belong to different clients. */
  lemma {:induction false} WaitingWereAccepted(ops: seq<Op>, proposer: nat -> Option<nat>)
    requires ClientsDiffer(ops)
    ensures AllAccepted(Waiting(ops, proposer), ops) && DifferentClients(Waiting(ops, proposer))
  {
    if ops != [] {
      var init, op := ops[..|ops| - 1], ops[|ops| - 1];
      WaitingWereAccepted(init, proposer);
      AcceptedStep(Waiting(init, proposer), init, op, proposer);
      assert ops == init + [op];
    }
  }

  lemma AcceptedStep(pending: seq<PendingPut>, init: seq<Op>, op: Op, proposer: nat -> Option<nat>)
    requires AllAccepted(pending, init) && DifferentClients(pending) && ClientsDiffer(init + [op])
    ensures var pending' := WaitingAfter(pending, op, proposer);
            AllAccepted(pending', init + [op]) && DifferentClients(pending')
  {
    var pending' := WaitingAfter(pending, op, proposer);
    forall i | 0 <= i < |pending'|
      ensures AcceptOp(pending'[i]) in init + [op]
    {
      if pending'[i] in pending {
        var k :| 0 <= k < |pending| && pending[k] == pending'[i];
        assert AcceptOp(pending[k]) in init;
      }
    }
    if op.AcceptOp? {
      forall i | 0 <= i < |pending|
        ensures pending[i].client != op.put.client
      {
        var k :| 0 <= k < |init| && init[k] == AcceptOp(pending[i]);
        assert (init + [op])[k] == init[k] && (init + [op])[|init|] == op;
      }
    }
  }

  /** A waiting put whose entry is applied carries the entry's pair. */
  ghost predicate OwnMatches(pending: seq<PendingPut>, op: Op, proposer: nat -> Option<nat>) {
    op.NotifyOp? ==>
      var i := OwnPosition(pending, proposer(op.report.index));
      i < |pending| ==> Matches(pending[i], op.report.key, op.report.value)
  }

  lemma OwnPutMatches(ops: seq<Op>, proposer: nat -> Option<nat>)
    requires ops != [] && WellFormed(ops, proposer)
    ensures OwnMatches(Waiting(ops[..|ops| - 1], proposer), ops[|ops| - 1], proposer)
  {
    var init, op := ops[..|ops| - 1], ops[|ops| - 1];
    var pending := Waiting(init, proposer);
    if op.NotifyOp? && OwnPosition(pending, proposer(op.report.index)) < |pending| {
      var i := OwnPosition(pending, proposer(op.report.index));
      WaitingWereAccepted(init, proposer);
      var k :| 0 <= k < |init| && init[k] == AcceptOp(pending[i]);
      assert HasProposal(ops, proposer, |ops| - 1);
      var j :| 0 <= j < |ops| - 1 && Proposes(ops[j], proposer, op.report);
      assert ops[k] == AcceptOp(pending[i]);
      assert j == k;
    }
  }

  // ---------- The simulation ----------

  /** On one entry, from the same table, the worker answers as the reference does
      exactly when the table is clear; and exactly then an Ok, if it sends one, goes to
      the entry's proposer. */
  lemma OneEntry(pending: seq<PendingPut>, origin: Option<nat>, b: Book, r: ApplyReport)
    requires b.pending == pending && DifferentClients(pending)
    requires OwnPosition(pending, origin) < |pending| ==> Matches(pending[OwnPosition(pending, origin)], r.key, r.value)
    ensures WorkerAnswer(b, r) == ReferenceAnswer(pending, origin) <==> Clear(pending, origin, r.key, r.value)
    ensures (WorkerAnswer(b, r).Some? ==> WorkerAnswer(b, r) == origin) <==> Clear(pending, origin, r.key, r.value)
    ensures Clear(pending, origin, r.key, r.value) ==>
              var i := OwnPosition(pending, origin);
              Notify(b, r).pending == if i < |pending| then RemoveAt(pending, i) else pending
  {
    var first, own := FirstMatch(pending, r.key, r.value), OwnPosition(pending, origin);
    if own < |pending| {
      assert first <= own;
    }
  }

  /** One operation, from the same table. */
  lemma OneStep(b: Book, op: Op, proposer: nat -> Option<nat>)
    requires DifferentClients(b.pending) && OwnMatches(b.pending, op, proposer)
    ensures ClearFor(b.pending, op, proposer) ==> Perform(b, op).pending == WaitingAfter(b.pending, op, proposer)
    ensures op.NotifyOp? ==>
              var answer, origin := WorkerAnswer(b, op.report), proposer(op.report.index);
              && (answer == ReferenceAnswer(b.pending, origin) <==> ClearFor(b.pending, op, proposer))
              && ((answer.Some? ==> answer == origin) <==> ClearFor(b.pending, op, proposer))
  {
    if op.NotifyOp? {
      OneEntry(b.pending, proposer(op.report.index), b, op.report);
    }
  }

  lemma HistoryIsOrderly(ops: seq<Op>, proposer: nat -> Option<nat>)
    requires ops != [] && WellFormed(ops, proposer)
    ensures var pending := Waiting(ops[..|ops| - 1], proposer);
            DifferentClients(pending) && OwnMatches(pending, ops[|ops| - 1], proposer)
  {
    WellFormedPrefix(ops, proposer);
    WaitingWereAccepted(ops[..|ops| - 1], proposer);
    OwnPutMatches(ops, proposer);
  }

  /** Main theorem: over a whole history the worker answers, at every entry, the client
      that acknowledging by request id would answer, if and only if at every applied
      entry no waiting put of the same pair stands before the proposer's own. */
  lemma {:induction false} MatchingByPairSimulatesMatchingById(ops: seq<Op>, proposer: nat -> Option<nat>)
    requires WellFormed(ops, proposer)
    ensures WorkerAnswers(ops) == ReferenceAnswers(ops, proposer) <==> Unambiguous(ops, proposer)
    ensures |WorkerAnswers(ops)| == |ReferenceAnswers(ops, proposer)|
    ensures Unambiguous(ops, proposer) ==> Performed(ops).pending == Waiting(ops, proposer)
  {
    if ops != [] {
      var init, op := ops[..|ops| - 1], ops[|ops| - 1];
      WellFormedPrefix(ops, proposer);
      UnambiguousPrefix(ops, proposer);
      MatchingByPairSimulatesMatchingById(init, proposer);
      if Unambiguous(init, proposer) {
        HistoryIsOrderly(ops, proposer);
        OneStep(Performed(init), op, proposer);
      }
      if op.NotifyOp? {
        LastOfBoth(WorkerAnswers(init), WorkerAnswer(Performed(init), op.report),
                   ReferenceAnswers(init, proposer),
                   ReferenceAnswer(Waiting(init, proposer), proposer(op.report.index)));
      }
    }
  }

  lemma LastOfBoth<T>(a: seq<T>, x: T, b: seq<T>, y: T)
    requires |a| == |b|
    ensures a + [x] == b + [y] <==> a == b && x == y
  {
    if a + [x] == b + [y] {
      assert a == (a + [x])[..|a|] && b == (b + [y])[..|b|];
      assert (a + [x])[|a|] == (b + [y])[|b|];
    }
  }

  /** The same in terms of the Oks sent: each goes to the client whose proposal became
      the entry that caused it, if and only if the history is unambiguous. */
  lemma {:induction false} OksReachProposersIffUnambiguous(ops: seq<Op>, proposer: nat -> Option<nat>)
    requires WellFormed(ops, proposer)
    ensures OksReachProposers(Performed(ops).acked, proposer) <==> Unambiguous(ops, proposer)
  {
    if ops != [] {
      var init, op := ops[..|ops| - 1], ops[|ops| - 1];
      WellFormedPrefix(ops, proposer);
      UnambiguousPrefix(ops, proposer);
      OksReachProposersIffUnambiguous(init, proposer);
      if Unambiguous(init, proposer) {
        MatchingByPairSimulatesMatchingById(init, proposer);
        HistoryIsOrderly(ops, proposer);
        OneStep(Performed(init), op, proposer);
      }
      OneMoreOk(Performed(init), op, proposer);
    }
  }

  lemma OneMoreOk(b: Book, op: Op, proposer: nat -> Option<nat>)
    ensures OksReachProposers(Perform(b, op).acked, proposer) <==>
            && OksReachProposers(b.acked, proposer)
            && (op.NotifyOp? && WorkerAnswer(b, op.report).Some? ==>
                WorkerAnswer(b, op.report) == proposer(op.report.index))
  {
    var acked := Perform(b, op).acked;
    if acked != b.acked {
      assert acked[..|b.acked|] == b.acked;
      assert acked[|b.acked|].index == op.report.index;
      forall i | 0 <= i < |b.acked|
        ensures acked[i] == b.acked[i]
      {
      }
    }
  }

  // ---------- Two conditions that make a history unambiguous ----------

  function ClientOf(op: Op): seq<nat> {
    if op.AcceptOp? then [op.put.client] else []
  }

  /** The clients whose puts were proposed, in order. */
  function Proposed(ops: seq<Op>): seq<nat> {
    if ops == [] then [] else Proposed(ops[..|ops| - 1]) + ClientOf(ops[|ops| - 1])
  }

  function OriginOf(op: Op, proposer: nat -> Option<nat>): seq<nat> {
    if op.NotifyOp? && proposer(op.report.index).Some? then [proposer(op.report.index).value] else []
  }

  /** The proposers of the applied entries that came from this node, in order. */
  function Origins(ops: seq<Op>, proposer: nat -> Option<nat>): seq<nat> {
    if ops == [] then [] else Origins(ops[..|ops| - 1], proposer) + OriginOf(ops[|ops| - 1], proposer)
  }

  /** The node's own proposals are applied in the order in which they were made and
      none is lost before a later one. */
  ghost predicate InOrderWithoutLoss(ops: seq<Op>, proposer: nat -> Option<nat>) {
    forall i :: 0 <= i <= |ops| ==> InOrderUpTo(ops, proposer, i)
  }

  ghost predicate InOrderUpTo(ops: seq<Op>, proposer: nat -> Option<nat>, i: nat)
    requires i <= |ops|
  {
    Origins(ops[..i], proposer) <= Proposed(ops[..i])
  }

  /** An entry of foreign origin never equals a pair that waits. */
  ghost predicate ForeignPairsDiffer(ops: seq<Op>, proposer: nat -> Option<nat>) {
    forall i :: 0 <= i < |ops| && ops[i].NotifyOp? && proposer(ops[i].report.index).None? ==>
      NoneMatches(Waiting(ops[..i], proposer), ops[i].report)
  }

  ghost predicate NoneMatches(pending: seq<PendingPut>, r: ApplyReport) {
    forall k :: 0 <= k < |pending| ==> !Matches(pending[k], r.key, r.value)
  }

  /** Whenever an entry is applied the waiting pairs are pairwise distinct. */
  ghost predicate WaitingPairsDistinct(ops: seq<Op>, proposer: nat -> Option<nat>) {
    forall i :: 0 <= i < |ops| && ops[i].NotifyOp? ==> PairsDistinct(Waiting(ops[..i], proposer))
  }

  ghost predicate PairsDistinct(pending: seq<PendingPut>) {
    forall j, k :: 0 <= j < k < |pending| ==> !Matches(pending[k], pending[j].key, pending[j].value)
  }

  /** The puts that wait are the last ones proposed. */
  ghost predicate LastOnesWait(pending: seq<PendingPut>, origins: seq<nat>, proposed: seq<nat>) {
    |origins| <= |proposed| && Clients(pending) == proposed[|origins|..]
  }

  lemma {:induction false} WaitingIsASuffix(ops: seq<Op>, proposer: nat -> Option<nat>)
    requires InOrderWithoutLoss(ops, proposer)
    ensures LastOnesWait(Waiting(ops, proposer), Origins(ops, proposer), Proposed(ops))
  {
    if ops != [] {
      var init, op := ops[..|ops| - 1], ops[|ops| - 1];
      PrefixInOrder(ops, |ops| - 1, proposer);
      WaitingIsASuffix(init, proposer);
      assert ops[..|ops|] == ops;
      assert InOrderUpTo(ops, proposer, |ops|);
      SuffixStep(Waiting(init, proposer), Origins(init, proposer), Proposed(init), op, proposer);
    }
  }

  lemma PrefixInOrder(ops: seq<Op>, n: nat, proposer: nat -> Option<nat>)
    requires n <= |ops| && InOrderWithoutLoss(ops, proposer)
    ensures InOrderWithoutLoss(ops[..n], proposer)
  {
    forall i | 0 <= i <= n
      ensures InOrderUpTo(ops[..n], proposer, i)
    {
      assert InOrderUpTo(ops, proposer, i);
      assert ops[..n][..i] == ops[..i];
    }
  }

  lemma SuffixStep(pending: seq<PendingPut>, origins: seq<nat>, proposed: seq<nat>, op: Op,
                   proposer: nat -> Option<nat>)
    requires LastOnesWait(pending, origins, proposed)
    requires origins + OriginOf(op, proposer) <= proposed + ClientOf(op)
    ensures LastOnesWait(WaitingAfter(pending, op, proposer), origins + OriginOf(op, proposer), proposed + ClientOf(op))
  {
    match op
    case AcceptOp(p) =>
      assert Clients(pending + [p]) == Clients(pending) + [p.client];
    case RefuseOp(_) =>
    case NotifyOp(r) =>
      if proposer(r.index).Some? {
        HeadWaits(pending, origins, proposed, proposer(r.index).value);
        HeadServed(pending, origins, proposed, proposer(r.index).value);
      }
  }

  /** The next own entry belongs to the first put that waits. */
  lemma HeadWaits(pending: seq<PendingPut>, origins: seq<nat>, proposed: seq<nat>, client: nat)
    requires LastOnesWait(pending, origins, proposed) && origins + [client] <= proposed
    ensures |pending| > 0 && pending[0].client == client && OwnPosition(pending, Some(client)) == 0
  {
    assert (origins + [client])[|origins|] == proposed[|origins|];
    assert Clients(pending)[0] == proposed[|origins|];
  }

  lemma HeadServed(pending: seq<PendingPut>, origins: seq<nat>, proposed: seq<nat>, client: nat)
    requires LastOnesWait(pending, origins, proposed) && |pending| > 0
    ensures LastOnesWait(RemoveAt(pending, 0), origins + [client], proposed)
  {
    assert Clients(RemoveAt(pending, 0)) == Clients(pending)[1..];
  }

  /** First sufficient condition, which allows equal pairs to wait together. */
  lemma InOrderRunsAreUnambiguous(ops: seq<Op>, proposer: nat -> Option<nat>)
    requires WellFormed(ops, proposer) && InOrderWithoutLoss(ops, proposer) && ForeignPairsDiffer(ops, proposer)
    ensures Unambiguous(ops, proposer)
    ensures WorkerAnswers(ops) == ReferenceAnswers(ops, proposer)
  {
    forall i | 0 <= i < |ops|
      ensures ClearAt(ops, proposer, i)
    {
      if ops[i].NotifyOp? && proposer(ops[i].report.index).Some? {
        InOrderIsClear(ops, i, proposer);
      }
    }
    MatchingByPairSimulatesMatchingById(ops, proposer);
  }

  lemma InOrderIsClear(ops: seq<Op>, i: nat, proposer: nat -> Option<nat>)
    requires InOrderWithoutLoss(ops, proposer)
    requires i < |ops| && ops[i].NotifyOp? && proposer(ops[i].report.index).Some?
    ensures ClearAt(ops, proposer, i)
  {
    PrefixInOrder(ops, i, proposer);
    WaitingIsASuffix(ops[..i], proposer);
    assert InOrderUpTo(ops, proposer, i + 1);
    assert ops[..i + 1][..i] == ops[..i];
    HeadWaits(Waiting(ops[..i], proposer), Origins(ops[..i], proposer), Proposed(ops[..i]),
              proposer(ops[i].report.index).value);
  }

  /** Second sufficient condition: with distinct pairs waiting, proposals may even be lost. */
  lemma DistinctPairsAreUnambiguous(ops: seq<Op>, proposer: nat -> Option<nat>)
    requires WellFormed(ops, proposer) && WaitingPairsDistinct(ops, proposer) && ForeignPairsDiffer(ops, proposer)
    ensures Unambiguous(ops, proposer)
    ensures WorkerAnswers(ops) == ReferenceAnswers(ops, proposer)
  {
    forall i | 0 <= i < |ops|
      ensures ClearAt(ops, proposer, i)
    {
      if ops[i].NotifyOp? && proposer(ops[i].report.index).Some? {
        DistinctIsClear(ops, i, proposer);
      }
    }
    MatchingByPairSimulatesMatchingById(ops, proposer);
  }

  lemma {:induction false} WellFormedTake(ops: seq<Op>, n: nat, proposer: nat -> Option<nat>)
    requires n <= |ops| && WellFormed(ops, proposer)
    ensures WellFormed(ops[..n], proposer)
    decreases |ops|
  {
    if n < |ops| {
      WellFormedPrefix(ops, proposer);
      WellFormedTake(ops[..|ops| - 1], n, proposer);
      assert ops[..|ops| - 1][..n] == ops[..n];
    } else {
      assert ops[..n] == ops;
    }
  }

  /** A proposed put waits until its own entry is applied. */
  lemma {:induction false} ProposedWaits(ops: seq<Op>, i: nat, n: nat, proposer: nat -> Option<nat>)
    requires i < n <= |ops| && ops[i].AcceptOp?
    requires forall j :: 0 <= j < n && ops[j].NotifyOp? ==> proposer(ops[j].report.index) != Some(ops[i].put.client)
    ensures ops[i].put in Waiting(ops[..n], proposer)
  {
    assert ops[..n][..n - 1] == ops[..n - 1];
    if n - 1 > i {
      ProposedWaits(ops, i, n - 1, proposer);
      StillWaits(Waiting(ops[..n - 1], proposer), ops[n - 1], ops[i].put, proposer);
    }
  }

  lemma StillWaits(pending: seq<PendingPut>, op: Op, p: PendingPut, proposer: nat -> Option<nat>)
    requires p in pending
    requires op.NotifyOp? ==> proposer(op.report.index) != Some(p.client)
    ensures p in WaitingAfter(pending, op, proposer)
  {
    if op.NotifyOp? {
      var own := OwnPosition(pending, proposer(op.report.index));
      var k :| 0 <= k < |pending| && pending[k] == p;
      if own < |pending| {
        assert k != own;
        assert RemoveAt(pending, own)[if k < own then k else k - 1] == p;
      }
    }
  }

  lemma DistinctIsClear(ops: seq<Op>, i: nat, proposer: nat -> Option<nat>)
    requires i < |ops| && WellFormed(ops, proposer) && WaitingPairsDistinct(ops, proposer)
    requires ops[i].NotifyOp? && proposer(ops[i].report.index).Some?
    ensures ClearAt(ops, proposer, i)
  {
    var pending, r := Waiting(ops[..i], proposer), ops[i].report;
    assert HasProposal(ops, proposer, i);
    var j :| 0 <= j < i && Proposes(ops[j], proposer, r);
    ProposedWaits(ops, j, i, proposer);
    var own := OwnPosition(pending, proposer(r.index));
    var k :| 0 <= k < |pending| && pending[k] == ops[j].put;
    assert own <= k;
    WellFormedTake(ops, i + 1, proposer);
    assert ops[..i + 1][..i] == ops[..i];
    OwnPutMatches(ops[..i + 1], proposer);
    forall h | 0 <= h < own
      ensures !Matches(pending[h], r.key, r.value)
    {
      assert !Matches(pending[own], pending[h].key, pending[h].value);
    }
  }

  // ---------- Where the two part ways ----------

  /** Every entry was proposed for client 2. */
  function BySecondClient(index: nat): Option<nat> {
    Some(2)
  }

  /** Every entry came from elsewhere. */
  function ByNobodyHere(index: nat): Option<nat> {
    None
  }

  /** Without either condition an Ok goes astray: a lost proposal leaves its put waiting,
      and that put takes the answer of a later equal one. */
  lemma LostProposalTakesAnAnswer(key: string, value: string) returns (ops: seq<Op>)
    ensures |ops| == 3 && ops[0] == AcceptOp(PendingPut(1, key, value)) && ops[1] == AcceptOp(PendingPut(2, key, value))
    ensures ops[2].NotifyOp?
    ensures WellFormed(ops, BySecondClient)
    ensures WorkerAnswers(ops) == [Some(1)] && ReferenceAnswers(ops, BySecondClient) == [Some(2)]
  {
    var p1, p2 := PendingPut(1, key, value), PendingPut(2, key, value);
    ops := [AcceptOp(p1), AcceptOp(p2), NotifyOp(ApplyReport(1, key, value, 1, 1))];
    assert Proposes(ops[1], BySecondClient, ops[2].report);
    assert HasProposal(ops, BySecondClient, 2);
    assert ops[..2] == [AcceptOp(p1), AcceptOp(p2)];
    TwoAccepted(p1, p2, BySecondClient);
    assert OwnPosition([p1, p2], Some(2)) == 1;
  }

  lemma OneAccepted(p: PendingPut, proposer: nat -> Option<nat>)
    ensures Performed([AcceptOp(p)]).pending == Waiting([AcceptOp(p)], proposer) == [p]
    ensures WorkerAnswers([AcceptOp(p)]) == ReferenceAnswers([AcceptOp(p)], proposer) == []
  {
  }

  lemma TwoAccepted(p: PendingPut, q: PendingPut, proposer: nat -> Option<nat>)
    ensures Performed([AcceptOp(p), AcceptOp(q)]).pending == Waiting([AcceptOp(p), AcceptOp(q)], proposer) == [p, q]
    ensures WorkerAnswers([AcceptOp(p), AcceptOp(q)]) == ReferenceAnswers([AcceptOp(p), AcceptOp(q)], proposer) == []
  {
    OneAccepted(p, proposer);
    assert [AcceptOp(p), AcceptOp(q)][..1] == [AcceptOp(p)];
  }

  /** An equal entry from elsewhere answers a put whose own proposal was never applied. */
  lemma ForeignEntryGivesAnAnswer(key: string, value: string) returns (ops: seq<Op>)
    ensures |ops| == 2 && ops[0] == AcceptOp(PendingPut(1, key, value))
    ensures ops[1].NotifyOp?
    ensures WellFormed(ops, ByNobodyHere)
    ensures WorkerAnswers(ops) == [Some(1)] && ReferenceAnswers(ops, ByNobodyHere) == [None]
  {
    var p := PendingPut(1, key, value);
    ops := [AcceptOp(p), NotifyOp(ApplyReport(1, key, value, 1, 1))];
    assert ops[..1] == [AcceptOp(p)];
    OneAccepted(p, ByNobodyHere);
  }
}
