/** The table of puts that wait for their entry to be applied. The worker matches
    an applied entry to the first waiting put with the same key and value; entries
    carry no request id. */
module PendingPuts {
  import opened Basics
  import opened RaftLog

  /** A waiting put; `client` names the channel its answer goes to. */
  datatype PendingPut = PendingPut(client: nat, key: string, value: string)

  /** An Ok sent to a waiting put, with the index of the entry that caused it. */
  datatype Ack = Ack(put: PendingPut, index: nat)

  /** Why a put was refused: no leader is known, another node leads, or the library
      did not take the proposal. */
  datatype Reason = NoLeaderYet | NotLeader(leader: nat) | ProposalFailed

  datatype Refusal = Refusal(client: nat, reason: Reason)

  /** What became of the put requests so far; `pending` is the worker's own table
      and the rest is the record of the answers sent. */
  datatype Book = Book(accepted: seq<PendingPut>, pending: seq<PendingPut>, acked: seq<Ack>, refused: seq<Refusal>)

  const EMPTY_BOOK := Book([], [], [], [])

  predicate Matches(p: PendingPut, key: string, value: string) {
    p.key == key && p.value == value
  }

  /** Position of the first put with this pair, or the length when there is none. */
  function FirstMatch(pending: seq<PendingPut>, key: string, value: string): (r: nat)
    ensures r <= |pending|
    ensures r < |pending| ==> Matches(pending[r], key, value)
    ensures forall j :: 0 <= j < r ==> !Matches(pending[j], key, value)
  {
    if pending == [] || Matches(pending[0], key, value) then 0
    else 1 + FirstMatch(pending[1..], key, value)
  }

  function RemoveAt<T>(s: seq<T>, i: nat): (r: seq<T>)
    requires i < |s|
    ensures |r| == |s| - 1
    ensures forall k :: 0 <= k < |r| ==> r[k] == s[if k < i then k else k + 1]
  {
    s[..i] + s[i + 1..]
  }

  function Accept(b: Book, p: PendingPut): Book {
    b.(accepted := b.accepted + [p], pending := b.pending + [p])
  }

  function Refuse(b: Book, r: Refusal): Book {
    b.(refused := b.refused + [r])
  }

  function Notify(b: Book, r: ApplyReport): Book {
    var i := FirstMatch(b.pending, r.key, r.value);
    if i < |b.pending|
    then b.(pending := RemoveAt(b.pending, i), acked := b.acked + [Ack(b.pending[i], r.index)])
    else b
  }

  function NotifyAll(b: Book, rs: seq<ApplyReport>): Book
    decreases |rs|
  {
    if rs == [] then b else NotifyAll(Notify(b, rs[0]), rs[1..])
  }

  lemma {:induction false} NotifyAllInBatches(b: Book, xs: seq<ApplyReport>, ys: seq<ApplyReport>)
    ensures NotifyAll(NotifyAll(b, xs), ys) == NotifyAll(b, xs + ys)
    decreases |xs|
  {
    if xs == [] {
      assert xs + ys == ys;
    } else {
      NotifyAllInBatches(Notify(b, xs[0]), xs[1..], ys);
      SplitFirst(xs, ys);
    }
  }

  // ---------- Accounting over every run ----------

  datatype Op = AcceptOp(put: PendingPut) | RefuseOp(refusal: Refusal) | NotifyOp(report: ApplyReport)

  function Perform(b: Book, op: Op): Book {
    match op
    case AcceptOp(p) => Accept(b, p)
    case RefuseOp(r) => Refuse(b, r)
    case NotifyOp(r) => Notify(b, r)
  }

  function Performed(ops: seq<Op>): Book {
    if ops == [] then EMPTY_BOOK
    else Perform(Performed(ops[..|ops| - 1]), ops[|ops| - 1])
  }

  /** The reports that were notified, in order. */
  function ReportsIn(ops: seq<Op>): seq<ApplyReport> {
    if ops == [] then [] else ReportsIn(ops[..|ops| - 1]) + NotifiedBy(ops[|ops| - 1])
  }

  function NotifiedBy(op: Op): seq<ApplyReport> {
    if op.NotifyOp? then [op.report] else []
  }

  /** The operations that notify these reports. */
  function NotifyOps(rs: seq<ApplyReport>): (r: seq<Op>)
    ensures |r| == |rs|
    ensures forall i :: 0 <= i < |r| ==> r[i] == NotifyOp(rs[i])
  {
    seq(|rs|, i requires 0 <= i < |rs| => NotifyOp(rs[i]))
  }

  lemma PerformedMore(ops: seq<Op>, op: Op)
    ensures Performed(ops + [op]) == Perform(Performed(ops), op)
    ensures ReportsIn(ops + [op]) == ReportsIn(ops) + NotifiedBy(op)
    ensures Requested(ops + [op]) == Requested(ops) + RequesterOf(op)
    ensures AcceptedIn(ops + [op]) == AcceptedIn(ops) + AcceptedBy(op)
  {
    assert (ops + [op])[..|ops|] == ops;
  }

  lemma NotifyOpsSplit(ops: seq<Op>, rs: seq<ApplyReport>)
    ensures rs == [] ==> ops + NotifyOps(rs) == ops
    ensures rs != [] ==> ops + NotifyOps(rs) == (ops + [NotifyOp(rs[0])]) + NotifyOps(rs[1..])
  {
  }

  lemma {:induction false} NotifyingAll(ops: seq<Op>, b: Book, rs: seq<ApplyReport>)
    requires b == Performed(ops)
    ensures Performed(ops + NotifyOps(rs)) == NotifyAll(b, rs)
    decreases |rs|
  {
    NotifyOpsSplit(ops, rs);
    if rs != [] {
      PerformedMore(ops, NotifyOp(rs[0]));
      NotifyingAll(ops + [NotifyOp(rs[0])], Notify(b, rs[0]), rs[1..]);
    }
  }

  lemma {:induction false} AcceptedAreAccepted(ops: seq<Op>)
    ensures Performed(ops).accepted == AcceptedIn(ops)
  {
    if ops != [] {
      AcceptedAreAccepted(ops[..|ops| - 1]);
    }
  }

  /** What a sequence of operations received is what its parts received; likewise what it
      accepted and what it notified. */
  lemma {:induction false} RequestedInParts(a: seq<Op>, b: seq<Op>)
    ensures Requested(a + b) == Requested(a) + Requested(b)
  {
    if b == [] {
      assert a + b == a;
    } else {
      var init, op := b[..|b| - 1], b[|b| - 1];
      RequestedInParts(a, init);
      SplitLast(a, b);
      PerformedMore(a + init, op);
      Regroup(Requested(a), Requested(init), RequesterOf(op));
    }
  }

  lemma {:induction false} AcceptedInParts(a: seq<Op>, b: seq<Op>)
    ensures AcceptedIn(a + b) == AcceptedIn(a) + AcceptedIn(b)
  {
    if b == [] {
      assert a + b == a;
    } else {
      var init, op := b[..|b| - 1], b[|b| - 1];
      AcceptedInParts(a, init);
      SplitLast(a, b);
      PerformedMore(a + init, op);
      Regroup(AcceptedIn(a), AcceptedIn(init), AcceptedBy(op));
    }
  }

  lemma {:induction false} ReportsInParts(a: seq<Op>, b: seq<Op>)
    ensures ReportsIn(a + b) == ReportsIn(a) + ReportsIn(b)
  {
    if b == [] {
      assert a + b == a;
    } else {
      var init, op := b[..|b| - 1], b[|b| - 1];
      ReportsInParts(a, init);
      SplitLast(a, b);
      PerformedMore(a + init, op);
      Regroup(ReportsIn(a), ReportsIn(init), NotifiedBy(op));
    }
  }

  lemma OpsInParts(a: seq<Op>, b: seq<Op>)
    ensures Requested(a + b) == Requested(a) + Requested(b)
    ensures AcceptedIn(a + b) == AcceptedIn(a) + AcceptedIn(b)
    ensures ReportsIn(a + b) == ReportsIn(a) + ReportsIn(b)
  {
    RequestedInParts(a, b);
    AcceptedInParts(a, b);
    ReportsInParts(a, b);
  }

  lemma NotifyOpsLast(rs: seq<ApplyReport>)
    requires rs != []
    ensures NotifyOps(rs) == NotifyOps(rs[..|rs| - 1]) + [NotifyOp(rs[|rs| - 1])]
    ensures rs == rs[..|rs| - 1] + [rs[|rs| - 1]]
  {
  }

  lemma {:induction false} NotifyOpsOnlyNotify(rs: seq<ApplyReport>)
    ensures Requested(NotifyOps(rs)) == [] && AcceptedIn(NotifyOps(rs)) == [] && ReportsIn(NotifyOps(rs)) == rs
  {
    if rs != [] {
      NotifyOpsOnlyNotify(rs[..|rs| - 1]);
      NotifyOpsLast(rs);
      PerformedMore(NotifyOps(rs[..|rs| - 1]), NotifyOp(rs[|rs| - 1]));
    }
  }

  function AckedPuts(acks: seq<Ack>): (r: seq<PendingPut>)
    ensures |r| == |acks|
    ensures forall i :: 0 <= i < |r| ==> r[i] == acks[i].put
  {
    seq(|acks|, i requires 0 <= i < |acks| => acks[i].put)
  }

  function RequesterOf(op: Op): seq<nat> {
    match op
    case AcceptOp(p) => [p.client]
    case RefuseOp(r) => [r.client]
    case NotifyOp(_) => []
  }

  /** The clients whose requests were received, in order. */
  function Requested(ops: seq<Op>): seq<nat> {
    if ops == [] then [] else Requested(ops[..|ops| - 1]) + RequesterOf(ops[|ops| - 1])
  }

  function AcceptedBy(op: Op): seq<PendingPut> {
    if op.AcceptOp? then [op.put] else []
  }

  /** The puts that were accepted, in order. */
  function AcceptedIn(ops: seq<Op>): seq<PendingPut> {
    if ops == [] then [] else AcceptedIn(ops[..|ops| - 1]) + AcceptedBy(ops[|ops| - 1])
  }

  function Clients(ps: seq<PendingPut>): (r: seq<nat>)
    ensures |r| == |ps|
    ensures forall i :: 0 <= i < |r| ==> r[i] == ps[i].client
  {
    seq(|ps|, i requires 0 <= i < |ps| => ps[i].client)
  }

  /** Every client the worker has answered, once for each answer. */
  function Answered(b: Book): seq<nat> {
    Clients(AckedPuts(b.acked)) + RefusedClients(b.refused)
  }

  function RefusedClients(rs: seq<Refusal>): (r: seq<nat>)
    ensures |r| == |rs|
    ensures forall i :: 0 <= i < |r| ==> r[i] == rs[i].client
  {
    seq(|rs|, i requires 0 <= i < |rs| => rs[i].client)
  }

  lemma RemoveAtMultiset<T>(s: seq<T>, i: nat)
    requires i < |s|
    ensures multiset(s) == multiset(RemoveAt(s, i)) + multiset{s[i]}
  {
    assert s == s[..i] + [s[i]] + s[i + 1..];
  }

  lemma NotifyMoves(b: Book, r: ApplyReport)
    ensures var i := FirstMatch(b.pending, r.key, r.value);
            i < |b.pending| ==>
              && AckedPuts(Notify(b, r).acked) == AckedPuts(b.acked) + [b.pending[i]]
              && Clients(AckedPuts(Notify(b, r).acked)) == Clients(AckedPuts(b.acked)) + [b.pending[i].client]
              && Clients(Notify(b, r).pending) == RemoveAt(Clients(b.pending), i)
  {
  }

  lemma NotifyBalances(b: Book, r: ApplyReport)
    ensures multiset(Answered(Notify(b, r))) + multiset(Clients(Notify(b, r).pending)) ==
            multiset(Answered(b)) + multiset(Clients(b.pending))
  {
    var i := FirstMatch(b.pending, r.key, r.value);
    if i < |b.pending| {
      NotifyMoves(b, r);
      RemoveAtMultiset(Clients(b.pending), i);
    }
  }

  lemma RefuseBalances(b: Book, r: Refusal)
    ensures multiset(Answered(Refuse(b, r))) == multiset(Answered(b)) + multiset{r.client}
  {
    assert Answered(Refuse(b, r)) == Answered(b) + [r.client];
  }

  lemma AcceptBalances(b: Book, p: PendingPut)
    ensures Answered(Accept(b, p)) == Answered(b)
    ensures multiset(Clients(Accept(b, p).pending)) == multiset(Clients(b.pending)) + multiset{p.client}
  {
    assert Clients(b.pending + [p]) == Clients(b.pending) + [p.client];
  }

  /** No request is lost and none is answered twice: for every client, the answers
      sent to it and its puts still waiting add up to the requests it made. */
  lemma {:induction false} AnswersBalanceRequests(ops: seq<Op>)
    ensures var b := Performed(ops);
            multiset(Requested(ops)) == multiset(Answered(b)) + multiset(Clients(b.pending))
  {
    if ops != [] {
      var init, op := ops[..|ops| - 1], ops[|ops| - 1];
      var b := Performed(init);
      AnswersBalanceRequests(init);
      match op
      case AcceptOp(p) =>
        AcceptBalances(b, p);
      case RefuseOp(r) => RefuseBalances(b, r);
      case NotifyOp(r) => NotifyBalances(b, r);
    }
  }

  /** A client that made one request gets at most one answer, and an answered one
      is no longer waiting. */
  lemma SingleRequestSingleAnswer(ops: seq<Op>, client: nat)
    requires multiset(Requested(ops))[client] == 1
    ensures var b := Performed(ops);
            multiset(Answered(b))[client] + multiset(Clients(b.pending))[client] == 1
    ensures client in RefusedClients(Performed(ops).refused) ==> client !in Clients(Performed(ops).pending)
  {
    AnswersBalanceRequests(ops);
    var b := Performed(ops);
    if client in RefusedClients(b.refused) {
      assert multiset(RefusedClients(b.refused))[client] >= 1;
    }
  }

  /** The subsequence of puts with one given pair. */
  function OfPair(ps: seq<PendingPut>, key: string, value: string): seq<PendingPut> {
    if ps == [] then []
    else if Matches(ps[0], key, value) then [ps[0]] + OfPair(ps[1..], key, value)
    else OfPair(ps[1..], key, value)
  }

  lemma {:induction false} OfPairAppend(a: seq<PendingPut>, b: seq<PendingPut>, key: string, value: string)
    ensures OfPair(a + b, key, value) == OfPair(a, key, value) + OfPair(b, key, value)
  {
    if a == [] {
      assert a + b == b;
    } else {
      OfPairAppend(a[1..], b, key, value);
      assert (a + b)[1..] == a[1..] + b;
    }
  }

  /** f lists, in order, the positions of exactly the puts of this pair. */
  lemma {:induction false} OfPairAreThePutsOfThePair(ps: seq<PendingPut>, key: string, value: string)
    returns (f: seq<nat>)
    ensures Embeds(f, OfPair(ps, key, value), ps)
    ensures forall i :: 0 <= i < |ps| ==> (i in f <==> ps[i].key == key && ps[i].value == value)
  {
    f := [];
    if ps != [] {
      var g := if Matches(ps[0], key, value) then [0] else [];
      var rest := OfPairAreThePutsOfThePair(ps[1..], key, value);
      EmbedsJoined(g, if Matches(ps[0], key, value) then [ps[0]] else [], [ps[0]], rest, OfPair(ps[1..], key, value),
                   ps[1..]);
      FirstAgain(ps);
      NothingBefore(OfPair(ps[1..], key, value));
      f := Joined(g, 1, rest);
      forall i: nat | i < |ps|
        ensures i in f <==> ps[i].key == key && ps[i].value == value
      {
        InJoined(g, 1, rest, i);
        assert i > 0 ==> ps[i] == ps[1..][i - 1];
      }
    }
  }

  lemma {:induction false} NoneOfPair(a: seq<PendingPut>, key: string, value: string)
    requires forall i :: 0 <= i < |a| ==> !Matches(a[i], key, value)
    ensures OfPair(a, key, value) == []
  {
    if a != [] {
      NoneOfPair(a[1..], key, value);
    }
  }

  lemma OfPairSplit(ps: seq<PendingPut>, i: nat, key: string, value: string)
    requires i < |ps|
    ensures OfPair(ps, key, value) ==
            OfPair(ps[..i], key, value) + OfPair([ps[i]], key, value) + OfPair(ps[i + 1..], key, value)
    ensures OfPair(RemoveAt(ps, i), key, value) == OfPair(ps[..i], key, value) + OfPair(ps[i + 1..], key, value)
  {
    assert ps == ps[..i] + [ps[i]] + ps[i + 1..];
    OfPairAppend(ps[..i] + [ps[i]], ps[i + 1..], key, value);
    OfPairAppend(ps[..i], [ps[i]], key, value);
    OfPairAppend(ps[..i], ps[i + 1..], key, value);
  }

  /** Equal pairs are acknowledged first in, first out: among the puts of one pair,
      those acknowledged come first in order of arrival, and those waiting follow. */
  lemma {:induction false} EqualPairsAreServedInOrder(ops: seq<Op>, key: string, value: string)
    ensures var b := Performed(ops);
            OfPair(b.accepted, key, value) ==
            OfPair(AckedPuts(b.acked), key, value) + OfPair(b.pending, key, value)
  {
    if ops != [] {
      var init, op := ops[..|ops| - 1], ops[|ops| - 1];
      var b := Performed(init);
      EqualPairsAreServedInOrder(init, key, value);
      match op
      case AcceptOp(p) =>
        OfPairAppend(b.accepted, [p], key, value);
        OfPairAppend(b.pending, [p], key, value);
      case RefuseOp(_) =>
      case NotifyOp(r) =>
        var i := FirstMatch(b.pending, r.key, r.value);
        if i < |b.pending| {
          ServeOne(b, r, key, value);
        }
    }
  }

  lemma FirstOfPair(ps: seq<PendingPut>, i: nat, key: string, value: string)
    requires i < |ps| && forall j :: 0 <= j < i ==> !Matches(ps[j], ps[i].key, ps[i].value)
    ensures OfPair([ps[i]], key, value) + OfPair(RemoveAt(ps, i), key, value) == OfPair(ps, key, value)
  {
    OfPairSplit(ps, i, key, value);
    if Matches(ps[i], key, value) {
      NoneOfPair(ps[..i], key, value);
    }
  }

  lemma ServeOne(b: Book, r: ApplyReport, key: string, value: string)
    requires FirstMatch(b.pending, r.key, r.value) < |b.pending|
    ensures var b' := Notify(b, r);
            OfPair(AckedPuts(b'.acked), key, value) + OfPair(b'.pending, key, value) ==
            OfPair(AckedPuts(b.acked), key, value) + OfPair(b.pending, key, value)
  {
    var i := FirstMatch(b.pending, r.key, r.value);
    NotifyMoves(b, r);
    OfPairAppend(AckedPuts(b.acked), [b.pending[i]], key, value);
    FirstOfPair(b.pending, i, key, value);
    Regroup(OfPair(AckedPuts(b.acked), key, value), OfPair([b.pending[i]], key, value),
            OfPair(RemoveAt(b.pending, i), key, value));
  }

  // ---------- Order ----------

  /** The i-th Ok answers the f[i]-th report: the same pair, the same index, in order. */
  ghost predicate AnswersFor(f: seq<nat>, acks: seq<Ack>, reports: seq<ApplyReport>) {
    && |f| == |acks|
    && (forall i, j :: 0 <= i < j < |f| ==> f[i] < f[j])
    && (forall i :: 0 <= i < |f| ==>
          && f[i] < |reports|
          && Matches(acks[i].put, reports[f[i]].key, reports[f[i]].value)
          && acks[i].index == reports[f[i]].index)
  }

  /** Waiting puts stay in the order in which they were accepted. */
  lemma {:induction false} PendingKeepsArrivalOrder(ops: seq<Op>) returns (f: seq<nat>)
    ensures Embeds(f, Performed(ops).pending, Performed(ops).accepted)
  {
    if ops == [] {
      f := [];
    } else {
      var op := ops[|ops| - 1];
      var b := Performed(ops[..|ops| - 1]);
      f := PendingKeepsArrivalOrder(ops[..|ops| - 1]);
      match op
      case AcceptOp(_) => f := f + [|b.accepted|];
      case RefuseOp(_) =>
      case NotifyOp(r) =>
        var i := FirstMatch(b.pending, r.key, r.value);
        if i < |b.pending| {
          f := RemoveAt(f, i);
        }
    }
  }

  /** Each Ok answers an application of its own, of the same pair, and Oks are sent
      in the order of those applications. */
  lemma {:induction false} AcksInjectIntoApplications(ops: seq<Op>) returns (f: seq<nat>)
    ensures AnswersFor(f, Performed(ops).acked, ReportsIn(ops))
  {
    if ops == [] {
      f := [];
    } else {
      var op := ops[|ops| - 1];
      var b := Performed(ops[..|ops| - 1]);
      f := AcksInjectIntoApplications(ops[..|ops| - 1]);
      if op.NotifyOp? && FirstMatch(b.pending, op.report.key, op.report.value) < |b.pending| {
        f := f + [|ReportsIn(ops[..|ops| - 1])|];
      }
    }
  }
}
