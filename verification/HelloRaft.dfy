/** The in-memory cluster of 18-hello-raft: `process_ready` polls every node in id order,
    delivers what they emit, and repeats until a round in which nothing happens. The
    nodes run the same Ready loop as those of 19-raft-replication. What the library has
    ready for each node in each round is an argument; the theorems at the end tie it to
    the library's contract. */
module HelloRaft {
  import opened Basics
  import opened RaftLog
  import opened RaftNodes

  datatype Work = Work(ready: Ready, light: LightReady)

  /** What each node's library has ready in one round, by node; None for no work. */
  type Round = seq<Option<Work>>

  datatype DrainError = PollFailed(error: PollError) | StepFailed

  /** Settled with the reports, failed, or still busy when the given rounds ran out. */
  datatype Outcome = Settled(applied: seq<ApplyReport>) | Crashed(error: DrainError) | StillBusy

  ghost predicate Quiet(round: Round) {
    forall i :: 0 <= i < |round| ==> round[i].None?
  }

  function MessagesOf(w: Option<Work>): seq<Message> {
    if w.None? then []
    else w.value.ready.messages + w.value.ready.persistedMessages + w.value.light.messages
  }

  function EntriesOf(w: Option<Work>): seq<Entry> {
    if w.None? then [] else w.value.ready.committed + w.value.light.committed
  }

  function EmittedInRound(round: Round): seq<Message> {
    if round == [] then [] else EmittedInRound(round[..|round| - 1]) + MessagesOf(round[|round| - 1])
  }

  /** Everything the nodes emitted, in order. */
  function Emitted(rounds: seq<Round>): seq<Message> {
    if rounds == [] then [] else Emitted(rounds[..|rounds| - 1]) + EmittedInRound(rounds[|rounds| - 1])
  }

  function ReportedInRound(round: Round): seq<ApplyReport> {
    if round == [] then []
    else ReportedInRound(round[..|round| - 1]) + Reports(|round| - 1, EntriesOf(round[|round| - 1]))
  }

  /** Everything the nodes report, in order. */
  function Reported(rounds: seq<Round>): seq<ApplyReport> {
    if rounds == [] then [] else Reported(rounds[..|rounds| - 1]) + ReportedInRound(rounds[|rounds| - 1])
  }

  /** The committed entries handed to node i, in order. */
  function HandedTo(rounds: seq<Round>, i: nat): seq<Entry>
    requires forall r :: 0 <= r < |rounds| ==> i < |rounds[r]|
  {
    if rounds == [] then []
    else HandedTo(rounds[..|rounds| - 1], i) + EntriesOf(rounds[|rounds| - 1][i])
  }

  /** The messages for one node, in order. */
  function Addressed(ms: seq<Message>, to: nat): seq<Message> {
    if ms == [] then []
    else Addressed(ms[..|ms| - 1], to) + if ms[|ms| - 1].to == to then [ms[|ms| - 1]] else []
  }

  /** The reports of one node, in order. */
  function OfNode(rs: seq<ApplyReport>, id: nat): seq<ApplyReport> {
    if rs == [] then []
    else OfNode(rs[..|rs| - 1], id) + if rs[|rs| - 1].nodeId == id then [rs[|rs| - 1]] else []
  }

  lemma {:induction false} AddressedAppend(a: seq<Message>, b: seq<Message>, to: nat)
    ensures Addressed(a + b, to) == Addressed(a, to) + Addressed(b, to)
  {
    if b == [] {
      assert a + b == a;
    } else {
      AddressedAppend(a, b[..|b| - 1], to);
      assert (a + b)[..|a + b| - 1] == a + b[..|b| - 1];
    }
  }

  /** f lists, in order, the positions of exactly the messages for this node. */
  lemma {:induction false} AddressedAreThoseForTheNode(ms: seq<Message>, to: nat) returns (f: seq<nat>)
    ensures Embeds(f, Addressed(ms, to), ms)
    ensures forall k :: 0 <= k < |ms| ==> (k in f <==> ms[k].to == to)
  {
    f := [];
    if ms != [] {
      var init, last := ms[..|ms| - 1], ms[|ms| - 1];
      var f' := AddressedAreThoseForTheNode(init, to);
      var g := if last.to == to then [0] else [];
      EmbedsJoined(f', Addressed(init, to), init, g, if last.to == to then [last] else [], [last]);
      LastAgain(ms);
      f := Joined(f', |init|, g);
      forall k: nat | k < |ms|
        ensures k in f <==> ms[k].to == to
      {
        InJoined(f', |init|, g, k);
      }
    }
  }

  /** A message is addressed to its own node as often as it occurs, and to no other. */
  lemma {:induction false} AddressedCounts(ms: seq<Message>, to: nat, m: Message)
    ensures multiset(Addressed(ms, to))[m] == if m.to == to then multiset(ms)[m] else 0
  {
    if ms != [] {
      AddressedCounts(ms[..|ms| - 1], to, m);
      LastAgain(ms);
    }
  }

  lemma {:induction false} OfNodeAppend(a: seq<ApplyReport>, b: seq<ApplyReport>, id: nat)
    ensures OfNode(a + b, id) == OfNode(a, id) + OfNode(b, id)
  {
    if b == [] {
      assert a + b == a;
    } else {
      OfNodeAppend(a, b[..|b| - 1], id);
      assert (a + b)[..|a + b| - 1] == a + b[..|b| - 1];
    }
  }

  lemma {:induction false} ReportsAreOwn(id: nat, other: nat, es: seq<Entry>)
    ensures OfNode(Reports(id, es), other) == if id == other then Reports(id, es) else []
  {
    if es != [] {
      var last := ReportOf(id, es[|es| - 1]);
      ReportsAreOwn(id, other, es[..|es| - 1]);
      OfNodeAppend(Reports(id, es[..|es| - 1]), last, other);
      if last != [] {
        assert last[..0] == [];
        assert OfNode(last, other) == if id == other then last else [];
      }
    }
  }

  lemma {:induction false} RoundReportsOfNode(round: Round, i: nat)
    ensures OfNode(ReportedInRound(round), i) == if i < |round| then Reports(i, EntriesOf(round[i])) else []
  {
    if round != [] {
      var init, w := round[..|round| - 1], round[|round| - 1];
      RoundReportsOfNode(init, i);
      LastReportsOfNode(ReportedInRound(init), |init|, EntriesOf(w), i);
    }
  }

  lemma LastReportsOfNode(before: seq<ApplyReport>, k: nat, es: seq<Entry>, i: nat)
    ensures OfNode(before + Reports(k, es), i) == OfNode(before, i) + if k == i then Reports(i, es) else []
  {
    OfNodeAppend(before, Reports(k, es), i);
    ReportsAreOwn(k, i, es);
  }

  /** The reports of one node are those of the entries it was handed, in log order. */
  lemma {:induction false} ReportsOfNode(rounds: seq<Round>, i: nat)
    requires forall r :: 0 <= r < |rounds| ==> i < |rounds[r]|
    ensures OfNode(Reported(rounds), i) == Reports(i, HandedTo(rounds, i))
  {
    if rounds != [] {
      var init, last := rounds[..|rounds| - 1], rounds[|rounds| - 1];
      ReportsOfNode(init, i);
      RoundReportsOfNode(last, i);
      OfNodeAppend(Reported(init), ReportedInRound(last), i);
      ReportsInBatches(i, HandedTo(init, i), EntriesOf(last[i]));
    }
  }

  /** A poll that succeeds applies exactly the entries it was handed and reports them. */
  lemma PolledApplies(id: nat, v: NodeView, w: Work)
    requires Polled(id, v, Some(w.ready), w.light).1.Ok?
    ensures var (v', r) := Polled(id, v, Some(w.ready), w.light);
            && v'.store == ApplyTo(v.store, EntriesOf(Some(w)))
            && r.value == Some(ReadyBundle(MessagesOf(Some(w)), Reports(id, EntriesOf(Some(w)))))
  {
    ApplyInBatches(v.store, w.ready.committed, w.light.committed);
    ReportsInBatches(id, w.ready.committed, w.light.committed);
  }

  /** A poll that fails has applied an initial part of those entries. */
  lemma PolledAppliesPart(id: nat, v: NodeView, w: Work) returns (part: seq<Entry>)
    ensures part <= EntriesOf(Some(w))
    ensures Polled(id, v, Some(w.ready), w.light).0.store == ApplyTo(v.store, part)
  {
    var committed, more := w.ready.committed, w.light.committed;
    if !Appendable(HardStateWritten(v, w.ready.hs).stored, w.ready.entries) {
      part := [];
    } else if DecodablePrefix(committed) != committed {
      part := DecodablePrefix(committed);
      PrefixOfSum(part, committed, more);
    } else {
      part := committed + DecodablePrefix(more);
      PartOfSum(committed, DecodablePrefix(more), more);
      ApplyInBatches(v.store, committed, DecodablePrefix(more));
    }
  }

  lemma PrefixOfSum<T>(part: seq<T>, a: seq<T>, b: seq<T>)
    requires part <= a
    ensures part <= a + b
  {
  }

  lemma PartOfSum<T>(a: seq<T>, part: seq<T>, b: seq<T>)
    requires part <= b
    ensures a + part <= a + b
  {
  }

  // ---------- What a round does to the nodes ----------

  /** The storage and store of a node after its turn in a round. */
  function NodeAfter(i: nat, v: NodeView, work: Option<Work>): NodeView {
    if work.None? then v else Polled(i, v, Some(work.value.ready), work.value.light).0
  }

  ghost predicate NodeOk(i: nat, v: NodeView, work: Option<Work>) {
    work.Some? ==> Polled(i, v, Some(work.value.ready), work.value.light).1.Ok?
  }

  lemma NodeAfterStore(i: nat, v: NodeView, work: Option<Work>)
    requires NodeOk(i, v, work)
    ensures NodeAfter(i, v, work).store == ApplyTo(v.store, EntriesOf(work))
  {
    if work.Some? {
      PolledApplies(i, v, work.value);
    }
  }

  /** The first k nodes have been polled without failure, the others are as before. */
  ghost predicate RoundApplied(before: seq<NodeView>, after: seq<NodeView>, round: Round, k: nat)
    requires k <= |round| == |before|
  {
    && |after| == |before|
    && (forall i :: 0 <= i < k ==> NodeOk(i, before[i], round[i]) && after[i] == NodeAfter(i, before[i], round[i]))
    && (forall i :: k <= i < |before| ==> after[i] == before[i])
  }

  /** The poll of node k failed, and left it where a failed poll does; the nodes before it
      were polled, those after it were not. */
  ghost predicate RoundStopped(before: seq<NodeView>, after: seq<NodeView>, round: Round, k: nat) {
    && k < |round| == |before| == |after| && !NodeOk(k, before[k], round[k])
    && (forall i :: 0 <= i < k ==> NodeOk(i, before[i], round[i]))
    && (forall i :: 0 <= i <= k ==> after[i] == NodeAfter(i, before[i], round[i]))
    && (forall i :: k < i < |before| ==> after[i] == before[i])
  }

  /** Where a failed round leaves the nodes: at the poll that failed, or all polled when a
      message was rejected. */
  ghost predicate RoundFailed(before: seq<NodeView>, after: seq<NodeView>, round: Round, error: DrainError) {
    && |round| == |before|
    && if error.PollFailed? then exists k :: RoundStopped(before, after, round, k)
       else RoundApplied(before, after, round, |round|)
  }

  /** Where a round stands when its first k nodes have been polled. */
  ghost predicate Polling(before: seq<NodeView>, nodes: seq<NodeView>, progress: bool,
                          outbound: seq<Message>, applied: seq<ApplyReport>, round: Round, k: nat)
  {
    && k <= |round| == |before|
    && RoundApplied(before, nodes, round, k)
    && (progress <==> !Quiet(round[..k]))
    && outbound == EmittedInRound(round[..k])
    && applied == ReportedInRound(round[..k])
  }

  /** All nodes have been polled. */
  ghost predicate RoundPolled(before: seq<NodeView>, nodes: seq<NodeView>, progress: bool,
                              outbound: seq<Message>, applied: seq<ApplyReport>, round: Round)
  {
    && |round| == |before| && RoundApplied(before, nodes, round, |round|)
    && (progress <==> !Quiet(round))
    && outbound == EmittedInRound(round)
    && applied == ReportedInRound(round)
  }

  lemma WholeRound(before: seq<NodeView>, nodes: seq<NodeView>, progress: bool,
                   outbound: seq<Message>, applied: seq<ApplyReport>, round: Round)
    requires Polling(before, nodes, progress, outbound, applied, round, |round|)
    ensures RoundPolled(before, nodes, progress, outbound, applied, round)
  {
    assert round[..|round|] == round;
  }

  lemma OneMoreNode(before: seq<NodeView>, nodes: seq<NodeView>, progress: bool,
                    outbound: seq<Message>, applied: seq<ApplyReport>, round: Round, k: nat, nodes': seq<NodeView>)
    requires k < |round| && Polling(before, nodes, progress, outbound, applied, round, k)
    requires NodeOk(k, nodes[k], round[k]) && nodes' == nodes[k := NodeAfter(k, nodes[k], round[k])]
    ensures Polling(before, nodes', progress || round[k].Some?, outbound + MessagesOf(round[k]),
                    applied + Reports(k, EntriesOf(round[k])), round, k + 1)
  {
    RoundGrows(round, k);
    assert RoundApplied(before, nodes', round, k + 1);
  }

  lemma RoundGrows(round: Round, k: nat)
    requires k < |round|
    ensures Quiet(round[..k + 1]) <==> Quiet(round[..k]) && round[k].None?
    ensures EmittedInRound(round[..k + 1]) == EmittedInRound(round[..k]) + MessagesOf(round[k])
    ensures ReportedInRound(round[..k + 1]) == ReportedInRound(round[..k]) + Reports(k, EntriesOf(round[k]))
  {
    var next := round[..k + 1];
    assert next[..k] == round[..k] && next[k] == round[k];
  }

  lemma StopsHere(before: seq<NodeView>, nodes: seq<NodeView>, round: Round, k: nat, nodes': seq<NodeView>,
                  error: DrainError)
    requires k < |round| == |before| && RoundApplied(before, nodes, round, k) && !NodeOk(k, nodes[k], round[k])
    requires nodes' == nodes[k := NodeAfter(k, nodes[k], round[k])] && error.PollFailed?
    ensures RoundFailed(before, nodes', round, error)
  {
    assert RoundStopped(before, nodes', round, k);
  }

  // ---------- What several rounds do ----------

  /** The storage and store of node i after these rounds. */
  function ViewAfter(i: nat, v: NodeView, rounds: seq<Round>): NodeView
    requires forall r :: 0 <= r < |rounds| ==> i < |rounds[r]|
  {
    if rounds == [] then v
    else NodeAfter(i, ViewAfter(i, v, rounds[..|rounds| - 1]), rounds[|rounds| - 1][i])
  }

  ghost predicate AllOk(i: nat, v: NodeView, rounds: seq<Round>)
    requires forall r :: 0 <= r < |rounds| ==> i < |rounds[r]|
  {
    rounds != [] ==>
      var init := rounds[..|rounds| - 1];
      AllOk(i, v, init) && NodeOk(i, ViewAfter(i, v, init), rounds[|rounds| - 1][i])
  }

  /** A node applies exactly the entries it is handed, in order. */
  lemma {:induction false} ViewAfterStore(i: nat, v: NodeView, rounds: seq<Round>)
    requires forall r :: 0 <= r < |rounds| ==> i < |rounds[r]|
    requires AllOk(i, v, rounds)
    ensures ViewAfter(i, v, rounds).store == ApplyTo(v.store, HandedTo(rounds, i))
  {
    if rounds != [] {
      var init, last := rounds[..|rounds| - 1], rounds[|rounds| - 1];
      ViewAfterStore(i, v, init);
      NodeAfterStore(i, ViewAfter(i, v, init), last[i]);
      ApplyInBatches(v.store, HandedTo(init, i), EntriesOf(last[i]));
    }
  }

  ghost predicate RoundsApplied(before: seq<NodeView>, after: seq<NodeView>, rounds: seq<Round>)
    requires forall r :: 0 <= r < |rounds| ==> |rounds[r]| == |before|
  {
    && |after| == |before|
    && forall i :: 0 <= i < |before| ==> AllOk(i, before[i], rounds) && after[i] == ViewAfter(i, before[i], rounds)
  }

  lemma {:induction false} QuietRoundIsEmpty(round: Round)
    requires Quiet(round)
    ensures EmittedInRound(round) == [] && ReportedInRound(round) == []
  {
    if round != [] {
      QuietRoundIsEmpty(round[..|round| - 1]);
    }
  }

  lemma NothingToDeliver(inboxes: seq<seq<Message>>)
    ensures Delivered(inboxes, inboxes, [])
  {
    forall i | 0 <= i < |inboxes|
      ensures inboxes[i] == inboxes[i] + Addressed([], i)
    {
    }
  }

  lemma IdleMeansQuiet(round: Round, progress: bool, outbound: seq<Message>)
    requires (progress <==> !Quiet(round)) && outbound == EmittedInRound(round)
    ensures outbound == [] && !progress <==> Quiet(round)
  {
    if Quiet(round) {
      QuietRoundIsEmpty(round);
    }
  }

  /** What each node had stepped, extended by the messages addressed to it. */
  ghost predicate Delivered(before: seq<seq<Message>>, after: seq<seq<Message>>, ms: seq<Message>) {
    |after| == |before| && forall i :: 0 <= i < |before| ==> after[i] == before[i] + Addressed(ms, i)
  }

  /** Delivery, message by message: what a node had stepped before stays in front; what is
      added are, in order and each once, exactly the messages for this node; so the count of
      each message grows at its addressee by as often as it was sent, and nowhere else. */
  lemma DeliveredOnceToTheAddressee(before: seq<seq<Message>>, after: seq<seq<Message>>, ms: seq<Message>, to: nat)
    returns (f: seq<nat>)
    requires Delivered(before, after, ms) && to < |before|
    ensures |after| == |before| && before[to] <= after[to]
    ensures Embeds(f, after[to][|before[to]|..], ms)
    ensures forall k :: 0 <= k < |ms| ==> (k in f <==> ms[k].to == to)
    ensures forall m ::
              multiset(after[to])[m] == multiset(before[to])[m] + if m.to == to then multiset(ms)[m] else 0
  {
    f := AddressedAreThoseForTheNode(ms, to);
    assert after[to][|before[to]|..] == Addressed(ms, to);
    forall m
      ensures multiset(after[to])[m] == multiset(before[to])[m] + if m.to == to then multiset(ms)[m] else 0
    {
      AddressedCounts(ms, to, m);
    }
  }

  lemma DeliveredMore(a: seq<seq<Message>>, b: seq<seq<Message>>, c: seq<seq<Message>>, xs: seq<Message>,
                      ys: seq<Message>)
    requires Delivered(a, b, xs) && Delivered(b, c, ys)
    ensures Delivered(a, c, xs + ys)
  {
    forall i | 0 <= i < |a|
      ensures c[i] == a[i] + Addressed(xs + ys, i)
    {
      AddressedAppend(xs, ys, i);
    }
  }

  /** Where the cluster stands after whole rounds: stores, deliveries and reports. */
  ghost predicate Through(nodes0: seq<NodeView>, inboxes0: seq<seq<Message>>,
                          nodes: seq<NodeView>, inboxes: seq<seq<Message>>, applied: seq<ApplyReport>,
                          rounds: seq<Round>)
  {
    && (forall r :: 0 <= r < |rounds| ==> |rounds[r]| == |nodes0|)
    && RoundsApplied(nodes0, nodes, rounds)
    && Delivered(inboxes0, inboxes, Emitted(rounds))
    && applied == Reported(rounds)
  }

  lemma OneMoreRound(nodes0: seq<NodeView>, inboxes0: seq<seq<Message>>,
                     nodes: seq<NodeView>, inboxes: seq<seq<Message>>, applied: seq<ApplyReport>, rounds: seq<Round>,
                     round: Round, nodes': seq<NodeView>, inboxes': seq<seq<Message>>)
    requires Through(nodes0, inboxes0, nodes, inboxes, applied, rounds)
    requires |round| == |nodes0| && RoundApplied(nodes, nodes', round, |round|)
    requires Delivered(inboxes, inboxes', EmittedInRound(round))
    ensures Through(nodes0, inboxes0, nodes', inboxes', applied + ReportedInRound(round), rounds + [round])
  {
    OneMoreApplied(nodes0, nodes, nodes', rounds, round);
    DeliveredMore(inboxes0, inboxes, inboxes', Emitted(rounds), EmittedInRound(round));
    assert (rounds + [round])[..|rounds|] == rounds;
  }

  lemma OneMoreApplied(nodes0: seq<NodeView>, nodes: seq<NodeView>, nodes': seq<NodeView>, rounds: seq<Round>,
                       round: Round)
    requires forall r :: 0 <= r < |rounds| ==> |rounds[r]| == |nodes0|
    requires |round| == |nodes0| == |nodes|
    requires RoundsApplied(nodes0, nodes, rounds) && RoundApplied(nodes, nodes', round, |round|)
    ensures RoundsApplied(nodes0, nodes', rounds + [round])
  {
    assert (rounds + [round])[..|rounds|] == rounds;
    forall i | 0 <= i < |nodes0|
      ensures AllOk(i, nodes0[i], rounds + [round]) && nodes'[i] == ViewAfter(i, nodes0[i], rounds + [round])
    {
      assert NodeOk(i, nodes[i], round[i]);
    }
  }

  /** A quiet round changes nothing. */
  lemma QuietRoundKeepsNodes(nodes: seq<NodeView>, nodes': seq<NodeView>, round: Round)
    requires |round| == |nodes| && Quiet(round) && RoundApplied(nodes, nodes', round, |round|)
    ensures nodes' == nodes
  {
    forall i | 0 <= i < |nodes|
      ensures nodes'[i] == nodes[i]
    {
      assert round[i].None?;
    }
  }

  lemma NothingDelivered(before: seq<seq<Message>>, after: seq<seq<Message>>)
    requires Delivered(before, after, [])
    ensures after == before
  {
    forall i | 0 <= i < |before|
      ensures after[i] == before[i]
    {
      assert after[i] == before[i] + Addressed([], i);
    }
  }

  lemma SameThrough(nodes0: seq<NodeView>, inboxes0: seq<seq<Message>>,
                    nodes: seq<NodeView>, inboxes: seq<seq<Message>>, applied: seq<ApplyReport>, rounds: seq<Round>,
                    round: Round, nodes': seq<NodeView>, inboxes': seq<seq<Message>>)
    requires Through(nodes0, inboxes0, nodes, inboxes, applied, rounds)
    requires |round| == |nodes| && Quiet(round) && RoundApplied(nodes, nodes', round, |round|)
    requires Delivered(inboxes, inboxes', EmittedInRound(round))
    ensures Through(nodes0, inboxes0, nodes', inboxes', applied + ReportedInRound(round), rounds)
  {
    QuietRoundIsEmpty(round);
    QuietRoundKeepsNodes(nodes, nodes', round);
    NothingDelivered(inboxes, inboxes');
    assert applied + [] == applied;
  }

  ghost predicate NoneQuiet(rounds: seq<Round>) {
    forall r :: 0 <= r < |rounds| ==> !Quiet(rounds[r])
  }

  lemma TakeOneMore(rounds: seq<Round>, used: nat)
    requires used < |rounds|
    ensures rounds[..used + 1] == rounds[..used] + [rounds[used]]
    ensures NoneQuiet(rounds[..used]) && !Quiet(rounds[used]) ==> NoneQuiet(rounds[..used + 1])
  {
  }

  /** A failed round after whole rounds. */
  ghost predicate FailedAfter(before: seq<NodeView>, after: seq<NodeView>, rounds: seq<Round>, round: Round,
                              error: DrainError) {
    && (forall r :: 0 <= r < |rounds| ==> |rounds[r]| == |before|)
    && exists mid :: RoundsApplied(before, mid, rounds) && RoundFailed(mid, after, round, error)
  }

  lemma RoundFails(before: seq<NodeView>, mid: seq<NodeView>, after: seq<NodeView>, rounds: seq<Round>, round: Round,
                   error: DrainError)
    requires forall r :: 0 <= r < |rounds| ==> |rounds[r]| == |before|
    requires RoundsApplied(before, mid, rounds) && RoundFailed(mid, after, round, error)
    ensures FailedAfter(before, after, rounds, round, error)
  {
  }

  /** Even then no store has left the order of its entries: each has applied an initial
      part of those of the failed round. */
  lemma FailedRoundAppliesPart(before: seq<NodeView>, after: seq<NodeView>, round: Round, error: DrainError, i: nat)
    returns (part: seq<Entry>)
    requires RoundFailed(before, after, round, error) && i < |round|
    ensures i < |after| && part <= EntriesOf(round[i]) && after[i].store == ApplyTo(before[i].store, part)
  {
    var k := if error.PollFailed? then StopOf(before, after, round) else |round|;
    if i < k {
      NodeAfterStore(i, before[i], round[i]);
      part := EntriesOf(round[i]);
    } else if i == k {
      part := PolledAppliesPart(i, before[i], round[i].value);
    } else {
      part := [];
    }
  }

  ghost function StopOf(before: seq<NodeView>, after: seq<NodeView>, round: Round): (k: nat)
    requires exists k :: RoundStopped(before, after, round, k)
    ensures RoundStopped(before, after, round, k)
  {
    var k: nat :| RoundStopped(before, after, round, k);
    k
  }

  class Cluster {
    /** The nodes, by id from 0; and the messages stepped into each node's library. */
    const nodes: seq<RaftNode>
    var stepped: seq<seq<Message>>

    /** The storage and store of each node. */
    ghost var views: seq<NodeView>

    ghost predicate Valid()
      reads this, Footprint()
    {
      && |stepped| == |views| == |nodes|
      && (forall i :: 0 <= i < |nodes| ==> nodes[i].id == i && views[i] == nodes[i].View())
      && forall i, j :: 0 <= i < j < |nodes| ==>
           nodes[i].storage != nodes[j].storage && nodes[i].store != nodes[j].store
    }

    /** What the nodes own. */
    ghost function Footprint(): set<object> {
      (set n | n in nodes :: n.storage as object) + (set n | n in nodes :: n.store as object)
    }

    constructor (nodes: seq<RaftNode>, ghost views: seq<NodeView>)
      requires |views| == |nodes| && forall i :: 0 <= i < |nodes| ==> views[i] == nodes[i].View()
      requires forall i :: 0 <= i < |nodes| ==> nodes[i].id == i
      requires forall i, j :: 0 <= i < j < |nodes| ==>
                 nodes[i].storage != nodes[j].storage && nodes[i].store != nodes[j].store
      ensures Valid() && this.nodes == nodes && this.views == views && forall i :: 0 <= i < |nodes| ==> stepped[i] == []
    {
      this.nodes := nodes;
      stepped := seq(|nodes|, _ => []);
      this.views := views;
    }

    method PollNode(k: nat, work: Work) returns (r: Result<ReadyBundle, PollError>)
      requires Valid() && k < |nodes|
      modifies this`views, nodes[k].storage, nodes[k].store
      ensures Valid()
      ensures views == old(views)[k := NodeAfter(k, old(views)[k], Some(work))]
      ensures r.Ok? <==> NodeOk(k, old(views)[k], Some(work))
      ensures r.Ok? ==> r.value == ReadyBundle(MessagesOf(Some(work)), Reports(k, EntriesOf(Some(work))))
    {
      ghost var v := nodes[k].View();
      var polled := nodes[k].PollReady(Some(work.ready), work.light);
      views := views[k := nodes[k].View()];
      if polled.Err? {
        return Err(polled.error);
      }
      PolledApplies(k, v, work);
      r := Ok(polled.value.value);
    }

    /** Polls every node once, in id order, up to the first failure. */
    method PollAll(round: Round) returns (o: Result<(bool, seq<Message>, seq<ApplyReport>), DrainError>)
      requires Valid() && |round| == |nodes|
      modifies this`views, Footprint()
      ensures Valid()
      ensures o.Ok? ==> RoundPolled(old(views), views, o.value.0, o.value.1, o.value.2, round)
      ensures o.Err? ==> o.error.PollFailed? && RoundFailed(old(views), views, round, o.error)
    {
      var madeProgress := false;
      var outbound: seq<Message> := [];
      var applied: seq<ApplyReport> := [];
      for k := 0 to |nodes|
        invariant Valid()
        invariant Polling(old(views), views, madeProgress, outbound, applied, round, k)
      {
        ghost var before, outbound0, applied0 := views, outbound, applied;
        ghost var progress0 := madeProgress;
        if round[k].Some? {
          var r := PollNode(k, round[k].value);
          if r.Err? {
            StopsHere(old(views), before, round, k, views, PollFailed(r.error));
            return Err(PollFailed(r.error));
          }
          madeProgress := true;
          outbound := outbound + r.value.messages;
          applied := applied + r.value.applied;
        }
        OneMoreNode(old(views), before, progress0, outbound0, applied0, round, k, views);
      }
      WholeRound(old(views), views, madeProgress, outbound, applied, round);
      o := Ok((madeProgress, outbound, applied));
    }

    /** Steps each message at its addressee, up to the first that is rejected; a message
        for nobody is dropped. `done` counts those that were stepped or dropped. */
    method Deliver(messages: seq<Message>, rejected: set<Message>) returns (done: nat)
      requires Valid()
      modifies this`stepped
      ensures Valid() && done <= |messages|
      ensures Delivered(old(stepped), stepped, messages[..done])
      ensures done == |messages| ==> Delivered(old(stepped), stepped, messages)
      ensures done < |messages| ==> messages[done] in rejected && messages[done].to < |nodes|
      ensures forall k :: 0 <= k < done ==> !(messages[k] in rejected && messages[k].to < |nodes|)
    {
      for k := 0 to |messages|
        invariant Valid()
        invariant Delivered(old(stepped), stepped, messages[..k])
        invariant forall i :: 0 <= i < k ==> !(messages[i] in rejected && messages[i].to < |nodes|)
      {
        var msg := messages[k];
        assert messages[..k + 1][..k] == messages[..k];
        if msg.to < |stepped| {
          if msg in rejected {
            return k;
          }
          stepped := stepped[msg.to := stepped[msg.to] + [msg]];
        }
      }
      assert messages[..|messages|] == messages;
      done := |messages|;
    }

    /** One round: every node is polled, then what they emitted is delivered. Tells
        whether the round was quiet, and what was reported in it. */
    method RunRound(round: Round, rejected: set<Message>) returns (r: Result<(bool, seq<ApplyReport>), DrainError>)
      requires Valid() && |round| == |nodes|
      modifies this`stepped, this`views, Footprint()
      ensures Valid()
      ensures r.Ok? ==>
                && (r.value.0 <==> Quiet(round))
                && r.value.1 == ReportedInRound(round)
                && RoundApplied(old(views), views, round, |round|)
                && Delivered(old(stepped), stepped, EmittedInRound(round))
      ensures r.Err? ==> RoundFailed(old(views), views, round, r.error)
    {
      var polled := PollAll(round);
      if polled.Err? {
        return Err(polled.error);
      }
      var (madeProgress, outbound, reports) := polled.value;
      IdleMeansQuiet(round, madeProgress, outbound);
      if outbound == [] && !madeProgress {
        NothingToDeliver(stepped);
        return Ok((true, reports));
      }
      var done := Deliver(outbound, rejected);
      if done < |outbound| {
        return Err(StepFailed);
      }
      r := Ok((false, reports));
    }

    /** A round after whole rounds that began at the given views and inboxes. */
    method OneRound(round: Round, rejected: set<Message>, applied: seq<ApplyReport>,
                    ghost views0: seq<NodeView>, ghost stepped0: seq<seq<Message>>, ghost rounds: seq<Round>)
      returns (r: Result<(bool, seq<ApplyReport>), DrainError>)
      requires Valid() && |round| == |nodes| == |views0| && Through(views0, stepped0, views, stepped, applied, rounds)
      modifies this`stepped, this`views, Footprint()
      ensures Valid()
      ensures r.Ok? ==>
                && (r.value.0 <==> Quiet(round))
                && Through(views0, stepped0, views, stepped, r.value.1,
                           if Quiet(round) then rounds else rounds + [round])
      ensures r.Err? ==> FailedAfter(views0, views, rounds, round, r.error)
    {
      ghost var views1, stepped1 := views, stepped;
      var ran := RunRound(round, rejected);
      if ran.Err? {
        RoundFails(views0, views1, views, rounds, round, ran.error);
        return Err(ran.error);
      }
      if ran.value.0 {
        SameThrough(views0, stepped0, views1, stepped1, applied, rounds, round, views, stepped);
      } else {
        OneMoreRound(views0, stepped0, views1, stepped1, applied, rounds, round, views, stepped);
      }
      r := Ok((ran.value.0, applied + ran.value.1));
    }

    /** Runs rounds until one brings nothing. When it settles: that last round found no
        work at any node and no message is in flight; every message emitted was stepped
        once at its addressee, in order, or had none; and the reports are those of the
        entries newly applied (per node, see ReportsOfNode). When it fails: the rounds
        before went as they should, and the failed one stopped at the poll that failed or,
        all nodes polled, at a message that its library rejected. `rejected` are, round by
        round, the messages that would be. */
    method ProcessReady(rounds: seq<Round>, rejected: seq<set<Message>>) returns (o: Outcome, used: nat)
      requires Valid() && |rejected| == |rounds| && forall r :: 0 <= r < |rounds| ==> |rounds[r]| == |nodes|
      modifies this`stepped, this`views, Footprint()
      ensures Valid()
      ensures o.Settled? ==>
                && used < |rounds| && Quiet(rounds[used]) && NoneQuiet(rounds[..used])
                && Through(old(views), old(stepped), views, stepped, o.applied, rounds[..used])
      ensures o.Crashed? ==>
                && used < |rounds| && NoneQuiet(rounds[..used])
                && FailedAfter(old(views), views, rounds[..used], rounds[used], o.error)
      ensures o.StillBusy? ==> used == |rounds| && NoneQuiet(rounds)
    {
      var applied: seq<ApplyReport> := [];
      used := 0;
      ghost var views0, stepped0 := views, stepped;
      while used < |rounds|
        invariant Valid() && used <= |rounds|
        invariant NoneQuiet(rounds[..used])
        invariant Through(views0, stepped0, views, stepped, applied, rounds[..used])
      {
        TakeOneMore(rounds, used);
        var r := OneRound(rounds[used], rejected[used], applied, views0, stepped0, rounds[..used]);
        if r.Err? {
          return Crashed(r.error), used;
        }
        applied := r.value.1;
        if r.value.0 {
          return Settled(applied), used;
        }
        used := used + 1;
      }
      assert rounds[..used] == rounds;
      o := StillBusy;
    }

    /** The value that all nodes have for a key, if there is one and there are nodes. */
    method AllNodesAgree(key: string) returns (r: Option<string>)
      requires Valid()
      ensures forall v ::
                r == Some(v) <==>
                nodes != [] && forall i :: 0 <= i < |nodes| ==> Lookup(views[i].store, key) == Some(v)
    {
      if nodes == [] {
        return None;
      }
      var first := nodes[0].ValueFor(key);
      if first.None? {
        return None;
      }
      for k := 1 to |nodes|
        invariant forall i :: 0 <= i < k ==> Lookup(views[i].store, key) == first
      {
        var value := nodes[k].ValueFor(key);
        if value != first {
          return None;
        }
      }
      r := first;
    }
  }
}
