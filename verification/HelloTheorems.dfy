/** What `process_ready` of 18-hello-raft achieves when the libraries of its nodes keep
    their contract. */
module HelloTheorems {
  import opened Basics
  import opened RaftLog
  import opened RaftNodes
  import opened RaftCluster
  import opened HelloRaft

  /** The node's library before and after its poll in a round: it hands out the work, or
      has nothing ready. */
  ghost predicate WorkFrom(agreed: seq<Entry>, raw: Raw, work: Option<Work>, raw': Raw) {
    match work
    case Some(w) => exists taken :: Handing(agreed, raw, w, taken, raw')
    case None => NothingReady(raw) && raw' == raw
  }

  ghost predicate Handing(agreed: seq<Entry>, raw: Raw, w: Work, taken: Raw, raw': Raw) {
    ReadyContract(raw, w.ready, taken) && AdvanceContract(agreed, taken, w.light, raw')
  }

  /** The libraries before and after the polls of each round. Between rounds they take the
      messages that were delivered. `agreed` is the log that the cluster agrees on in the end. */
  ghost predicate IsSchedule(agreed: seq<Entry>, rounds: seq<Round>, before: seq<seq<Raw>>, after: seq<seq<Raw>>,
                             n: nat) {
    && |before| == |after| == |rounds|
    && (forall r :: 0 <= r < |rounds| ==> |rounds[r]| == |before[r]| == |after[r]| == n)
    && forall r :: 0 <= r < |rounds| ==> RoundFrom(agreed, rounds, before, after, n, r)
  }

  ghost predicate RoundFrom(agreed: seq<Entry>, rounds: seq<Round>, before: seq<seq<Raw>>, after: seq<seq<Raw>>, n: nat,
                            r: nat)
    requires |before| == |after| == |rounds| && r < |rounds|
  {
    && |rounds[r]| == |before[r]| == |after[r]| == n
    && (forall i :: 0 <= i < n ==> WorkFrom(agreed, before[r][i], rounds[r][i], after[r][i]))
    && (r > 0 ==>
          && |after[r - 1]| == n
          && forall i :: 0 <= i < n ==> LibraryMoves(agreed, after[r - 1][i], before[r][i]))
  }

  /** A library in order: it hands out no more than is committed, of what is agreed. */
  ghost predicate InOrder(agreed: seq<Entry>, raw: Raw) {
    CommittedIsAgreed(agreed, raw) && raw.handed <= raw.committed
  }

  lemma Slice(agreed: seq<Entry>, raw: Raw, a: nat, b: nat)
    requires CommittedIsAgreed(agreed, raw) && a <= b <= raw.committed
    ensures raw.log[a..b] == agreed[a..b]
  {
    assert raw.log[..raw.committed][a..b] == raw.log[a..b];
    assert agreed[..raw.committed][a..b] == agreed[a..b];
  }

  lemma Abut<T>(s: seq<T>, a: nat, b: nat, c: nat)
    requires a <= b <= c <= |s|
    ensures s[a..b] + s[b..c] == s[a..c]
  {
  }

  /** The entries of one poll are the next ones of the agreed log. */
  lemma WorkIsNextInLog(agreed: seq<Entry>, raw: Raw, work: Option<Work>, raw': Raw)
    requires InOrder(agreed, raw) && WorkFrom(agreed, raw, work, raw')
    ensures InOrder(agreed, raw') && raw.handed <= raw'.handed <= |agreed|
    ensures EntriesOf(work) == agreed[raw.handed..raw'.handed]
  {
    if work.Some? {
      var w := work.value;
      var taken :| Handing(agreed, raw, w, taken, raw');
      Slice(agreed, raw, raw.handed, taken.handed);
      Slice(agreed, raw', taken.handed, raw'.handed);
      assert w.light.committed == agreed[taken.handed..raw'.handed];
      Abut(agreed, raw.handed, taken.handed, raw'.handed);
    }
  }

  /** Over any number of rounds, what a node is handed is a stretch of the agreed log. */
  lemma {:induction false} HandedIsLogOrder(agreed: seq<Entry>, rounds: seq<Round>, before: seq<seq<Raw>>,
                                            after: seq<seq<Raw>>, n: nat, i: nat)
    requires IsSchedule(agreed, rounds, before, after, n) && i < n && rounds != []
    requires InOrder(agreed, before[0][i])
    ensures var (first, last) := (before[0][i], after[|rounds| - 1][i]);
            && InOrder(agreed, last) && first.handed <= last.handed <= |agreed|
            && HandedTo(rounds, i) == agreed[first.handed..last.handed]
  {
    var k := |rounds| - 1;
    assert RoundFrom(agreed, rounds, before, after, n, k);
    if k == 0 {
      WorkIsNextInLog(agreed, before[0][i], rounds[0][i], after[0][i]);
      OneRoundHanded(rounds, i);
    } else {
      SchedulePrefix(agreed, rounds, before, after, n);
      HandedIsLogOrder(agreed, rounds[..k], before[..k], after[..k], n, i);
      assert LibraryMoves(agreed, after[k - 1][i], before[k][i]);
      WorkIsNextInLog(agreed, before[k][i], rounds[k][i], after[k][i]);
      Abut(agreed, before[0][i].handed, before[k][i].handed, after[k][i].handed);
    }
  }

  lemma OneRoundHanded(rounds: seq<Round>, i: nat)
    requires |rounds| == 1 && i < |rounds[0]|
    ensures HandedTo(rounds, i) == EntriesOf(rounds[0][i])
  {
    assert HandedTo(rounds[..0], i) == [];
    assert [] + EntriesOf(rounds[0][i]) == EntriesOf(rounds[0][i]);
  }

  lemma SchedulePrefix(agreed: seq<Entry>, rounds: seq<Round>, before: seq<seq<Raw>>, after: seq<seq<Raw>>, n: nat)
    requires IsSchedule(agreed, rounds, before, after, n) && rounds != []
    ensures var k := |rounds| - 1;
            IsSchedule(agreed, rounds[..k], before[..k], after[..k], n)
  {
    var k := |rounds| - 1;
    forall r | 0 <= r < k
      ensures RoundFrom(agreed, rounds[..k], before[..k], after[..k], n, r)
    {
      assert RoundFrom(agreed, rounds, before, after, n, r);
    }
  }

  /** When the cluster settles, in a quiet round after others, then on every node: nothing
      is ready; everything the node knows to be committed has been applied; its store has
      moved by exactly the entries committed since, in log order; and the reports that
      name it are those of these entries, in log order. */
  lemma SettledMeansApplied(agreed: seq<Entry>, rounds: seq<Round>, quiet: Round, before: seq<seq<Raw>>,
                            after: seq<seq<Raw>>, 
                            nodes0: seq<NodeView>, inboxes0: seq<seq<Message>>,
                            nodes: seq<NodeView>, inboxes: seq<seq<Message>>,
                            applied: seq<ApplyReport>, i: nat)
    requires Through(nodes0, inboxes0, nodes, inboxes, applied, rounds) && Quiet(quiet)
    requires IsSchedule(agreed, rounds + [quiet], before, after, |nodes0|) && i < |nodes0|
    requires InOrder(agreed, before[0][i])
    ensures var (first, last) := (before[0][i], after[|rounds|][i]);
            && NothingReady(last) && first.handed <= last.committed <= |agreed|
            && nodes[i].store == ApplyTo(nodes0[i].store, agreed[first.handed..last.committed])
            && OfNode(applied, i) == Reports(i, agreed[first.handed..last.committed])
  {
    var all := rounds + [quiet];
    HandedIsLogOrder(agreed, all, before, after, |nodes0|, i);
    assert RoundFrom(agreed, all, before, after, |nodes0|, |rounds|);
    assert all[|rounds|][i].None?;
    QuietHandsNothing(rounds, quiet, i);
    ReportsOfNode(rounds, i);
    ViewAfterStore(i, nodes0[i], rounds);
  }

  lemma QuietHandsNothing(rounds: seq<Round>, quiet: Round, i: nat)
    requires Quiet(quiet) && i < |quiet| && forall r :: 0 <= r < |rounds| ==> i < |rounds[r]|
    ensures HandedTo(rounds + [quiet], i) == HandedTo(rounds, i)
  {
    assert (rounds + [quiet])[..|rounds|] == rounds;
    assert quiet[i].None?;
  }
}
