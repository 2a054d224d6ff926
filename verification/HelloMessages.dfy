/** Where the messages of the in-memory cluster come from and where they go: each one that
    a poll emits is stepped exactly once, at its addressee, in the order of emission. */
module HelloMessages {
  import opened Basics
  import opened RaftLog
  import opened RaftNodes
  import opened HelloRaft

  /** Where message j of node i in round r stands among all messages emitted. */
  function EmittedAt(rounds: seq<Round>, r: nat, i: nat, j: nat): nat
    requires r < |rounds| && i < |rounds[r]|
  {
    |Emitted(rounds[..r])| + |EmittedInRound(rounds[r][..i])| + j
  }

  lemma TakeTwice<T>(s: seq<T>, n: nat, k: nat)
    requires k <= n <= |s|
    ensures s[..n][..k] == s[..k]
  {
  }

  lemma SumAt<T>(a: seq<T>, b: seq<T>, c: seq<T>, d: seq<T>, e: seq<T>, j: nat)
    requires j < |b|
    ensures |d| + |a| + j < |d + (a + b + c) + e| && (d + (a + b + c) + e)[|d| + |a| + j] == b[j]
  {
  }

  lemma {:induction false} RoundEmits(round: Round, i: nat) returns (later: seq<Message>)
    requires i < |round|
    ensures EmittedInRound(round) == EmittedInRound(round[..i]) + MessagesOf(round[i]) + later
  {
    var last := |round| - 1;
    if i == last {
      later := [];
      NothingMore(EmittedInRound(round));
    } else {
      var more := RoundEmits(round[..last], i);
      TakeTwice(round, last, i);
      later := more + MessagesOf(round[last]);
      Regroup(EmittedInRound(round[..i]) + MessagesOf(round[i]), more, MessagesOf(round[last]));
    }
  }

  lemma {:induction false} RoundIsEmitted(rounds: seq<Round>, r: nat) returns (later: seq<Message>)
    requires r < |rounds|
    ensures Emitted(rounds) == Emitted(rounds[..r]) + EmittedInRound(rounds[r]) + later
  {
    var last := |rounds| - 1;
    if r == last {
      later := [];
      NothingMore(Emitted(rounds));
    } else {
      var more := RoundIsEmitted(rounds[..last], r);
      TakeTwice(rounds, last, r);
      later := more + EmittedInRound(rounds[last]);
      Regroup(Emitted(rounds[..r]) + EmittedInRound(rounds[r]), more, EmittedInRound(rounds[last]));
    }
  }

  /** Everything that a poll hands out is emitted: first the messages of the first phase,
      then the persisted ones, then those of the second. */
  lemma PolledMessagesAreEmitted(rounds: seq<Round>, r: nat, i: nat, j: nat)
    requires r < |rounds| && i < |rounds[r]| && rounds[r][i].Some?
    requires var w := rounds[r][i].value;
             j < |w.ready.messages + w.ready.persistedMessages + w.light.messages|
    ensures EmittedAt(rounds, r, i, j) < |Emitted(rounds)|
    ensures var w := rounds[r][i].value;
            Emitted(rounds)[EmittedAt(rounds, r, i, j)] ==
            (w.ready.messages + w.ready.persistedMessages + w.light.messages)[j]
  {
    var inRound := RoundEmits(rounds[r], i);
    var later := RoundIsEmitted(rounds, r);
    SumAt(EmittedInRound(rounds[r][..i]), MessagesOf(rounds[r][i]), inRound, Emitted(rounds[..r]), later, j);
  }

  lemma {:induction false} RoundMessageComesFrom(round: Round, k: nat) returns (i: nat, j: nat)
    requires k < |EmittedInRound(round)|
    ensures i < |round| && j < |MessagesOf(round[i])| && k == |EmittedInRound(round[..i])| + j
  {
    var last := |round| - 1;
    if k < |EmittedInRound(round[..last])| {
      i, j := RoundMessageComesFrom(round[..last], k);
      TakeTwice(round, last, i);
    } else {
      i, j := last, k - |EmittedInRound(round[..last])|;
    }
  }

  /** And nothing else is. */
  lemma {:induction false} EmittedMessagesWerePolled(rounds: seq<Round>, k: nat) returns (r: nat, i: nat, j: nat)
    requires k < |Emitted(rounds)|
    ensures r < |rounds| && i < |rounds[r]| && rounds[r][i].Some? && k == EmittedAt(rounds, r, i, j)
    ensures var w := rounds[r][i].value;
            j < |w.ready.messages + w.ready.persistedMessages + w.light.messages|
  {
    var last := |rounds| - 1;
    if k < |Emitted(rounds[..last])| {
      r, i, j := EmittedMessagesWerePolled(rounds[..last], k);
      TakeTwice(rounds, last, r);
    } else {
      r := last;
      i, j := RoundMessageComesFrom(rounds[last], k - |Emitted(rounds[..last])|);
    }
  }

  /** After any whole rounds, and so when `process_ready` settles: at every node, what its
      library has stepped is what it had before and then, in the order of emission and each
      exactly once, the messages emitted for this node; f lists where they were emitted. */
  lemma EmittedMessagesAreStepped(nodes0: seq<NodeView>, inboxes0: seq<seq<Message>>, nodes: seq<NodeView>,
                                  inboxes: seq<seq<Message>>, applied: seq<ApplyReport>, rounds: seq<Round>, to: nat)
    returns (f: seq<nat>)
    requires Through(nodes0, inboxes0, nodes, inboxes, applied, rounds) && to < |inboxes0|
    ensures |inboxes| == |inboxes0| && inboxes0[to] <= inboxes[to]
    ensures Embeds(f, inboxes[to][|inboxes0[to]|..], Emitted(rounds))
    ensures forall k :: 0 <= k < |Emitted(rounds)| ==> (k in f <==> Emitted(rounds)[k].to == to)
  {
    f := DeliveredOnceToTheAddressee(inboxes0, inboxes, Emitted(rounds), to);
  }

  /** So a message that some poll handed out for a node of the cluster stands in what that
      node's library stepped, at one position and no other. */
  lemma PolledMessageIsSteppedOnce(nodes0: seq<NodeView>, inboxes0: seq<seq<Message>>, nodes: seq<NodeView>,
                                   inboxes: seq<seq<Message>>, applied: seq<ApplyReport>, rounds: seq<Round>,
                                   r: nat, i: nat, j: nat, to: nat)
    returns (f: seq<nat>, p: nat)
    requires Through(nodes0, inboxes0, nodes, inboxes, applied, rounds)
    requires r < |rounds| && i < |rounds[r]| && rounds[r][i].Some?
    requires var w := rounds[r][i].value;
             var ms := w.ready.messages + w.ready.persistedMessages + w.light.messages;
             j < |ms| && ms[j].to == to < |inboxes0|
    ensures |inboxes| == |inboxes0| && inboxes0[to] <= inboxes[to]
    ensures |f| == |inboxes[to]| - |inboxes0[to]| && p < |f|
    ensures forall q :: 0 <= q < |f| ==> (f[q] == EmittedAt(rounds, r, i, j) <==> q == p)
    ensures var w := rounds[r][i].value;
            inboxes[to][|inboxes0[to]| + p] == (w.ready.messages + w.ready.persistedMessages + w.light.messages)[j]
  {
    PolledMessagesAreEmitted(rounds, r, i, j);
    f := EmittedMessagesAreStepped(nodes0, inboxes0, nodes, inboxes, applied, rounds, to);
    p :| 0 <= p < |f| && f[p] == EmittedAt(rounds, r, i, j);
    assert inboxes[to][|inboxes0[to]|..][p] == Emitted(rounds)[f[p]];
  }

  // ---------- Reports ----------

  lemma {:induction false} RoundReports(round: Round, i: nat) returns (later: seq<ApplyReport>)
    requires i < |round|
    ensures ReportedInRound(round) == ReportedInRound(round[..i]) + Reports(i, EntriesOf(round[i])) + later
  {
    var last := |round| - 1;
    if i == last {
      later := [];
      NothingMore(ReportedInRound(round));
    } else {
      var more := RoundReports(round[..last], i);
      TakeTwice(round, last, i);
      later := more + Reports(last, EntriesOf(round[last]));
      Regroup(ReportedInRound(round[..i]) + Reports(i, EntriesOf(round[i])), more,
              Reports(last, EntriesOf(round[last])));
    }
  }

  lemma {:induction false} RoundIsReported(rounds: seq<Round>, r: nat) returns (later: seq<ApplyReport>)
    requires r < |rounds|
    ensures Reported(rounds) == Reported(rounds[..r]) + ReportedInRound(rounds[r]) + later
  {
    var last := |rounds| - 1;
    if r == last {
      later := [];
      NothingMore(Reported(rounds));
    } else {
      var more := RoundIsReported(rounds[..last], r);
      TakeTwice(rounds, last, r);
      later := more + ReportedInRound(rounds[last]);
      Regroup(Reported(rounds[..r]) + ReportedInRound(rounds[r]), more, ReportedInRound(rounds[last]));
    }
  }

  /** Reports are returned round by round, in a round node by node in id order, and for a
      node in the order of the entries handed to it: those of node i in round r come right
      after the reports of the rounds before and of the nodes before. */
  lemma ReportsStandInOrder(rounds: seq<Round>, r: nat, i: nat) returns (later: seq<ApplyReport>)
    requires r < |rounds| && i < |rounds[r]|
    ensures Reported(rounds) ==
            Reported(rounds[..r]) + ReportedInRound(rounds[r][..i]) + Reports(i, EntriesOf(rounds[r][i])) + later
  {
    var inRound := RoundReports(rounds[r], i);
    var after := RoundIsReported(rounds, r);
    later := inRound + after;
    Ungroup(Reported(rounds[..r]), ReportedInRound(rounds[r][..i]), Reports(i, EntriesOf(rounds[r][i])), inRound,
            after);
  }

  lemma Ungroup<T>(d: seq<T>, a: seq<T>, b: seq<T>, c: seq<T>, e: seq<T>)
    ensures d + (a + b + c) + e == d + a + b + (c + e)
  {
  }
}
