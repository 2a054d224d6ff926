/** What the chat broker guarantees in every reachable state of every run. */
module BrokerTheorems {
  import opened Text
  import opened BroadcastRing
  import opened Brokers
  import opened BrokerRuns
  import opened BrokerSafety

  // ---------- Joins and leaves ----------

  /** Announced connections of nickname n, live or aborted, whose record is in the map. */
  function StillRegistered(conns: seq<Conn>, clients: map<nat, string>, n: string): nat {
    if conns == [] then 0
    else
      var c := conns[|conns| - 1];
      StillRegistered(conns[..|conns| - 1], clients, n) +
      if c.announced && c.nickname == n && c.id in clients then 1 else 0
  }

  /** Connections of nickname n that were removed and not yet announced as gone. */
  function Departing(conns: seq<Conn>, n: string): nat {
    if conns == [] then 0
    else
      var c := conns[|conns| - 1];
      Departing(conns[..|conns| - 1], n) + if c.phase.Departed? && c.nickname == n then 1 else 0
  }

  lemma {:induction false} StandingIsRegisteredOrDeparting(s: Broker, conns: seq<Conn>, n: string)
    requires forall i :: 0 <= i < |conns| ==> ConnOk(s, conns[i])
    ensures Standing(conns, n) == StillRegistered(conns, s.clients, n) + Departing(conns, n)
  {
    if conns != [] {
      StandingIsRegisteredOrDeparting(s, conns[..|conns| - 1], n);
      assert ConnOk(s, conns[|conns| - 1]);
    }
  }

  /** What is counted: occurrences of the message for joins and leaves, and connections for
      the others. */
  lemma {:induction false} CallsAreCounted(calls: seq<ServerToClient>, n: string)
    ensures Joins(calls, n) == multiset(calls)[UserJoined(n)]
    ensures Leaves(calls, n) == multiset(calls)[UserLeft(n)]
  {
    if calls != [] {
      CallsAreCounted(calls[..|calls| - 1], n);
      assert calls == calls[..|calls| - 1] + [calls[|calls| - 1]];
    }
  }

  ghost function Where(conns: seq<Conn>, p: Conn -> bool): set<nat> {
    set i: nat | i < |conns| && p(conns[i])
  }

  lemma OneMoreWhere(conns: seq<Conn>, p: Conn -> bool)
    requires conns != []
    ensures |Where(conns, p)| == |Where(conns[..|conns| - 1], p)| + if p(conns[|conns| - 1]) then 1 else 0
  {
    var init, last := conns[..|conns| - 1], |conns| - 1;
    assert Where(conns, p) == Where(init, p) + if p(conns[last]) then {last} else {};
  }

  function RegisteredAs(clients: map<nat, string>, n: string): Conn -> bool {
    (c: Conn) => c.announced && c.nickname == n && c.id in clients
  }

  function DepartedAs(n: string): Conn -> bool {
    (c: Conn) => c.phase.Departed? && c.nickname == n
  }

  lemma {:induction false} ConnectionsAreCounted(conns: seq<Conn>, clients: map<nat, string>, n: string)
    ensures StillRegistered(conns, clients, n) == |Where(conns, RegisteredAs(clients, n))|
    ensures Departing(conns, n) == |Where(conns, DepartedAs(n))|
  {
    if conns != [] {
      ConnectionsAreCounted(conns[..|conns| - 1], clients, n);
      OneMoreWhere(conns, RegisteredAs(clients, n));
      OneMoreWhere(conns, DepartedAs(n));
    }
  }

  /** Joins minus leaves of a nickname are its announced connections still in the map
      plus those removed whose leave is yet to be broadcast. */
  lemma JoinsBalanceLeaves(run: seq<Broker>, actions: seq<Action>, i: nat, n: string)
    requires IsRun(run, actions) && i < |run|
    ensures var s := run[i];
            Joins(s.calls, n) == Leaves(s.calls, n) + StillRegistered(s.conns, s.clients, n) + Departing(s.conns, n)
  {
    RunKeeps(run, actions, i);
    RunBalances(run, actions, i);
    StandingIsRegisteredOrDeparting(run[i], run[i].conns, n);
  }

  /** A step broadcasts at most one message, which is stored if and only if somebody listens. */
  ghost predicate Broadcasts(s: Broker, s': Broker) {
    (s'.calls == s.calls && s'.log == s.log && s'.unheard == s.unheard) || exists m :: Sends(s, m, s')
  }

  ghost predicate Sends(s: Broker, m: ServerToClient, s': Broker) {
    && s'.calls == s.calls + [m]
    && if Listening(s) then s'.log == s.log + [m] && s'.unheard == s.unheard
       else s'.log == s.log && s'.unheard == s.unheard + [m]
  }

  lemma StepBroadcastsAtMostOnce(s: Broker, a: Action, s': Broker)
    requires Next(s, a, s')
    ensures Broadcasts(s, s')
  {
    match a.step
    case Shutdown => SendsBroadcast(s.(accepting := false), Error("broker shutting down"), s, s');
    case ChatLine(text) =>
      if Trim(text) != "" {
        SendsBroadcast(s, Chat(s.conns[a.conn].nickname, text), s, s');
      }
    case Announce =>
      var c := s.conns[a.conn];
      ListeningWithout(s, a.conn, c.(phase := Announced, announced := true));
      SendsBroadcast(WithConn(s, a.conn, c.(phase := Announced, announced := true)), UserJoined(c.nickname), s, s');
    case AnnounceLeave =>
      var c := s.conns[a.conn];
      ListeningWithout(s, a.conn, c.(phase := Closed, left := true));
      SendsBroadcast(WithConn(s, a.conn, c.(phase := Closed, left := true)), UserLeft(c.nickname), s, s');
    case _ =>
  }

  lemma SendsBroadcast(mid: Broker, m: ServerToClient, s: Broker, s': Broker)
    requires s' == Broadcast(mid, m)
    requires mid.calls == s.calls && mid.log == s.log && mid.unheard == s.unheard && Listening(mid) == Listening(s)
    ensures Broadcasts(s, s')
  {
    assert Sends(s, m, s');
  }

  /** A connection that is not in session before or after does not change who listens. */
  lemma ListeningWithout(s: Broker, i: nat, c: Conn)
    requires i < |s.conns| && !s.conns[i].phase.InSession? && !c.phase.InSession?
    ensures Listening(WithConn(s, i, c)) == Listening(s)
  {
    var s' := WithConn(s, i, c);
    if Listening(s) {
      var k :| 0 <= k < |s.conns| && s.conns[k].phase.InSession?;
      assert s'.conns[k].phase.InSession?;
    }
    if Listening(s') {
      var k :| 0 <= k < |s'.conns| && s'.conns[k].phase.InSession?;
      assert s.conns[k].phase.InSession?;
    }
  }

  /** No prefix of the broadcasts has more leaves than joins of a nickname. */
  lemma {:induction false} LeavesNeverOvertakeJoins(run: seq<Broker>, actions: seq<Action>, i: nat, k: nat, n: string)
    requires IsRun(run, actions) && i < |run| && k <= |run[i].calls|
    ensures Leaves(run[i].calls[..k], n) <= Joins(run[i].calls[..k], n)
  {
    if k == |run[i].calls| {
      RunBalances(run, actions, i);
      assert run[i].calls[..k] == run[i].calls;
      assert Joins(run[i].calls, n) == Leaves(run[i].calls, n) + Standing(run[i].conns, n);
    } else {
      assert StepAt(run, actions, i - 1);
      StepBroadcastsAtMostOnce(run[i - 1], actions[i - 1], run[i]);
      LeavesNeverOvertakeJoins(run, actions, i - 1, k, n);
      assert run[i].calls[..k] == run[i - 1].calls[..k];
    }
  }

  // ---------- What the channel holds of them ----------

  ghost predicate Accounted(s: Broker) {
    forall n :: Joins(s.calls, n) == Joins(s.log, n) + Joins(s.unheard, n)
             && Leaves(s.calls, n) == Leaves(s.log, n) + Leaves(s.unheard, n)
  }

  lemma BroadcastIsAccounted(s: Broker, s': Broker)
    requires Accounted(s) && Broadcasts(s, s')
    ensures Accounted(s')
  {
    if s'.calls != s.calls {
      var m :| Sends(s, m, s');
      forall n
        ensures Joins(s'.calls, n) == Joins(s'.log, n) + Joins(s'.unheard, n)
        ensures Leaves(s'.calls, n) == Leaves(s'.log, n) + Leaves(s'.unheard, n)
      {
        assert Joins(s.calls, n) == Joins(s.log, n) + Joins(s.unheard, n);
        CallAdded(s.calls, m, n);
        CallAdded(s.log, m, n);
        CallAdded(s.unheard, m, n);
      }
    }
  }

  lemma {:induction false} RunIsAccounted(run: seq<Broker>, actions: seq<Action>, i: nat)
    requires IsRun(run, actions) && i < |run|
    ensures Accounted(run[i])
  {
    if i > 0 {
      RunIsAccounted(run, actions, i - 1);
      assert StepAt(run, actions, i - 1);
      StepBroadcastsAtMostOnce(run[i - 1], actions[i - 1], run[i]);
      BroadcastIsAccounted(run[i - 1], run[i]);
    }
  }

  /** The law for the channel's contents, which sessions read: a join or leave that was
      sent while nobody listened is missing from it. So a nickname's leaves outnumber its
      joins there if and only if more of its joins than of its leaves went unheard, beyond
      the connections that still stand. */
  lemma StoredJoinsAndLeaves(run: seq<Broker>, actions: seq<Action>, i: nat, n: string)
    requires IsRun(run, actions) && i < |run|
    ensures var s := run[i];
            var standing := StillRegistered(s.conns, s.clients, n) + Departing(s.conns, n);
            && Joins(s.log, n) + Joins(s.unheard, n) == Leaves(s.log, n) + Leaves(s.unheard, n) + standing
            && (Leaves(s.log, n) > Joins(s.log, n) <==> Joins(s.unheard, n) > Leaves(s.unheard, n) + standing)
  {
    JoinsBalanceLeaves(run, actions, i, n);
    RunIsAccounted(run, actions, i);
    var s := run[i];
    assert Joins(s.calls, n) == Joins(s.log, n) + Joins(s.unheard, n);
  }

  // ---------- Sessions ----------

  /** A session never takes a join of its own nickname from the channel. */
  lemma NobodySeesThemselvesJoin(run: seq<Broker>, actions: seq<Action>, i: nat, a: nat, k: nat)
    requires IsRun(run, actions) && i < |run| && a < |run[i].conns| && k < |run[i].conns[a].receipts|
    requires run[i].conns[a].receipts[k].Message?
    ensures run[i].conns[a].receipts[k].message != UserJoined(run[i].conns[a].nickname)
  {
    RunKeeps(run, actions, i);
    assert SessionOk(run[i], run[i].conns[a]);
  }

  /** A session takes the channel in order from where it subscribed: what it got and what
      it was told it missed add up to how far it has come, and each position in between
      was either delivered as it is in the channel or lies in a reported gap. */
  lemma SessionsAccountForTheChannel(run: seq<Broker>, actions: seq<Action>, i: nat, a: nat, p: nat) returns (k: nat)
    requires IsRun(run, actions) && i < |run| && a < |run[i].conns|
    requires run[i].conns[a].start <= p < run[i].conns[a].next
    ensures var (s, c) := (run[i], run[i].conns[a]);
            && c.next <= |s.log|
            && Delivered(c.receipts) + Skipped(c.receipts) == c.next - c.start
            && k < |c.receipts|
            && (c.receipts[k] == Message(p, s.log[p]) ||
                (c.receipts[k].Gap? && c.receipts[k].pos <= p < c.receipts[k].pos + c.receipts[k].skipped))
  {
    RunKeeps(run, actions, i);
    var (s, c) := (run[i], run[i].conns[a]);
    assert SessionOk(s, c);
    NothingUnaccounted(s.log, c.start, c.receipts, c.next);
    k := EveryPositionIsCovered(s.log, c.start, c.receipts, c.next, p);
  }

  /** Two sessions that took the same two messages took them in the same order. */
  lemma SessionsAgreeOnOrder(run: seq<Broker>, actions: seq<Action>, i: nat, a: nat, b: nat, k: nat, l: nat, k': nat,
                             l': nat)
    requires IsRun(run, actions) && i < |run| && a < |run[i].conns| && b < |run[i].conns|
    requires k < l < |run[i].conns[a].receipts| && k' < |run[i].conns[b].receipts| && l' < |run[i].conns[b].receipts|
    requires run[i].conns[a].receipts[k].Message? && run[i].conns[b].receipts[k'] == run[i].conns[a].receipts[k]
    requires run[i].conns[a].receipts[l].Message? && run[i].conns[b].receipts[l'] == run[i].conns[a].receipts[l]
    ensures k' < l'
  {
    RunKeeps(run, actions, i);
    var (s, c, d) := (run[i], run[i].conns[a], run[i].conns[b]);
    assert SessionOk(s, c) && SessionOk(s, d);
    ReceiversAgreeOnOrder(s.log, c.start, c.receipts, c.next, d.start, d.receipts, d.next, k, l, k', l');
  }

  // ---------- The registry ----------

  /** Registered nicknames are pairwise distinct, trimmed and non-empty; ids are below the
      counter and no two connections share one. */
  lemma RegistryIsSound(run: seq<Broker>, actions: seq<Action>, i: nat)
    requires IsRun(run, actions) && i < |run|
    ensures var s := run[i];
            && (forall a, b :: a in s.clients && b in s.clients && a != b ==> s.clients[a] != s.clients[b])
            && (forall a :: a in s.clients ==> a < s.nextId && Trimmed(s.clients[a]) && s.clients[a] != "")
            && (forall a, b :: 0 <= a < b < |s.conns| && s.conns[a].id > 0 ==>
                  s.conns[a].id != s.conns[b].id && s.conns[a].id < s.nextId)
  {
    RunKeeps(run, actions, i);
    forall a | 0 <= a < |run[i].conns|
      ensures run[i].conns[a].id < run[i].nextId
    {
      assert ConnOk(run[i], run[i].conns[a]);
    }
  }

  /** A registration that succeeds lists everybody who was there, each once, and never
      the newcomer, and replaces nobody's record. */
  lemma RosterExcludesTheNewcomer(run: seq<Broker>, actions: seq<Action>, i: nat, a: nat, roster: seq<string>)
    requires IsRun(run, actions) && i < |actions| && actions[i] == Action(a, Register(roster))
    requires a < |run[i].conns| && a < |run[i + 1].conns| && run[i + 1].conns[a].phase.Registered?
    ensures var (s, c) := (run[i], run[i].conns[a]);
            && (forall n :: n in roster <==> Taken(s.clients, n))
            && (forall x, y :: 0 <= x < y < |roster| ==> roster[x] != roster[y])
            && c.nickname !in roster && c.id !in s.clients
            && run[i + 1].clients == s.clients[c.id := c.nickname]
  {
    RunKeeps(run, actions, i);
    assert StepAt(run, actions, i);
    assert ConnOk(run[i], run[i].conns[a]);
  }

  /** A session that ends cleanly finds its own record, so its leave is broadcast. */
  lemma CleanEndFindsItsRecord(run: seq<Broker>, actions: seq<Action>, i: nat, a: nat)
    requires IsRun(run, actions) && i < |actions| && actions[i] == Action(a, Remove) && a < |run[i].conns|
    ensures var (s, c) := (run[i], run[i].conns[a]);
            && c.id in s.clients && s.clients[c.id] == c.nickname
            && a < |run[i + 1].conns| && run[i + 1].conns[a].phase.Departed?
            && !Taken(run[i + 1].clients, c.nickname)
  {
    RunKeeps(run, actions, i);
    assert StepAt(run, actions, i);
    assert ConnOk(run[i], run[i].conns[a]);
  }

  /** A connection that is over leaves its record behind if and only if an error ended it
      after it had registered. */
  lemma EndedConnectionKeepsItsRecordIffAborted(run: seq<Broker>, actions: seq<Action>, i: nat, a: nat)
    requires IsRun(run, actions) && i < |run| && a < |run[i].conns|
    requires run[i].conns[a].phase.Closed? || run[i].conns[a].phase.Aborted?
    ensures run[i].conns[a].id in run[i].clients <==> run[i].conns[a].phase.Aborted?
  {
    RunKeeps(run, actions, i);
    assert ConnOk(run[i], run[i].conns[a]);
  }

  lemma ConnStepMovesOnlyItself(s: Broker, i: nat, step: Step, s': Broker)
    requires i < |s.conns| && ConnNext(s, i, s.conns[i], step, s')
    ensures !s.conns[i].phase.Aborted?
    ensures |s'.conns| == |s.conns| && forall j :: 0 <= j < |s.conns| && j != i ==> s'.conns[j] == s.conns[j]
  {
  }

  lemma AbortedStays(s: Broker, x: Action, s': Broker, a: nat)
    requires Next(s, x, s') && a < |s.conns| && s.conns[a].phase.Aborted?
    ensures a < |s'.conns| && s'.conns[a] == s.conns[a]
  {
    if !x.step.Accept? && !x.step.Shutdown? {
      ConnStepMovesOnlyItself(s, x.conn, x.step, s');
    }
  }

  lemma {:induction false} AbortedForGood(run: seq<Broker>, actions: seq<Action>, i: nat, j: nat, a: nat)
    requires IsRun(run, actions) && i <= j < |run| && a < |run[i].conns| && run[i].conns[a].phase.Aborted?
    ensures a < |run[j].conns| && run[j].conns[a] == run[i].conns[a]
  {
    if i < j {
      AbortedForGood(run, actions, i, j - 1, a);
      assert StepAt(run, actions, j - 1);
      AbortedStays(run[j - 1], actions[j - 1], run[j], a);
    }
  }

  /** The other side of errors that skip the clean-up: the nickname of a connection that
      an error ended is taken for the rest of the run. */
  lemma AbortedNicknameStaysTaken(run: seq<Broker>, actions: seq<Action>, i: nat, j: nat, a: nat)
    requires IsRun(run, actions) && i <= j < |run| && a < |run[i].conns| && run[i].conns[a].phase.Aborted?
    ensures a < |run[j].conns| && run[j].conns[a] == run[i].conns[a]
    ensures Taken(run[j].clients, run[i].conns[a].nickname)
  {
    AbortedForGood(run, actions, i, j, a);
    RunKeeps(run, actions, j);
    HolderTakesNickname(run[j], a);
  }

  lemma HolderTakesNickname(s: Broker, a: nat)
    requires Inv(s) && a < |s.conns| && Holds(s.conns[a])
    ensures Taken(s.clients, s.conns[a].nickname)
  {
    assert ConnOk(s, s.conns[a]);
    assert s.clients[s.conns[a].id] == s.conns[a].nickname;
  }
}
