/** What sessions of the chat broker are given, and when something is missing; and what the
    broadcasts of a run are, in terms of what its clients did. */
module BrokerDelivery {
  import opened Basics
  import opened Text
  import opened BroadcastRing
  import opened Brokers
  import opened BrokerRuns
  import opened BrokerSafety
  import opened BrokerTheorems

  // ---------- Taking from the channel ----------

  /** A session that is at most 128 messages behind takes the next message of the channel;
      one further behind is told how many it lost, which are exactly those more than 128 from
      the end, and stands at the first of the last 128. */
  lemma SessionTakesTheNextMessage(run: seq<Broker>, actions: seq<Action>, i: nat, a: nat, failed: bool)
    requires IsRun(run, actions) && i < |actions| && actions[i] == Action(a, TakeBroadcast(failed))
    ensures a < |run[i].conns| && a < |run[i + 1].conns|
    ensures var (log, c, c') := (run[i].log, run[i].conns[a], run[i + 1].conns[a]);
            && c.next < |log| && run[i + 1].log == log
            && if |log| - c.next <= 128
               then c'.receipts == c.receipts + [Message(c.next, log[c.next])] && c'.next == c.next + 1
               else
                 && c'.receipts == c.receipts + [Gap(c.next, |log| - 128 - c.next)]
                 && c'.next == |log| - 128
  {
    assert StepAt(run, actions, i);
  }

  ghost predicate Takes(actions: seq<Action>, j: nat, a: nat) {
    j < |actions| && actions[j].conn == a && actions[j].step.TakeBroadcast?
  }

  /** A connection changes only in its own steps; its receipts only when it takes, and its
      nickname only with its hello. */
  lemma OwnStepsChangeIt(s: Broker, x: Action, s': Broker, a: nat)
    requires Next(s, x, s') && a < |s.conns|
    ensures a < |s'.conns| && (x.conn != a ==> s'.conns[a] == s.conns[a])
    ensures !x.step.TakeBroadcast? ==> s'.conns[a].receipts == s.conns[a].receipts
    ensures !x.step.Hello? ==> s'.conns[a].nickname == s.conns[a].nickname
  {
    if !x.step.Accept? && !x.step.Shutdown? {
      ConnStepMovesOnlyItself(s, x.conn, x.step, s');
      if x.conn == a {
        OwnStep(s, a, x.step, s');
      }
    }
  }

  lemma OwnStep(s: Broker, a: nat, step: Step, s': Broker)
    requires a < |s.conns| == |s'.conns| && ConnNext(s, a, s.conns[a], step, s')
    ensures !step.TakeBroadcast? ==> s'.conns[a].receipts == s.conns[a].receipts
    ensures !step.Hello? ==> s'.conns[a].nickname == s.conns[a].nickname
    ensures step.Hello? ==> s'.conns[a].nickname == s.conns[a].nickname || s'.conns[a].nickname == Trim(step.text)
  {
  }

  lemma ConnectionsArrive(s: Broker, x: Action, s': Broker, a: nat)
    requires Next(s, x, s') && |s.conns| <= a < |s'.conns|
    ensures s'.conns[a] == NEW_CONN
  {
    if !x.step.Accept? && !x.step.Shutdown? {
      ConnStepMovesOnlyItself(s, x.conn, x.step, s');
      assert false;
    }
  }

  /** Every receipt was taken at some step, from where the session then stood. */
  lemma {:induction false} ReceiptWasTaken(run: seq<Broker>, actions: seq<Action>, i: nat, a: nat, k: nat)
    returns (j: nat)
    requires IsRun(run, actions) && i < |run| && a < |run[i].conns| && k < |run[i].conns[a].receipts|
    ensures j < i && Takes(actions, j, a)
    ensures a < |run[j].conns| && |run[j].conns[a].receipts| == k
    ensures a < |run[j + 1].conns| && |run[j + 1].conns[a].receipts| == k + 1
    ensures run[j + 1].conns[a].receipts[k] == run[i].conns[a].receipts[k]
  {
    if i == 0 {
      assert false;
    } else {
      assert StepAt(run, actions, i - 1);
      if a >= |run[i - 1].conns| {
        ConnectionsArrive(run[i - 1], actions[i - 1], run[i], a);
        assert false;
      }
      OwnStepsChangeIt(run[i - 1], actions[i - 1], run[i], a);
      if k < |run[i - 1].conns[a].receipts| {
        TakeAppends(run[i - 1], actions[i - 1], run[i], a);
        j := ReceiptWasTaken(run, actions, i - 1, a, k);
      } else {
        TakeAppends(run[i - 1], actions[i - 1], run[i], a);
        j := i - 1;
      }
    }
  }

  lemma TakeAppends(s: Broker, x: Action, s': Broker, a: nat)
    requires Next(s, x, s') && a < |s.conns| && a < |s'.conns|
    ensures x.conn == a && x.step.TakeBroadcast? ==>
              s.conns[a].receipts <= s'.conns[a].receipts && |s'.conns[a].receipts| == |s.conns[a].receipts| + 1
  {
  }

  /** A gap is reported only for positions that were out of reach: when a session was told
      of it, the last of them was the 129th from the end of the channel. */
  lemma GapsAreOverruns(run: seq<Broker>, actions: seq<Action>, i: nat, a: nat, k: nat) returns (j: nat)
    requires IsRun(run, actions) && i < |run| && a < |run[i].conns| && k < |run[i].conns[a].receipts|
    requires run[i].conns[a].receipts[k].Gap?
    ensures j < i && Takes(actions, j, a)
    ensures var gap := run[i].conns[a].receipts[k];
            gap.skipped > 0 && gap.pos + gap.skipped + 128 == |run[j].log|
  {
    j := ReceiptWasTaken(run, actions, i, a, k);
    SessionTakesTheNextMessage(run, actions, j, a, actions[j].step.failed);
  }

  /** So a session that never falls more than 128 messages behind when it takes gets, in
      order and without exception, every message from where it subscribed. */
  lemma PromptSessionsMissNothing(run: seq<Broker>, actions: seq<Action>, i: nat, a: nat)
    requires IsRun(run, actions) && i < |run| && a < |run[i].conns|
    requires forall j :: 0 <= j < i && Takes(actions, j, a) && a < |run[j].conns| ==>
               |run[j].log| - run[j].conns[a].next <= 128
    ensures var (log, c) := (run[i].log, run[i].conns[a]);
            && |c.receipts| == c.next - c.start && c.next <= |log|
            && forall k :: 0 <= k < |c.receipts| ==> c.receipts[k] == Message(c.start + k, log[c.start + k])
  {
    RunKeeps(run, actions, i);
    var (log, c) := (run[i].log, run[i].conns[a]);
    assert SessionOk(run[i], c);
    forall k | 0 <= k < |c.receipts|
      ensures c.receipts[k].Message?
    {
      var j := ReceiptWasTaken(run, actions, i, a, k);
      SessionTakesTheNextMessage(run, actions, j, a, actions[j].step.failed);
    }
    OnlyMessages(log, c.start, c.receipts, c.next);
  }

  lemma {:induction false} OnlyMessagesUpTo<T>(log: seq<T>, start: nat, receipts: seq<Receipt<T>>, next: nat, k: nat)
    requires Follows(log, start, receipts, next) && forall i :: 0 <= i < |receipts| ==> receipts[i].Message?
    requires k < |receipts|
    ensures receipts[k].pos == start + k
  {
    if k > 0 {
      OnlyMessagesUpTo(log, start, receipts, next, k - 1);
      assert receipts[k - 1 + 1].pos == After(receipts[k - 1]);
    }
  }

  lemma OnlyMessages<T>(log: seq<T>, start: nat, receipts: seq<Receipt<T>>, next: nat)
    requires Follows(log, start, receipts, next) && forall i :: 0 <= i < |receipts| ==> receipts[i].Message?
    ensures |receipts| == next - start
    ensures forall k :: 0 <= k < |receipts| ==> receipts[k] == Message(start + k, log[start + k])
  {
    forall k | 0 <= k < |receipts|
      ensures receipts[k].pos == start + k
    {
      OnlyMessagesUpTo(log, start, receipts, next, k);
    }
  }

  // ---------- What is broadcast ----------

  /** What connection or broker says with an action: the client's own words, under the name
      it registered; that it joined or left; or that the broker shuts down. */
  ghost predicate Says(s: Broker, x: Action, m: ServerToClient) {
    match x.step
    case ChatLine(text) => !Blank(text) && x.conn < |s.conns| && m == Chat(s.conns[x.conn].nickname, text)
    case Announce => x.conn < |s.conns| && m == UserJoined(s.conns[x.conn].nickname)
    case AnnounceLeave => x.conn < |s.conns| && m == UserLeft(s.conns[x.conn].nickname)
    case Shutdown => m == Error("broker shutting down")
    case _ => false
  }

  /** The actions that say something. */
  ghost predicate Speaks(x: Action) {
    match x.step
    case ChatLine(text) => !Blank(text)
    case Announce => true
    case AnnounceLeave => true
    case Shutdown => true
    case _ => false
  }

  lemma StepSays(s: Broker, x: Action, s': Broker) returns (ms: seq<ServerToClient>)
    requires Next(s, x, s')
    ensures s'.calls == s.calls + ms
    ensures if Speaks(x) then |ms| == 1 && Says(s, x, ms[0]) else ms == []
  {
    ms := s'.calls[|s.calls|..];
    match x.step
    case ChatLine(text) => BlankIffTrimmedAway(text);
    case _ =>
  }

  /** Call k is what action g[k] said. */
  ghost predicate SaidBy(run: seq<Broker>, actions: seq<Action>, calls: seq<ServerToClient>, g: seq<nat>) {
    && |g| == |calls|
    && forall k :: 0 <= k < |g| ==> g[k] < |run| && g[k] < |actions| && Says(run[g[k]], actions[g[k]], calls[k])
  }

  lemma SaidOneMore(run: seq<Broker>, actions: seq<Action>, calls: seq<ServerToClient>, g: seq<nat>, j: nat,
                    m: ServerToClient)
    requires SaidBy(run, actions, calls, g) && j < |run| && j < |actions| && Says(run[j], actions[j], m)
    ensures SaidBy(run, actions, calls + [m], g + [j])
  {
  }

  /** Everything broadcast in a run was said in it, once and in order, and everything said
      was broadcast: g lists the actions that say something, and call k is what action g[k]
      said. */
  lemma {:induction false} BroadcastsAreWhatWasSaid(run: seq<Broker>, actions: seq<Action>, i: nat)
    returns (g: seq<nat>)
    requires IsRun(run, actions) && i < |run|
    ensures Positions(g, actions[..i], Speaks) && SaidBy(run, actions, run[i].calls, g)
  {
    g := [];
    if i > 0 {
      var before := BroadcastsAreWhatWasSaid(run, actions, i - 1);
      assert StepAt(run, actions, i - 1);
      var x := actions[i - 1];
      var ms := StepSays(run[i - 1], x, run[i]);
      OnePosition(x, Speaks);
      PositionsJoined(before, actions[..i - 1], if Speaks(x) then [0] else [], [x], Speaks);
      OneMoreTaken(actions, i - 1);
      g := Joined(before, i - 1, if Speaks(x) then [0] else []);
      if Speaks(x) {
        SaidOneMore(run, actions, run[i - 1].calls, before, i - 1, ms[0]);
        OneShifted(before, i - 1);
        assert ms == [ms[0]];
      } else {
        NoneShifted(before, i - 1);
      }
    }
  }

  lemma OneShifted(g: seq<nat>, d: nat)
    ensures Joined(g, d, [0]) == g + [d]
  {
  }

  lemma NoneShifted(g: seq<nat>, d: nat)
    ensures Joined(g, d, []) == g
  {
  }

  /** The name a connection goes by is the nickname of its hello, trimmed. */
  lemma {:induction false} NicknameIsTheTrimmedHello(run: seq<Broker>, actions: seq<Action>, i: nat, a: nat)
    returns (j: nat)
    requires IsRun(run, actions) && i < |run| && a < |run[i].conns| && run[i].conns[a].nickname != ""
    ensures j < i && actions[j].conn == a && actions[j].step.Hello?
    ensures run[i].conns[a].nickname == Trim(actions[j].step.text)
  {
    if i == 0 {
      assert false;
    } else {
      assert StepAt(run, actions, i - 1);
      if a >= |run[i - 1].conns| {
        ConnectionsArrive(run[i - 1], actions[i - 1], run[i], a);
        assert false;
      }
      OwnStepsChangeIt(run[i - 1], actions[i - 1], run[i], a);
      if run[i - 1].conns[a].nickname == run[i].conns[a].nickname {
        j := NicknameIsTheTrimmedHello(run, actions, i - 1, a);
      } else {
        OwnStep(run[i - 1], a, actions[i - 1].step, run[i]);
        j := i - 1;
      }
    }
  }
}
