/** Every interleaving of the broker's connections keeps the invariant. */
module BrokerSafety {
  import opened Text
  import opened BroadcastRing
  import opened Brokers
  import opened BrokerRuns

  /** A connection is untouched by changes to the map that leave its own id alone. */
  ghost predicate SameFor(s: Broker, s': Broker, c: Conn) {
    && s.nextId <= s'.nextId
    && (c.id in s.clients <==> c.id in s'.clients)
    && (c.id in s.clients ==> s'.clients[c.id] == s.clients[c.id])
  }

  lemma OthersStay(s: Broker, i: nat, s': Broker)
    requires Inv(s) && i < |s.conns| == |s'.conns|
    requires forall j :: 0 <= j < |s.conns| && j != i ==> s'.conns[j] == s.conns[j] && SameFor(s, s', s.conns[j])
    requires s'.log == s.log
    requires ConnOk(s', s'.conns[i]) && SessionOk(s', s'.conns[i])
    requires s.nextId <= s'.nextId && MapOk(s'.clients, s'.nextId)
    requires s'.conns[i].id == s.conns[i].id || (s'.conns[i].id == s.nextId)
    ensures Inv(s')
  {
    forall j, k | 0 <= j < k < |s'.conns| && s'.conns[j].id > 0
      ensures s'.conns[j].id != s'.conns[k].id
    {
      assert ConnOk(s, s.conns[j]) && ConnOk(s, s.conns[k]);
    }
    forall j | 0 <= j < |s'.conns|
      ensures ConnOk(s', s'.conns[j]) && SessionOk(s', s'.conns[j])
    {
      if j != i {
        assert ConnOk(s, s.conns[j]) && SessionOk(s, s.conns[j]);
      }
    }
  }

  ghost predicate IsLocal(step: Step) {
    || step.BadHello? || step.Hello? || step.TakeId? || step.WelcomeClient? || step.Subscribe?
    || step.HelloAgain? || step.ReadFails? || step.EndOfInput?
  }

  lemma LocalConn(s: Broker, i: nat, step: Step, s': Broker)
    requires s.nextId >= 1 && MapOk(s.clients, s.nextId) && i < |s.conns| && ConnOk(s, s.conns[i])
    requires ConnNext(s, i, s.conns[i], step, s') && IsLocal(step)
    ensures |s'.conns| == |s.conns| && s'.conns == s.conns[i := s'.conns[i]]
    ensures s'.clients == s.clients && s'.log == s.log && s.nextId <= s'.nextId
    ensures s'.conns[i].id == s.conns[i].id || (s'.conns[i].id == s.nextId && s'.nextId == s.nextId + 1)
    ensures ConnOk(s', s'.conns[i])
  {
    if step.Hello? {
      var before, after := TrimSplits(step.text);
    }
  }

  lemma LocalSession(s: Broker, i: nat, step: Step, s': Broker)
    requires i < |s.conns| && SessionOk(s, s.conns[i])
    requires ConnNext(s, i, s.conns[i], step, s') && IsLocal(step)
    ensures SessionOk(s', s'.conns[i])
  {
  }

  lemma LocalKeeps(s: Broker, i: nat, step: Step, s': Broker)
    requires Inv(s) && i < |s.conns| && ConnNext(s, i, s.conns[i], step, s')
    requires IsLocal(step)
    ensures Inv(s')
  {
    assert ConnOk(s, s.conns[i]) && SessionOk(s, s.conns[i]);
    LocalConn(s, i, step, s');
    LocalSession(s, i, step, s');
    OthersStay(s, i, s');
  }

  /** What a session takes from the channel keeps it in order. */
  lemma TakenKeepsSession(s: Broker, c: Conn, receipt: Receipt<ServerToClient>, phase: Phase)
    requires SessionOk(s, c) && c.phase.InSession? && c.next < |s.log| && (phase.InSession? || phase.Leaving?)
    requires var got := ReceiveFrom(s.log, CAPACITY, c.next).0;
             receipt == if got.Got? then Message(c.next, got.message) else Gap(c.next, got.skipped)
    ensures SessionOk(s, c.(receipts := c.receipts + [receipt], next := ReceiveFrom(s.log, CAPACITY, c.next).1,
                            phase := phase))
  {
    ReceiptExtends(s.log, CAPACITY, c.start, c.receipts, c.next, receipt);
    assert s.log[c.next] != UserJoined(c.nickname);
  }

  lemma TakeBroadcastKeeps(s: Broker, i: nat, failed: bool, s': Broker)
    requires Inv(s) && i < |s.conns| && ConnNext(s, i, s.conns[i], TakeBroadcast(failed), s')
    ensures Inv(s')
  {
    var c := s.conns[i];
    assert ConnOk(s, c) && SessionOk(s, c);
    var got := ReceiveFrom(s.log, CAPACITY, c.next).0;
    var receipt := if got.Got? then Message(c.next, got.message) else Gap(c.next, got.skipped);
    TakenKeepsSession(s, c, receipt, if failed then Leaving else InSession);
    assert SessionOk(s', s'.conns[i]);
    OthersStay(s, i, s');
  }

  lemma RegisterKeeps(s: Broker, i: nat, roster: seq<string>, s': Broker)
    requires Inv(s) && i < |s.conns| && ConnNext(s, i, s.conns[i], Register(roster), s')
    ensures Inv(s')
  {
    assert ConnOk(s, s.conns[i]) && SessionOk(s, s.conns[i]);
    OthersStay(s, i, s');
  }

  lemma RemoveKeeps(s: Broker, i: nat, s': Broker)
    requires Inv(s) && i < |s.conns| && ConnNext(s, i, s.conns[i], Remove, s')
    ensures Inv(s')
  {
    assert ConnOk(s, s.conns[i]) && SessionOk(s, s.conns[i]);
    OthersStay(s, i, s');
  }

  /** A broadcast reaches every session, so it must not announce a listening nickname. */
  lemma BroadcastKeeps(s: Broker, m: ServerToClient)
    requires Inv(s)
    requires forall j :: 0 <= j < |s.conns| && s.conns[j].phase.InSession? ==> m != UserJoined(s.conns[j].nickname)
    ensures Inv(Broadcast(s, m))
  {
    var s' := Broadcast(s, m);
    forall j | 0 <= j < |s.conns|
      ensures ConnOk(s', s.conns[j]) && SessionOk(s', s.conns[j])
    {
      var c := s.conns[j];
      assert ConnOk(s, c) && SessionOk(s, c);
      LogGrows(s.log, [m], c.start, c.receipts, c.next);
    }
  }

  /** Different connections that hold a record hold different nicknames. */
  lemma HoldersDiffer(s: Broker, i: nat, j: nat)
    requires Inv(s) && i < |s.conns| && j < |s.conns| && i != j
    requires Holds(s.conns[i]) && Holds(s.conns[j])
    ensures s.conns[i].nickname != s.conns[j].nickname
  {
    assert ConnOk(s, s.conns[i]) && ConnOk(s, s.conns[j]);
    assert s.conns[i].id != s.conns[j].id;
  }

  lemma AnnounceKeeps(s: Broker, i: nat, s': Broker)
    requires Inv(s) && i < |s.conns| && ConnNext(s, i, s.conns[i], Announce, s')
    ensures Inv(s')
  {
    var c := s.conns[i];
    assert ConnOk(s, c) && SessionOk(s, c);
    var mid := WithConn(s, i, c.(phase := Announced, announced := true));
    OthersStay(s, i, mid);
    forall j | 0 <= j < |mid.conns| && mid.conns[j].phase.InSession?
      ensures UserJoined(c.nickname) != UserJoined(mid.conns[j].nickname)
    {
      HoldersDiffer(mid, i, j);
    }
    BroadcastKeeps(mid, UserJoined(c.nickname));
  }

  lemma AnnounceLeaveKeeps(s: Broker, i: nat, s': Broker)
    requires Inv(s) && i < |s.conns| && ConnNext(s, i, s.conns[i], AnnounceLeave, s')
    ensures Inv(s')
  {
    var c := s.conns[i];
    assert ConnOk(s, c) && SessionOk(s, c);
    var mid := WithConn(s, i, c.(phase := Closed, left := true));
    OthersStay(s, i, mid);
    BroadcastKeeps(mid, UserLeft(c.nickname));
  }

  lemma AcceptKeeps(s: Broker)
    requires Inv(s)
    ensures Inv(s.(conns := s.conns + [NEW_CONN]))
  {
    var s' := s.(conns := s.conns + [NEW_CONN]);
    forall j | 0 <= j < |s'.conns|
      ensures ConnOk(s', s'.conns[j]) && SessionOk(s', s'.conns[j])
    {
      if j < |s.conns| {
        assert ConnOk(s, s.conns[j]) && SessionOk(s, s.conns[j]);
      }
    }
  }

  lemma ChatKeeps(s: Broker, i: nat, text: string, s': Broker)
    requires Inv(s) && i < |s.conns| && ConnNext(s, i, s.conns[i], ChatLine(text), s')
    ensures Inv(s')
  {
    if Trim(text) != "" {
      BroadcastKeeps(s, Chat(s.conns[i].nickname, text));
    }
  }

  lemma ConnStepKeeps(s: Broker, i: nat, step: Step, s': Broker)
    requires Inv(s) && i < |s.conns| && ConnNext(s, i, s.conns[i], step, s')
    ensures Inv(s')
  {
    match step
    case Register(roster) => RegisterKeeps(s, i, roster, s');
    case Announce => AnnounceKeeps(s, i, s');
    case ChatLine(text) => ChatKeeps(s, i, text, s');
    case TakeBroadcast(failed) => TakeBroadcastKeeps(s, i, failed, s');
    case Remove => RemoveKeeps(s, i, s');
    case AnnounceLeave => AnnounceLeaveKeeps(s, i, s');
    case _ => LocalKeeps(s, i, step, s');
  }

  lemma NextKeeps(s: Broker, a: Action, s': Broker)
    requires Inv(s) && Next(s, a, s')
    ensures Inv(s')
  {
    match a.step
    case Accept => AcceptKeeps(s);
    case Shutdown => BroadcastKeeps(s.(accepting := false), Error("broker shutting down"));
    case _ => ConnStepKeeps(s, a.conn, a.step, s');
  }

  lemma {:induction false} RunKeeps(run: seq<Broker>, actions: seq<Action>, i: nat)
    requires IsRun(run, actions) && i < |run|
    ensures Inv(run[i])
  {
    if i > 0 {
      RunKeeps(run, actions, i - 1);
      assert StepAt(run, actions, i - 1);
      NextKeeps(run[i - 1], actions[i - 1], run[i]);
    }
  }

  // ---------- Joins against leaves ----------

  function Joins(calls: seq<ServerToClient>, n: string): nat {
    if calls == [] then 0
    else Joins(calls[..|calls| - 1], n) + if calls[|calls| - 1] == UserJoined(n) then 1 else 0
  }

  function Leaves(calls: seq<ServerToClient>, n: string): nat {
    if calls == [] then 0
    else Leaves(calls[..|calls| - 1], n) + if calls[|calls| - 1] == UserLeft(n) then 1 else 0
  }

  /** Connections of nickname n whose join was broadcast and whose leave was not. */
  function Standing(conns: seq<Conn>, n: string): nat {
    if conns == [] then 0
    else Standing(conns[..|conns| - 1], n) + Stands(conns[|conns| - 1], n)
  }

  function Stands(c: Conn, n: string): nat {
    if c.nickname == n && c.announced && !c.left then 1 else 0
  }

  lemma {:induction false} StandingUpdate(conns: seq<Conn>, i: nat, c: Conn, n: string)
    requires i < |conns|
    ensures Standing(conns[i := c], n) + Stands(conns[i], n) == Standing(conns, n) + Stands(c, n)
  {
    var last := |conns| - 1;
    if i == last {
      assert conns[i := c][..last] == conns[..last];
    } else {
      StandingUpdate(conns[..last], i, c, n);
      assert conns[i := c][..last] == conns[..last][i := c];
    }
  }

  ghost predicate Balanced(s: Broker) {
    forall n :: Joins(s.calls, n) == Leaves(s.calls, n) + Standing(s.conns, n)
  }

  lemma CallAdded(calls: seq<ServerToClient>, m: ServerToClient, n: string)
    ensures Joins(calls + [m], n) == Joins(calls, n) + if m == UserJoined(n) then 1 else 0
    ensures Leaves(calls + [m], n) == Leaves(calls, n) + if m == UserLeft(n) then 1 else 0
  {
    assert (calls + [m])[..|calls|] == calls;
  }

  /** One connection changes, and its own join or leave is broadcast with it. */
  lemma ChangeWithCall(s: Broker, i: nat, c: Conn, m: ServerToClient, s': Broker)
    requires Balanced(s) && i < |s.conns|
    requires s'.conns == s.conns[i := c] && s'.calls == s.calls + [m]
    requires forall n :: (if m == UserJoined(n) then 1 else 0) + Stands(s.conns[i], n) ==
                         (if m == UserLeft(n) then 1 else 0) + Stands(c, n)
    ensures Balanced(s')
  {
    forall n
      ensures Joins(s'.calls, n) == Leaves(s'.calls, n) + Standing(s'.conns, n)
    {
      StandingUpdate(s.conns, i, c, n);
      CallAdded(s.calls, m, n);
      assert Joins(s.calls, n) == Leaves(s.calls, n) + Standing(s.conns, n);
      assert (if m == UserJoined(n) then 1 else 0) + Stands(s.conns[i], n) ==
             (if m == UserLeft(n) then 1 else 0) + Stands(c, n);
    }
  }

  lemma QuietChange(s: Broker, i: nat, c: Conn, s': Broker)
    requires Balanced(s) && i < |s.conns|
    requires s'.conns == s.conns[i := c] && s'.calls == s.calls
    requires forall n :: Stands(s.conns[i], n) == Stands(c, n)
    ensures Balanced(s')
  {
    forall n
      ensures Joins(s'.calls, n) == Leaves(s'.calls, n) + Standing(s'.conns, n)
    {
      StandingUpdate(s.conns, i, c, n);
      assert Stands(s.conns[i], n) == Stands(c, n);
    }
  }

  lemma CallBalances(s: Broker, m: ServerToClient, s': Broker)
    requires Balanced(s) && !m.UserJoined? && !m.UserLeft?
    requires s'.conns == s.conns && s'.calls == s.calls + [m]
    ensures Balanced(s')
  {
    forall n
      ensures Joins(s'.calls, n) == Leaves(s'.calls, n) + Standing(s'.conns, n)
    {
      CallAdded(s.calls, m, n);
    }
  }

  lemma QuietStep(s: Broker, i: nat, step: Step, s': Broker)
    requires Inv(s) && i < |s.conns| && ConnNext(s, i, s.conns[i], step, s')
    requires !step.Announce? && !step.AnnounceLeave? && !step.ChatLine?
    ensures |s'.conns| == |s.conns| && s'.conns == s.conns[i := s'.conns[i]] && s'.calls == s.calls
    ensures forall n :: Stands(s'.conns[i], n) == Stands(s.conns[i], n)
  {
    assert ConnOk(s, s.conns[i]);
  }

  lemma QuietStepBalances(s: Broker, i: nat, step: Step, s': Broker)
    requires Inv(s) && Balanced(s) && i < |s.conns| && ConnNext(s, i, s.conns[i], step, s')
    requires !step.Announce? && !step.AnnounceLeave? && !step.ChatLine?
    ensures Balanced(s')
  {
    QuietStep(s, i, step, s');
    QuietChange(s, i, s'.conns[i], s');
  }

  lemma ConnStepBalances(s: Broker, i: nat, step: Step, s': Broker)
    requires Inv(s) && Balanced(s) && i < |s.conns| && ConnNext(s, i, s.conns[i], step, s')
    ensures Balanced(s')
  {
    var c := s.conns[i];
    assert ConnOk(s, c);
    match step
    case ChatLine(text) =>
      if Trim(text) != "" {
        CallBalances(s, Chat(c.nickname, text), s');
      }
    case Announce => ChangeWithCall(s, i, c.(phase := Announced, announced := true), UserJoined(c.nickname), s');
    case AnnounceLeave => ChangeWithCall(s, i, c.(phase := Closed, left := true), UserLeft(c.nickname), s');
    case _ => QuietStepBalances(s, i, step, s');
  }

  lemma NextBalances(s: Broker, a: Action, s': Broker)
    requires Inv(s) && Next(s, a, s') && Balanced(s)
    ensures Balanced(s')
  {
    match a.step
    case Accept => assert s'.conns[..|s.conns|] == s.conns;
    case Shutdown => CallBalances(s, Error("broker shutting down"), s');
    case _ => ConnStepBalances(s, a.conn, a.step, s');
  }

  lemma {:induction false} RunBalances(run: seq<Broker>, actions: seq<Action>, i: nat)
    requires IsRun(run, actions) && i < |run|
    ensures Balanced(run[i])
  {
    if i > 0 {
      RunBalances(run, actions, i - 1);
      RunKeeps(run, actions, i - 1);
      assert StepAt(run, actions, i - 1);
      NextBalances(run[i - 1], actions[i - 1], run[i]);
    }
  }
}
