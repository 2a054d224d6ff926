/** Runs of the broker: every free nickname can join; an error can make a free nickname
    unusable; and the channel can hold a leave without its join. */
module BrokerWitness {
  import opened Text
  import opened Brokers
  import opened BrokerRuns
  import opened BrokerSafety
  import opened BrokerTheorems

  lemma OneMoreStep(run: seq<Broker>, actions: seq<Action>, a: Action, s: Broker)
    requires IsRun(run, actions) && Next(run[|actions|], a, s)
    ensures IsRun(run + [s], actions + [a])
  {
    forall i | 0 <= i < |actions + [a]|
      ensures StepAt(run + [s], actions + [a], i)
    {
      if i < |actions| {
        assert StepAt(run, actions, i);
      }
    }
  }

  lemma OneMoreConnStep(run: seq<Broker>, actions: seq<Action>, i: nat, step: Step, s: Broker)
    returns (run': seq<Broker>, actions': seq<Action>)
    requires IsRun(run, actions) && i < |run[|actions|].conns| && !step.Accept? && !step.Shutdown?
    requires ConnNext(run[|actions|], i, run[|actions|].conns[i], step, s)
    ensures IsRun(run', actions') && run'[|actions'|] == s
  {
    OneMoreStep(run, actions, Action(i, step), s);
    run', actions' := run + [s], actions + [Action(i, step)];
  }

  /** The broker with one more connection. */
  function With(s: Broker, c: Conn): Broker {
    s.(conns := s.conns + [c])
  }

  lemma LastConn(s: Broker, c: Conn, c': Conn)
    ensures WithConn(With(s, c), |s.conns|, c') == With(s, c')
  {
    assert (s.conns + [c])[|s.conns| := c'] == s.conns + [c'];
  }

  lemma ListeningWith(s: Broker, c: Conn)
    ensures Listening(With(s, c)) <==> Listening(s) || c.phase.InSession?
  {
    if Listening(s) {
      var k :| 0 <= k < |s.conns| && s.conns[k].phase.InSession?;
      assert With(s, c).conns[k].phase.InSession?;
    }
    assert With(s, c).conns[|s.conns|] == c;
    if Listening(With(s, c)) && !c.phase.InSession? {
      var k :| 0 <= k < |With(s, c).conns| && With(s, c).conns[k].phase.InSession?;
      assert s.conns[k].phase.InSession?;
    }
  }

  // ---------- Joining ----------

  function RegisteredConn(s: Broker, name: string, roster: seq<string>): Conn {
    NEW_CONN.(phase := Registered, nickname := name, id := s.nextId, roster := roster)
  }

  function Entered(s: Broker, name: string): Broker {
    s.(nextId := s.nextId + 1, clients := s.clients[s.nextId := name])
  }

  /** While the broker accepts connections, every nickname in no use can register. */
  lemma FreeNicknameRegisters(run: seq<Broker>, actions: seq<Action>, text: string, roster: seq<string>)
    returns (run': seq<Broker>, actions': seq<Action>)
    requires IsRun(run, actions) && run[|actions|].accepting
    requires Trim(text) != "" && !Taken(run[|actions|].clients, Trim(text)) && Lists(roster, run[|actions|].clients)
    ensures IsRun(run', actions')
    ensures var s := run[|actions|];
            run'[|actions'|] == With(Entered(s, Trim(text)), RegisteredConn(s, Trim(text), roster))
  {
    var s, name := run[|actions|], Trim(text);
    var i := |s.conns|;
    var named := NEW_CONN.(phase := Named, nickname := name);
    var numbered := named.(phase := Numbered, id := s.nextId);
    var next := s.(nextId := s.nextId + 1);
    OneMoreStep(run, actions, Action(0, Accept), With(s, NEW_CONN));
    run', actions' := run + [With(s, NEW_CONN)], actions + [Action(0, Accept)];
    LastConn(s, NEW_CONN, named);
    run', actions' := OneMoreConnStep(run', actions', i, Hello(text), With(s, named));
    LastConn(s, named, numbered);
    run', actions' := OneMoreConnStep(run', actions', i, TakeId, With(next, numbered));
    LastConn(next, numbered, RegisteredConn(s, name, roster));
    run', actions' := OneMoreConnStep(run', actions', i, Register(roster),
                                      With(Entered(s, name), RegisteredConn(s, name, roster)));
  }

  function SessionConn(s: Broker, c: Conn): Conn {
    c.(phase := InSession, announced := true, start := |s.log|, next := |s.log|)
  }

  function Broadcasted(s: Broker, m: ServerToClient, heard: bool): Broker {
    s.(calls := s.calls + [m], log := if heard then s.log + [m] else s.log,
       unheard := if heard then s.unheard else s.unheard + [m])
  }

  /** A registered client that meets no error gets into its session; whether its join is
      stored depends on whether somebody listens. */
  lemma RegisteredJoins(run: seq<Broker>, actions: seq<Action>, s: Broker, c: Conn)
    returns (run': seq<Broker>, actions': seq<Action>)
    requires IsRun(run, actions) && run[|actions|] == With(s, c) && c.phase.Registered?
    ensures IsRun(run', actions')
    ensures var told := Broadcasted(s, UserJoined(c.nickname), Listening(s));
            run'[|actions'|] == With(told, SessionConn(told, c))
  {
    var i := |s.conns|;
    var welcomed, announced := c.(phase := Welcomed), c.(phase := Announced, announced := true);
    var told := Broadcasted(s, UserJoined(c.nickname), Listening(s));
    LastConn(s, c, welcomed);
    run', actions' := OneMoreConnStep(run, actions, i, WelcomeClient(false), With(s, welcomed));
    LastConn(s, welcomed, announced);
    ListeningWith(s, announced);
    run', actions' := OneMoreConnStep(run', actions', i, Announce, With(told, announced));
    LastConn(told, announced, SessionConn(told, c));
    run', actions' := OneMoreConnStep(run', actions', i, Subscribe, With(told, SessionConn(told, c)));
  }

  // ---------- A nickname lost to an error ----------

  /** In every reachable state that accepts connections, and for every free nickname, the
      broker can go on to a state in which no connection of that nickname lives and the
      nickname is nevertheless taken for good. */
  lemma FreeNicknameCanBeLost(run: seq<Broker>, actions: seq<Action>, text: string, roster: seq<string>)
    returns (run': seq<Broker>, actions': seq<Action>)
    requires IsRun(run, actions) && run[|actions|].accepting
    requires Trim(text) != "" && !Taken(run[|actions|].clients, Trim(text)) && Lists(roster, run[|actions|].clients)
    ensures IsRun(run', actions')
    ensures var (s, s') := (run[|actions|], run'[|actions'|]);
            && |s'.conns| == |s.conns| + 1 && s'.conns[|s.conns|].phase.Aborted?
            && s'.conns[|s.conns|].nickname == Trim(text) && Taken(s'.clients, Trim(text))
  {
    var s, name := run[|actions|], Trim(text);
    var entered, c := Entered(s, name), RegisteredConn(s, name, roster);
    run', actions' := FreeNicknameRegisters(run, actions, text, roster);
    LastConn(entered, c, c.(phase := Aborted));
    run', actions' := OneMoreConnStep(run', actions', |s.conns|, WelcomeClient(true),
                                      With(entered, c.(phase := Aborted)));
    RunKeeps(run', actions', |actions'|);
    HolderTakesNickname(run'[|actions'|], |s.conns|);
  }

  // ---------- A leave without its join ----------

  lemma FirstJoin(text: string) returns (run: seq<Broker>, actions: seq<Action>)
    requires Trim(text) != ""
    ensures IsRun(run, actions)
    ensures var m := UserJoined(Trim(text));
            run[|actions|] == Broker(true, map[1 := Trim(text)], 2, [m], [], [m],
                                     [NEW_CONN.(phase := InSession, nickname := Trim(text), id := 1,
                                                announced := true)])
  {
    run, actions := [EMPTY_BROKER], [];
    assert Lists([], EMPTY_BROKER.clients);
    run, actions := FreeNicknameRegisters(run, actions, text, []);
    run, actions := RegisteredJoins(run, actions, Entered(EMPTY_BROKER, Trim(text)),
                                    RegisteredConn(EMPTY_BROKER, Trim(text), []));
  }

  /** After a first connection is in session, a second one joins. */
  lemma SecondJoin(text: string, text': string) returns (run: seq<Broker>, actions: seq<Action>)
    requires Trim(text) != "" && Trim(text') != "" && Trim(text) != Trim(text')
    ensures IsRun(run, actions)
    ensures var s := run[|actions|];
            && |s.conns| == 2 && s.conns[0].phase.InSession? && s.conns[1].phase.InSession?
            && s.conns[0].id == 1 && s.conns[0].nickname == Trim(text) && 1 in s.clients
            && s.log == [UserJoined(Trim(text'))]
  {
    run, actions := FirstJoin(text);
    var s, name := run[|actions|], Trim(text);
    assert Lists([name], s.clients) by {
      assert s.clients[1] == name;
    }
    run, actions := FreeNicknameRegisters(run, actions, text', [name]);
    var entered, c := Entered(s, Trim(text')), RegisteredConn(s, Trim(text'), [name]);
    assert entered.conns[0].phase.InSession?;
    run, actions := RegisteredJoins(run, actions, entered, c);
    var told := Broadcasted(entered, UserJoined(c.nickname), true);
    assert run[|actions|] == With(told, SessionConn(told, c));
  }

  /** The first client's join is not stored, since nobody listens yet; its leave is, since
      the second client does. */
  lemma LeaveWithoutJoin(text: string, text': string) returns (run: seq<Broker>, actions: seq<Action>)
    requires Trim(text) != "" && Trim(text') != "" && Trim(text) != Trim(text')
    ensures IsRun(run, actions)
    ensures Joins(run[|actions|].log, Trim(text)) == 0 && Leaves(run[|actions|].log, Trim(text)) == 1
  {
    run, actions := SecondJoin(text, text');
    var s := run[|actions|];
    var c := s.conns[0];
    var leaving := WithConn(s, 0, c.(phase := Leaving));
    run, actions := OneMoreConnStep(run, actions, 0, EndOfInput, leaving);
    var departed := WithConn(leaving, 0, c.(phase := Departed)).(clients := s.clients - {1});
    run, actions := OneMoreConnStep(run, actions, 0, Remove, departed);
    var closed := WithConn(departed, 0, c.(phase := Closed, left := true));
    assert closed.conns[1].phase.InSession?;
    run, actions := OneMoreConnStep(run, actions, 0, AnnounceLeave, Broadcast(closed, UserLeft(c.nickname)));
    CallAdded([], UserJoined(Trim(text')), Trim(text));
    CallAdded([UserJoined(Trim(text'))], UserLeft(Trim(text)), Trim(text));
    assert [] + [UserJoined(Trim(text'))] == [UserJoined(Trim(text'))];
  }
}
