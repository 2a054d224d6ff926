/** How connections of the chat broker begin and end, in terms of what happened to them. */
module BrokerEndings {
  import opened Text
  import opened Brokers
  import opened BrokerRuns
  import opened BrokerTheorems

  /** A write or read that returns its error: of the welcome, of the answer to a second
      hello, or of the client's input. A broadcast that cannot be delivered is not one. */
  predicate IsError(step: Step) {
    match step
    case WelcomeClient(failed) => failed
    case HelloAgain(failed) => failed
    case ReadFails => true
    case _ => false
  }

  ghost predicate ErrorAt(actions: seq<Action>, j: nat, a: nat) {
    j < |actions| && actions[j].conn == a && IsError(actions[j].step)
  }

  lemma ConnStepAborts(s: Broker, a: nat, step: Step, s': Broker)
    requires a < |s.conns| == |s'.conns| && ConnNext(s, a, s.conns[a], step, s')
    ensures s'.conns[a].phase.Aborted? <==> IsError(step)
  {
  }

  lemma StepAborts(s: Broker, x: Action, s': Broker, a: nat)
    requires Next(s, x, s') && a < |s'.conns|
    ensures s'.conns[a].phase.Aborted? <==>
            (a < |s.conns| && s.conns[a].phase.Aborted?) || (x.conn == a && IsError(x.step))
  {
    if !x.step.Accept? && !x.step.Shutdown? {
      ConnStepMovesOnlyItself(s, x.conn, x.step, s');
      if x.conn == a {
        ConnStepAborts(s, a, x.step, s');
      }
    }
  }

  /** A connection is aborted exactly when an error of its own ended it. */
  lemma {:induction false} AbortedIffError(run: seq<Broker>, actions: seq<Action>, i: nat, a: nat)
    requires IsRun(run, actions) && i < |run| && a < |run[i].conns|
    ensures run[i].conns[a].phase.Aborted? <==> exists j :: 0 <= j < i && ErrorAt(actions, j, a)
  {
    if i > 0 {
      assert StepAt(run, actions, i - 1);
      StepAborts(run[i - 1], actions[i - 1], run[i], a);
      assert ErrorAt(actions, i - 1, a) <==> actions[i - 1].conn == a && IsError(actions[i - 1].step);
      if a < |run[i - 1].conns| {
        AbortedIffError(run, actions, i - 1, a);
      } else {
        NoStepsBeforeAccepted(run, actions, i - 1, a);
      }
    }
  }

  lemma {:induction false} ConnsGrow(run: seq<Broker>, actions: seq<Action>, i: nat, j: nat)
    requires IsRun(run, actions) && i <= j < |run|
    ensures |run[i].conns| <= |run[j].conns|
  {
    if i < j {
      ConnsGrow(run, actions, i, j - 1);
      assert StepAt(run, actions, j - 1);
      StepKeepsConns(run[j - 1], actions[j - 1], run[j]);
    }
  }

  lemma StepKeepsConns(s: Broker, x: Action, s': Broker)
    requires Next(s, x, s')
    ensures |s.conns| <= |s'.conns|
  {
    if !x.step.Accept? && !x.step.Shutdown? {
      ConnStepMovesOnlyItself(s, x.conn, x.step, s');
    }
  }

  lemma NoStepsBeforeAccepted(run: seq<Broker>, actions: seq<Action>, i: nat, a: nat)
    requires IsRun(run, actions) && i < |run| && |run[i].conns| <= a
    ensures forall j :: 0 <= j < i ==> !ErrorAt(actions, j, a)
  {
    forall j | 0 <= j < i
      ensures !ErrorAt(actions, j, a)
    {
      ConnsGrow(run, actions, j, i);
      assert StepAt(run, actions, j);
    }
  }

  /** A connection that is over leaves its record behind if and only if one of these errors
      ended it. */
  lemma RecordRemainsIffError(run: seq<Broker>, actions: seq<Action>, i: nat, a: nat)
    requires IsRun(run, actions) && i < |run| && a < |run[i].conns|
    requires run[i].conns[a].phase.Closed? || run[i].conns[a].phase.Aborted?
    ensures run[i].conns[a].id in run[i].clients <==> exists j :: 0 <= j < i && ErrorAt(actions, j, a)
  {
    EndedConnectionKeepsItsRecordIffAborted(run, actions, i, a);
    AbortedIffError(run, actions, i, a);
  }

  /** A session goes on through everything but four events of its own: its client's input
      ends or a broadcast cannot be delivered, and it is cleaned up; its input or the answer
      to a second hello fails, and it is not. */
  lemma SessionsEndForAReason(run: seq<Broker>, actions: seq<Action>, i: nat, a: nat)
    requires IsRun(run, actions) && i < |actions| && a < |run[i].conns| && run[i].conns[a].phase.InSession?
    ensures a < |run[i + 1].conns|
    ensures var (x, phase) := (actions[i], run[i + 1].conns[a].phase);
            && (phase.Leaving? <==> x.conn == a && (x.step == EndOfInput || x.step == TakeBroadcast(true)))
            && (phase.Aborted? <==> x.conn == a && (x.step == ReadFails || x.step == HelloAgain(true)))
            && (phase.Leaving? || phase.Aborted? || phase.InSession?)
  {
    assert StepAt(run, actions, i);
    if !actions[i].step.Accept? && !actions[i].step.Shutdown? {
      ConnStepMovesOnlyItself(run[i], actions[i].conn, actions[i].step, run[i + 1]);
    }
  }

  /** A hello is refused exactly when its nickname is blank, and a nickname exactly when it
      is taken at that moment; in either case nothing is left behind. */
  lemma HandshakeOutcome(run: seq<Broker>, actions: seq<Action>, i: nat, a: nat)
    requires IsRun(run, actions) && i < |actions| && actions[i].conn == a
    requires actions[i].step.Hello? || actions[i].step.Register?
    ensures a < |run[i].conns| && a < |run[i + 1].conns|
    ensures var (s, c, s', c') := (run[i], run[i].conns[a], run[i + 1], run[i + 1].conns[a]);
            match actions[i].step
            case Hello(text) =>
              && s'.clients == s.clients && c.phase.Greeting?
              && if Blank(text) then c'.phase.Closed? else c'.phase.Named? && c'.nickname == Trim(text)
            case Register(roster) =>
              if Taken(s.clients, c.nickname) then c'.phase.Closed? && s'.clients == s.clients
              else c'.phase.Registered? && c'.roster == roster && s'.clients == s.clients[c.id := c.nickname]
            case _ => true
  {
    assert StepAt(run, actions, i);
    if actions[i].step.Hello? {
      BlankIffTrimmedAway(actions[i].step.text);
    }
  }
}
