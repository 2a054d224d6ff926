/** What the executor guarantees: no runnable is lost, duplicated or moved to the other
    queue, and tasks end unless every worker that could serve them is missing. */
module ExecutorTheorems {
  import opened Executors

  // ---------- Conservation ----------

  lemma {:induction false} HeldUpdate(ws: seq<Worker>, w: nat, x: Worker, t: nat)
    requires w < |ws|
    ensures HeldCount(ws[w := x], t) + (if Holds(ws[w], t) then 1 else 0) ==
            HeldCount(ws, t) + (if Holds(x, t) then 1 else 0)
  {
    var last := |ws| - 1;
    if w == last {
      assert ws[w := x][..last] == ws[..last];
    } else {
      HeldUpdate(ws[..last], w, x, t);
      assert ws[w := x][..last] == ws[..last][w := x];
    }
  }

  lemma {:induction false} HolderCounts(ws: seq<Worker>, w: nat, t: nat)
    requires w < |ws| && Holds(ws[w], t)
    ensures HeldCount(ws, t) >= 1
  {
    if w < |ws| - 1 {
      HolderCounts(ws[..|ws| - 1], w, t);
    }
  }

  lemma {:induction false} NoHolder(ws: seq<Worker>, t: nat)
    requires forall w :: 0 <= w < |ws| ==> !Holds(ws[w], t)
    ensures HeldCount(ws, t) == 0
  {
    if ws != [] {
      NoHolder(ws[..|ws| - 1], t);
    }
  }

  lemma {:induction false} HeadCounts(q: seq<nat>, t: nat)
    requires q != []
    ensures QueueCount(q, t) == QueueCount(q[1..], t) + if q[0] == t then 1 else 0
  {
    if |q| > 1 {
      HeadCounts(q[..|q| - 1], t);
      assert q[..|q| - 1][1..] == q[1..][..|q| - 2];
    }
  }

  lemma {:induction false} MemberCounts(q: seq<nat>, t: nat)
    ensures t in q <==> QueueCount(q, t) > 0
  {
    if q != [] {
      MemberCounts(q[..|q| - 1], t);
      assert q == q[..|q| - 1] + [q[|q| - 1]];
    }
  }

  lemma PushCounts(q: seq<nat>, x: nat, t: nat)
    ensures QueueCount(q + [x], t) == QueueCount(q, t) + if x == t then 1 else 0
  {
    assert (q + [x])[..|q|] == q;
  }

  /** No two workers hold the same runnable. */
  lemma HeldOnce(s: ExecState, w: nat, t: nat)
    requires Conserved(s) && w < |s.workers| && Holds(s.workers[w], t)
    ensures forall v :: 0 <= v < |s.workers| && v != w ==> !Holds(s.workers[v], t)
  {
    var ws := s.workers;
    var x := ws[w].(phase := Looking);
    HeldUpdate(ws, w, x, t);
    assert Runnables(s, t) <= 1;
    forall v | 0 <= v < |ws| && v != w
      ensures !Holds(ws[v], t)
    {
      if Holds(ws[w := x][v], t) {
        HolderCounts(ws[w := x], v, t);
      }
    }
  }

  /** The head of a queue does not occur further back. */
  lemma HeadLeaves(s: ExecState, q: seq<nat>)
    requires Conserved(s) && (q == s.high || q == s.low) && q != []
    ensures q[0] !in q[1..]
  {
    HeadCounts(q, q[0]);
    MemberCounts(q[1..], q[0]);
    assert Runnables(s, q[0]) <= 1;
  }

  lemma TasksStayOk(s: ExecState, t: nat, s': ExecState)
    requires forall u :: 0 <= u < |s.tasks| ==> TaskOk(s.tasks[u])
    requires t < |s.tasks| == |s'.tasks| && TaskOk(s'.tasks[t]) && s'.tasks == s.tasks[t := s'.tasks[t]]
    ensures forall u :: 0 <= u < |s'.tasks| ==> TaskOk(s'.tasks[u])
  {
  }

  lemma SameRunnables(s: ExecState, s': ExecState)
    requires Conserved(s) && |s'.tasks| == |s.tasks|
    requires forall t: nat :: Runnables(s', t) == Runnables(s, t)
    requires forall t :: 0 <= t < |s.tasks| ==> Unfinished(s'.tasks[t]) == Unfinished(s.tasks[t])
    ensures Conserved(s')
  {
  }

  /** A step that moves only one worker and one task leaves the other workers in order. */
  lemma OtherWorkersStay(s: ExecState, s': ExecState, w: nat, t: nat)
    requires WorkersOk(s) && w < |s.workers| == |s'.workers| && |s'.tasks| >= |s.tasks|
    requires s'.workers == s.workers[w := s'.workers[w]] && s'.workers[w].kind == s.workers[w].kind
    requires s'.highStarted == s.highStarted && s'.lowStarted == s.lowStarted
    requires forall u :: 0 <= u < |s.tasks| && u != t ==> s'.tasks[u].status == s.tasks[u].status
    requires forall v :: 0 <= v < |s.workers| && v != w ==> !Holds(s.workers[v], t)
    requires WorkerOk(s', w)
    ensures WorkersOk(s')
  {
    forall v | 0 <= v < |s'.workers|
      ensures WorkerOk(s', v)
    {
      if v != w {
        assert WorkerOk(s, v);
        assert !Holds(s.workers[v], t);
      }
    }
  }

  lemma NobodyHolds(s: ExecState, t: nat)
    requires WorkersOk(s) && t < |s.tasks| && s.tasks[t].status.Queued?
    ensures forall v :: 0 <= v < |s.workers| ==> !Holds(s.workers[v], t)
  {
    forall v | 0 <= v < |s.workers|
      ensures !Holds(s.workers[v], t)
    {
      assert WorkerOk(s, v);
    }
  }

  lemma TakeHighQueues(s: ExecState, w: nat)
    requires QueuesOk(s) && w < |s.workers| && s.high != [] && s.high[0] < |s.tasks| && s.high[0] !in s.high[1..]
    ensures QueuesOk(TakeHigh(s, w))
  {
    var s' := TakeHigh(s, w);
    assert QueuedAs(s, s.high[0], High);
    forall i | 0 <= i < |s'.high|
      ensures QueuedAs(s', s'.high[i], High)
    {
      assert QueuedAs(s, s.high[i + 1], High);
      assert s'.high[i] in s.high[1..];
    }
    forall i | 0 <= i < |s'.low|
      ensures QueuedAs(s', s'.low[i], Low)
    {
      assert QueuedAs(s, s.low[i], Low);
    }
  }

  lemma TakeLowQueues(s: ExecState, w: nat)
    requires QueuesOk(s) && w < |s.workers| && s.low != [] && s.low[0] < |s.tasks| && s.low[0] !in s.low[1..]
    ensures QueuesOk(TakeLow(s, w))
  {
    var s' := TakeLow(s, w);
    assert QueuedAs(s, s.low[0], Low);
    forall i | 0 <= i < |s'.low|
      ensures QueuedAs(s', s'.low[i], Low)
    {
      assert QueuedAs(s, s.low[i + 1], Low);
      assert s'.low[i] in s.low[1..];
    }
    forall i | 0 <= i < |s'.high|
      ensures QueuedAs(s', s'.high[i], High)
    {
      assert QueuedAs(s, s.high[i], High);
    }
  }

  lemma TakeConserves(s: ExecState, w: nat, q: seq<nat>, s': ExecState)
    requires Conserved(s) && w < |s.workers| && q != [] && q[0] < |s.tasks| && s.tasks[q[0]].status.Queued?
    requires s.workers[w].phase.Looking? || s.workers[w].phase.FoundNoHigh?
    requires (q == s.high && s' == TakeHigh(s, w)) || (q == s.low && s' == TakeLow(s, w))
    ensures Conserved(s')
  {
    forall t: nat
      ensures Runnables(s', t) == Runnables(s, t)
    {
      HeadCounts(q, t);
      HeldUpdate(s.workers, w, s'.workers[w], t);
    }
    SameRunnables(s, s');
  }

  lemma TakeHighKeeps(s: ExecState, w: nat)
    requires Inv(s) && Active(s, w) && s.workers[w].phase.Looking? && s.high != [] && s.high[0] < |s.tasks|
    ensures Inv(TakeHigh(s, w))
  {
    var s', t := TakeHigh(s, w), s.high[0];
    assert QueuedAs(s, t, High) && TaskOk(s.tasks[t]);
    HeadLeaves(s, s.high);
    TakeConserves(s, w, s.high, s');
    TasksStayOk(s, t, s');
    NobodyHolds(s, t);
    OtherWorkersStay(s, s', w, t);
    TakeHighQueues(s, w);
  }

  lemma TakeLowKeeps(s: ExecState, w: nat)
    requires Inv(s) && Active(s, w) && s.low != [] && s.low[0] < |s.tasks|
    requires s.workers[w].phase.Looking? || s.workers[w].phase.FoundNoHigh?
    ensures Inv(TakeLow(s, w))
  {
    var s', t := TakeLow(s, w), s.low[0];
    assert QueuedAs(s, t, Low) && TaskOk(s.tasks[t]);
    HeadLeaves(s, s.low);
    TakeConserves(s, w, s.low, s');
    TasksStayOk(s, t, s');
    NobodyHolds(s, t);
    OtherWorkersStay(s, s', w, t);
    TakeLowQueues(s, w);
  }

  lemma QueuesStay(s: ExecState, s': ExecState, t: nat)
    requires QueuesOk(s) && t < |s.tasks| <= |s'.tasks| && !s.tasks[t].status.Queued?
    requires forall u :: 0 <= u < |s.tasks| && u != t ==> s'.tasks[u] == s.tasks[u]
    ensures forall i :: 0 <= i < |s.high| ==> QueuedAs(s', s.high[i], High)
    ensures forall i :: 0 <= i < |s.low| ==> QueuedAs(s', s.low[i], Low)
  {
    forall i | 0 <= i < |s.high|
      ensures QueuedAs(s', s.high[i], High)
    {
      assert QueuedAs(s, s.high[i], High);
    }
    forall i | 0 <= i < |s.low|
      ensures QueuedAs(s', s.low[i], Low)
    {
      assert QueuedAs(s, s.low[i], Low);
    }
  }

  lemma PollConserves(s: ExecState, w: nat, t: nat)
    requires Conserved(s) && w < |s.workers| && s.workers[w].phase == Running(t)
    requires t < |s.tasks| && s.tasks[t].status.Held?
    ensures Conserved(Polled(s, w, t))
  {
    var s' := Polled(s, w, t);
    forall u: nat
      ensures Runnables(s', u) == if u < |s'.tasks| && Unfinished(s'.tasks[u]) then 1 else 0
    {
      HeldUpdate(s.workers, w, s'.workers[w], u);
      assert Runnables(s, u) == if u < |s.tasks| && Unfinished(s.tasks[u]) then 1 else 0;
    }
  }

  lemma PollKeeps(s: ExecState, w: nat, t: nat)
    requires Inv(s) && Active(s, w) && s.workers[w].phase == Running(t) && t < |s.tasks|
    ensures Inv(Polled(s, w, t))
  {
    var s' := Polled(s, w, t);
    assert TaskOk(s.tasks[t]) && WorkerOk(s, w);
    PollConserves(s, w, t);
    HeldOnce(s, w, t);
    OtherWorkersStay(s, s', w, t);
    QueuesStay(s, s', t);
    TasksStayOk(s, t, s');
  }

  /** Handing a runnable from a worker to the back of a queue keeps every count. */
  lemma HandBack(s: ExecState, w: nat, t: nat, s': ExecState, u: nat)
    requires w < |s.workers| == |s'.workers| && s'.workers == s.workers[w := s'.workers[w]]
    requires s.workers[w].phase == Rescheduling(t) && s'.workers[w].phase == Looking
    requires (s'.high == s.high + [t] && s'.low == s.low) || (s'.high == s.high && s'.low == s.low + [t])
    ensures Runnables(s', u) == Runnables(s, u)
  {
    HeldUpdate(s.workers, w, s'.workers[w], u);
    if s'.low == s.low {
      PushCounts(s.high, t, u);
    } else {
      PushCounts(s.low, t, u);
    }
  }

  lemma HandBackConserves(s: ExecState, w: nat, t: nat, s': ExecState)
    requires Conserved(s) && |s'.tasks| == |s.tasks|
    requires forall u :: 0 <= u < |s.tasks| ==> Unfinished(s'.tasks[u]) == Unfinished(s.tasks[u])
    requires w < |s.workers| == |s'.workers| && s'.workers == s.workers[w := s'.workers[w]]
    requires s.workers[w].phase == Rescheduling(t) && s'.workers[w].phase == Looking
    requires (s'.high == s.high + [t] && s'.low == s.low) || (s'.high == s.high && s'.low == s.low + [t])
    ensures Conserved(s')
  {
    forall u: nat
      ensures Runnables(s', u) == Runnables(s, u)
    {
      HandBack(s, w, t, s', u);
    }
    SameRunnables(s, s');
  }

  lemma RescheduleConserves(s: ExecState, w: nat, t: nat)
    requires Conserved(s) && w < |s.workers| && s.workers[w].phase == Rescheduling(t)
    requires t < |s.tasks| && s.tasks[t].status.Woken?
    ensures Conserved(Rescheduled(s, w, t))
  {
    HandBackConserves(s, w, t, Rescheduled(s, w, t));
  }

  lemma RescheduledQueuesOk(s: ExecState, w: nat, t: nat)
    requires QueuesOk(s) && w < |s.workers| && t < |s.tasks| && !s.tasks[t].status.Queued?
    ensures QueuesOk(Rescheduled(s, w, t))
  {
    QueuesStay(s, Rescheduled(s, w, t), t);
  }

  lemma RescheduledWorkersOk(s: ExecState, w: nat, t: nat)
    requires Conserved(s) && WorkersOk(s) && w < |s.workers| && t < |s.tasks| && s.workers[w].phase == Rescheduling(t)
    ensures WorkersOk(Rescheduled(s, w, t))
  {
    HeldOnce(s, w, t);
    OtherWorkersStay(s, Rescheduled(s, w, t), w, t);
  }

  lemma RescheduleKeeps(s: ExecState, w: nat, t: nat)
    requires Inv(s) && Active(s, w) && s.workers[w].phase == Rescheduling(t) && t < |s.tasks|
    ensures Inv(Rescheduled(s, w, t))
  {
    assert TaskOk(s.tasks[t]) && WorkerOk(s, w);
    RescheduleConserves(s, w, t);
    RescheduledQueuesOk(s, w, t);
    RescheduledWorkersOk(s, w, t);
    TasksStayOk(s, t, Rescheduled(s, w, t));
  }

  lemma LookKeeps(s: ExecState, w: nat, p: WorkerPhase)
    requires Inv(s) && Active(s, w) && (s.workers[w].phase.Looking? || s.workers[w].phase.FoundNoHigh?)
    requires p.Looking? || (p.FoundNoHigh? && s.workers[w].kind.High?)
    ensures Inv(WithPhase(s, w, p))
  {
    var s' := WithPhase(s, w, p);
    forall t: nat
      ensures Runnables(s', t) == Runnables(s, t)
    {
      HeldUpdate(s.workers, w, s'.workers[w], t);
    }
    SameRunnables(s, s');
    forall v | 0 <= v < |s'.workers|
      ensures WorkerOk(s', v)
    {
      assert WorkerOk(s, v);
    }
    SameQueues(s, s');
  }

  lemma SameQueues(s: ExecState, s': ExecState)
    requires QueuesOk(s) && s.tasks <= s'.tasks
    ensures forall i :: 0 <= i < |s.high| ==> QueuedAs(s', s.high[i], High)
    ensures forall i :: 0 <= i < |s.low| ==> QueuedAs(s', s.low[i], Low)
  {
    forall i | 0 <= i < |s.high|
      ensures QueuedAs(s', s.high[i], High)
    {
      assert QueuedAs(s, s.high[i], High);
    }
    forall i | 0 <= i < |s.low|
      ensures QueuedAs(s', s.low[i], Low)
    {
      assert QueuedAs(s, s.low[i], Low);
    }
  }

  lemma SpawnConserves(s: ExecState, f: Future, p: Priority)
    requires Conserved(s)
    ensures Conserved(Spawned(s, f, p))
  {
    var s', t := Spawned(s, f, p), |s.tasks|;
    forall u: nat
      ensures Runnables(s', u) == if u < |s'.tasks| && Unfinished(s'.tasks[u]) then 1 else 0
    {
      PushCounts(s.high, t, u);
      PushCounts(s.low, t, u);
      assert Runnables(s, u) == if u < |s.tasks| && Unfinished(s.tasks[u]) then 1 else 0;
    }
  }

  lemma SpawnedTasksOk(s: ExecState, f: Future, p: Priority)
    requires PoolsOk(s) && forall t :: 0 <= t < |s.tasks| ==> TaskOk(s.tasks[t])
    ensures var s' := Spawned(s, f, p);
            PoolsOk(s') && forall t :: 0 <= t < |s'.tasks| ==> TaskOk(s'.tasks[t])
  {
  }

  lemma SpawnedQueuesOk(s: ExecState, f: Future, p: Priority)
    requires QueuesOk(s)
    ensures QueuesOk(Spawned(s, f, p))
  {
    var s' := Spawned(s, f, p);
    SameQueues(s, s');
    assert QueuedAs(s', |s.tasks|, p);
  }

  lemma SpawnedWorkersOk(s: ExecState, f: Future, p: Priority)
    requires WorkersOk(s)
    ensures WorkersOk(Spawned(s, f, p))
  {
    var s' := Spawned(s, f, p);
    forall w | 0 <= w < |s'.workers|
      ensures WorkerOk(s', w)
    {
      assert WorkerOk(s, w);
    }
  }

  lemma SpawnKeeps(s: ExecState, f: Future, p: Priority)
    requires Inv(s)
    ensures Inv(Spawned(s, f, p))
  {
    SpawnConserves(s, f, p);
    SpawnedTasksOk(s, f, p);
    SpawnedQueuesOk(s, f, p);
    SpawnedWorkersOk(s, f, p);
  }

  lemma TurnKeeps(s: ExecState, w: nat)
    requires Inv(s) && Named(s) && Active(s, w)
    ensures Inv(Turn(s, w))
  {
    match s.workers[w].phase
    case Looking =>
      if s.workers[w].kind.High? {
        if s.high != [] {
          TakeHighKeeps(s, w);
        } else {
          LookKeeps(s, w, FoundNoHigh);
        }
      } else if s.low != [] {
        TakeLowKeeps(s, w);
      }
    case FoundNoHigh =>
      if s.low != [] {
        TakeLowKeeps(s, w);
      } else {
        LookKeeps(s, w, Looking);
      }
    case Running(t) => PollKeeps(s, w, t);
    case Rescheduling(t) => RescheduleKeeps(s, w, t);
  }

  lemma {:induction false} RunKeeps(highNum: nat, lowNum: nat, run: seq<ExecState>, actions: seq<Action>, i: nat)
    requires IsRun(highNum, lowNum, run, actions) && i < |run|
    ensures Inv(run[i])
  {
    if i == 0 {
      forall t: nat
        ensures Runnables(run[0], t) == 0
      {
        NoHolder(run[0].workers, t);
      }
    } else {
      RunKeeps(highNum, lowNum, run, actions, i - 1);
      assert StepAt(run, actions, i - 1);
      match actions[i - 1]
      case Spawn(f, p) => SpawnKeeps(run[i - 1], f, p);
      case WorkerActs(w) => TurnKeeps(run[i - 1], w);
    }
  }

  // ---------- Theorems about every run ----------

  /** In every reachable state an unfinished task has exactly one runnable and an ended
      one has none, and a runnable that waits does so in the queue its task was spawned
      with, whoever polled it. */
  lemma NoRunnableIsLostOrMoved(highNum: nat, lowNum: nat, run: seq<ExecState>, actions: seq<Action>, i: nat, t: nat)
    requires IsRun(highNum, lowNum, run, actions) && i < |run| && t < |run[i].tasks|
    ensures var s := run[i];
            && QueueCount(s.high, t) + QueueCount(s.low, t) + HeldCount(s.workers, t) ==
               (if Unfinished(s.tasks[t]) then 1 else 0)
            && (t in s.high ==> s.tasks[t].priority.High?)
            && (t in s.low ==> s.tasks[t].priority.Low?)
  {
    RunKeeps(highNum, lowNum, run, actions, i);
    var s := run[i];
    assert Runnables(s, t) == if Unfinished(s.tasks[t]) then 1 else 0;
    if t in s.high {
      var k :| 0 <= k < |s.high| && s.high[k] == t;
      assert QueuedAs(s, s.high[k], High);
    }
    if t in s.low {
      var k :| 0 <= k < |s.low| && s.low[k] == t;
      assert QueuedAs(s, s.low[k], Low);
    }
  }

  /** A counter that ended was polled exactly three times and gave three; one that has
      not ended was polled less often. */
  lemma CountersCountToThree(highNum: nat, lowNum: nat, run: seq<ExecState>, actions: seq<Action>, i: nat, t: nat)
    requires IsRun(highNum, lowNum, run, actions) && i < |run| && t < |run[i].tasks|
    requires run[i].tasks[t].spawnedAs == CounterFuture(0)
    ensures var task := run[i].tasks[t];
            if Unfinished(task) then task.polls < 3 else task.status == Finished(3) && task.polls == 3
  {
    RunKeeps(highNum, lowNum, run, actions, i);
    assert TaskOk(run[i].tasks[t]);
  }

  // ---------- Termination ----------

  /** Polls left until the future ends. */
  function Remaining(f: Future): nat {
    match f
    case CounterFuture(count) => if count >= 2 then 1 else 3 - count
    case _ => 1
  }

  function Weight(t: Task): nat {
    match t.status
    case Queued => 3 * Remaining(t.future)
    case Held => 3 * Remaining(t.future) - 1
    case Woken => 3 * Remaining(t.future) + 1
    case _ => 0
  }

  function Measure(tasks: seq<Task>): nat {
    if tasks == [] then 0 else Measure(tasks[..|tasks| - 1]) + Weight(tasks[|tasks| - 1])
  }

  lemma {:induction false} MeasureUpdate(tasks: seq<Task>, t: nat, x: Task)
    requires t < |tasks|
    ensures Measure(tasks[t := x]) + Weight(tasks[t]) == Measure(tasks) + Weight(x)
  {
    var last := |tasks| - 1;
    if t == last {
      assert tasks[t := x][..last] == tasks[..last];
    } else {
      MeasureUpdate(tasks[..last], t, x);
      assert tasks[t := x][..last] == tasks[..last][t := x];
    }
  }

  /** The worker takes, polls or hands back a runnable, rather than look again or wait. */
  predicate Productive(s: ExecState, w: nat) {
    && Active(s, w)
    && match s.workers[w].phase
       case Looking => if s.workers[w].kind.High? then s.high != [] else s.low != []
       case FoundNoHigh => s.low != []
       case _ => true
  }

  lemma TurnChangesOneTask(s: ExecState, w: nat) returns (t: nat)
    requires Inv(s) && Named(s) && Productive(s, w)
    ensures t < |s.tasks| == |Turn(s, w).tasks|
    ensures Turn(s, w).tasks == s.tasks[t := Turn(s, w).tasks[t]]
    ensures Weight(Turn(s, w).tasks[t]) < Weight(s.tasks[t])
  {
    assert WorkerOk(s, w);
    match s.workers[w].phase
    case Looking =>
      if s.workers[w].kind.High? {
        t := s.high[0];
        assert QueuedAs(s, s.high[0], High);
      } else {
        t := s.low[0];
        assert QueuedAs(s, s.low[0], Low);
      }
    case FoundNoHigh =>
      t := s.low[0];
      assert QueuedAs(s, s.low[0], Low);
    case Running(u) =>
      t := u;
      assert TaskOk(s.tasks[u]);
    case Rescheduling(u) =>
      t := u;
  }

  /** Productive turns use up the measure; other turns leave it, and all tasks, alone. */
  lemma TurnsUseUpTheMeasure(s: ExecState, w: nat)
    requires Inv(s) && Named(s) && Active(s, w)
    ensures Productive(s, w) ==> Measure(Turn(s, w).tasks) < Measure(s.tasks)
    ensures !Productive(s, w) ==> Turn(s, w).tasks == s.tasks
  {
    if Productive(s, w) {
      var t := TurnChangesOneTask(s, w);
      MeasureUpdate(s.tasks, t, Turn(s, w).tasks[t]);
    }
  }

  function ProductiveTurn(s: ExecState, a: Action): nat {
    if a.WorkerActs? && Productive(s, a.w) then 1 else 0
  }

  function ProductiveTurns(run: seq<ExecState>, actions: seq<Action>, i: nat, j: nat): nat
    requires i <= j < |run| && j <= |actions|
  {
    if i == j then 0 else ProductiveTurns(run, actions, i, j - 1) + ProductiveTurn(run[j - 1], actions[j - 1])
  }

  lemma TurnPaysForItself(s: ExecState, a: Action, s': ExecState)
    requires Inv(s) && Next(s, a, s') && a.WorkerActs?
    ensures ProductiveTurn(s, a) + Measure(s'.tasks) <= Measure(s.tasks)
  {
    TurnsUseUpTheMeasure(s, a.w);
  }

  /** Between spawns, a run of any length has at most as many productive turns as the
      measure of its first state. */
  lemma {:induction false} WorkIsBounded(highNum: nat, lowNum: nat, run: seq<ExecState>, actions: seq<Action>, i: nat,
                                         j: nat)
    requires IsRun(highNum, lowNum, run, actions) && i <= j < |run|
    requires forall k :: i <= k < j ==> actions[k].WorkerActs?
    ensures ProductiveTurns(run, actions, i, j) + Measure(run[j].tasks) <= Measure(run[i].tasks)
  {
    if i < j {
      WorkIsBounded(highNum, lowNum, run, actions, i, j - 1);
      RunKeeps(highNum, lowNum, run, actions, j - 1);
      assert StepAt(run, actions, j - 1);
      TurnPaysForItself(run[j - 1], actions[j - 1], run[j]);
    }
  }

  /** When the measure is used up, and only then, every task has ended. */
  lemma {:induction false} AllEndedWhenUsedUp(tasks: seq<Task>)
    ensures Measure(tasks) == 0 <==> forall t :: 0 <= t < |tasks| ==> !Unfinished(tasks[t])
  {
    if tasks != [] {
      AllEndedWhenUsedUp(tasks[..|tasks| - 1]);
      assert tasks == tasks[..|tasks| - 1] + [tasks[|tasks| - 1]];
      assert Unfinished(tasks[|tasks| - 1]) <==> Weight(tasks[|tasks| - 1]) > 0;
    }
  }

  // ---------- Deadlock ----------

  /** Worker w is productive now, or after one more look at the queues. */
  ghost predicate Soon(s: ExecState, w: nat) {
    Named(s) && Active(s, w) && (Productive(s, w) || Productive(Turn(s, w), w))
  }

  /** Nobody holds a runnable, no high worker runs, and the low workers, if any run,
      have an empty queue. */
  predicate Starved(s: ExecState) {
    forall w :: 0 <= w < |s.workers| ==>
      && (s.workers[w].phase.Looking? || s.workers[w].phase.FoundNoHigh?)
      && (Active(s, w) ==> s.workers[w].kind.Low? && s.low == [])
  }

  lemma InvNames(s: ExecState)
    requires Inv(s)
    ensures Named(s)
  {
    assert forall i :: 0 <= i < |s.high| ==> QueuedAs(s, s.high[i], High);
    assert forall i :: 0 <= i < |s.low| ==> QueuedAs(s, s.low[i], Low);
    forall w | 0 <= w < |s.workers|
      ensures NamedBy(s, s.workers[w])
    {
      assert WorkerOk(s, w);
    }
  }

  lemma UnheldTaskWaits(s: ExecState, t: nat)
    requires Inv(s) && t < |s.tasks| && Unfinished(s.tasks[t])
    requires forall w :: 0 <= w < |s.workers| ==> !Holds(s.workers[w], t)
    ensures s.high != [] || s.low != []
  {
    NoHolder(s.workers, t);
    assert Runnables(s, t) == 1;
  }

  lemma WorkerIsSoonProductive(s: ExecState, w: nat)
    requires Inv(s) && Active(s, w) && (s.high != [] || s.low != [])
    requires s.workers[w].kind.High? || s.low != []
    ensures Soon(s, w)
  {
    InvNames(s);
    assert WorkerOk(s, w);
  }

  lemma StarvedIsStill(s: ExecState, w: nat)
    requires Inv(s) && Starved(s)
    ensures !Soon(s, w)
  {
    if w < |s.workers| && Active(s, w) {
      assert WorkerOk(s, w);
    }
  }

  /** While some task is unfinished, some worker is about to be productive if and only if
      the executor is not starved. In particular it always is when a high worker runs. */
  lemma ProgressUnlessStarved(s: ExecState, t: nat)
    requires Inv(s) && t < |s.tasks| && Unfinished(s.tasks[t])
    ensures (exists w: nat :: Soon(s, w)) <==> !Starved(s)
  {
    if Starved(s) {
      forall w: nat
        ensures !Soon(s, w)
      {
        StarvedIsStill(s, w);
      }
    } else {
      var w := ProductiveWorker(s, t);
    }
  }

  lemma ProductiveWorker(s: ExecState, t: nat) returns (w: nat)
    requires Inv(s) && t < |s.tasks| && Unfinished(s.tasks[t]) && !Starved(s)
    ensures Soon(s, w)
  {
    InvNames(s);
    if v :| 0 <= v < |s.workers| && !s.workers[v].phase.Looking? && !s.workers[v].phase.FoundNoHigh? {
      w := v;
      assert WorkerOk(s, v);
    } else {
      UnheldTaskWaits(s, t);
      w :| 0 <= w < |s.workers| && Active(s, w) && !(s.workers[w].kind.Low? && s.low == []);
      WorkerIsSoonProductive(s, w);
    }
  }

  lemma {:induction false} WorkersOfRun(highNum: nat, lowNum: nat, run: seq<ExecState>, actions: seq<Action>, i: nat)
    requires IsRun(highNum, lowNum, run, actions) && i < |run|
    ensures |run[i].workers| == highNum + lowNum
    ensures forall w :: 0 <= w < highNum + lowNum ==> run[i].workers[w].kind == if w < highNum then High else Low
  {
    if i > 0 {
      WorkersOfRun(highNum, lowNum, run, actions, i - 1);
      assert StepAt(run, actions, i - 1);
    }
  }

  /** With at least one high worker, once a high task was ever spawned (as Runtime::run
      does first), an unfinished task never waits in vain, even with no low workers. */
  lemma NoDeadlockWithHighWorkers(highNum: nat, lowNum: nat, run: seq<ExecState>, actions: seq<Action>, i: nat, t: nat)
    returns (w: nat)
    requires IsRun(highNum, lowNum, run, actions) && i < |run| && highNum >= 1 && run[i].highStarted
    requires t < |run[i].tasks| && Unfinished(run[i].tasks[t])
    ensures Soon(run[i], w)
  {
    RunKeeps(highNum, lowNum, run, actions, i);
    WorkersOfRun(highNum, lowNum, run, actions, i);
    assert Active(run[i], 0) && run[i].workers[0].kind.High?;
    w := ProductiveWorker(run[i], t);
  }

  /** A starved executor stays as it is, for however long its workers run: no task is
      polled again or ends until another one is spawned. */
  lemma {:induction false} StarvationLasts(highNum: nat, lowNum: nat, run: seq<ExecState>, actions: seq<Action>, i: nat,
                                           j: nat)
    requires IsRun(highNum, lowNum, run, actions) && i <= j < |run| && Starved(run[i])
    requires forall k :: i <= k < j ==> actions[k].WorkerActs?
    ensures run[j] == run[i]
  {
    if i < j {
      StarvationLasts(highNum, lowNum, run, actions, i, j - 1);
      RunKeeps(highNum, lowNum, run, actions, j - 1);
      assert StepAt(run, actions, j - 1);
      StarvedTurnIsIdle(run[j - 1], actions[j - 1], run[j]);
    }
  }

  lemma StarvedTurnIsIdle(s: ExecState, a: Action, s': ExecState)
    requires Inv(s) && Next(s, a, s') && a.WorkerActs? && Starved(s)
    ensures s' == s
  {
    assert WorkerOk(s, a.w);
  }

  /** Without those conditions tasks starve: low workers never take a high task, whatever
      their number, and high workers do not run before the first high task is spawned. */
  lemma TasksStarve(n: nat, f: Future, w: nat)
    ensures !Soon(Spawned(Fresh(0, n), f, High), w)
    ensures !Soon(Spawned(Fresh(n, 0), f, Low), w)
  {
    var runs := [Fresh(0, n), Spawned(Fresh(0, n), f, High)];
    RunKeeps(0, n, runs, [Spawn(f, High)], 1);
    StarvedIsStill(runs[1], w);
    var runs' := [Fresh(n, 0), Spawned(Fresh(n, 0), f, Low)];
    RunKeeps(n, 0, runs', [Spawn(f, Low)], 1);
    StarvedIsStill(runs'[1], w);
  }
}
