/** In which order the executor runs its tasks: high ones first on high workers, and the
    runnables of each queue first in, first out. */
module ExecutorOrder {
  import opened Basics
  import opened Executors
  import opened ExecutorTheorems

  // ---------- Priority ----------

  /** A high worker that looks while a high runnable waits takes the first one. */
  lemma HighRunnablesAreTakenFirst(highNum: nat, lowNum: nat, run: seq<ExecState>, actions: seq<Action>, i: nat,
                                   w: nat)
    requires IsRun(highNum, lowNum, run, actions) && i < |actions| && actions[i] == WorkerActs(w)
    requires w < |run[i].workers| && run[i].workers[w] == Worker(High, Looking) && run[i].high != []
    ensures w < |run[i + 1].workers| && run[i + 1].workers[w].phase == Running(run[i].high[0])
    ensures run[i + 1].high == run[i].high[1..] && run[i + 1].low == run[i].low
  {
    assert StepAt(run, actions, i);
  }

  lemma PhaseChangesByOwnTurn(s: ExecState, a: Action, s': ExecState, w: nat)
    requires Next(s, a, s') && w < |s.workers|
    ensures |s'.workers| == |s.workers|
    ensures a != WorkerActs(w) ==> s'.workers[w] == s.workers[w]
    ensures s'.workers[w].phase.FoundNoHigh? && a == WorkerActs(w) ==> s.workers[w].phase.Looking? && s.high == []
  {
  }

  /** A worker that found no high runnable did so at its last look. */
  lemma {:induction false} LastLookWasEmpty(highNum: nat, lowNum: nat, run: seq<ExecState>, actions: seq<Action>,
                                            i: nat, 
                                            w: nat)
    returns (j: nat)
    requires IsRun(highNum, lowNum, run, actions) && i < |run| && w < |run[i].workers|
    requires run[i].workers[w].phase.FoundNoHigh?
    ensures j < i && actions[j] == WorkerActs(w)
    ensures w < |run[j].workers| && run[j].workers[w].phase.Looking? && run[j].high == []
    ensures forall k :: j < k < i ==> actions[k] != WorkerActs(w)
  {
    if i == 0 {
      assert false;
    } else {
      WorkersOfRun(highNum, lowNum, run, actions, i);
      WorkersOfRun(highNum, lowNum, run, actions, i - 1);
      assert StepAt(run, actions, i - 1);
      PhaseChangesByOwnTurn(run[i - 1], actions[i - 1], run[i], w);
      if actions[i - 1] == WorkerActs(w) {
        j := i - 1;
      } else {
        j := LastLookWasEmpty(highNum, lowNum, run, actions, i - 1, w);
      }
    }
  }

  lemma HighTakesLowWhenNoneFound(s: ExecState, w: nat, t: nat)
    requires Inv(s) && Named(s) && Active(s, w) && s.workers[w].kind.High?
    requires !s.workers[w].phase.Running? && Turn(s, w).workers[w].phase == Running(t)
    requires t < |s.tasks| && s.tasks[t].priority.Low?
    ensures s.workers[w].phase.FoundNoHigh?
  {
    assert forall i :: 0 <= i < |s.high| ==> QueuedAs(s, s.high[i], High);
  }

  /** Stealing is the last resort: in every run, when a high worker takes a low task, the
      high queue was empty at its last look, after which it did nothing else. */
  lemma HighWorkersStealOnlyWhenIdle(highNum: nat, lowNum: nat, run: seq<ExecState>, actions: seq<Action>, i: nat,
                                     w: nat, t: nat)
    returns (j: nat)
    requires IsRun(highNum, lowNum, run, actions) && i < |actions| && actions[i] == WorkerActs(w)
    requires w < |run[i].workers| && run[i].workers[w].kind.High? && !run[i].workers[w].phase.Running?
    requires w < |run[i + 1].workers| && run[i + 1].workers[w].phase == Running(t)
    requires t < |run[i].tasks| && run[i].tasks[t].priority.Low?
    ensures j < i && actions[j] == WorkerActs(w)
    ensures w < |run[j].workers| && run[j].workers[w].phase.Looking? && run[j].high == []
    ensures forall k :: j < k < i ==> actions[k] != WorkerActs(w)
  {
    RunKeeps(highNum, lowNum, run, actions, i);
    assert StepAt(run, actions, i);
    HighTakesLowWhenNoneFound(run[i], w, t);
    j := LastLookWasEmpty(highNum, lowNum, run, actions, i, w);
  }

  predicate IsOf(s: ExecState, t: nat, p: Priority) {
    t < |s.tasks| && s.tasks[t].priority == p
  }

  predicate ServesLow(s: ExecState, w: nat) {
    && w < |s.workers|
    && (s.workers[w].kind.Low? ==>
          match s.workers[w].phase
          case Running(t) => IsOf(s, t, Low)
          case Rescheduling(t) => IsOf(s, t, Low)
          case FoundNoHigh => false
          case Looking => true)
  }

  lemma StepKeepsPriority(s: ExecState, a: Action, s': ExecState, t: nat)
    requires Next(s, a, s') && IsOf(s, t, Low)
    ensures IsOf(s', t, Low)
  {
  }

  lemma LowWorkerTakesLow(s: ExecState, a: Action, s': ExecState, w: nat)
    requires QueuesOk(s) && Next(s, a, s') && ServesLow(s, w)
    ensures ServesLow(s', w)
  {
    PhaseChangesByOwnTurn(s, a, s', w);
    match s.workers[w].phase
    case Running(t) =>
      if s.workers[w].kind.Low? {
        StepKeepsPriority(s, a, s', t);
      }
    case Rescheduling(t) =>
      if s.workers[w].kind.Low? {
        StepKeepsPriority(s, a, s', t);
      }
    case Looking =>
      if s.low != [] {
        assert QueuedAs(s, s.low[0], Low);
      }
    case FoundNoHigh =>
  }

  /** Low workers only ever hold low tasks. */
  lemma {:induction false} LowWorkersServeLowTasks(highNum: nat, lowNum: nat, run: seq<ExecState>,
                                                   actions: seq<Action>, i: nat, w: nat)
    requires IsRun(highNum, lowNum, run, actions) && i < |run| && w < highNum + lowNum
    ensures w < |run[i].workers|
    ensures forall t: nat :: run[i].workers[w].kind.Low? && Holds(run[i].workers[w], t) ==>
              t < |run[i].tasks| && run[i].tasks[t].priority.Low?
    ensures ServesLow(run[i], w)
  {
    if i > 0 {
      LowWorkersServeLowTasks(highNum, lowNum, run, actions, i - 1, w);
      RunKeeps(highNum, lowNum, run, actions, i - 1);
      assert StepAt(run, actions, i - 1);
      LowWorkerTakesLow(run[i - 1], actions[i - 1], run[i], w);
    }
  }

  // ---------- First in, first out ----------

  function Queue(s: ExecState, p: Priority): seq<nat> {
    if p.High? then s.high else s.low
  }

  /** The task whose runnable an action puts in the queue of this priority: one that is
      spawned, or one that woke while it was polled. */
  function PutIn(s: ExecState, a: Action, p: Priority): seq<nat> {
    match a
    case Spawn(_, q) => if q == p then [|s.tasks|] else []
    case WorkerActs(w) =>
      if w < |s.workers| && s.workers[w].phase.Rescheduling? && IsOf(s, s.workers[w].phase.task, p)
      then [s.workers[w].phase.task]
      else []
  }

  /** The task of this priority that a worker comes to hold by an action. */
  function TakenOut(s: ExecState, a: Action, s': ExecState, p: Priority): seq<nat> {
    if a.WorkerActs? && a.w < |s.workers| && a.w < |s'.workers| && !s.workers[a.w].phase.Running?
       && s'.workers[a.w].phase.Running? && IsOf(s, s'.workers[a.w].phase.task, p)
    then [s'.workers[a.w].phase.task]
    else []
  }

  function AllPut(run: seq<ExecState>, actions: seq<Action>, i: nat, p: Priority): seq<nat>
    requires i < |run| == |actions| + 1
  {
    if i == 0 then [] else AllPut(run, actions, i - 1, p) + PutIn(run[i - 1], actions[i - 1], p)
  }

  function AllTaken(run: seq<ExecState>, actions: seq<Action>, i: nat, p: Priority): seq<nat>
    requires i < |run| == |actions| + 1
  {
    if i == 0 then [] else AllTaken(run, actions, i - 1, p) + TakenOut(run[i - 1], actions[i - 1], run[i], p)
  }

  /** What was in the queue and what is put in it comes out of it or stays in it, in order. */
  ghost predicate KeepsOrder(s: ExecState, a: Action, s': ExecState, p: Priority) {
    TakenOut(s, a, s', p) + Queue(s', p) == Queue(s, p) + PutIn(s, a, p)
  }

  lemma TakeHighKeepsOrder(s: ExecState, w: nat, p: Priority)
    requires QueuesOk(s) && w < |s.workers| && s.workers[w].phase.Looking?
    requires s.high != [] && s.high[0] < |s.tasks|
    ensures KeepsOrder(s, WorkerActs(w), TakeHigh(s, w), p)
  {
    assert QueuedAs(s, s.high[0], High);
    FirstAgain(s.high);
    NothingMore(Queue(s, p));
  }

  lemma TakeLowKeepsOrder(s: ExecState, w: nat, p: Priority)
    requires QueuesOk(s) && w < |s.workers| && (s.workers[w].phase.Looking? || s.workers[w].phase.FoundNoHigh?)
    requires s.low != [] && s.low[0] < |s.tasks|
    ensures KeepsOrder(s, WorkerActs(w), TakeLow(s, w), p)
  {
    assert QueuedAs(s, s.low[0], Low);
    FirstAgain(s.low);
    NothingMore(Queue(s, p));
  }

  lemma LookKeepsOrder(s: ExecState, w: nat, p: Priority, phase: WorkerPhase)
    requires w < |s.workers| && (s.workers[w].phase.Looking? || s.workers[w].phase.FoundNoHigh?) && !phase.Running?
    ensures KeepsOrder(s, WorkerActs(w), WithPhase(s, w, phase), p)
  {
    NothingMore(Queue(s, p));
  }

  lemma WaitKeepsOrder(s: ExecState, w: nat, p: Priority)
    requires w < |s.workers| && s.workers[w].phase.Looking?
    ensures KeepsOrder(s, WorkerActs(w), s, p)
  {
    NothingMore(Queue(s, p));
  }

  lemma PollKeepsOrder(s: ExecState, w: nat, t: nat, p: Priority)
    requires w < |s.workers| && t < |s.tasks| && s.workers[w].phase == Running(t)
    ensures KeepsOrder(s, WorkerActs(w), Polled(s, w, t), p)
  {
    NothingMore(Queue(s, p));
  }

  lemma RescheduleKeepsOrder(s: ExecState, w: nat, t: nat, p: Priority)
    requires w < |s.workers| && t < |s.tasks| && s.workers[w].phase == Rescheduling(t)
    ensures KeepsOrder(s, WorkerActs(w), Rescheduled(s, w, t), p)
  {
    NothingMore(Queue(s, p));
  }

  lemma TurnKeepsOrder(s: ExecState, w: nat, p: Priority)
    requires QueuesOk(s) && Named(s) && Active(s, w)
    ensures KeepsOrder(s, WorkerActs(w), Turn(s, w), p)
  {
    match s.workers[w].phase
    case Looking =>
      if s.workers[w].kind.High? {
        if s.high != [] {
          TakeHighKeepsOrder(s, w, p);
        } else {
          LookKeepsOrder(s, w, p, FoundNoHigh);
        }
      } else if s.low != [] {
        TakeLowKeepsOrder(s, w, p);
      } else {
        WaitKeepsOrder(s, w, p);
      }
    case FoundNoHigh =>
      if s.low != [] {
        TakeLowKeepsOrder(s, w, p);
      } else {
        LookKeepsOrder(s, w, p, Looking);
      }
    case Running(t) => PollKeepsOrder(s, w, t, p);
    case Rescheduling(t) => RescheduleKeepsOrder(s, w, t, p);
  }

  lemma SpawnKeepsOrder(s: ExecState, f: Future, q: Priority, p: Priority)
    ensures KeepsOrder(s, Spawn(f, q), Spawned(s, f, q), p)
  {
    NothingMore(Queue(s, p));
  }

  lemma StepKeepsOrder(s: ExecState, a: Action, s': ExecState, p: Priority)
    requires QueuesOk(s) && Next(s, a, s')
    ensures KeepsOrder(s, a, s', p)
  {
    match a
    case Spawn(f, q) => SpawnKeepsOrder(s, f, q, p);
    case WorkerActs(w) => TurnKeepsOrder(s, w, p);
  }

  lemma FifoStep(put: seq<nat>, taken: seq<nat>, queue: seq<nat>, more: seq<nat>, out: seq<nat>, queue': seq<nat>)
    requires put == taken + queue && out + queue' == queue + more
    ensures put + more == (taken + out) + queue'
  {
    Regroup(taken, queue, more);
    Regroup(taken, out, queue');
  }

  /** Each queue is first in, first out, over any run: the runnables ever put in it are those
      ever taken, in the order in which they were taken, followed by those that wait. */
  lemma {:induction false} QueuesAreFifo(highNum: nat, lowNum: nat, run: seq<ExecState>, actions: seq<Action>, i: nat,
                                         p: Priority)
    requires IsRun(highNum, lowNum, run, actions) && i < |run|
    ensures AllPut(run, actions, i, p) == AllTaken(run, actions, i, p) + Queue(run[i], p)
  {
    if i == 0 {
      assert run[0] == Fresh(highNum, lowNum);
    } else {
      QueuesAreFifo(highNum, lowNum, run, actions, i - 1, p);
      RunKeeps(highNum, lowNum, run, actions, i - 1);
      assert StepAt(run, actions, i - 1);
      StepKeepsOrder(run[i - 1], actions[i - 1], run[i], p);
      FifoStep(AllPut(run, actions, i - 1, p), AllTaken(run, actions, i - 1, p), Queue(run[i - 1], p),
               PutIn(run[i - 1], actions[i - 1], p), TakenOut(run[i - 1], actions[i - 1], run[i], p),
               Queue(run[i], p));
    }
  }

  // ---------- How tasks end ----------

  /** Every task ends as its future does: an async block after one poll, a panic after one
      poll, a counter when it has been polled up to three, or once if it starts there. */
  lemma TasksEndAsTheirFuturesDo(highNum: nat, lowNum: nat, run: seq<ExecState>, actions: seq<Action>, i: nat, t: nat)
    requires IsRun(highNum, lowNum, run, actions) && i < |run| && t < |run[i].tasks| && !Unfinished(run[i].tasks[t])
    ensures var task := run[i].tasks[t];
            match task.spawnedAs
            case Immediate => task.status == Finished(0) && task.polls == 1
            case Panicking => task.status == Panicked && task.polls == 1
            case CounterFuture(c) =>
              if c < 3 then task.status == Finished(3) && task.polls == 3 - c
              else task.status == Finished(c + 1) && task.polls == 1
  {
    RunKeeps(highNum, lowNum, run, actions, i);
    assert TaskOk(run[i].tasks[t]);
  }
}
