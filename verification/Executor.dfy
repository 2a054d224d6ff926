/** The priority executor of 16-async-queue: two queues of runnables, high workers that
    steal from the low queue, low workers that wait on it, and futures that wake
    themselves. Any number of workers and tasks, interleaved in any way. */
module Executors {

  datatype Priority = High | Low

  /** `CounterFuture`, an async block that is ready at once, or a future that panics. */
  datatype Future = CounterFuture(count: nat) | Immediate | Panicking

  datatype PollResult = Ready(value: nat) | Pending | Panic

  function Poll(f: Future): (Future, PollResult) {
    match f
    case CounterFuture(count) => (CounterFuture(count + 1), if count + 1 >= 3 then Ready(count + 1) else Pending)
    case Immediate => (f, Ready(0))
    case Panicking => (f, Panic)
  }

  /** Where a task's runnable is; a task that ended has none. */
  datatype Status = Queued | Held | Woken | Finished(value: nat) | Panicked

  datatype Task = Task(priority: Priority, spawnedAs: Future, future: Future, status: Status, polls: nat)

  /** A worker between runnables, a high worker that found its own queue empty, a worker
      about to poll, and one whose poll is over and whose task was woken during it. */
  datatype WorkerPhase = Looking | FoundNoHigh | Running(task: nat) | Rescheduling(task: nat)

  datatype Worker = Worker(kind: Priority, phase: WorkerPhase)

  /** A pool of workers is started by the first task of its priority. */
  datatype ExecState = ExecState(
    tasks: seq<Task>,
    high: seq<nat>,
    low: seq<nat>,
    workers: seq<Worker>,
    highStarted: bool,
    lowStarted: bool)

  function Enqueued(s: ExecState, t: nat, p: Priority): ExecState {
    match p
    case High => s.(high := s.high + [t])
    case Low => s.(low := s.low + [t])
  }

  function Spawned(s: ExecState, f: Future, p: Priority): ExecState {
    var s1 := s.(tasks := s.tasks + [Task(p, f, f, Queued, 0)],
                 highStarted := s.highStarted || p.High?, lowStarted := s.lowStarted || p.Low?);
    Enqueued(s1, |s.tasks|, p)
  }

  predicate Active(s: ExecState, w: nat) {
    w < |s.workers| && if s.workers[w].kind.High? then s.highStarted else s.lowStarted
  }

  function WithPhase(s: ExecState, w: nat, p: WorkerPhase): ExecState
    requires w < |s.workers|
  {
    s.(workers := s.workers[w := s.workers[w].(phase := p)])
  }

  function WithStatus(s: ExecState, t: nat, st: Status): ExecState
    requires t < |s.tasks|
  {
    s.(tasks := s.tasks[t := s.tasks[t].(status := st)])
  }

  function TakeHigh(s: ExecState, w: nat): ExecState
    requires w < |s.workers| && s.high != [] && s.high[0] < |s.tasks|
  {
    WithStatus(WithPhase(s, w, Running(s.high[0])), s.high[0], Held).(high := s.high[1..])
  }

  function TakeLow(s: ExecState, w: nat): ExecState
    requires w < |s.workers| && s.low != [] && s.low[0] < |s.tasks|
  {
    WithStatus(WithPhase(s, w, Running(s.low[0])), s.low[0], Held).(low := s.low[1..])
  }

  /** Runs the held runnable once. A pending future has woken itself during the poll. */
  function Polled(s: ExecState, w: nat, t: nat): ExecState
    requires w < |s.workers| && t < |s.tasks|
  {
    var task := s.tasks[t];
    var (f, r) := Poll(task.future);
    var status := match r case Ready(v) => Finished(v) case Pending => Woken case Panic => Panicked;
    var s1 := s.(tasks := s.tasks[t := task.(future := f, status := status, polls := task.polls + 1)]);
    WithPhase(s1, w, if r.Pending? then Rescheduling(t) else Looking)
  }

  /** The runnable of a woken task goes to the queue its task was spawned with. */
  function Rescheduled(s: ExecState, w: nat, t: nat): ExecState
    requires w < |s.workers| && t < |s.tasks|
  {
    Enqueued(WithStatus(WithPhase(s, w, Looking), t, Queued), t, s.tasks[t].priority)
  }

  /** All indices in the queues and held by workers are tasks. */
  ghost predicate Named(s: ExecState) {
    && (forall i :: 0 <= i < |s.high| ==> s.high[i] < |s.tasks|)
    && (forall i :: 0 <= i < |s.low| ==> s.low[i] < |s.tasks|)
    && (forall w :: 0 <= w < |s.workers| ==> NamedBy(s, s.workers[w]))
  }

  predicate NamedBy(s: ExecState, w: Worker) {
    match w.phase
    case Running(t) => t < |s.tasks|
    case Rescheduling(t) => t < |s.tasks|
    case _ => true
  }

  /** The next step of an active worker; the same state when it waits. A low worker
      blocks on its own queue, whose senders never go away, so its stealing branch is
      never taken. */
  function Turn(s: ExecState, w: nat): ExecState
    requires Named(s) && Active(s, w)
  {
    match s.workers[w].phase
    case Looking =>
      if s.workers[w].kind.High? then
        if s.high != [] then TakeHigh(s, w) else WithPhase(s, w, FoundNoHigh)
      else if s.low != [] then TakeLow(s, w)
      else s
    case FoundNoHigh => if s.low != [] then TakeLow(s, w) else WithPhase(s, w, Looking)
    case Running(t) => Polled(s, w, t)
    case Rescheduling(t) => Rescheduled(s, w, t)
  }

  // ---------- The executor ----------

  class Executor {
    var tasks: seq<Task>
    var high: seq<nat>
    var low: seq<nat>
    var workers: seq<Worker>
    var highStarted: bool
    var lowStarted: bool

    function State(): ExecState
      reads this
    {
      ExecState(tasks, high, low, workers, highStarted, lowStarted)
    }

    constructor (highNum: nat, lowNum: nat)
      ensures State() == Fresh(highNum, lowNum)
    {
      tasks, high, low := [], [], [];
      workers := seq(highNum, _ => Worker(High, Looking)) + seq(lowNum, _ => Worker(Low, Looking));
      highStarted, lowStarted := false, false;
    }

    method SpawnTask(f: Future, order: Priority) returns (t: nat)
      modifies this
      ensures State() == Spawned(old(State()), f, order) && t == |old(tasks)|
    {
      t := |tasks|;
      tasks := tasks + [Task(order, f, f, Queued, 0)];
      match order
      case High =>
        highStarted := true;
        high := high + [t];
      case Low =>
        lowStarted := true;
        low := low + [t];
    }

    /** One pass of a worker's loop body, up to the next point where others may act. */
    method WorkerTurn(w: nat)
      requires Named(State()) && Active(State(), w)
      modifies this
      ensures State() == Turn(old(State()), w)
    {
      match workers[w].phase
      case Looking =>
        if workers[w].kind == High {
          if high != [] {
            var t := high[0];
            high := high[1..];
            Hold(w, t);
          } else {
            workers := workers[w := workers[w].(phase := FoundNoHigh)];
          }
        } else if low != [] {
          var t := low[0];
          low := low[1..];
          Hold(w, t);
        }
      case FoundNoHigh =>
        if low != [] {
          var t := low[0];
          low := low[1..];
          Hold(w, t);
        } else {
          workers := workers[w := workers[w].(phase := Looking)];
        }
      case Running(t) => RunRunnable(w, t);
      case Rescheduling(t) =>
        workers := workers[w := workers[w].(phase := Looking)];
        tasks := tasks[t := tasks[t].(status := Queued)];
        match tasks[t].priority {
          case High => high := high + [t];
          case Low => low := low + [t];
        }
    }

    method Hold(w: nat, t: nat)
      requires w < |workers| && t < |tasks|
      modifies this`workers, this`tasks
      ensures workers == old(workers)[w := old(workers)[w].(phase := Running(t))]
      ensures tasks == old(tasks)[t := old(tasks)[t].(status := Held)]
    {
      workers := workers[w := workers[w].(phase := Running(t))];
      tasks := tasks[t := tasks[t].(status := Held)];
    }

    method RunRunnable(w: nat, t: nat)
      requires w < |workers| && t < |tasks|
      modifies this
      ensures State() == Polled(old(State()), w, t)
    {
      var task := tasks[t];
      var (future, result) := Poll(task.future);
      var status, phase := Panicked, Looking;
      match result {
        case Ready(v) => status := Finished(v);
        case Pending =>
          status := Woken;
          phase := Rescheduling(t);
        case Panic =>
      }
      tasks := tasks[t := task.(future := future, status := status, polls := task.polls + 1)];
      workers := workers[w := workers[w].(phase := phase)];
    }
  }

  function Fresh(highNum: nat, lowNum: nat): ExecState {
    var workers := seq(highNum, _ => Worker(High, Looking)) + seq(lowNum, _ => Worker(Low, Looking));
    ExecState([], [], [], workers, false, false)
  }

  // ---------- Runs ----------

  datatype Action = Spawn(future: Future, priority: Priority) | WorkerActs(w: nat)

  ghost predicate Next(s: ExecState, a: Action, s': ExecState) {
    match a
    case Spawn(f, p) => s' == Spawned(s, f, p)
    case WorkerActs(w) => Named(s) && Active(s, w) && s' == Turn(s, w)
  }

  ghost predicate IsRun(highNum: nat, lowNum: nat, run: seq<ExecState>, actions: seq<Action>) {
    && |run| == |actions| + 1
    && run[0] == Fresh(highNum, lowNum)
    && forall i :: 0 <= i < |actions| ==> StepAt(run, actions, i)
  }

  ghost predicate StepAt(run: seq<ExecState>, actions: seq<Action>, i: nat)
    requires |run| == |actions| + 1 && i < |actions|
  {
    Next(run[i], actions[i], run[i + 1])
  }

  // ---------- The invariant ----------

  predicate Unfinished(t: Task) {
    t.status.Queued? || t.status.Held? || t.status.Woken?
  }

  predicate Holds(w: Worker, t: nat) {
    w.phase == Running(t) || w.phase == Rescheduling(t)
  }

  function QueueCount(q: seq<nat>, t: nat): nat {
    if q == [] then 0 else QueueCount(q[..|q| - 1], t) + if q[|q| - 1] == t then 1 else 0
  }

  function HeldCount(ws: seq<Worker>, t: nat): nat {
    if ws == [] then 0 else HeldCount(ws[..|ws| - 1], t) + if Holds(ws[|ws| - 1], t) then 1 else 0
  }

  /** How many runnables of task t there are, in the queues and with the workers. */
  function Runnables(s: ExecState, t: nat): nat {
    QueueCount(s.high, t) + QueueCount(s.low, t) + HeldCount(s.workers, t)
  }

  /** One runnable for an unfinished task, none otherwise. */
  ghost predicate Conserved(s: ExecState) {
    forall t: nat :: Runnables(s, t) == if t < |s.tasks| && Unfinished(s.tasks[t]) then 1 else 0
  }

  predicate QueuedAs(s: ExecState, t: nat, p: Priority) {
    t < |s.tasks| && s.tasks[t].priority == p && s.tasks[t].status.Queued?
  }

  /** A runnable waits in the queue of its task's priority. */
  ghost predicate QueuesOk(s: ExecState) {
    && (forall i :: 0 <= i < |s.high| ==> QueuedAs(s, s.high[i], High))
    && (forall i :: 0 <= i < |s.low| ==> QueuedAs(s, s.low[i], Low))
  }

  ghost predicate WorkerOk(s: ExecState, w: nat)
    requires w < |s.workers|
  {
    match s.workers[w].phase
    case Running(t) => t < |s.tasks| && s.tasks[t].status.Held? && Active(s, w)
    case Rescheduling(t) => t < |s.tasks| && s.tasks[t].status.Woken? && Active(s, w)
    case FoundNoHigh => s.workers[w].kind.High?
    case Looking => true
  }

  ghost predicate WorkersOk(s: ExecState) {
    forall w :: 0 <= w < |s.workers| ==> WorkerOk(s, w)
  }

  /** Each task had its pool started when it was spawned. */
  ghost predicate PoolsOk(s: ExecState) {
    forall t :: 0 <= t < |s.tasks| ==> if s.tasks[t].priority.High? then s.highStarted else s.lowStarted
  }

  /** A counter has been polled once for each count and ends at three. */
  ghost predicate TaskOk(t: Task) {
    match t.spawnedAs
    case CounterFuture(c) =>
      && t.future == CounterFuture(c + t.polls)
      && !t.status.Panicked?
      && (Unfinished(t) ==> t.polls == 0 || c + t.polls < 3)
      && (t.status.Finished? ==> t.status.value == c + t.polls == if c < 3 then 3 else c + 1)
      && (t.status.Woken? ==> t.polls > 0)
    case Immediate =>
      && t.future == Immediate
      && if Unfinished(t) then t.polls == 0 && !t.status.Woken? else t.polls == 1 && t.status == Finished(0)
    case Panicking =>
      && t.future == Panicking
      && if Unfinished(t) then t.polls == 0 && !t.status.Woken? else t.polls == 1 && t.status.Panicked?
  }

  ghost predicate Inv(s: ExecState) {
    && Conserved(s) && QueuesOk(s) && WorkersOk(s) && PoolsOk(s)
    && forall t :: 0 <= t < |s.tasks| ==> TaskOk(s.tasks[t])
  }
}
