/** Futures that share a counter behind a lock (14-sharing-data-between-futures): the
    hand-written `CounterFuture`, which tries the lock and counts its successes after
    releasing it, and the async function `count`, which waits for the lock in a loop. */
module SharedCounter {
  import opened Basics

  datatype CounterType = Increment | Decrement

  function Sign(k: CounterType): int {
    if k.Increment? then 1 else -1
  }

  datatype PollResult = Ready(value: nat) | Pending

  // ---------- The code, run alone ----------

  class SharedData {
    var counter: int

    constructor (counter: int)
      ensures this.counter == counter
    {
      this.counter := counter;
    }

    method Apply(k: CounterType)
      modifies this
      ensures counter == if k.Increment? then old(counter) + 1 else old(counter) - 1
    {
      match k
      case Increment => counter := counter + 1;
      case Decrement => counter := counter - 1;
    }
  }

  class CounterFuture {
    const counterType: CounterType
    const data: SharedData
    var count: nat

    constructor (counterType: CounterType, data: SharedData)
      ensures this.counterType == counterType && this.data == data && count == 0
    {
      this.counterType, this.data, count := counterType, data, 0;
    }

    /** `free` is what `try_lock` finds. */
    method Poll(free: bool) returns (r: PollResult)
      modifies this, data
      ensures !free ==> r == Pending && count == old(count) && data.counter == old(data.counter)
      ensures free ==> count == old(count) + 1
      ensures free && counterType.Increment? ==> data.counter == old(data.counter) + 1
      ensures free && counterType.Decrement? ==> data.counter == old(data.counter) - 1
      ensures free ==> r == if count < 3 then Pending else Ready(count)
    {
      if !free {
        return Pending;
      }
      data.Apply(counterType);
      count := count + 1;
      r := if count < 3 then Pending else Ready(count);
    }
  }

  method Count(count: nat, data: SharedData, counterType: CounterType) returns (r: nat)
    modifies data
    ensures r == count
    ensures data.counter == if counterType.Increment? then old(data.counter) + count else old(data.counter) - count
  {
    for i := 0 to count
      invariant data.counter == if counterType.Increment? then old(data.counter) + i else old(data.counter) - i
    {
      data.Apply(counterType);
    }
    r := count;
  }

  // ---------- Both versions, interleaved ----------

  /** Where a task is with respect to the lock and its own count. */
  datatype Point = Outside | Locked | Updated | Released | Done(value: nat)

  datatype PollingTask = PollingTask(kind: CounterType, count: nat, point: Point)

  datatype Polling = Polling(counter: int, holder: Option<nat>, tasks: seq<PollingTask>)

  datatype Step = TryLock | Change | DropGuard | CountUp

  /** One step of `CounterFuture::poll`: the lock attempt, which may fail; the update;
      the release; and the count, which happens after the release. */
  ghost predicate PollingNext(s: Polling, i: nat, step: Step, s': Polling) {
    && i < |s.tasks|
    && var t := s.tasks[i];
    match step
    case TryLock =>
      && t.point.Outside?
      && s' == if s.holder.Some? then s
               else s.(holder := Some(i), tasks := s.tasks[i := t.(point := Locked)])
    case Change =>
      && t.point.Locked?
      && s' == s.(counter := s.counter + Sign(t.kind), tasks := s.tasks[i := t.(point := Updated)])
    case DropGuard =>
      && t.point.Updated?
      && s' == s.(holder := None, tasks := s.tasks[i := t.(point := Released)])
    case CountUp =>
      && t.point.Released?
      && var point := if t.count + 1 < 3 then Outside else Done(t.count + 1);
      && s' == s.(tasks := s.tasks[i := t.(count := t.count + 1, point := point)])
  }

  /** A poll that nobody interrupts goes through these steps, and what they do together
      is what `CounterFuture.Poll` promises for a free lock. */
  lemma UninterruptedPoll(s: Polling, i: nat, s1: Polling, s2: Polling, s3: Polling, s4: Polling)
    requires s.holder.None?
    requires PollingNext(s, i, TryLock, s1) && PollingNext(s1, i, Change, s2)
    requires PollingNext(s2, i, DropGuard, s3) && PollingNext(s3, i, CountUp, s4)
    ensures s4.counter == s.counter + Sign(s.tasks[i].kind) && s4.holder.None?
    ensures |s4.tasks| == |s.tasks| && s4.tasks[i].count == s.tasks[i].count + 1
    ensures s4.tasks[i].point == if s4.tasks[i].count < 3 then Outside else Done(s4.tasks[i].count)
    ensures forall j :: 0 <= j < |s.tasks| && j != i ==> s4.tasks[j] == s.tasks[j]
  {
  }

  /** `rounds` is the loop variable, `count` the argument, of the async function. */
  datatype AsyncTask = AsyncTask(kind: CounterType, count: nat, rounds: nat, point: Point)

  datatype Async = Async(counter: int, holder: Option<nat>, tasks: seq<AsyncTask>)

  /** One step of `count`: it waits until the lock is free, updates, releases, and goes
      round its loop or returns its argument. */
  ghost predicate AsyncNext(s: Async, i: nat, step: Step, s': Async) {
    && i < |s.tasks|
    && var t := s.tasks[i];
    match step
    case TryLock =>
      && t.point.Outside? && s.holder.None?
      && s' == s.(holder := Some(i), tasks := s.tasks[i := t.(point := Locked)])
    case Change =>
      && t.point.Locked?
      && s' == s.(counter := s.counter + Sign(t.kind), tasks := s.tasks[i := t.(point := Updated)])
    case DropGuard =>
      && t.point.Updated?
      && s' == s.(holder := None, tasks := s.tasks[i := t.(point := Released)])
    case CountUp =>
      && t.point.Released?
      && var point := if t.rounds + 1 == t.count then Done(t.count) else Outside;
      && s' == s.(tasks := s.tasks[i := t.(rounds := t.rounds + 1, point := point)])
  }

  ghost predicate AsyncInit(s: Async) {
    && s.holder.None?
    && forall i :: 0 <= i < |s.tasks| ==>
         s.tasks[i].rounds == 0 && s.tasks[i].point == if s.tasks[i].count == 0 then Done(0) else Outside
  }

  ghost predicate PollingInit(s: Polling) {
    && s.holder.None?
    && forall i :: 0 <= i < |s.tasks| ==> s.tasks[i].count == 0 && s.tasks[i].point.Outside?
  }

  datatype Action = Action(task: nat, step: Step)

  ghost predicate IsAsyncRun(run: seq<Async>, actions: seq<Action>) {
    && |run| == |actions| + 1 && AsyncInit(run[0])
    && forall k :: 0 <= k < |actions| ==> AsyncNext(run[k], actions[k].task, actions[k].step, run[k + 1])
  }

  ghost predicate IsPollingRun(run: seq<Polling>, actions: seq<Action>) {
    && |run| == |actions| + 1 && PollingInit(run[0])
    && forall k :: 0 <= k < |actions| ==> PollingNext(run[k], actions[k].task, actions[k].step, run[k + 1])
  }

  // ---------- The two are the same, up to failed attempts ----------

  function AsAsync(s: Polling): Async {
    Async(s.counter, s.holder,
          seq(|s.tasks|, i requires 0 <= i < |s.tasks| =>
            AsyncTask(s.tasks[i].kind, 3, s.tasks[i].count, s.tasks[i].point)))
  }

  function AsPolling(s: Async): Polling {
    Polling(s.counter, s.holder,
            seq(|s.tasks|, i requires 0 <= i < |s.tasks| =>
              PollingTask(s.tasks[i].kind, s.tasks[i].rounds, s.tasks[i].point)))
  }

  /** A polling run seen as states of the async version, failed attempts left out. */
  function Collapsed(run: seq<Polling>): (r: seq<Async>)
    requires run != []
    ensures r != [] && r[|r| - 1] == AsAsync(run[|run| - 1])
  {
    if |run| == 1 then [AsAsync(run[0])]
    else
      var r := Collapsed(run[..|run| - 1]);
      if AsAsync(run[|run| - 1]) == AsAsync(run[|run| - 2]) then r else r + [AsAsync(run[|run| - 1])]
  }

  ghost predicate CountsOk(s: Polling) {
    forall i :: 0 <= i < |s.tasks| ==>
      s.tasks[i].count <= 3 && (!s.tasks[i].point.Done? ==> s.tasks[i].count < 3)
  }

  lemma StepIsAsync(s: Polling, i: nat, step: Step, s': Polling)
    requires CountsOk(s) && PollingNext(s, i, step, s')
    ensures CountsOk(s')
    ensures AsAsync(s') == AsAsync(s) || AsyncNext(AsAsync(s), i, step, AsAsync(s'))
  {
    if s' != s {
      assert AsAsync(s').tasks == AsAsync(s).tasks[i := AsAsync(s').tasks[i]];
    }
  }

  /** Every run of polling futures, failed attempts left out, is a run of the async
      function with three rounds for each task. */
  lemma {:induction false} PollingRunIsAsyncRun(run: seq<Polling>, actions: seq<Action>) returns (actions': seq<Action>)
    requires IsPollingRun(run, actions)
    ensures IsAsyncRun(Collapsed(run), actions')
    ensures CountsOk(run[|actions|])
  {
    if actions == [] {
      actions' := [];
    } else {
      var n := |actions| - 1;
      var init := run[..n + 1];
      actions' := PollingRunIsAsyncRun(init, actions[..n]);
      assert init[n] == run[n];
      StepIsAsync(run[n], actions[n].task, actions[n].step, run[n + 1]);
      if AsAsync(run[n + 1]) != AsAsync(run[n]) {
        actions' := actions' + [actions[n]];
      }
    }
  }

  function AllAsPolling(run: seq<Async>): (r: seq<Polling>)
    ensures |r| == |run| && forall k :: 0 <= k < |r| ==> r[k] == AsPolling(run[k])
  {
    seq(|run|, k requires 0 <= k < |run| => AsPolling(run[k]))
  }

  lemma StepIsPolling(s: Async, i: nat, step: Step, s': Async)
    requires AsyncNext(s, i, step, s') && s.tasks[i].count == 3 && AsyncOk(s)
    ensures PollingNext(AsPolling(s), i, step, AsPolling(s'))
  {
    assert TaskOk(s, i);
    assert AsPolling(s').tasks == AsPolling(s).tasks[i := AsPolling(s').tasks[i]];
  }

  /** Conversely every run of the async function with three rounds for each task is, step
      by step, a run of polling futures. */
  lemma AsyncRunIsPollingRun(run: seq<Async>, actions: seq<Action>)
    requires IsAsyncRun(run, actions)
    requires forall i :: 0 <= i < |run[0].tasks| ==> run[0].tasks[i].count == 3
    ensures IsPollingRun(AllAsPolling(run), actions)
  {
    forall k | 0 <= k < |actions|
      ensures PollingNext(AllAsPolling(run)[k], actions[k].task, actions[k].step, AllAsPolling(run)[k + 1])
    {
      AsyncRunKeeps(run, actions, k);
      StepIsPolling(run[k], actions[k].task, actions[k].step, run[k + 1]);
    }
  }

  // ---------- The counter ----------

  /** Updates a task has made: those it has counted, and one in the window between its
      update and its count. */
  function Updates(t: AsyncTask): nat {
    t.rounds + if t.point.Updated? || t.point.Released? then 1 else 0
  }

  function Net(tasks: seq<AsyncTask>): int {
    if tasks == [] then 0
    else Net(tasks[..|tasks| - 1]) + Sign(tasks[|tasks| - 1].kind) * Updates(tasks[|tasks| - 1])
  }

  lemma {:induction false} NetUpdate(tasks: seq<AsyncTask>, i: nat, x: AsyncTask)
    requires i < |tasks|
    ensures Net(tasks[i := x]) == Net(tasks) - Sign(tasks[i].kind) * Updates(tasks[i]) + Sign(x.kind) * Updates(x)
  {
    var last := |tasks| - 1;
    if i == last {
      assert tasks[i := x][..last] == tasks[..last];
    } else {
      NetUpdate(tasks[..last], i, x);
      assert tasks[i := x][..last] == tasks[..last][i := x];
    }
  }

  predicate InLock(t: AsyncTask) {
    t.point.Locked? || t.point.Updated?
  }

  ghost predicate TaskOk(s: Async, i: nat)
    requires i < |s.tasks|
  {
    var t := s.tasks[i];
    && t.rounds <= t.count
    && (if t.point.Done? then t.rounds == t.count && t.point.value == t.count else t.rounds < t.count)
    && (InLock(t) <==> s.holder == Some(i))
  }

  /** The lock is held by exactly the task that is between its acquisition and release. */
  ghost predicate AsyncOk(s: Async) {
    forall i :: 0 <= i < |s.tasks| ==> TaskOk(s, i)
  }

  lemma AsyncStepKeeps(s: Async, i: nat, step: Step, s': Async)
    requires AsyncOk(s) && AsyncNext(s, i, step, s')
    ensures AsyncOk(s') && s'.counter - Net(s'.tasks) == s.counter - Net(s.tasks)
    ensures |s'.tasks| == |s.tasks|
    ensures forall j :: 0 <= j < |s.tasks| ==>
              s'.tasks[j].kind == s.tasks[j].kind && s'.tasks[j].count == s.tasks[j].count
  {
    NetUpdate(s.tasks, i, s'.tasks[i]);
    assert TaskOk(s, i);
    forall j | 0 <= j < |s'.tasks|
      ensures TaskOk(s', j)
    {
      assert TaskOk(s, j);
    }
  }

  lemma {:induction false} NetOfFresh(tasks: seq<AsyncTask>)
    requires forall i :: 0 <= i < |tasks| ==> tasks[i].rounds == 0 && (tasks[i].point.Outside? || tasks[i].point.Done?)
    ensures Net(tasks) == 0
  {
    if tasks != [] {
      NetOfFresh(tasks[..|tasks| - 1]);
    }
  }

  lemma {:induction false} AsyncRunKeeps(run: seq<Async>, actions: seq<Action>, k: nat)
    requires IsAsyncRun(run, actions) && k < |run|
    ensures AsyncOk(run[k]) && run[k].counter == run[0].counter + Net(run[k].tasks)
    ensures |run[k].tasks| == |run[0].tasks|
    ensures forall j :: 0 <= j < |run[0].tasks| ==>
              run[k].tasks[j].kind == run[0].tasks[j].kind && run[k].tasks[j].count == run[0].tasks[j].count
  {
    if k == 0 {
      NetOfFresh(run[0].tasks);
    } else {
      AsyncRunKeeps(run, actions, k - 1);
      AsyncStepKeeps(run[k - 1], actions[k - 1].task, actions[k - 1].step, run[k]);
    }
  }

  /** What the tasks will have done in the end. */
  function Goal(tasks: seq<AsyncTask>): int {
    if tasks == [] then 0
    else Goal(tasks[..|tasks| - 1]) + Sign(tasks[|tasks| - 1].kind) * tasks[|tasks| - 1].count
  }

  lemma {:induction false} GoalReached(tasks: seq<AsyncTask>)
    requires forall i :: 0 <= i < |tasks| ==> tasks[i].point.Done? && tasks[i].rounds == tasks[i].count
    ensures Net(tasks) == Goal(tasks)
  {
    if tasks != [] {
      GoalReached(tasks[..|tasks| - 1]);
    }
  }

  lemma {:induction false} GoalIsFixed(a: seq<AsyncTask>, b: seq<AsyncTask>)
    requires |a| == |b| && forall i :: 0 <= i < |a| ==> a[i].kind == b[i].kind && a[i].count == b[i].count
    ensures Goal(a) == Goal(b)
  {
    if a != [] {
      GoalIsFixed(a[..|a| - 1], b[..|b| - 1]);
    }
  }

  /** Updates of one kind made so far. */
  function Made(tasks: seq<AsyncTask>, kind: CounterType): nat {
    if tasks == [] then 0
    else
      Made(tasks[..|tasks| - 1], kind) +
      if tasks[|tasks| - 1].kind == kind then Updates(tasks[|tasks| - 1]) else 0
  }

  /** Updates of one kind that the tasks were asked for. */
  function Asked(tasks: seq<AsyncTask>, kind: CounterType): nat {
    if tasks == [] then 0
    else
      Asked(tasks[..|tasks| - 1], kind) +
      if tasks[|tasks| - 1].kind == kind then tasks[|tasks| - 1].count else 0
  }

  lemma {:induction false} NetIsUpMinusDown(tasks: seq<AsyncTask>)
    ensures Net(tasks) == Made(tasks, Increment) - Made(tasks, Decrement)
    ensures Goal(tasks) == Asked(tasks, Increment) - Asked(tasks, Decrement)
  {
    if tasks != [] {
      NetIsUpMinusDown(tasks[..|tasks| - 1]);
    }
  }

  /** In every interleaving the counter has gone up once for each increment made and down
      once for each decrement, and at the end by what the tasks were asked for. */
  lemma CounterGoesUpAndDown(run: seq<Async>, actions: seq<Action>, k: nat)
    requires IsAsyncRun(run, actions) && k < |run|
    ensures run[k].counter == run[0].counter + Made(run[k].tasks, Increment) - Made(run[k].tasks, Decrement)
    ensures (forall i :: 0 <= i < |run[k].tasks| ==> run[k].tasks[i].point.Done?) ==>
              run[k].counter == run[0].counter + Asked(run[0].tasks, Increment) - Asked(run[0].tasks, Decrement)
  {
    AsyncCounterIsExact(run, actions, k);
    NetIsUpMinusDown(run[k].tasks);
    NetIsUpMinusDown(run[0].tasks);
  }

  /** The async version: at every point the counter is its start plus the signed updates
      made, and once all tasks are done each has returned its argument and the counter
      has moved by the sum of them. */
  lemma AsyncCounterIsExact(run: seq<Async>, actions: seq<Action>, k: nat)
    requires IsAsyncRun(run, actions) && k < |run|
    ensures run[k].counter == run[0].counter + Net(run[k].tasks)
    ensures (forall i :: 0 <= i < |run[k].tasks| ==> run[k].tasks[i].point.Done?) ==>
              && run[k].counter == run[0].counter + Goal(run[0].tasks)
              && forall i :: 0 <= i < |run[k].tasks| ==> run[k].tasks[i].point == Done(run[k].tasks[i].count)
  {
    AsyncRunKeeps(run, actions, k);
    if forall i :: 0 <= i < |run[k].tasks| ==> run[k].tasks[i].point.Done? {
      forall i | 0 <= i < |run[k].tasks|
        ensures run[k].tasks[i].rounds == run[k].tasks[i].count && run[k].tasks[i].point == Done(run[k].tasks[i].count)
      {
        assert TaskOk(run[k], i);
      }
      GoalReached(run[k].tasks);
      GoalIsFixed(run[0].tasks, run[k].tasks);
    }
  }

  /** The polling version, by the simulation: the same law for the counter, counting the
      update of a future that has released the lock and not counted yet; no two futures
      in the lock; and every finished future yields three. */
  lemma PollingCounterIsExact(run: seq<Polling>, actions: seq<Action>)
    requires IsPollingRun(run, actions)
    ensures var last := AsAsync(run[|actions|]);
            && last.counter == run[0].counter + Net(last.tasks)
            && (forall i, j :: 0 <= i < j < |last.tasks| ==> !(InLock(last.tasks[i]) && InLock(last.tasks[j])))
            && (forall i :: 0 <= i < |last.tasks| && last.tasks[i].point.Done? ==> last.tasks[i].point == Done(3))
            && ((forall i :: 0 <= i < |last.tasks| ==> last.tasks[i].point.Done?) ==>
                  last.counter == run[0].counter + Goal(AsAsync(run[0]).tasks))
  {
    var actions' := PollingRunIsAsyncRun(run, actions);
    var run' := Collapsed(run);
    CollapsedStart(run);
    AsyncCounterIsExact(run', actions', |actions'|);
    AsyncRunKeeps(run', actions', |actions'|);
    var last := AsAsync(run[|actions|]);
    forall i | 0 <= i < |last.tasks| && last.tasks[i].point.Done?
      ensures last.tasks[i].point == Done(3)
    {
      assert TaskOk(last, i);
    }
    forall i, j | 0 <= i < j < |last.tasks|
      ensures !(InLock(last.tasks[i]) && InLock(last.tasks[j]))
    {
      assert TaskOk(last, i) && TaskOk(last, j);
    }
  }

  lemma {:induction false} CollapsedStart(run: seq<Polling>)
    requires run != []
    ensures Collapsed(run)[0] == AsAsync(run[0])
  {
    if |run| > 1 {
      CollapsedStart(run[..|run| - 1]);
    }
  }

  /** The counter never leaves the start by more than three for each future, so an i32
      that has that much room on both sides does not overflow. */
  lemma PollingCounterIsBounded(run: seq<Polling>, actions: seq<Action>)
    requires IsPollingRun(run, actions)
    ensures var last := run[|actions|];
            run[0].counter - 3 * |last.tasks| <= last.counter <= run[0].counter + 3 * |last.tasks|
  {
    PollingCounterIsExact(run, actions);
    var actions' := PollingRunIsAsyncRun(run, actions);
    AsyncRunKeeps(Collapsed(run), actions', |actions'|);
    var last := AsAsync(run[|actions|]);
    forall i | 0 <= i < |last.tasks|
      ensures Updates(last.tasks[i]) <= 3
    {
      assert TaskOk(last, i);
    }
    NetIsBounded(last.tasks, 3);
  }

  lemma {:induction false} NetIsBounded(tasks: seq<AsyncTask>, n: nat)
    requires forall i :: 0 <= i < |tasks| ==> Updates(tasks[i]) <= n
    ensures -(n * |tasks|) <= Net(tasks) <= n * |tasks|
  {
    if tasks != [] {
      NetIsBounded(tasks[..|tasks| - 1], n);
      assert n * |tasks| == n * (|tasks| - 1) + n;
    }
  }
}
