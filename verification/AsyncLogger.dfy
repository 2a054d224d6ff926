/** The asynchronous logger (15-async-logger): futures that try the lock of their file and,
    once they have it, write their line and finish. A write reaches the file in pieces;
    the lock is held until the last of them, or until one fails. */
module AsyncLogger {
  import opened Basics

  function Lined(entry: string): string {
    entry + "\n"
  }

  // ---------- The code, run alone ----------

  /** An open log file; `content` is what was appended since it was opened. */
  class FileHandle {
    var content: string

    constructor ()
      ensures content == ""
    {
      content := "";
    }

    /** `room` is how much can be written before an error, None when none occurs. */
    method WriteAll(text: string, room: Option<nat>) returns (ok: bool)
      modifies this
      ensures ok <==> room.None? || |text| <= room.value
      ensures content == old(content) + if ok then text else text[..room.value]
    {
      ok := room.None? || |text| <= room.value;
      content := content + if ok then text else text[..room.value];
    }
  }

  class AsyncWriteFuture {
    const handle: FileHandle
    const entry: string

    constructor (handle: FileHandle, entry: string)
      ensures this.handle == handle && this.entry == entry
    {
      this.handle, this.entry := handle, entry;
    }

    /** `free` is what `try_lock` finds; None stands for a pending future. The future
        is ready with true even when its write failed. */
    method Poll(free: bool, room: Option<nat>) returns (r: Option<bool>)
      modifies handle
      ensures r == if free then Some(true) else None
      ensures !free ==> handle.content == old(handle.content)
      ensures free && room.None? ==> handle.content == old(handle.content) + Lined(entry)
      ensures free && room.Some? ==>
                handle.content == old(handle.content) + Lined(entry)[..Min(room.value, |Lined(entry)|)]
    {
      if !free {
        return None;
      }
      var _ := handle.WriteAll(Lined(entry), room);
      r := Some(true);
    }
  }

  // ---------- Many futures and files, interleaved ----------

  datatype Point =
    | Waiting
    | Writing(done: nat)
    | Written
    | Failed(done: nat)

  datatype LogTask = LogTask(handle: nat, entry: string, point: Point)

  /** `order` lists the futures that got the lock of this file, in order. */
  datatype LogFile = LogFile(content: string, holder: Option<nat>, order: seq<nat>)

  datatype State = State(files: seq<LogFile>, tasks: seq<LogTask>)

  datatype Step = TryLock | WriteSome(n: nat) | Finish | WriteFails

  datatype Action = Action(task: nat, step: Step)

  /** How much of its line a future has written. */
  function Progress(t: LogTask): nat {
    match t.point
    case Waiting => 0
    case Writing(done) => done
    case Written => |Lined(t.entry)|
    case Failed(done) => done
  }

  function WithTask(s: State, i: nat, p: Point): State
    requires i < |s.tasks|
  {
    s.(tasks := s.tasks[i := s.tasks[i].(point := p)])
  }

  function WithFile(s: State, h: nat, f: LogFile): State
    requires h < |s.files|
  {
    s.(files := s.files[h := f])
  }

  /** A future whose write fails reports the error and is ready all the same. */
  ghost predicate Next(s: State, a: Action, s': State) {
    && a.task < |s.tasks|
    && var i, t := a.task, s.tasks[a.task];
    && t.handle < |s.files|
    && var f := s.files[t.handle];
    match a.step
    case TryLock =>
      && t.point.Waiting?
      && s' == if f.holder.Some? then s
               else WithFile(WithTask(s, i, Writing(0)), t.handle, f.(holder := Some(i), order := f.order + [i]))
    case WriteSome(n) =>
      && t.point.Writing? && 0 < n && t.point.done + n <= |Lined(t.entry)|
      && s' == WithFile(WithTask(s, i, Writing(t.point.done + n)), t.handle,
                        f.(content := f.content + Lined(t.entry)[t.point.done..t.point.done + n]))
    case Finish =>
      && t.point.Writing? && t.point.done == |Lined(t.entry)|
      && s' == WithFile(WithTask(s, i, Written), t.handle, f.(holder := None))
    case WriteFails =>
      && t.point.Writing? && t.point.done < |Lined(t.entry)|
      && s' == WithFile(WithTask(s, i, Failed(t.point.done)), t.handle, f.(holder := None))
  }

  /** A poll that nobody interrupts is these steps, and does what `AsyncWriteFuture.Poll`
      promises for a free lock: the whole line, or the start of it when the write fails. */
  lemma UninterruptedWrite(s: State, i: nat, n: nat, s1: State, s2: State, s3: State)
    requires Next(s, Action(i, TryLock), s1) && s.files[s.tasks[i].handle].holder.None?
    requires Next(s1, Action(i, WriteSome(n)), s2)
    requires Next(s2, Action(i, Finish), s3) || Next(s2, Action(i, WriteFails), s3)
    ensures var (t, h) := (s.tasks[i], s.tasks[i].handle);
            && s3.tasks == s.tasks[i := s3.tasks[i]] && |s3.files| == |s.files|
            && s3.files[h].content == s.files[h].content + Lined(t.entry)[..n]
            && s3.files[h].holder.None?
            && (s3.tasks[i].point.Written? <==> n == |Lined(t.entry)|)
            && forall g :: 0 <= g < |s.files| && g != h ==> s3.files[g] == s.files[g]
  {
  }

  ghost predicate Init(s: State) {
    && (forall h :: 0 <= h < |s.files| ==> s.files[h] == LogFile("", None, []))
    && (forall i :: 0 <= i < |s.tasks| ==> s.tasks[i].handle < |s.files| && s.tasks[i].point.Waiting?)
  }

  ghost predicate IsRun(run: seq<State>, actions: seq<Action>) {
    && |run| == |actions| + 1 && Init(run[0])
    && forall k :: 0 <= k < |actions| ==> Next(run[k], actions[k], run[k + 1])
  }

  // ---------- The invariant ----------

  function Concat(pieces: seq<string>): string {
    if pieces == [] then "" else Concat(pieces[..|pieces| - 1]) + pieces[|pieces| - 1]
  }

  /** The part of its line that a future has written. */
  function Piece(t: LogTask): string {
    Lined(t.entry)[..Min(Progress(t), |Lined(t.entry)|)]
  }

  /** What the futures in `order` have written. */
  function Pieces(tasks: seq<LogTask>, order: seq<nat>): (r: seq<string>)
    requires forall k :: 0 <= k < |order| ==> order[k] < |tasks|
    ensures |r| == |order| && forall k :: 0 <= k < |r| ==> r[k] == Piece(tasks[order[k]])
  {
    seq(|order|, k requires 0 <= k < |order| => Piece(tasks[order[k]]))
  }

  ghost predicate TasksOk(s: State) {
    forall i :: 0 <= i < |s.tasks| ==> TaskOk(s, i)
  }

  ghost predicate TaskOk(s: State, i: nat)
    requires i < |s.tasks|
  {
    var t := s.tasks[i];
    && t.handle < |s.files|
    && Progress(t) <= |Lined(t.entry)|
    && (t.point.Failed? ==> t.point.done < |Lined(t.entry)|)
    && (t.point.Writing? <==> s.files[t.handle].holder == Some(i))
    && (t.point.Waiting? <==> i !in s.files[t.handle].order)
  }

  ghost predicate FileOk(s: State, h: nat)
    requires h < |s.files| && TasksOk(s)
  {
    var f := s.files[h];
    && (forall k :: 0 <= k < |f.order| ==> f.order[k] < |s.tasks| && s.tasks[f.order[k]].handle == h)
    && (forall j, k :: 0 <= j < k < |f.order| ==> f.order[j] != f.order[k])
    && (f.holder.Some? ==> f.order != [] && f.order[|f.order| - 1] == f.holder.value && f.holder.value < |s.tasks|)
    && f.content == Concat(Pieces(s.tasks, f.order))
  }

  ghost predicate Inv(s: State) {
    TasksOk(s) && forall h :: 0 <= h < |s.files| ==> FileOk(s, h)
  }

  lemma TasksKeep(s: State, a: Action, s': State)
    requires Inv(s) && Next(s, a, s')
    ensures TasksOk(s')
    ensures |s'.files| == |s.files| && |s'.tasks| == |s.tasks|
    ensures forall i :: 0 <= i < |s.tasks| ==>
              s'.tasks[i].handle == s.tasks[i].handle && s'.tasks[i].entry == s.tasks[i].entry
    ensures forall i :: 0 <= i < |s.tasks| && i != a.task ==> s'.tasks[i] == s.tasks[i]
  {
    assert TaskOk(s, a.task);
    forall i | 0 <= i < |s'.tasks|
      ensures TaskOk(s', i)
    {
      assert TaskOk(s, i);
      assert FileOk(s, s.tasks[i].handle);
    }
  }

  lemma SamePieces(a: seq<LogTask>, b: seq<LogTask>, order: seq<nat>)
    requires forall k :: 0 <= k < |order| ==> order[k] < |a| && order[k] < |b| && a[order[k]] == b[order[k]]
    ensures Pieces(a, order) == Pieces(b, order)
  {
  }

  lemma OtherFileKeeps(s: State, a: Action, s': State, h: nat)
    requires TasksOk(s) && TasksOk(s') && h < |s.files| == |s'.files| && FileOk(s, h)
    requires a.task < |s.tasks| == |s'.tasks| && h != s.tasks[a.task].handle && s'.files[h] == s.files[h]
    requires forall i :: 0 <= i < |s.tasks| && i != a.task ==> s'.tasks[i] == s.tasks[i]
    ensures FileOk(s', h)
  {
    SamePieces(s.tasks, s'.tasks, s.files[h].order);
  }

  lemma LockedFileKeeps(s: State, a: Action, s': State)
    requires Inv(s) && Next(s, a, s') && TasksOk(s') && |s'.files| == |s.files| && a.step.TryLock?
    ensures FileOk(s', s.tasks[a.task].handle)
  {
    var h := s.tasks[a.task].handle;
    var f := s.files[h];
    assert TaskOk(s, a.task) && FileOk(s, h);
    if f.holder.None? {
      LockedPieces(s.tasks, f.order, a.task, s'.tasks[a.task]);
    }
  }

  lemma LockedPieces(tasks: seq<LogTask>, order: seq<nat>, i: nat, t: LogTask)
    requires forall k :: 0 <= k < |order| ==> order[k] < |tasks|
    requires i < |tasks| && i !in order && Progress(t) == 0
    ensures Concat(Pieces(tasks[i := t], order + [i])) == Concat(Pieces(tasks, order))
  {
    var pieces := Pieces(tasks, order);
    assert Pieces(tasks[i := t], order + [i]) == pieces + [""];
    assert (pieces + [""])[..|pieces|] == pieces;
  }

  /** A write adds to the piece of the future that has the lock, which is the last. */
  lemma LastPieceGrows(pieces: seq<string>, last: string, more: string)
    requires pieces != [] && last == pieces[|pieces| - 1] + more
    ensures Concat(pieces[..|pieces| - 1] + [last]) == Concat(pieces) + more
  {
    var init := pieces[..|pieces| - 1];
    assert (init + [last])[..|init|] == init;
    assert Concat(init) + (pieces[|pieces| - 1] + more) == Concat(init) + pieces[|pieces| - 1] + more;
  }

  lemma LastPieceChanges(tasks: seq<LogTask>, order: seq<nat>, i: nat, t: LogTask)
    requires order != [] && order[|order| - 1] == i
    requires forall k :: 0 <= k < |order| ==> order[k] < |tasks|
    requires forall j, k :: 0 <= j < k < |order| ==> order[j] != order[k]
    ensures Pieces(tasks[i := t], order) == Pieces(tasks, order)[..|order| - 1] + [Piece(t)]
  {
  }

  lemma WrittenPieces(f: LogFile, f': LogFile, tasks: seq<LogTask>, tasks': seq<LogTask>, i: nat, n: nat)
    requires f.order != [] && f.order[|f.order| - 1] == i
    requires forall k :: 0 <= k < |f.order| ==> f.order[k] < |tasks|
    requires forall j, k :: 0 <= j < k < |f.order| ==> f.order[j] != f.order[k]
    requires tasks[i].point.Writing? && tasks[i].point.done + n <= |Lined(tasks[i].entry)|
    requires tasks' == tasks[i := tasks[i].(point := Writing(tasks[i].point.done + n))]
    requires var done := tasks[i].point.done;
             f' == f.(content := f.content + Lined(tasks[i].entry)[done..done + n])
    requires f.content == Concat(Pieces(tasks, f.order))
    ensures f'.content == Concat(Pieces(tasks', f'.order))
  {
    var t, done := tasks[i], tasks[i].point.done;
    TakeMore(Lined(t.entry), done, n);
    LastPieceChanges(tasks, f.order, i, tasks'[i]);
    LastPieceGrows(Pieces(tasks, f.order), Piece(tasks'[i]), Lined(t.entry)[done..done + n]);
  }

  lemma TakeMore(line: string, done: nat, n: nat)
    requires done + n <= |line|
    ensures line[..done + n] == line[..done] + line[done..done + n]
  {
  }

  lemma WrittenFileKeeps(s: State, i: nat, n: nat, s': State)
    requires TasksOk(s) && TasksOk(s') && Next(s, Action(i, WriteSome(n)), s') && |s'.files| == |s.files|
    requires FileOk(s, s.tasks[i].handle)
    ensures FileOk(s', s.tasks[i].handle)
  {
    assert TaskOk(s, i);
    var t := s.tasks[i];
    var f, f' := s.files[t.handle], s'.files[t.handle];
    WrittenPieces(f, f', s.tasks, s'.tasks, i, n);
  }

  lemma ReleasedFileKeeps(s: State, a: Action, s': State)
    requires Inv(s) && Next(s, a, s') && TasksOk(s') && |s'.files| == |s.files|
    requires a.step.Finish? || a.step.WriteFails?
    ensures FileOk(s', s.tasks[a.task].handle)
  {
    var h := s.tasks[a.task].handle;
    assert TaskOk(s, a.task) && FileOk(s, h);
    assert Pieces(s'.tasks, s.files[h].order) == Pieces(s.tasks, s.files[h].order);
  }

  lemma OwnFileKeeps(s: State, a: Action, s': State)
    requires Inv(s) && Next(s, a, s') && TasksOk(s') && |s'.files| == |s.files|
    ensures FileOk(s', s.tasks[a.task].handle)
  {
    match a.step
    case TryLock => LockedFileKeeps(s, a, s');
    case WriteSome(n) => WrittenFileKeeps(s, a.task, n, s');
    case _ => ReleasedFileKeeps(s, a, s');
  }

  lemma NextKeeps(s: State, a: Action, s': State)
    requires Inv(s) && Next(s, a, s')
    ensures Inv(s')
  {
    TasksKeep(s, a, s');
    forall h | 0 <= h < |s'.files|
      ensures FileOk(s', h)
    {
      if h == s.tasks[a.task].handle {
        OwnFileKeeps(s, a, s');
      } else {
        OtherFileKeeps(s, a, s', h);
      }
    }
  }

  lemma {:induction false} RunKeeps(run: seq<State>, actions: seq<Action>, k: nat)
    requires IsRun(run, actions) && k < |run|
    ensures Inv(run[k])
  {
    if k > 0 {
      RunKeeps(run, actions, k - 1);
      NextKeeps(run[k - 1], actions[k - 1], run[k]);
    }
  }

  // ---------- What the files hold ----------

  /** The entries of the futures in `order`. */
  function Entries(tasks: seq<LogTask>, order: seq<nat>): (r: seq<string>)
    requires forall k :: 0 <= k < |order| ==> order[k] < |tasks|
    ensures |r| == |order| && forall k :: 0 <= k < |r| ==> r[k] == tasks[order[k]].entry
  {
    seq(|order|, k requires 0 <= k < |order| => tasks[order[k]].entry)
  }

  function Lines(entries: seq<string>): string {
    if entries == [] then "" else Lines(entries[..|entries| - 1]) + Lined(entries[|entries| - 1])
  }

  lemma {:induction false} WholeLines(pieces: seq<string>, entries: seq<string>)
    requires |pieces| == |entries| && forall k :: 0 <= k < |pieces| ==> pieces[k] == Lined(entries[k])
    ensures Concat(pieces) == Lines(entries)
  {
    if pieces != [] {
      WholeLines(pieces[..|pieces| - 1], entries[..|entries| - 1]);
    }
  }

  /** Whenever nobody is writing to a file and no write to it has failed, it holds whole
      lines: one for each future of this file that is done, each exactly once. */
  lemma FilesHoldWholeLines(run: seq<State>, actions: seq<Action>, k: nat, h: nat) returns (order: seq<nat>)
    requires IsRun(run, actions) && k < |run| && h < |run[k].files|
    requires forall i :: 0 <= i < |run[k].tasks| && run[k].tasks[i].handle == h ==>
               run[k].tasks[i].point.Waiting? || run[k].tasks[i].point.Written?
    ensures forall j, l :: 0 <= j < l < |order| ==> order[j] != order[l]
    ensures forall j :: 0 <= j < |order| ==> order[j] < |run[k].tasks|
    ensures forall i: nat ::
              i in order <==> i < |run[k].tasks| && run[k].tasks[i].handle == h && run[k].tasks[i].point.Written?
    ensures run[k].files[h].content == Lines(Entries(run[k].tasks, order))
  {
    RunKeeps(run, actions, k);
    var s := run[k];
    assert FileOk(s, h);
    order := s.files[h].order;
    forall i: nat
      ensures i in order <==> i < |s.tasks| && s.tasks[i].handle == h && s.tasks[i].point.Written?
    {
      if i < |s.tasks| {
        assert TaskOk(s, i);
      }
    }
    forall j | 0 <= j < |order|
      ensures order[j] < |s.tasks| && s.tasks[order[j]].point.Written?
    {
      assert order[j] in order;
    }
    WholeLines(Pieces(s.tasks, order), Entries(s.tasks, order));
  }

  // ---------- When a write fails ----------

  lemma {:induction false} PiecesAreShorter(pieces: seq<string>, entries: seq<string>)
    requires |pieces| == |entries| && forall k :: 0 <= k < |pieces| ==> |pieces[k]| <= |Lined(entries[k])|
    ensures |Concat(pieces)| <= |Lines(entries)|
    ensures (exists k :: 0 <= k < |pieces| && |pieces[k]| < |Lined(entries[k])|) ==> |Concat(pieces)| < |Lines(entries)|
  {
    if pieces != [] {
      var last := |pieces| - 1;
      PiecesAreShorter(pieces[..last], entries[..last]);
      if k :| 0 <= k < last && |pieces[k]| < |Lined(entries[k])| {
        assert pieces[..last][k] == pieces[k] && entries[..last][k] == entries[k];
      }
    }
  }

  ghost predicate NoWriteFailed(s: State, h: nat) {
    forall i :: 0 <= i < |s.tasks| && s.tasks[i].handle == h ==> !s.tasks[i].point.Failed?
  }

  ghost predicate NobodyWrites(s: State, h: nat) {
    forall i :: 0 <= i < |s.tasks| && s.tasks[i].handle == h ==> !s.tasks[i].point.Writing?
  }

  lemma PieceIsWholeUnlessFailed(s: State, h: nat, k: nat)
    requires TasksOk(s) && h < |s.files| && FileOk(s, h) && NobodyWrites(s, h) && k < |s.files[h].order|
    ensures var t := s.tasks[s.files[h].order[k]];
            && (t.point.Written? || t.point.Failed?)
            && (t.point.Written? ==> Piece(t) == Lined(t.entry))
            && (t.point.Failed? ==> |Piece(t)| < |Lined(t.entry)|)
  {
    var i := s.files[h].order[k];
    assert i in s.files[h].order;
    assert TaskOk(s, i);
  }

  /** The exact condition: while nobody is writing to a file, it holds one whole line for
      every future that ever got its lock, in that order, if and only if no write to it
      failed. */
  lemma WholeLinesIffNoWriteFailed(run: seq<State>, actions: seq<Action>, k: nat, h: nat)
    requires IsRun(run, actions) && k < |run| && h < |run[k].files| && NobodyWrites(run[k], h)
    ensures var (tasks, f) := (run[k].tasks, run[k].files[h]);
            && (forall j :: 0 <= j < |f.order| ==> f.order[j] < |tasks|)
            && (f.content == Lines(Entries(tasks, f.order)) <==> NoWriteFailed(run[k], h))
  {
    RunKeeps(run, actions, k);
    var s := run[k];
    assert FileOk(s, h);
    var pieces, entries := Pieces(s.tasks, s.files[h].order), Entries(s.tasks, s.files[h].order);
    forall j | 0 <= j < |pieces|
      ensures if s.tasks[s.files[h].order[j]].point.Failed? then |pieces[j]| < |Lined(entries[j])|
              else pieces[j] == Lined(entries[j])
    {
      PieceIsWholeUnlessFailed(s, h, j);
    }
    if NoWriteFailed(s, h) {
      WholeLines(pieces, entries);
    } else {
      var i :| 0 <= i < |s.tasks| && s.tasks[i].handle == h && s.tasks[i].point.Failed?;
      assert TaskOk(s, i);
      var j :| 0 <= j < |pieces| && s.files[h].order[j] == i;
      PiecesAreShorter(pieces, entries);
    }
  }

  /** Such a run: the only future of a file writes the first character of its line and
      fails, and the file keeps that character without a newline. */
  lemma FailedWriteLeavesPartOfALine(entry: string) returns (run: seq<State>, actions: seq<Action>)
    requires entry != ""
    ensures IsRun(run, actions)
    ensures var s := run[|actions|];
            && |s.files| == |s.tasks| == 1 && s.tasks[0] == LogTask(0, entry, Failed(1))
            && s.files[0].content == entry[..1] && s.files[0].holder.None?
  {
    var s0 := State([LogFile("", None, [])], [LogTask(0, entry, Waiting)]);
    var s1 := WithFile(WithTask(s0, 0, Writing(0)), 0, LogFile("", Some(0), [] + [0]));
    var s2 := WithFile(WithTask(s1, 0, Writing(1)), 0, LogFile("" + Lined(entry)[0..0 + 1], Some(0), [] + [0]));
    var s3 := WithFile(WithTask(s2, 0, Failed(1)), 0, s2.files[0].(holder := None));
    run := [s0, s1, s2, s3];
    actions := [Action(0, TryLock), Action(0, WriteSome(1)), Action(0, WriteFails)];
    assert "" + Lined(entry)[0..0 + 1] == entry[..1];
  }

  // ---------- Reading a file back ----------

  function SplitLines(s: string, current: string): seq<string> {
    if s == "" then []
    else if s[0] == '\n' then [current] + SplitLines(s[1..], "")
    else SplitLines(s[1..], current + [s[0]])
  }

  lemma {:induction false} SplitOneLine(entry: string, rest: string, current: string)
    requires '\n' !in entry
    ensures SplitLines(entry + "\n" + rest, current) == [current + entry] + SplitLines(rest, "")
  {
    var s := entry + "\n" + rest;
    if entry == "" {
      assert s[1..] == rest;
      assert current + entry == current;
    } else {
      assert s[1..] == entry[1..] + "\n" + rest;
      SplitOneLine(entry[1..], rest, current + [entry[0]]);
      assert current + [entry[0]] + entry[1..] == current + entry;
    }
  }

  lemma {:induction false} SplitOfLines(entries: seq<string>, rest: string)
    requires forall e :: e in entries ==> '\n' !in e
    ensures SplitLines(Lines(entries) + rest, "") == entries + SplitLines(rest, "")
  {
    if entries == [] {
      assert Lines(entries) + rest == rest;
    } else {
      var init, last := entries[..|entries| - 1], entries[|entries| - 1];
      assert Lines(entries) + rest == Lines(init) + (last + "\n" + rest);
      SplitOfLines(init, last + "\n" + rest);
      SplitOneLine(last, rest, "");
      assert "" + last == last;
      assert entries == init + [last];
    }
  }

  /** Split at newlines, such a file gives exactly the entries of its finished futures, in
      the order in which they got the lock, and nothing of any other file. */
  lemma FilesSplitIntoEntries(run: seq<State>, actions: seq<Action>, k: nat, h: nat) returns (order: seq<nat>)
    requires IsRun(run, actions) && k < |run| && h < |run[k].files|
    requires forall i :: 0 <= i < |run[k].tasks| ==> '\n' !in run[k].tasks[i].entry
    requires forall i :: 0 <= i < |run[k].tasks| && run[k].tasks[i].handle == h ==> run[k].tasks[i].point.Written?
    ensures forall j, l :: 0 <= j < l < |order| ==> order[j] != order[l]
    ensures forall j :: 0 <= j < |order| ==> order[j] < |run[k].tasks|
    ensures forall i: nat :: i in order <==> i < |run[k].tasks| && run[k].tasks[i].handle == h
    ensures SplitLines(run[k].files[h].content, "") == Entries(run[k].tasks, order)
  {
    order := FilesHoldWholeLines(run, actions, k, h);
    var entries := Entries(run[k].tasks, order);
    forall j | 0 <= j < |order|
      ensures order[j] < |run[k].tasks|
    {
      assert order[j] in order;
    }
    SplitOfLines(entries, "");
    assert Lines(entries) + "" == Lines(entries);
    assert entries + [] == entries;
  }
}
