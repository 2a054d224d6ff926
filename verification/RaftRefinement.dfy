/** The node's code against the step machine of the cluster: polls, drains and the whole
    event loop of a node are runs of its small steps, and what a node does by itself can
    happen in the cluster. */
module RaftRefinement {
  import opened Basics
  import opened RaftLog
  import opened RaftNodes
  import opened PendingPuts
  import opened Workers
  import opened WorkerRuns
  import opened RaftCluster

  ghost predicate IsTrace(agreed: seq<Entry>, id: nat, trace: seq<Node>, steps: seq<Step>) {
    && |trace| == |steps| + 1
    && forall i :: 0 <= i < |steps| ==> NodeNext(agreed, id, trace[i], steps[i], trace[i + 1])
  }

  lemma Extend(agreed: seq<Entry>, id: nat, trace: seq<Node>, steps: seq<Step>, step: Step, n: Node)
    requires IsTrace(agreed, id, trace, steps) && NodeNext(agreed, id, trace[|steps|], step, n)
    ensures IsTrace(agreed, id, trace + [n], steps + [step])
  {
  }

  ghost predicate SameAnswers(n: Node, n': Node) {
    n'.book == n.book && n'.history == n.history && n'.seen == n.seen
  }

  lemma FirstPhaseTrace(agreed: seq<Entry>, id: nat, n: Node, ready: Ready, raw: Raw)
    returns (trace: seq<Node>, steps: seq<Step>)
    requires n.phase.Idle? && ReadyContract(n.raw, ready, raw)
    ensures IsTrace(agreed, id, trace, steps) && trace[0] == n
    ensures SameAnswers(n, trace[|steps|])
    ensures var v1 := HardStateWritten(n.view, ready.hs);
            var last := trace[|steps|];
            if !Appendable(v1.stored, ready.entries) then last.view == v1 && last.phase.Halted?
            else
              && last.view == EntriesApplied(EntriesWritten(v1, ready.entries), ready.committed)
              && last.raw == raw
              && last.phase == (if DecodablePrefix(ready.committed) == ready.committed
                                then ReadyApplied(ready, Reports(id, ready.committed)) else Halted)
  {
    var n1 := n.(raw := raw, phase := Taken(ready));
    var n2 := n1.(view := HardStateWritten(n1.view, ready.hs), phase := HardStateStored(ready));
    trace, steps := [n, n1, n2], [Take(ready), StoreHardState];
    if !Appendable(n2.view.stored, ready.entries) {
      var n3 := n2.(phase := Halted);
      Extend(agreed, id, trace, steps, StoreEntries, n3);
      trace, steps := trace + [n3], steps + [StoreEntries];
    } else {
      var n3 := n2.(view := EntriesWritten(n2.view, ready.entries), phase := EntriesStored(ready));
      var n4 := Apply(n3, ready.committed, ReadyApplied(ready, Reports(id, ready.committed)));
      Extend(agreed, id, trace, steps, StoreEntries, n3);
      trace, steps := trace + [n3], steps + [StoreEntries];
      Extend(agreed, id, trace, steps, ApplyReady, n4);
      trace, steps := trace + [n4], steps + [ApplyReady];
    }
  }

  /** A poll of an idle node, as node.rs performs it, is a run of the step machine:
      the same storage and store at the end, and the same bundle or the same failure. */
  lemma PollIsARunOfSteps(agreed: seq<Entry>, id: nat, n: Node, ready: Ready, raw1: Raw, light: LightReady, raw2: Raw)
    returns (trace: seq<Node>, steps: seq<Step>)
    requires n.phase.Idle?
    requires ReadyContract(n.raw, ready, raw1) && AdvanceContract(agreed, raw1, light, raw2)
    ensures IsTrace(agreed, id, trace, steps) && trace[0] == n
    ensures SameAnswers(n, trace[|steps|])
    ensures var (view, r) := Polled(id, n.view, Some(ready), light);
            var last := trace[|steps|];
            && last.view == view
            && last.phase == (if r.Ok? then Delivering(ready, light, r.value.value.messages, r.value.value.applied)
                              else Halted)
            && (r.Ok? ==> last.raw == raw2)
  {
    trace, steps := FirstPhaseTrace(agreed, id, n, ready, raw1);
    var n4 := trace[|steps|];
    if n4.phase.ReadyApplied? {
      var n5 := n4.(raw := raw2, phase := Acknowledged(ready, light, n4.phase.reports));
      var n6 := n5.(view := CommitWritten(n5.view, light.commit),
                    phase := CommitStored(ready, light, n5.phase.reports));
      var n7 := Apply(n6, light.committed,
                      Delivering(ready, light, ready.messages + ready.persistedMessages + light.messages,
                                 n6.phase.reports + Reports(id, light.committed)));
      Extend(agreed, id, trace, steps, Acknowledge(light), n5);
      trace, steps := trace + [n5], steps + [Acknowledge(light)];
      Extend(agreed, id, trace, steps, StoreCommit, n6);
      trace, steps := trace + [n6], steps + [StoreCommit];
      Extend(agreed, id, trace, steps, ApplyLight, n7);
      trace, steps := trace + [n7], steps + [ApplyLight];
    }
  }

  lemma {:induction false} DispatchTrace(agreed: seq<Entry>, id: nat, trace: seq<Node>, steps: seq<Step>)
    returns (trace': seq<Node>, steps': seq<Step>)
    requires IsTrace(agreed, id, trace, steps) && trace[|steps|].phase.Delivering?
    ensures IsTrace(agreed, id, trace', steps') && trace'[0] == trace[0]
    ensures var n := trace[|steps|];
            trace'[|steps'|] == n.(phase := Delivering(n.phase.ready, n.phase.light, [], n.phase.reports))
    decreases |trace[|steps|].phase.messages|
  {
    var n := trace[|steps|];
    if n.phase.messages == [] {
      trace', steps' := trace, steps;
    } else {
      var n' := n.(phase := Delivering(n.phase.ready, n.phase.light, n.phase.messages[1..], n.phase.reports));
      Extend(agreed, id, trace, steps, Dispatch, n');
      trace', steps' := DispatchTrace(agreed, id, trace + [n'], steps + [Dispatch]);
    }
  }

  /** One report handled. */
  function NotifiedOnce(n: Node): Node
    requires n.phase.Delivering? && n.phase.reports != []
  {
    var r := n.phase.reports[0];
    n.(book := Notify(n.book, r), notified := n.notified + [r], history := n.history + [NotifyOp(r)],
       seen := Record(n, r), phase := Delivering(n.phase.ready, n.phase.light, [], n.phase.reports[1..]))
  }

  lemma NotifyStep(agreed: seq<Entry>, id: nat, n: Node)
    requires n.phase.Delivering? && n.phase.messages == [] && n.phase.reports != []
    ensures NodeNext(agreed, id, n, NotifyPut, NotifiedOnce(n))
  {
  }

  /** All reports handled, and nothing else done. */
  ghost predicate AllNotified(n: Node, n': Node)
    requires n.phase.Delivering?
  {
    && n'.phase == Delivering(n.phase.ready, n.phase.light, [], []) && n'.view == n.view && n'.raw == n.raw
    && n'.book == NotifyAll(n.book, n.phase.reports)
    && n'.history == n.history + NotifyOps(n.phase.reports)
    && ValuesSeen(n'.seen) == ValuesSeen(n.seen)
  }

  lemma NotifiedFirst(n: Node, n': Node)
    requires n.phase.Delivering? && n.phase.reports != [] && AllNotified(NotifiedOnce(n), n')
    ensures AllNotified(n, n')
  {
    OkIsNoValue(n, n.phase.reports[0]);
    NotifyOpsSplit(n.history, n.phase.reports);
  }

  lemma {:induction false} NotifyTrace(agreed: seq<Entry>, id: nat, trace: seq<Node>, steps: seq<Step>)
    returns (trace': seq<Node>, steps': seq<Step>)
    requires IsTrace(agreed, id, trace, steps)
    requires trace[|steps|].phase.Delivering? && trace[|steps|].phase.messages == []
    ensures IsTrace(agreed, id, trace', steps') && trace'[0] == trace[0]
    ensures AllNotified(trace[|steps|], trace'[|steps'|])
    decreases |trace[|steps|].phase.reports|
  {
    var n := trace[|steps|];
    if n.phase.reports == [] {
      trace', steps' := trace, steps;
      NotifyOpsSplit(n.history, []);
    } else {
      NotifyStep(agreed, id, n);
      Extend(agreed, id, trace, steps, NotifyPut, NotifiedOnce(n));
      trace', steps' := NotifyTrace(agreed, id, trace + [NotifiedOnce(n)], steps + [NotifyPut]);
      NotifiedFirst(n, trace'[|steps'|]);
    }
  }

  /** The values that reads of the node returned, in order. */
  function ValuesSeen(seen: seq<Seen>): seq<Option<string>> {
    if seen == [] then [] else ValuesSeen(seen[..|seen| - 1]) + ValueOf(seen[|seen| - 1])
  }

  function ValueOf(s: Seen): seq<Option<string>> {
    if s.GetAnswer? then [s.value] else []
  }

  lemma ValuesMore(seen: seq<Seen>, s: Seen)
    ensures ValuesSeen(seen + [s]) == ValuesSeen(seen) + ValueOf(s)
  {
    assert (seen + [s])[..|seen|] == seen;
  }

  lemma OkIsNoValue(n: Node, r: ApplyReport)
    ensures ValuesSeen(Record(n, r)) == ValuesSeen(n.seen)
  {
    var i := FirstMatch(n.book.pending, r.key, r.value);
    if i < |n.book.pending| {
      ValuesMore(n.seen, PutOk(n.book.pending[i], r.index));
    }
  }

  /** The values that the worker replied to reads, in order. */
  function ValuesSent(replies: seq<Reply>): seq<Option<string>> {
    if replies == [] then [] else ValuesSent(replies[..|replies| - 1]) + ValueIn(replies[|replies| - 1])
  }

  function ValueIn(r: Reply): seq<Option<string>> {
    if r.ValueReply? then [r.value] else []
  }

  /** What the library does in one pass of the drain loop: its state after the Ready was
      handed out, after it was acknowledged, and after the messages to the node itself
      were stepped into it. */
  datatype Moves = Moves(taken: Raw, advanced: Raw, stepped: Raw)

  /** The batches are what a library that starts in `raw` hands out, one after the other. */
  ghost predicate HandsOut(agreed: seq<Entry>, raw: Raw, polls: seq<Poll>, moves: seq<Moves>)
    decreases |polls|
  {
    && |moves| == |polls|
    && (polls != [] ==>
          && ReadyContract(raw, polls[0].ready, moves[0].taken)
          && AdvanceContract(agreed, moves[0].taken, polls[0].light, moves[0].advanced)
          && LibraryMoves(agreed, moves[0].advanced, moves[0].stepped)
          && HandsOut(agreed, moves[0].stepped, polls[1..], moves[1..]))
  }

  lemma FirstIsHandedOut(agreed: seq<Entry>, raw: Raw, polls: seq<Poll>, moves: seq<Moves>)
    requires HandsOut(agreed, raw, polls, moves) && polls != []
    ensures HandsOut(agreed, raw, [polls[0]], [moves[0]])
  {
    assert [polls[0]][1..] == [] && [moves[0]][1..] == [];
    assert HandsOut(agreed, moves[0].stepped, [], []);
  }

  function RawAfter(raw: Raw, moves: seq<Moves>): Raw {
    if moves == [] then raw else moves[|moves| - 1].stepped
  }

  lemma RawAfterFirst(raw: Raw, moves: seq<Moves>)
    requires moves != []
    ensures RawAfter(moves[0].stepped, moves[1..]) == RawAfter(raw, moves)
  {
  }

  /** The node and the worker agree on storage, store, waiting puts and answers. */
  ghost predicate SameWorker(n: Node, w: WorkerState) {
    n.view == w.view && n.book == w.book && n.history == w.history && ValuesSeen(n.seen) == ValuesSent(w.replies)
  }

  /** The pass after a poll that succeeded: the library takes its own messages, all are
      dispatched, all reports are handled. */
  lemma DeliveryTrace(agreed: seq<Entry>, id: nat, trace: seq<Node>, steps: seq<Step>, raw: Raw)
    returns (trace': seq<Node>, steps': seq<Step>)
    requires IsTrace(agreed, id, trace, steps) && trace[|steps|].phase.Delivering?
    requires LibraryMoves(agreed, trace[|steps|].raw, raw)
    ensures IsTrace(agreed, id, trace', steps') && trace'[0] == trace[0]
    ensures var (n, n') := (trace[|steps|], trace'[|steps'|]);
            && n'.phase.Idle? && n'.view == n.view && n'.raw == raw
            && n'.book == NotifyAll(n.book, n.phase.reports)
            && n'.history == n.history + NotifyOps(n.phase.reports)
            && ValuesSeen(n'.seen) == ValuesSeen(n.seen)
  {
    var moved := trace[|steps|].(raw := raw);
    Extend(agreed, id, trace, steps, LibraryStep, moved);
    trace', steps' := DispatchTrace(agreed, id, trace + [moved], steps + [LibraryStep]);
    trace', steps' := NotifyTrace(agreed, id, trace', steps');
    var last := trace'[|steps'|].(phase := Idle);
    Extend(agreed, id, trace', steps', FinishBundle, last);
    trace', steps' := trace' + [last], steps' + [FinishBundle];
  }

  /** One pass of the drain loop, whether it succeeds or fails. */
  lemma PassIsARunOfSteps(agreed: seq<Entry>, id: nat, peers: set<nat>, n: Node, w: WorkerState, poll: Poll,
                          moves: Moves)
    returns (trace: seq<Node>, steps: seq<Step>)
    requires n.phase.Idle? && SameWorker(n, w) && HandsOut(agreed, n.raw, [poll], [moves])
    ensures IsTrace(agreed, id, trace, steps) && trace[0] == n
    ensures var ((w', o), last) := (Passed(id, peers, w, poll), trace[|steps|]);
            && SameWorker(last, w')
            && (if o.Running? then last.phase.Idle? && last.raw == moves.stepped else last.phase.Halted?)
  {
    trace, steps := PollIsARunOfSteps(agreed, id, n, poll.ready, moves.taken, poll.light, moves.advanced);
    var last := trace[|steps|];
    if last.phase.Delivering? {
      if AllTaken(id, last.phase.messages, poll.rejected) {
        trace, steps := DeliveryTrace(agreed, id, trace, steps, moves.stepped);
      } else {
        Extend(agreed, id, trace, steps, Halt, last.(phase := Halted));
        trace, steps := trace + [last.(phase := Halted)], steps + [Halt];
      }
    }
  }

  lemma JoinTraces(agreed: seq<Entry>, id: nat, a: seq<Node>, s: seq<Step>, b: seq<Node>, t: seq<Step>)
    requires IsTrace(agreed, id, a, s) && IsTrace(agreed, id, b, t) && b[0] == a[|s|]
    ensures IsTrace(agreed, id, a + b[1..], s + t)
    ensures (a + b[1..])[|s + t|] == b[|t|] && (a + b[1..])[0] == a[0]
  {
    var trace, steps := a + b[1..], s + t;
    forall i | 0 <= i < |steps|
      ensures NodeNext(agreed, id, trace[i], steps[i], trace[i + 1])
    {
      if i < |s| {
        assert NodeNext(agreed, id, a[i], s[i], a[i + 1]);
      } else {
        assert NodeNext(agreed, id, b[i - |s|], t[i - |s|], b[i - |s| + 1]);
      }
    }
  }

  /** The drain loop, over any batches that the library hands out and whether it ends well
      or fails, is a run of the step machine: it starts at an idle node and ends idle or
      halted, with the same storage and store, the same waiting puts and the same answers
      in the same order. */
  lemma {:induction false} DrainIsARunOfSteps(agreed: seq<Entry>, id: nat, peers: set<nat>, n: Node, w: WorkerState,
                                              polls: seq<Poll>, moves: seq<Moves>)
    returns (trace: seq<Node>, steps: seq<Step>)
    requires n.phase.Idle? && SameWorker(n, w) && HandsOut(agreed, n.raw, polls, moves)
    ensures IsTrace(agreed, id, trace, steps) && trace[0] == n
    ensures var ((w', o), last) := (Drained(id, peers, w, polls), trace[|steps|]);
            && SameWorker(last, w')
            && (if o.Running? then last.phase.Idle? && last.raw == RawAfter(n.raw, moves) else last.phase.Halted?)
    decreases |polls|
  {
    if polls == [] {
      trace, steps := [n], [];
    } else {
      FirstIsHandedOut(agreed, n.raw, polls, moves);
      trace, steps := PassIsARunOfSteps(agreed, id, peers, n, w, polls[0], moves[0]);
      var (w1, o) := Passed(id, peers, w, polls[0]);
      if o.Running? {
        RawAfterFirst(n.raw, moves);
        var more, steps' := DrainIsARunOfSteps(agreed, id, peers, trace[|steps|], w1, polls[1..], moves[1..]);
        JoinTraces(agreed, id, trace, steps, more, steps');
        trace, steps := trace + more[1..], steps + steps';
      }
    }
  }

  // ---------- The event loop ----------

  /** What the library does in one turn: its state after the event, and in the drain. */
  datatype TurnMoves = TurnMoves(arrival: Raw, drain: seq<Moves>)

  ghost predicate TurnHandsOut(agreed: seq<Entry>, raw: Raw, t: Turn, m: TurnMoves) {
    LibraryMoves(agreed, raw, m.arrival) && HandsOut(agreed, m.arrival, t.polls, m.drain)
  }

  function RawAfterTurn(m: TurnMoves): Raw {
    RawAfter(m.arrival, m.drain)
  }

  /** The turns deal out what a library that starts in `raw` does. */
  ghost predicate LoopHandsOut(agreed: seq<Entry>, raw: Raw, turns: seq<Turn>, moves: seq<TurnMoves>)
    decreases |turns|
  {
    && |moves| == |turns|
    && (turns != [] && Drains(turns[0]) ==>
          && TurnHandsOut(agreed, raw, turns[0], moves[0])
          && LoopHandsOut(agreed, RawAfterTurn(moves[0]), turns[1..], moves[1..]))
  }

  /** Each put request comes with a channel of its own. */
  ghost predicate FreshClients(known: seq<nat>, turns: seq<Turn>)
    decreases |turns|
  {
    turns != [] ==>
      && (forall c :: c in PutClient(turns[0]) ==> c !in known)
      && FreshClients(known + PutClient(turns[0]), turns[1..])
  }

  lemma PutTrace(agreed: seq<Entry>, id: nat, n: Node, w: WorkerState, t: Turn) returns (n': Node)
    requires n.phase.Idle? && SameWorker(n, w) && t.event.ClientEvent? && t.event.req.PutRequest?
    requires t.event.req.client !in Requested(n.history)
    ensures NodeNext(agreed, id, n, ReceivePut(t.event.req, t.lib), n')
    ensures SameWorker(n', Handled(id, w, t.event.req, t.lib).0) && n'.phase.Idle? && n'.raw == n.raw
  {
    var h := PutHandled(AsWorker(n), t.event.req, t.lib);
    n' := n.(book := h.book, history := h.history);
  }

  lemma GetTrace(agreed: seq<Entry>, id: nat, n: Node, w: WorkerState, t: Turn) returns (n': Node)
    requires n.phase.Idle? && SameWorker(n, w) && t.event.ClientEvent? && t.event.req.GetRequest?
    ensures NodeNext(agreed, id, n, ReceiveGet(t.event.req.key), n')
    ensures SameWorker(n', Handled(id, w, t.event.req, t.lib).0) && n'.phase.Idle? && n'.raw == n.raw
  {
    var w' := Handled(id, w, t.event.req, t.lib).0;
    n' := n.(seen := n.seen + [GetAnswer(t.event.req.key, Lookup(n.view.store, t.event.req.key), n.applied)]);
    ValuesMore(n.seen, n'.seen[|n.seen|]);
    assert w'.replies[..|w.replies|] == w.replies;
  }

  lemma OtherRequestIsSame(id: nat, n: Node, w: WorkerState, req: Request, lib: Library)
    requires SameWorker(n, w) && !req.PutRequest? && !req.GetRequest?
    ensures SameWorker(n, Handled(id, w, req, lib).0)
  {
    var w' := Handled(id, w, req, lib).0;
    if w' != w {
      assert w'.replies[..|w.replies|] == w.replies;
    }
  }

  /** The event of a turn that goes on to drain, and what the library makes of it. */
  lemma EventTrace(agreed: seq<Entry>, id: nat, n: Node, w: WorkerState, t: Turn, raw: Raw)
    returns (trace: seq<Node>, steps: seq<Step>, w1: WorkerState)
    requires n.phase.Idle? && SameWorker(n, w) && Drains(t) && LibraryMoves(agreed, n.raw, raw)
    requires forall c :: c in PutClient(t) ==> c !in Requested(n.history)
    ensures w1 == if t.event.ClientEvent? then Handled(id, w, t.event.req, t.lib).0 else w
    ensures IsTrace(agreed, id, trace, steps) && trace[0] == n
    ensures var last := trace[|steps|];
            SameWorker(last, w1) && last.phase.Idle? && last.raw == raw
  {
    trace, steps, w1 := [n], [], w;
    if t.event.ClientEvent? {
      w1 := Handled(id, w, t.event.req, t.lib).0;
      if t.event.req.PutRequest? {
        assert t.event.req.client in PutClient(t);
        var n' := PutTrace(agreed, id, n, w, t);
        Extend(agreed, id, trace, steps, ReceivePut(t.event.req, t.lib), n');
        trace, steps := trace + [n'], steps + [ReceivePut(t.event.req, t.lib)];
      } else if t.event.req.GetRequest? {
        var n' := GetTrace(agreed, id, n, w, t);
        Extend(agreed, id, trace, steps, ReceiveGet(t.event.req.key), n');
        trace, steps := trace + [n'], steps + [ReceiveGet(t.event.req.key)];
      } else {
        OtherRequestIsSame(id, n, w, t.event.req, t.lib);
      }
    }
    var moved := trace[|steps|].(raw := raw);
    Extend(agreed, id, trace, steps, LibraryStep, moved);
    trace, steps := trace + [moved], steps + [LibraryStep];
  }

  /** A turn that drains is its event and then the drain; another turn ends the loop. */
  lemma TurnedAsDrained(id: nat, peers: set<nat>, w: WorkerState, t: Turn)
    ensures Drains(t) ==>
              var w1 := if t.event.ClientEvent? then Handled(id, w, t.event.req, t.lib).0 else w;
              Turned(id, peers, w, t) == Drained(id, peers, w1, t.polls)
    ensures !Drains(t) ==> Turned(id, peers, w, t).0 == w && !Turned(id, peers, w, t).1.Running?
  {
  }

  /** A turn of the event loop is a run of the step machine. */
  lemma TurnIsARunOfSteps(agreed: seq<Entry>, id: nat, peers: set<nat>, n: Node, w: WorkerState, t: Turn, m: TurnMoves)
    returns (trace: seq<Node>, steps: seq<Step>)
    requires n.phase.Idle? && SameWorker(n, w) && (Drains(t) ==> TurnHandsOut(agreed, n.raw, t, m))
    requires forall c :: c in PutClient(t) ==> c !in Requested(n.history)
    ensures IsTrace(agreed, id, trace, steps) && trace[0] == n
    ensures var ((w', o), last) := (Turned(id, peers, w, t), trace[|steps|]);
            && SameWorker(last, w')
            && (if o.Running? then last.phase.Idle? && last.raw == RawAfterTurn(m) else last.phase.Halted?)
  {
    TurnedAsDrained(id, peers, w, t);
    if Drains(t) {
      var w1;
      trace, steps, w1 := EventTrace(agreed, id, n, w, t, m.arrival);
      var more, steps' := DrainIsARunOfSteps(agreed, id, peers, trace[|steps|], w1, t.polls, m.drain);
      JoinTraces(agreed, id, trace, steps, more, steps');
      trace, steps := trace + more[1..], steps + steps';
    } else {
      trace, steps := [n, n.(phase := Halted)], [Halt];
    }
  }

  lemma TurnAddsClient(id: nat, peers: set<nat>, w: WorkerState, t: Turn)
    ensures Requested(Turned(id, peers, w, t).0.history) == Requested(w.history) + PutClient(t)
  {
    var m, d := TurnTells(id, peers, w, t);
    RequestedInParts(w.history, TurnOps(id, t, m));
    TurnOpsParts(id, t, m);
  }

  /** The event loop, over any turns in which the library keeps its contract and each put
      has a channel of its own, is a run of the step machine: at its end, still running or
      not, storage and store, waiting puts, Oks and the values read are the worker's. */
  lemma {:induction false} LoopIsARunOfSteps(agreed: seq<Entry>, id: nat, peers: set<nat>, n: Node, w: WorkerState,
                                             turns: seq<Turn>, moves: seq<TurnMoves>)
    returns (trace: seq<Node>, steps: seq<Step>)
    requires n.phase.Idle? && SameWorker(n, w) && LoopHandsOut(agreed, n.raw, turns, moves)
    requires FreshClients(Requested(w.history), turns)
    ensures IsTrace(agreed, id, trace, steps) && trace[0] == n
    ensures var ((w', o), last) := (Ran(id, peers, w, turns), trace[|steps|]);
            SameWorker(last, w') && (if o.Running? then last.phase.Idle? else last.phase.Halted?)
    decreases |turns|
  {
    if turns == [] {
      trace, steps := [n], [];
    } else {
      trace, steps := TurnIsARunOfSteps(agreed, id, peers, n, w, turns[0], moves[0]);
      var (w1, o) := Turned(id, peers, w, turns[0]);
      if o.Running? {
        TurnAddsClient(id, peers, w, turns[0]);
        var more, steps' := LoopIsARunOfSteps(agreed, id, peers, trace[|steps|], w1, turns[1..], moves[1..]);
        JoinTraces(agreed, id, trace, steps, more, steps');
        trace, steps := trace + more[1..], steps + steps';
      }
    }
  }

  // ---------- In the cluster ----------

  lemma OneMoreStep(run: seq<Cluster>, actions: seq<Action>, a: Action, c: Cluster)
    requires IsRun(run, actions) && Next(run[|actions|], a, c)
    ensures IsRun(run + [c], actions + [a])
  {
    forall i | 0 <= i < |actions + [a]|
      ensures StepAt(run + [c], actions + [a], i)
    {
      if i < |actions| {
        assert StepAt(run, actions, i);
      }
    }
  }

  /** What one node does by itself can happen in the cluster: a trace of a node extends
      any run that ends where the trace begins. */
  lemma {:induction false} TraceExtendsRun(run: seq<Cluster>, actions: seq<Action>, id: nat, trace: seq<Node>,
                                           steps: seq<Step>)
    returns (run': seq<Cluster>, actions': seq<Action>)
    requires IsRun(run, actions) && id < |run[|actions|].nodes|
    requires IsTrace(run[|actions|].agreed, id, trace, steps) && trace[0] == run[|actions|].nodes[id]
    ensures IsRun(run', actions')
    ensures var c := run[|actions|];
            run'[|actions'|] == c.(nodes := c.nodes[id := trace[|steps|]])
    decreases |steps|
  {
    if steps == [] {
      run', actions' := run, actions;
    } else {
      var n := |steps| - 1;
      run', actions' := TraceExtendsRun(run, actions, id, trace[..n + 1], steps[..n]);
      var c := run'[|actions'|];
      var c' := c.(nodes := c.nodes[id := trace[n + 1]]);
      assert NodeNext(c.agreed, id, trace[n], steps[n], trace[n + 1]);
      OneMoreStep(run', actions', NodeStep(id, steps[n]), c');
      run', actions' := run' + [c'], actions' + [NodeStep(id, steps[n])];
    }
  }
}
