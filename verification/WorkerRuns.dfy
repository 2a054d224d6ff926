/** What holds of the answers to puts in every run of the worker. */
module WorkerRuns {
  import opened Basics
  import opened RaftLog
  import opened RaftNodes
  import opened PendingPuts
  import opened Workers
  import opened WorkerMessages
  import opened AckSimulation

  function Started(view: NodeView): WorkerState {
    WorkerState(view, EMPTY_BOOK, [], [], [])
  }

  /** The book is what the history of operations makes of it. */
  ghost predicate Explained(w: WorkerState) {
    w.book == Performed(w.history)
  }

  lemma PassExplained(id: nat, peers: set<nat>, w: WorkerState, poll: Poll)
    requires Explained(w)
    ensures var w' := Passed(id, peers, w, poll).0;
            Explained(w') && w.history <= w'.history
  {
    var r := Polled(id, w.view, Some(poll.ready), poll.light).1;
    if r.Ok? {
      NotifyingAll(w.history, w.book, r.value.value.applied);
    }
  }

  lemma {:induction false} DrainExplained(id: nat, peers: set<nat>, w: WorkerState, polls: seq<Poll>)
    requires Explained(w)
    ensures var w' := Drained(id, peers, w, polls).0;
            Explained(w') && w.history <= w'.history
    decreases |polls|
  {
    if polls != [] {
      PassExplained(id, peers, w, polls[0]);
      var (w1, o) := Passed(id, peers, w, polls[0]);
      if o.Running? {
        DrainExplained(id, peers, w1, polls[1..]);
      }
    }
  }

  lemma HandleExplained(id: nat, w: WorkerState, req: Request, lib: Library)
    requires Explained(w)
    ensures var w' := Handled(id, w, req, lib).0;
            Explained(w') && w.history <= w'.history
  {
    if req.PutRequest? {
      var op := PutOutcome(req, lib);
      assert (w.history + [op])[..|w.history|] == w.history;
    }
  }

  lemma Grows<T>(a: seq<T>, b: seq<T>, c: seq<T>)
    requires a <= b <= c
    ensures a <= c
  {
  }

  lemma TurnExplained(id: nat, peers: set<nat>, w: WorkerState, t: Turn)
    requires Explained(w)
    ensures var w' := Turned(id, peers, w, t).0;
            Explained(w') && w.history <= w'.history
  {
    if t.event.ClientEvent? {
      var w1 := Handled(id, w, t.event.req, t.lib).0;
      HandleExplained(id, w, t.event.req, t.lib);
      DrainExplained(id, peers, w1, t.polls);
      Grows(w.history, w1.history, Drained(id, peers, w1, t.polls).0.history);
    } else {
      DrainExplained(id, peers, w, t.polls);
    }
  }

  /** However a run goes, the put table is what its history makes of it, and the history
      only grows. */
  lemma {:induction false} RunExplained(id: nat, peers: set<nat>, w: WorkerState, turns: seq<Turn>)
    requires Explained(w)
    ensures var w' := Ran(id, peers, w, turns).0;
            Explained(w') && w.history <= w'.history
    decreases |turns|
  {
    if turns != [] {
      TurnExplained(id, peers, w, turns[0]);
      var (w1, o) := Turned(id, peers, w, turns[0]);
      if o.Running? {
        RunExplained(id, peers, w1, turns[1..]);
      }
    }
  }

  // ---------- What the turns deal out ----------

  /** The operation that a put request comes to. */
  function PutOps(t: Turn): seq<Op> {
    if t.event.ClientEvent? && t.event.req.PutRequest? then [PutOutcome(t.event.req, t.lib)] else []
  }

  /** The reports of the entries that these batches hand out. */
  function DealtReports(id: nat, polls: seq<Poll>): seq<ApplyReport> {
    if polls == [] then [] else Reports(id, BatchEntries(polls[0])) + DealtReports(id, polls[1..])
  }

  /** What a turn does to the table when its first m batches are delivered. */
  function TurnOps(id: nat, t: Turn, m: nat): seq<Op>
    requires m <= |t.polls|
  {
    PutOps(t) + NotifyOps(DealtReports(id, t.polls[..m]))
  }

  function Dealt(id: nat, turns: seq<Turn>): seq<Op> {
    if turns == [] then [] else TurnOps(id, turns[0], |turns[0].polls|) + Dealt(id, turns[1..])
  }

  /** The clients whose put requests arrive in these turns, in order. */
  function PutClients(turns: seq<Turn>): seq<nat> {
    if turns == [] then []
    else PutClient(turns[0]) + PutClients(turns[1..])
  }

  function PutClient(t: Turn): seq<nat> {
    if t.event.ClientEvent? && t.event.req.PutRequest? then [t.event.req.client] else []
  }

  /** The puts in these turns that arrive at a leader whose library takes them, in order. */
  function TakenPuts(turns: seq<Turn>): seq<PendingPut> {
    if turns == [] then [] else TakenPut(turns[0]) + TakenPuts(turns[1..])
  }

  function TakenPut(t: Turn): seq<PendingPut> {
    if t.event.ClientEvent? && t.event.req.PutRequest? && t.lib.role.Leader? && t.lib.proposeOk
    then [PendingPut(t.event.req.client, t.event.req.key, t.event.req.value)]
    else []
  }

  /** The reports of all batches of these turns, in order. */
  function TurnReports(id: nat, turns: seq<Turn>): seq<ApplyReport> {
    if turns == [] then [] else DealtReports(id, turns[0].polls) + TurnReports(id, turns[1..])
  }

  /** The messages of these batches, in order. */
  function DealtMessages(polls: seq<Poll>): seq<Message> {
    if polls == [] then [] else BatchMessages(polls[0]) + DealtMessages(polls[1..])
  }

  /** The messages of the first m batches, and d of the next. */
  function DealtUpTo(polls: seq<Poll>, m: nat, d: nat): seq<Message>
    requires m <= |polls| && (d > 0 ==> m < |polls| && d <= |BatchMessages(polls[m])|)
  {
    DealtMessages(polls[..m]) + if d > 0 then BatchMessages(polls[m])[..d] else []
  }

  /** The turns in which the event loop goes on to drain. */
  predicate Drains(t: Turn) {
    match t.event
    case ClientEvent(req) => !req.Shutdown?
    case NetworkEvent(taken) => taken
    case Timeout => true
    case _ => false
  }

  ghost predicate AllGoThrough(id: nat, polls: seq<Poll>) {
    forall b :: 0 <= b < |polls| ==> GoesThrough(id, polls[b])
  }

  /** A drain ends with outcome o after m whole batches and d messages of the next. */
  ghost predicate DrainEnds(id: nat, polls: seq<Poll>, m: nat, d: nat, o: Outcome) {
    && m <= |polls| && AllGoThrough(id, polls[..m])
    && if o.Running? then m == |polls| && d == 0
       else
         && o.Crashed? && m < |polls| && d <= |BatchMessages(polls[m])|
         && FailsAfter(id, polls[m], d, o.error)
  }

  lemma DealtFirst(polls: seq<Poll>, m: nat, d: nat)
    requires 0 < m <= |polls| && (d > 0 ==> m < |polls| && d <= |BatchMessages(polls[m])|)
    ensures DealtUpTo(polls, m, d) == BatchMessages(polls[0]) + DealtUpTo(polls[1..], m - 1, d)
  {
    assert polls[..m][1..] == polls[1..][..m - 1];
    Regroup(BatchMessages(polls[0]), DealtMessages(polls[1..][..m - 1]),
            if d > 0 then BatchMessages(polls[m])[..d] else []);
  }

  lemma DealtNone(polls: seq<Poll>, d: nat)
    requires d > 0 ==> polls != [] && d <= |BatchMessages(polls[0])|
    ensures DealtUpTo(polls, 0, d) == if d > 0 then BatchMessages(polls[0])[..d] else []
  {
    assert polls[..0] == [];
  }

  lemma EndsLater(id: nat, polls: seq<Poll>, m: nat, d: nat, o: Outcome)
    requires polls != [] && GoesThrough(id, polls[0]) && DrainEnds(id, polls[1..], m, d, o)
    ensures DrainEnds(id, polls, m + 1, d, o)
  {
    var whole, later := polls[..m + 1], polls[1..][..m];
    forall b | 0 <= b < |whole|
      ensures GoesThrough(id, whole[b])
    {
      assert b > 0 ==> whole[b] == later[b - 1];
    }
  }

  /** `after` follows from `before` by m whole batches and d messages of the next. */
  ghost predicate DrainedBy(id: nat, peers: set<nat>, before: WorkerState, after: WorkerState, polls: seq<Poll>, m: nat,
                            d: nat)
    requires m <= |polls| && (d > 0 ==> m < |polls| && d <= |BatchMessages(polls[m])|)
  {
    && after.history == before.history + NotifyOps(DealtReports(id, polls[..m]))
    && Emits(id, peers, DealtUpTo(polls, m, d), before.sent, after.sent)
    && after.replies == before.replies
  }

  lemma DrainedByNone(id: nat, peers: set<nat>, w: WorkerState, after: WorkerState, polls: seq<Poll>, d: nat)
    requires d > 0 ==> polls != [] && d <= |BatchMessages(polls[0])|
    requires after.history == w.history && after.replies == w.replies
    requires Emits(id, peers, if d > 0 then BatchMessages(polls[0])[..d] else [], w.sent, after.sent)
    ensures DrainedBy(id, peers, w, after, polls, 0, d)
  {
    DealtNone(polls, d);
    assert polls[..0] == [];
    assert w.history + NotifyOps([]) == w.history;
  }

  lemma DrainGoesOn(id: nat, peers: set<nat>, w: WorkerState, w1: WorkerState, after: WorkerState, polls: seq<Poll>,
                    m: nat, d: nat)
    requires 0 < m <= |polls| && (d > 0 ==> m < |polls| && d <= |BatchMessages(polls[m])|)
    requires w1.history == w.history + NotifyOps(Reports(id, BatchEntries(polls[0]))) && w1.replies == w.replies
    requires Emits(id, peers, BatchMessages(polls[0]), w.sent, w1.sent)
    requires DrainedBy(id, peers, w1, after, polls[1..], m - 1, d)
    ensures DrainedBy(id, peers, w, after, polls, m, d)
  {
    DealtFirst(polls, m, d);
    EmitsMore(id, peers, BatchMessages(polls[0]), DealtUpTo(polls[1..], m - 1, d), w.sent, w1.sent, after.sent);
    ReportsFirst(id, polls, m, w.history);
  }

  lemma WholeBatch(p: Poll)
    ensures BatchMessages(p)[..|BatchMessages(p)|] == BatchMessages(p) && BatchMessages(p)[..0] == []
  {
  }

  /** What a drain does, told in terms of its batches: it ends as they say, handles the
      reports of the whole ones, and sends the messages for known peers among those it
      dispatched. */
  lemma {:induction false} DrainTells(id: nat, peers: set<nat>, w: WorkerState, polls: seq<Poll>)
    returns (m: nat, d: nat)
    ensures var (w', o) := Drained(id, peers, w, polls);
            DrainEnds(id, polls, m, d, o) && DrainedBy(id, peers, w, w', polls, m, d)
    decreases |polls|
  {
    m, d := 0, 0;
    EmitsNothing(id, peers, w.sent);
    if polls == [] {
      DrainedByNone(id, peers, w, w, polls, 0);
    } else {
      d := PassTells(id, peers, w, polls[0]);
      WholeBatch(polls[0]);
      var (w1, o) := Passed(id, peers, w, polls[0]);
      if o.Running? {
        var (w', o') := Drained(id, peers, w1, polls[1..]);
        var rest;
        rest, d := DrainTells(id, peers, w1, polls[1..]);
        m := rest + 1;
        EndsLater(id, polls, rest, d, o');
        DrainGoesOn(id, peers, w, w1, w', polls, m, d);
      } else {
        DrainedByNone(id, peers, w, w1, polls, d);
      }
    }
  }

  lemma ReportsFirst(id: nat, polls: seq<Poll>, m: nat, before: seq<Op>)
    requires 0 < m <= |polls|
    ensures before + NotifyOps(Reports(id, BatchEntries(polls[0]))) + NotifyOps(DealtReports(id,
                                                                                             polls[1..][..m - 1])) ==
            before + NotifyOps(DealtReports(id, polls[..m]))
  {
    assert polls[..m][1..] == polls[1..][..m - 1];
    NotifyOpsInParts(Reports(id, BatchEntries(polls[0])), DealtReports(id, polls[1..][..m - 1]), before);
  }

  lemma NotifyOpsInParts(a: seq<ApplyReport>, b: seq<ApplyReport>, before: seq<Op>)
    ensures before + NotifyOps(a) + NotifyOps(b) == before + NotifyOps(a + b)
  {
    assert NotifyOps(a) + NotifyOps(b) == NotifyOps(a + b);
  }

  lemma NoBatches(id: nat, t: Turn)
    ensures TurnOps(id, t, 0) == PutOps(t)
  {
    assert t.polls[..0] == [];
    assert PutOps(t) + NotifyOps([]) == PutOps(t);
  }

  lemma DrainedTurn(id: nat, peers: set<nat>, before: seq<Op>, w: WorkerState, t: Turn) returns (m: nat, d: nat)
    requires w.history == before + PutOps(t)
    ensures var (w', o) := Drained(id, peers, w, t.polls);
            && DrainEnds(id, t.polls, m, d, o)
            && w'.history == before + TurnOps(id, t, m)
            && Emits(id, peers, DealtUpTo(t.polls, m, d), w.sent, w'.sent)
            && w'.replies == w.replies
  {
    m, d := DrainTells(id, peers, w, t.polls);
    Regroup(before, PutOps(t), NotifyOps(DealtReports(id, t.polls[..m])));
  }

  lemma HandledHistory(id: nat, w: WorkerState, t: Turn)
    requires t.event.ClientEvent?
    ensures var (w1, go) := Handled(id, w, t.event.req, t.lib);
            w1.history == w.history + PutOps(t) && w1.sent == w.sent && (go <==> !t.event.req.Shutdown?)
  {
    assert w.history + [] == w.history;
  }

  /** A turn ends with outcome o after m whole batches and d messages of the next. A turn
      that does not drain ends the loop: a message from a peer that the library rejects
      with a failure, shutdown and closed channels without. */
  ghost predicate TurnEnds(id: nat, t: Turn, m: nat, d: nat, o: Outcome) {
    if Drains(t) then DrainEnds(id, t.polls, m, d, o)
    else m == 0 && d == 0 && o == if t.event.NetworkEvent? then Crashed(StepFailed) else Stopped
  }

  lemma TurnTells(id: nat, peers: set<nat>, w: WorkerState, t: Turn) returns (m: nat, d: nat)
    ensures var (w', o) := Turned(id, peers, w, t);
            && TurnEnds(id, t, m, d, o)
            && w'.history == w.history + TurnOps(id, t, m)
            && Emits(id, peers, DealtUpTo(t.polls, m, d), w.sent, w'.sent)
  {
    m, d := 0, 0;
    NoBatches(id, t);
    DealtNone(t.polls, 0);
    EmitsNothing(id, peers, w.sent);
    assert w.history + [] == w.history;
    match t.event
    case ClientEvent(req) =>
      HandledHistory(id, w, t);
      var (w1, go) := Handled(id, w, req, t.lib);
      if go {
        m, d := DrainedTurn(id, peers, w.history, w1, t);
      }
    case ClientsGone =>
    case NetworkEvent(taken) =>
      if taken {
        m, d := DrainedTurn(id, peers, w.history, w, t);
      }
    case NetworkGone =>
    case Timeout => m, d := DrainedTurn(id, peers, w.history, w, t);
  }

  /** The messages of all batches of these turns, in order. */
  function TurnMessages(turns: seq<Turn>): seq<Message> {
    if turns == [] then [] else DealtMessages(turns[0].polls) + TurnMessages(turns[1..])
  }

  lemma WholeTurn(id: nat, t: Turn, m: nat, d: nat)
    requires TurnEnds(id, t, m, d, Running)
    ensures Drains(t) && AllGoThrough(id, t.polls) && m == |t.polls| && d == 0
    ensures DealtUpTo(t.polls, m, d) == DealtMessages(t.polls)
  {
    assert t.polls[..m] == t.polls;
    assert DealtMessages(t.polls) + [] == DealtMessages(t.polls);
  }

  /** Each of these turns drains, and all its batches go through. */
  ghost predicate GoThrough(id: nat, turns: seq<Turn>) {
    forall j :: 0 <= j < |turns| ==> Drains(turns[j]) && AllGoThrough(id, turns[j].polls)
  }

  /** A run ends with outcome o: after all its turns, or in turn n, after m whole batches
      and d messages of the next, when everything before went through. */
  ghost predicate RunEnds(id: nat, turns: seq<Turn>, n: nat, m: nat, d: nat, o: Outcome) {
    && n <= |turns| && GoThrough(id, turns[..n])
    && if o.Running? then n == |turns| && m == 0 && d == 0
       else n < |turns| && m <= |turns[n].polls| && TurnEnds(id, turns[n], m, d, o)
  }

  lemma RunEndsLater(id: nat, turns: seq<Turn>, n: nat, m: nat, d: nat, o: Outcome)
    requires turns != [] && Drains(turns[0]) && AllGoThrough(id, turns[0].polls) && RunEnds(id, turns[1..], n, m, d, o)
    ensures RunEnds(id, turns, n + 1, m, d, o)
  {
    var whole, later := turns[..n + 1], turns[1..][..n];
    forall j | 0 <= j < |whole|
      ensures Drains(whole[j]) && AllGoThrough(id, whole[j].polls)
    {
      assert j > 0 ==> whole[j] == later[j - 1];
    }
  }

  /** The operations of the first n turns, and those of the next up to its m-th batch. */
  function DealtOps(id: nat, turns: seq<Turn>, n: nat, m: nat): seq<Op>
    requires n <= |turns| && (n < |turns| ==> m <= |turns[n].polls|)
  {
    Dealt(id, turns[..n]) + if n < |turns| then TurnOps(id, turns[n], m) else []
  }

  /** The messages dispatched in the first n turns, in m batches of the next, and d of the
      batch after those. */
  function Dispatched(turns: seq<Turn>, n: nat, m: nat, d: nat): seq<Message>
    requires n <= |turns| && (n < |turns| ==> m <= |turns[n].polls|)
    requires n < |turns| && d > 0 ==> m < |turns[n].polls| && d <= |BatchMessages(turns[n].polls[m])|
  {
    TurnMessages(turns[..n]) + if n < |turns| then DealtUpTo(turns[n].polls, m, d) else []
  }

  lemma DealtOpsFirst(id: nat, turns: seq<Turn>, n: nat, m: nat, before: seq<Op>)
    requires 0 < n <= |turns| && (n < |turns| ==> m <= |turns[n].polls|)
    ensures before + TurnOps(id, turns[0], |turns[0].polls|) + DealtOps(id, turns[1..], n - 1, m) ==
            before + DealtOps(id, turns, n, m)
  {
    DealtSplit(id, turns, n);
    var rest := if n < |turns| then TurnOps(id, turns[n], m) else [];
    Regroup(TurnOps(id, turns[0], |turns[0].polls|), Dealt(id, turns[1..][..n - 1]), rest);
    Regroup(before, TurnOps(id, turns[0], |turns[0].polls|), DealtOps(id, turns[1..], n - 1, m));
  }

  lemma DispatchedFirst(turns: seq<Turn>, n: nat, m: nat, d: nat)
    requires 0 < n <= |turns| && (n < |turns| ==> m <= |turns[n].polls|)
    requires n < |turns| && d > 0 ==> m < |turns[n].polls| && d <= |BatchMessages(turns[n].polls[m])|
    ensures Dispatched(turns, n, m, d) == DealtMessages(turns[0].polls) + Dispatched(turns[1..], n - 1, m, d)
  {
    assert turns[..n][1..] == turns[1..][..n - 1];
    Regroup(DealtMessages(turns[0].polls), TurnMessages(turns[1..][..n - 1]),
            if n < |turns| then DealtUpTo(turns[n].polls, m, d) else []);
  }

  lemma DealtInNone(id: nat, turns: seq<Turn>, m: nat, d: nat)
    requires turns != [] ==> m <= |turns[0].polls|
    requires turns != [] && d > 0 ==> m < |turns[0].polls| && d <= |BatchMessages(turns[0].polls[m])|
    ensures DealtOps(id, turns, 0, m) == if turns == [] then [] else TurnOps(id, turns[0], m)
    ensures Dispatched(turns, 0, m, d) == if turns == [] then [] else DealtUpTo(turns[0].polls, m, d)
  {
    assert turns[..0] == [];
  }

  /** `after` follows from `before` by n whole turns, m batches of the next and d messages
      of the batch after those. */
  ghost predicate RanBy(id: nat, peers: set<nat>, before: WorkerState, after: WorkerState, turns: seq<Turn>, n: nat,
                        m: nat, d: nat)
    requires n <= |turns| && (n < |turns| ==> m <= |turns[n].polls|)
    requires n < |turns| && d > 0 ==> m < |turns[n].polls| && d <= |BatchMessages(turns[n].polls[m])|
  {
    && after.history == before.history + DealtOps(id, turns, n, m)
    && Emits(id, peers, Dispatched(turns, n, m, d), before.sent, after.sent)
  }

  lemma RunGoesOn(id: nat, peers: set<nat>, w: WorkerState, w1: WorkerState, after: WorkerState, turns: seq<Turn>,
                  n: nat, m: nat, d: nat)
    requires 0 < n <= |turns| && (n < |turns| ==> m <= |turns[n].polls|)
    requires n < |turns| && d > 0 ==> m < |turns[n].polls| && d <= |BatchMessages(turns[n].polls[m])|
    requires w1.history == w.history + TurnOps(id, turns[0], |turns[0].polls|)
    requires Emits(id, peers, DealtMessages(turns[0].polls), w.sent, w1.sent)
    requires RanBy(id, peers, w1, after, turns[1..], n - 1, m, d)
    ensures RanBy(id, peers, w, after, turns, n, m, d)
  {
    DealtOpsFirst(id, turns, n, m, w.history);
    DispatchedFirst(turns, n, m, d);
    EmitsMore(id, peers, DealtMessages(turns[0].polls), Dispatched(turns[1..], n - 1, m, d), w.sent, w1.sent,
              after.sent);
  }

  lemma RanByNone(id: nat, peers: set<nat>, w: WorkerState, after: WorkerState, turns: seq<Turn>, m: nat, d: nat)
    requires turns != [] ==> m <= |turns[0].polls|
    requires turns != [] && d > 0 ==> m < |turns[0].polls| && d <= |BatchMessages(turns[0].polls[m])|
    requires if turns == [] then after == w
             else
               && after.history == w.history + TurnOps(id, turns[0], m)
               && Emits(id, peers, DealtUpTo(turns[0].polls, m, d), w.sent, after.sent)
    ensures RanBy(id, peers, w, after, turns, 0, m, d)
  {
    DealtInNone(id, turns, m, d);
    EmitsNothing(id, peers, w.sent);
    NothingMore(w.history);
  }

  /** What a run does, told in terms of its turns: how far it gets, that its record is what
      these turns deal out, in order and complete, and that it sends exactly the messages
      for known peers among those it dispatched. */
  lemma {:induction false} RunTells(id: nat, peers: set<nat>, w: WorkerState, turns: seq<Turn>)
    returns (n: nat, m: nat, d: nat)
    ensures var (w', o) := Ran(id, peers, w, turns);
            RunEnds(id, turns, n, m, d, o) && RanBy(id, peers, w, w', turns, n, m, d)
    decreases |turns|
  {
    n, m, d := 0, 0, 0;
    if turns == [] {
      RanByNone(id, peers, w, w, turns, 0, 0);
    } else {
      m, d := TurnTells(id, peers, w, turns[0]);
      var (w1, o) := Turned(id, peers, w, turns[0]);
      if o.Running? {
        var (w', o') := Ran(id, peers, w1, turns[1..]);
        WholeTurn(id, turns[0], m, d);
        var rest;
        rest, m, d := RunTells(id, peers, w1, turns[1..]);
        n := rest + 1;
        RunEndsLater(id, turns, rest, m, d, o');
        RunGoesOn(id, peers, w, w1, w', turns, n, m, d);
      } else {
        RanByNone(id, peers, w, w1, turns, m, d);
      }
    }
  }

  lemma DealtSplit(id: nat, turns: seq<Turn>, n: nat)
    requires 0 < n <= |turns|
    ensures Dealt(id, turns[..n]) == TurnOps(id, turns[0], |turns[0].polls|) + Dealt(id, turns[1..][..n - 1])
  {
    assert turns[..n][1..] == turns[1..][..n - 1];
  }

  lemma PutOpsParts(t: Turn)
    ensures Requested(PutOps(t)) == PutClient(t) && AcceptedIn(PutOps(t)) == TakenPut(t) && ReportsIn(PutOps(t)) == []
  {
    if PutOps(t) != [] {
      PerformedMore([], PutOps(t)[0]);
      assert [] + [PutOps(t)[0]] == PutOps(t);
    }
  }

  lemma TurnOpsParts(id: nat, t: Turn, m: nat)
    requires m <= |t.polls|
    ensures Requested(TurnOps(id, t, m)) == PutClient(t)
    ensures AcceptedIn(TurnOps(id, t, m)) == TakenPut(t)
    ensures ReportsIn(TurnOps(id, t, m)) == DealtReports(id, t.polls[..m])
  {
    var reports := DealtReports(id, t.polls[..m]);
    OpsInParts(PutOps(t), NotifyOps(reports));
    NotifyOpsOnlyNotify(reports);
    PutOpsParts(t);
    assert PutClient(t) + [] == PutClient(t) && TakenPut(t) + [] == TakenPut(t) && [] + reports == reports;
  }

  lemma {:induction false} DealtParts(id: nat, turns: seq<Turn>)
    ensures Requested(Dealt(id, turns)) == PutClients(turns)
    ensures AcceptedIn(Dealt(id, turns)) == TakenPuts(turns)
    ensures ReportsIn(Dealt(id, turns)) == TurnReports(id, turns)
  {
    if turns != [] {
      var t := turns[0];
      DealtParts(id, turns[1..]);
      OpsInParts(TurnOps(id, t, |t.polls|), Dealt(id, turns[1..]));
      TurnOpsParts(id, t, |t.polls|);
      assert t.polls[..|t.polls|] == t.polls;
    }
  }

  lemma {:induction false} TurnsInParts(turns: seq<Turn>, n: nat)
    requires n < |turns|
    ensures PutClients(turns[..n + 1]) == PutClients(turns[..n]) + PutClient(turns[n])
    ensures TakenPuts(turns[..n + 1]) == TakenPuts(turns[..n]) + TakenPut(turns[n])
    decreases n
  {
    if n == 0 {
      OneTurn(turns);
    } else {
      TurnsInParts(turns[1..], n - 1);
      TakeFirst(turns, n);
      TakeFirst(turns, n + 1);
      Regroup(PutClient(turns[0]), PutClients(turns[1..][..n - 1]), PutClient(turns[n]));
      Regroup(TakenPut(turns[0]), TakenPuts(turns[1..][..n - 1]), TakenPut(turns[n]));
    }
  }

  lemma OneTurn(turns: seq<Turn>)
    requires turns != []
    ensures PutClients(turns[..1]) == PutClients(turns[..0]) + PutClient(turns[0])
    ensures TakenPuts(turns[..1]) == TakenPuts(turns[..0]) + TakenPut(turns[0])
  {
    assert turns[..1][1..] == [];
  }

  lemma TakeFirst(turns: seq<Turn>, n: nat)
    requires 0 < n <= |turns|
    ensures PutClients(turns[..n]) == PutClient(turns[0]) + PutClients(turns[1..][..n - 1])
    ensures TakenPuts(turns[..n]) == TakenPut(turns[0]) + TakenPuts(turns[1..][..n - 1])
  {
    assert turns[..n][1..] == turns[1..][..n - 1];
  }

  /** The operations that the turns deal out are the put requests of the turns that began
      and the reports of the batches that were delivered. */
  lemma DealtOpsParts(id: nat, turns: seq<Turn>, n: nat, m: nat)
    requires n <= |turns| && (n < |turns| ==> m <= |turns[n].polls|)
    ensures var (ops, k) := (DealtOps(id, turns, n, m), if n < |turns| then n + 1 else n);
            && Requested(ops) == PutClients(turns[..k])
            && AcceptedIn(ops) == TakenPuts(turns[..k])
            && ReportsIn(ops) ==
               TurnReports(id, turns[..n]) + if n < |turns| then DealtReports(id, turns[n].polls[..m]) else []
  {
    DealtParts(id, turns[..n]);
    if n < |turns| {
      OpsInParts(Dealt(id, turns[..n]), TurnOps(id, turns[n], m));
      TurnOpsParts(id, turns[n], m);
      TurnsInParts(turns, n);
    } else {
      assert Dealt(id, turns[..n]) + [] == Dealt(id, turns[..n]);
      assert TurnReports(id, turns[..n]) + [] == TurnReports(id, turns[..n]);
    }
  }

  lemma FromStart<T>(s: seq<T>)
    ensures [] + s == s
  {
  }

  lemma NoReports(id: nat, polls: seq<Poll>)
    ensures DealtReports(id, polls[..0]) == []
  {
  }

  /** What a run from the start received, accepted and applied, in terms of its turns: the
      put requests of the first k turns, which are all when the run goes on, and the
      reports of the batches of the first n turns and of m batches of the next. */
  lemma RunParts(id: nat, peers: set<nat>, view: NodeView, turns: seq<Turn>) returns (k: nat, n: nat, m: nat)
    ensures var (w, o) := Ran(id, peers, Started(view), turns);
            && Delivered(turns, o, k, n, m)
            && Requested(w.history) == PutClients(turns[..k])
            && AcceptedIn(w.history) == TakenPuts(turns[..k])
            && ReportsIn(w.history) == DeliveredReports(id, turns, n, m)
  {
    var d;
    n, m, d := RunTells(id, peers, Started(view), turns);
    k := if n < |turns| then n + 1 else n;
    FromStart(DealtOps(id, turns, n, m));
    DealtOpsParts(id, turns, n, m);
    if n < |turns| {
      NoReports(id, turns[n].polls);
    }
  }

  /** How far a run got: k turns began, n were gone through, and of the turn that ended the
      run, if one did, m batches were delivered. */
  predicate Delivered(turns: seq<Turn>, o: Outcome, k: nat, n: nat, m: nat) {
    if o.Running? then k == n == |turns| && m == 0
    else n < |turns| && k == n + 1 && m <= |turns[n].polls|
  }

  function DeliveredReports(id: nat, turns: seq<Turn>, n: nat, m: nat): seq<ApplyReport>
    requires n <= |turns| && (m > 0 ==> n < |turns| && m <= |turns[n].polls|)
  {
    TurnReports(id, turns[..n]) + if m > 0 then DealtReports(id, turns[n].polls[..m]) else []
  }

  // ---------- The accounts ----------

  /** In every run, crashed and stopped ones included: the answers sent and the puts still
      waiting are the put requests that arrived in the turns that began, which are all when
      the run goes on; and equal pairs are served in the order in which they were taken. */
  lemma EveryRunAccountsForItsPuts(id: nat, peers: set<nat>, view: NodeView, turns: seq<Turn>, key: string,
                                   value: string)
    returns (k: nat, n: nat, m: nat)
    ensures var (w, o) := Ran(id, peers, Started(view), turns);
            && Delivered(turns, o, k, n, m)
            && multiset(PutClients(turns[..k])) == multiset(Answered(w.book)) + multiset(Clients(w.book.pending))
            && OfPair(TakenPuts(turns[..k]), key, value) ==
               OfPair(AckedPuts(w.book.acked), key, value) + OfPair(w.book.pending, key, value)
  {
    RunExplained(id, peers, Started(view), turns);
    k, n, m := RunParts(id, peers, view, turns);
    var w := Ran(id, peers, Started(view), turns).0;
    AnswersBalanceRequests(w.history);
    AcceptedAreAccepted(w.history);
    EqualPairsAreServedInOrder(w.history, key, value);
  }

  /** In every run: each Ok answers an application of its own with the same pair, in the
      order of the batches that were delivered, and the waiting puts stand in the order in
      which the turns brought them. */
  lemma EveryRunAnswersInOrder(id: nat, peers: set<nat>, view: NodeView, turns: seq<Turn>)
    returns (k: nat, n: nat, m: nat, f: seq<nat>, g: seq<nat>)
    ensures var (w, o) := Ran(id, peers, Started(view), turns);
            && Delivered(turns, o, k, n, m)
            && AnswersFor(f, w.book.acked, DeliveredReports(id, turns, n, m))
            && Embeds(g, w.book.pending, TakenPuts(turns[..k]))
  {
    RunExplained(id, peers, Started(view), turns);
    k, n, m := RunParts(id, peers, view, turns);
    var w := Ran(id, peers, Started(view), turns).0;
    AcceptedAreAccepted(w.history);
    f := AcksInjectIntoApplications(w.history);
    g := PendingKeepsArrivalOrder(w.history);
  }

  /** In every run in which each put has a channel of its own and each applied entry was
      proposed by at most one put, before and with its pair: the Oks of the run go to the
      clients whose proposals became the entries, if and only if no applied entry found a
      waiting put of its pair before its proposer's own. */
  lemma EveryRunAnswersProposersIffUnambiguous(id: nat, peers: set<nat>, view: NodeView, turns: seq<Turn>,
                                               proposer: nat -> Option<nat>)
    requires WellFormed(Ran(id, peers, Started(view), turns).0.history, proposer)
    ensures var w := Ran(id, peers, Started(view), turns).0;
            OksReachProposers(w.book.acked, proposer) <==> Unambiguous(w.history, proposer)
  {
    RunExplained(id, peers, Started(view), turns);
    OksReachProposersIffUnambiguous(Ran(id, peers, Started(view), turns).0.history, proposer);
  }
}
