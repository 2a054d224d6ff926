/** What leaves the worker in every run: messages to peers, refusals and replies, in terms
    of the turns of its event loop. */
module WorkerOutput {
  import opened Basics
  import opened RaftLog
  import opened RaftNodes
  import opened PendingPuts
  import opened Workers
  import opened WorkerMessages
  import opened WorkerRuns

  // ---------- Messages ----------

  /** In every run: the messages sent are, in order and each once, exactly those for other
      nodes that are known peers, among all messages that were dispatched; these are all of
      the batches of its turns when the run goes on. When it does not, turn n ended it: the
      batches before went through, and it stopped at a message to the node itself that was
      rejected, at a poll that failed, or at an event that ends the loop. */
  lemma EveryRunSendsToItsPeers(id: nat, peers: set<nat>, view: NodeView, turns: seq<Turn>)
    returns (n: nat, m: nat, d: nat, f: seq<nat>)
    ensures var (w, o) := Ran(id, peers, Started(view), turns);
            && RunEnds(id, turns, n, m, d, o)
            && var all := Dispatched(turns, n, m, d);
            && Embeds(f, w.sent, all)
            && (forall i :: 0 <= i < |all| ==> (i in f <==> all[i].to != id && all[i].to in peers))
            && (o.Running? ==> all == TurnMessages(turns))
  {
    n, m, d := RunTells(id, peers, Started(view), turns);
    var (w, o) := Ran(id, peers, Started(view), turns);
    var all := Dispatched(turns, n, m, d);
    assert w.sent[0..] == w.sent;
    f :| SelectsPeers(f, id, peers, all, w.sent[0..]);
    if o.Running? {
      NothingMore(TurnMessages(turns));
      assert turns[..n] == turns;
    }
  }

  /** The messages of a batch stand in the list of dispatched ones, one after the other. */
  lemma {:induction false} BatchIsDealt(polls: seq<Poll>, b: nat) returns (at: nat)
    requires b < |polls|
    ensures at + |BatchMessages(polls[b])| <= |DealtMessages(polls)|
    ensures DealtMessages(polls)[at..at + |BatchMessages(polls[b])|] ==
            polls[b].ready.messages + polls[b].ready.persistedMessages + polls[b].light.messages
  {
    if b == 0 {
      at := 0;
    } else {
      var rest := BatchIsDealt(polls[1..], b - 1);
      at := |BatchMessages(polls[0])| + rest;
      InLaterPart(BatchMessages(polls[0]), DealtMessages(polls[1..]), rest, |BatchMessages(polls[b])|);
    }
  }

  lemma InLaterPart<T>(a: seq<T>, b: seq<T>, at: nat, n: nat)
    requires at + n <= |b|
    ensures (a + b)[|a| + at..|a| + at + n] == b[at..at + n]
  {
  }

  // ---------- Refusals ----------

  /** Why a worker refuses a put, by what its library says. */
  predicate RefusedBecause(lib: Library, reason: Reason) {
    match reason
    case NoLeaderYet => !lib.role.Leader? && lib.leaderId == 0
    case NotLeader(leader) => !lib.role.Leader? && leader == lib.leaderId && leader != 0
    case ProposalFailed => lib.role.Leader? && !lib.proposeOk
  }

  predicate IsRefused(t: Turn) {
    t.event.ClientEvent? && t.event.req.PutRequest? && !(t.lib.role.Leader? && t.lib.proposeOk)
  }

  /** g lists the turns whose put is refused, and refusal k is that of turn g[k], with its
      reason. */
  ghost predicate Refuses(rs: seq<Refusal>, turns: seq<Turn>, g: seq<nat>) {
    && Positions(g, turns, IsRefused)
    && |rs| == |g| && forall k :: 0 <= k < |g| ==> RefusedIn(rs[k], turns[g[k]])
  }

  predicate RefusedIn(r: Refusal, t: Turn) {
    IsRefused(t) && r.client == t.event.req.client && RefusedBecause(t.lib, r.reason)
  }

  function RefusedBy(op: Op): seq<Refusal> {
    if op.RefuseOp? then [op.refusal] else []
  }

  function RefusalsIn(ops: seq<Op>): seq<Refusal> {
    if ops == [] then [] else RefusalsIn(ops[..|ops| - 1]) + RefusedBy(ops[|ops| - 1])
  }

  lemma {:induction false} RefusedAreRefusals(ops: seq<Op>)
    ensures Performed(ops).refused == RefusalsIn(ops)
  {
    if ops != [] {
      RefusedAreRefusals(ops[..|ops| - 1]);
    }
  }

  lemma {:induction false} RefusalsInParts(a: seq<Op>, b: seq<Op>)
    ensures RefusalsIn(a + b) == RefusalsIn(a) + RefusalsIn(b)
  {
    if b == [] {
      assert a + b == a;
    } else {
      var init := b[..|b| - 1];
      RefusalsInParts(a, init);
      AppendedLast(a, b);
      Regroup(RefusalsIn(a), RefusalsIn(init), RefusedBy(b[|b| - 1]));
    }
  }

  lemma {:induction false} NotifyingRefusesNothing(rs: seq<ApplyReport>)
    ensures RefusalsIn(NotifyOps(rs)) == []
  {
    if rs != [] {
      NotifyingRefusesNothing(rs[..|rs| - 1]);
      assert NotifyOps(rs)[..|rs| - 1] == NotifyOps(rs[..|rs| - 1]);
    }
  }

  /** The refusal that a turn's put comes to, if it does. */
  lemma PutRefusals(t: Turn)
    ensures var rs := RefusalsIn(PutOps(t));
            if IsRefused(t) then |rs| == 1 && RefusedIn(rs[0], t) else rs == []
  {
    if PutOps(t) != [] {
      assert PutOps(t)[..0] == [];
    }
  }

  lemma TurnRefusals(id: nat, t: Turn, m: nat)
    requires m <= |t.polls|
    ensures Refuses(RefusalsIn(TurnOps(id, t, m)), [t], if IsRefused(t) then [0] else [])
  {
    RefusalsInParts(PutOps(t), NotifyOps(DealtReports(id, t.polls[..m])));
    NotifyingRefusesNothing(DealtReports(id, t.polls[..m]));
    NothingMore(RefusalsIn(PutOps(t)));
    PutRefusals(t);
    OneRefusal(RefusalsIn(PutOps(t)), t);
  }

  lemma OneRefusal(rs: seq<Refusal>, t: Turn)
    requires if IsRefused(t) then |rs| == 1 && RefusedIn(rs[0], t) else rs == []
    ensures Refuses(rs, [t], if IsRefused(t) then [0] else [])
  {
    OnePosition(t, IsRefused);
  }

  lemma RefusesJoined(rs: seq<Refusal>, turns: seq<Turn>, g: seq<nat>, rs': seq<Refusal>, turns': seq<Turn>,
                      g': seq<nat>)
    requires Refuses(rs, turns, g) && Refuses(rs', turns', g')
    ensures Refuses(rs + rs', turns + turns', Joined(g, |turns|, g'))
  {
    PositionsJoined(g, turns, g', turns', IsRefused);
    forall k | 0 <= k < |rs + rs'|
      ensures RefusedIn((rs + rs')[k], (turns + turns')[Joined(g, |turns|, g')[k]])
    {
      if k >= |rs| {
        assert RefusedIn(rs'[k - |rs|], turns'[g'[k - |rs|]]);
      } else {
        assert RefusedIn(rs[k], turns[g[k]]);
      }
    }
  }

  lemma {:induction false} DealtRefusals(id: nat, turns: seq<Turn>) returns (g: seq<nat>)
    ensures Refuses(RefusalsIn(Dealt(id, turns)), turns, g)
  {
    if turns == [] {
      g := [];
    } else {
      var first := if IsRefused(turns[0]) then [0] else [];
      TurnRefusals(id, turns[0], |turns[0].polls|);
      var rest := DealtRefusals(id, turns[1..]);
      RefusalsInParts(TurnOps(id, turns[0], |turns[0].polls|), Dealt(id, turns[1..]));
      RefusesJoined(RefusalsIn(TurnOps(id, turns[0], |turns[0].polls|)), [turns[0]], first,
                    RefusalsIn(Dealt(id, turns[1..])), turns[1..], rest);
      FirstAgain(turns);
      g := Joined(first, 1, rest);
    }
  }

  /** The operations that k turns deal out, the last perhaps in part, refuse exactly the
      puts that came to no leader or were not taken, each with its reason. */
  lemma OpsRefusals(id: nat, turns: seq<Turn>, n: nat, m: nat) returns (g: seq<nat>)
    requires n <= |turns| && (n < |turns| ==> m <= |turns[n].polls|)
    ensures Refuses(RefusalsIn(DealtOps(id, turns, n, m)), turns[..if n < |turns| then n + 1 else n], g)
  {
    g := DealtRefusals(id, turns[..n]);
    if n < |turns| {
      var last := if IsRefused(turns[n]) then [0] else [];
      TurnRefusals(id, turns[n], m);
      RefusalsInParts(Dealt(id, turns[..n]), TurnOps(id, turns[n], m));
      RefusesJoined(RefusalsIn(Dealt(id, turns[..n])), turns[..n], g, RefusalsIn(TurnOps(id, turns[n], m)), [turns[n]],
                    last);
      OneMoreTaken(turns, n);
      g := Joined(g, n, last);
    } else {
      NothingMore(Dealt(id, turns[..n]));
    }
  }

  /** In every run: refused are exactly the put requests, of the turns that began, that came
      while the node did not lead or that its library did not take; each once, in order, to
      the client that asked, and with the reason: no leader is known, another node leads
      (and which), or the proposal failed. */
  lemma EveryRunRefusesWithReason(id: nat, peers: set<nat>, view: NodeView, turns: seq<Turn>)
    returns (k: nat, n: nat, m: nat, g: seq<nat>)
    ensures var (w, o) := Ran(id, peers, Started(view), turns);
            Delivered(turns, o, k, n, m) && Refuses(w.book.refused, turns[..k], g)
  {
    RunExplained(id, peers, Started(view), turns);
    var d;
    n, m, d := RunTells(id, peers, Started(view), turns);
    k := if n < |turns| then n + 1 else n;
    var w := Ran(id, peers, Started(view), turns).0;
    FromStart(DealtOps(id, turns, n, m));
    RefusedAreRefusals(w.history);
    g := OpsRefusals(id, turns, n, m);
  }

  // ---------- Replies ----------

  predicate WantsReply(t: Turn) {
    && t.event.ClientEvent?
    && (t.event.req.GetRequest? || t.event.req.StatusRequest? || t.event.req.CampaignRequest?)
  }

  /** The reply goes to the client that asked and says what was asked for: the value of the
      key in the store at that moment, the node's status with that store, or whether the
      library took the campaign. */
  predicate Answers(r: Reply, id: nat, t: Turn, store: Kv) {
    && WantsReply(t)
    && match t.event.req
       case GetRequest(client, key) => r == ValueReply(client, if key in store then Some(store[key]) else None)
       case StatusRequest(client) =>
         r == StatusReply(client, NodeStatus(id, t.lib.role, t.lib.leaderId, t.lib.term, store))
       case CampaignRequest(client) => r == CampaignReply(client, t.lib.campaignOk)
       case _ => false
  }

  /** The store when turn i begins. */
  ghost function StoreBefore(id: nat, peers: set<nat>, w: WorkerState, turns: seq<Turn>, i: nat): Kv
    requires i <= |turns|
  {
    Ran(id, peers, w, turns[..i]).0.view.store
  }

  /** Of the first k turns g lists those that ask for a reply, and reply j answers turn g[j]
      from the store as it was when that turn began. */
  ghost predicate Replied(replies: seq<Reply>, id: nat, peers: set<nat>, w: WorkerState, turns: seq<Turn>, k: nat,
                          g: seq<nat>)
    requires k <= |turns|
  {
    Positions(g, turns[..k], WantsReply) && RepliesAt(replies, id, peers, w, turns, g)
  }

  ghost predicate RepliesAt(replies: seq<Reply>, id: nat, peers: set<nat>, w: WorkerState, turns: seq<Turn>,
                            g: seq<nat>) {
    |replies| == |g| && forall j :: 0 <= j < |g| ==> RepliesTo(replies[j], id, peers, w, turns, g[j])
  }

  ghost predicate RepliesTo(r: Reply, id: nat, peers: set<nat>, w: WorkerState, turns: seq<Turn>, i: nat) {
    i < |turns| && Answers(r, id, turns[i], StoreBefore(id, peers, w, turns, i))
  }

  /** The replies of one turn: one if it asks for one. */
  lemma TurnReplies(id: nat, peers: set<nat>, w: WorkerState, t: Turn) returns (replies: seq<Reply>)
    ensures Turned(id, peers, w, t).0.replies == w.replies + replies
    ensures if WantsReply(t) then |replies| == 1 && Answers(replies[0], id, t, w.view.store) else replies == []
  {
    replies := [];
    NothingMore(w.replies);
    if t.event.ClientEvent? {
      var (w1, go) := Handled(id, w, t.event.req, t.lib);
      if WantsReply(t) {
        replies := [w1.replies[|w.replies|]];
        assert w1.replies == w.replies + replies;
      }
      if go {
        var m, d := DrainTells(id, peers, w1, t.polls);
      }
    } else if Drains(t) {
      var m, d := DrainTells(id, peers, w, t.polls);
    }
  }

  lemma RepliesLater(r: Reply, id: nat, peers: set<nat>, w: WorkerState, turns: seq<Turn>, i: nat)
    requires turns != [] && Turned(id, peers, w, turns[0]).1.Running?
    requires RepliesTo(r, id, peers, Turned(id, peers, w, turns[0]).0, turns[1..], i)
    ensures RepliesTo(r, id, peers, w, turns, i + 1)
  {
    assert turns[..i + 1][0] == turns[0] && turns[..i + 1][1..] == turns[1..][..i];
  }

  lemma RepliesFirst(r: Reply, id: nat, peers: set<nat>, w: WorkerState, turns: seq<Turn>)
    requires turns != [] && Answers(r, id, turns[0], w.view.store)
    ensures RepliesTo(r, id, peers, w, turns, 0)
  {
    assert turns[..0] == [];
  }

  lemma RepliesJoined(replies: seq<Reply>, later: seq<Reply>, id: nat, peers: set<nat>, w: WorkerState, w1: WorkerState,
                      turns: seq<Turn>, k: nat, g: seq<nat>)
    requires turns != [] && Turned(id, peers, w, turns[0]) == (w1, Running) && k <= |turns| - 1
    requires if WantsReply(turns[0]) then |replies| == 1 && Answers(replies[0], id, turns[0], w.view.store)
             else replies == []
    requires Replied(later, id, peers, w1, turns[1..], k, g)
    ensures Replied(replies + later, id, peers, w, turns, k + 1,
                    Joined(if WantsReply(turns[0]) then [0] else [], 1, g))
  {
    var first := if WantsReply(turns[0]) then [0] else [];
    OnePosition(turns[0], WantsReply);
    PositionsJoined(first, [turns[0]], g, turns[1..][..k], WantsReply);
    FirstTaken(turns, k);
    if WantsReply(turns[0]) {
      RepliesFirst(replies[0], id, peers, w, turns);
    }
    AllRepliesLater(later, id, peers, w, turns, g);
    RepliesAppended(replies, first, later, Shifted(g, 1), id, peers, w, turns);
  }

  lemma AllRepliesLater(later: seq<Reply>, id: nat, peers: set<nat>, w: WorkerState, turns: seq<Turn>, g: seq<nat>)
    requires turns != [] && Turned(id, peers, w, turns[0]).1.Running?
    requires RepliesAt(later, id, peers, Turned(id, peers, w, turns[0]).0, turns[1..], g)
    ensures RepliesAt(later, id, peers, w, turns, Shifted(g, 1))
  {
    forall j | 0 <= j < |later|
      ensures RepliesTo(later[j], id, peers, w, turns, Shifted(g, 1)[j])
    {
      RepliesLater(later[j], id, peers, w, turns, g[j]);
    }
  }

  lemma RepliesAppended(a: seq<Reply>, g: seq<nat>, b: seq<Reply>, h: seq<nat>, id: nat, peers: set<nat>,
                        w: WorkerState, turns: seq<Turn>)
    requires RepliesAt(a, id, peers, w, turns, g) && RepliesAt(b, id, peers, w, turns, h)
    ensures RepliesAt(a + b, id, peers, w, turns, g + h)
  {
  }

  lemma FirstTaken<T>(s: seq<T>, k: nat)
    requires s != [] && k <= |s| - 1
    ensures [s[0]] + s[1..][..k] == s[..k + 1]
  {
  }

  lemma FirstReply(replies: seq<Reply>, id: nat, peers: set<nat>, w: WorkerState, turns: seq<Turn>)
    requires turns != []
    requires if WantsReply(turns[0]) then |replies| == 1 && Answers(replies[0], id, turns[0], w.view.store)
             else replies == []
    ensures Replied(replies, id, peers, w, turns, 1, if WantsReply(turns[0]) then [0] else [])
  {
    OnePosition(turns[0], WantsReply);
    FirstTaken(turns, 0);
    assert [turns[0]] + [] == [turns[0]];
    if WantsReply(turns[0]) {
      RepliesFirst(replies[0], id, peers, w, turns);
    }
  }

  /** In every run: replies are sent for exactly the reads, status requests and campaigns of
      the turns that began, each once, in order, to the client that asked, with the content
      that the moment gave. */
  lemma {:induction false} EveryRunRepliesInOrder(id: nat, peers: set<nat>, w: WorkerState, turns: seq<Turn>)
    returns (k: nat, g: seq<nat>, replies: seq<Reply>)
    ensures k <= |turns| && (Ran(id, peers, w, turns).1.Running? ==> k == |turns|)
    ensures k < |turns| ==> k > 0 && !Ran(id, peers, w, turns[..k]).1.Running?
    ensures Ran(id, peers, w, turns).0.replies == w.replies + replies
    ensures Replied(replies, id, peers, w, turns, k, g)
    decreases |turns|
  {
    k, g, replies := 0, [], [];
    NothingMore(w.replies);
    if turns != [] {
      replies := TurnReplies(id, peers, w, turns[0]);
      var (w1, o) := Turned(id, peers, w, turns[0]);
      if o.Running? {
        var k', g', later := EveryRunRepliesInOrder(id, peers, w1, turns[1..]);
        RepliesJoined(replies, later, id, peers, w, w1, turns, k', g');
        Regroup(w.replies, replies, later);
        k, g, replies := k' + 1, Joined(if WantsReply(turns[0]) then [0] else [], 1, g'), replies + later;
        assert turns[..k][0] == turns[0] && turns[..k][1..] == turns[1..][..k'];
      } else {
        FirstReply(replies, id, peers, w, turns);
        k, g := 1, if WantsReply(turns[0]) then [0] else [];
        assert turns[..1][0] == turns[0];
      }
    }
  }
}
