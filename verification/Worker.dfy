/** The worker thread of src/runtime.rs: client requests, the drain of the Ready
    loop, message dispatch and the answers to waiting puts. What the Raft library
    does is an argument of each call. */
module Workers {
  import opened Basics
  import opened RaftLog
  import opened RaftNodes
  import opened PendingPuts

  datatype Role = Follower | Candidate | Leader

  /** What the library answers while one request is handled. */
  datatype Library = Library(role: Role, leaderId: nat, term: nat, proposeOk: bool, campaignOk: bool)

  datatype NodeStatus = NodeStatus(nodeId: nat, role: Role, leaderId: nat, term: nat, store: Kv)

  datatype Request =
    | PutRequest(client: nat, key: string, value: string)
    | GetRequest(client: nat, key: string)
    | StatusRequest(client: nat)
    | CampaignRequest(client: nat)
    | Shutdown

  /** Answers other than those to puts, which the book records. */
  datatype Reply =
    | ValueReply(client: nat, value: Option<string>)
    | StatusReply(client: nat, status: NodeStatus)
    | CampaignReply(client: nat, ok: bool)

  /** One batch of library work; `rejected` are the messages to this node itself
      that the library refuses to take. */
  datatype Poll = Poll(ready: Ready, light: LightReady, rejected: set<Message>)

  datatype Event =
    | ClientEvent(req: Request)
    | ClientsGone
    | NetworkEvent(taken: bool)
    | NetworkGone
    | Timeout

  /** One iteration of the event loop: what arrived, and the batches that were ready
      before the library ran out of work. */
  datatype Turn = Turn(event: Event, lib: Library, polls: seq<Poll>)

  datatype WorkerError = PollFailed(error: PollError) | StepFailed

  datatype Outcome = Running | Stopped | Crashed(error: WorkerError)

  /** `history` lists what was done to the table of puts, in the order in which it was
      done: the puts accepted and refused, and the reports handled. */
  datatype WorkerState = WorkerState(
    view: NodeView,
    book: Book,
    sent: seq<Message>,
    replies: seq<Reply>,
    history: seq<Op>)

  // ---------- What each part of the loop does ----------

  function PutOutcome(req: Request, lib: Library): Op
    requires req.PutRequest?
  {
    if lib.role != Leader
    then RefuseOp(Refusal(req.client, if lib.leaderId == 0 then NoLeaderYet else NotLeader(lib.leaderId)))
    else if !lib.proposeOk then RefuseOp(Refusal(req.client, ProposalFailed))
    else AcceptOp(PendingPut(req.client, req.key, req.value))
  }

  function PutHandled(w: WorkerState, req: Request, lib: Library): WorkerState
    requires req.PutRequest?
  {
    var op := PutOutcome(req, lib);
    w.(book := Perform(w.book, op), history := w.history + [op])
  }

  function Handled(id: nat, w: WorkerState, req: Request, lib: Library): (WorkerState, bool) {
    match req
    case PutRequest(_, _, _) => (PutHandled(w, req, lib), true)
    case GetRequest(client, key) =>
      (w.(replies := w.replies + [ValueReply(client, Lookup(w.view.store, key))]), true)
    case StatusRequest(client) =>
      var status := NodeStatus(id, lib.role, lib.leaderId, lib.term, w.view.store);
      (w.(replies := w.replies + [StatusReply(client, status)]), true)
    case CampaignRequest(client) => (w.(replies := w.replies + [CampaignReply(client, lib.campaignOk)]), true)
    case Shutdown => (w, false)
  }

  /** Messages that go out on the network, up to the first the node itself rejects. */
  function Sent(id: nat, peers: set<nat>, msgs: seq<Message>, rejected: set<Message>): seq<Message> {
    if msgs == [] then []
    else if msgs[0].to == id then
      if msgs[0] in rejected then [] else Sent(id, peers, msgs[1..], rejected)
    else
      (if msgs[0].to in peers then [msgs[0]] else []) + Sent(id, peers, msgs[1..], rejected)
  }

  ghost predicate AllTaken(id: nat, msgs: seq<Message>, rejected: set<Message>) {
    forall i :: 0 <= i < |msgs| ==> !(msgs[i].to == id && msgs[i] in rejected)
  }

  /** One pass of the drain loop: poll, dispatch, answer. */
  ghost function Passed(id: nat, peers: set<nat>, w: WorkerState, poll: Poll): (WorkerState, Outcome) {
    var (view, r) := Polled(id, w.view, Some(poll.ready), poll.light);
    if r.Err? then (w.(view := view), Crashed(PollFailed(r.error)))
    else
      var bundle := r.value.value;
      var w1 := w.(view := view, sent := w.sent + Sent(id, peers, bundle.messages, poll.rejected));
      if !AllTaken(id, bundle.messages, poll.rejected) then (w1, Crashed(StepFailed))
      else (w1.(book := NotifyAll(w1.book, bundle.applied), history := w1.history + NotifyOps(bundle.applied)), Running)
  }

  ghost function Drained(id: nat, peers: set<nat>, w: WorkerState, polls: seq<Poll>): (WorkerState, Outcome)
    decreases |polls|
  {
    if polls == [] then (w, Running)
    else
      var (w1, o) := Passed(id, peers, w, polls[0]);
      if o.Running? then Drained(id, peers, w1, polls[1..]) else (w1, o)
  }

  ghost function Turned(id: nat, peers: set<nat>, w: WorkerState, t: Turn): (WorkerState, Outcome) {
    match t.event
    case ClientEvent(req) =>
      var (w1, go) := Handled(id, w, req, t.lib);
      if go then Drained(id, peers, w1, t.polls) else (w1, Stopped)
    case ClientsGone => (w, Stopped)
    case NetworkEvent(taken) => if taken then Drained(id, peers, w, t.polls) else (w, Crashed(StepFailed))
    case NetworkGone => (w, Stopped)
    case Timeout => Drained(id, peers, w, t.polls)
  }

  ghost function Ran(id: nat, peers: set<nat>, w: WorkerState, turns: seq<Turn>): (WorkerState, Outcome)
    decreases |turns|
  {
    if turns == [] then (w, Running)
    else
      var (w1, o) := Turned(id, peers, w, turns[0]);
      if o.Running? then Ran(id, peers, w1, turns[1..]) else (w1, o)
  }

  // ---------- The worker ----------

  class Worker {
    const node: RaftNode
    const peers: set<nat>
    var pendingPuts: seq<PendingPut>
    var oks: seq<Ack>
    var refusals: seq<Refusal>
    var replies: seq<Reply>
    var sent: seq<Message>
    ghost var accepted: seq<PendingPut>
    ghost var history: seq<Op>

    ghost function State(): WorkerState
      reads this, node, node.storage, node.store
    {
      WorkerState(node.View(), Book(accepted, pendingPuts, oks, refusals), sent, replies, history)
    }

    constructor (node: RaftNode, peers: set<nat>)
      ensures this.node == node && this.peers == peers
      ensures State() == WorkerState(node.View(), EMPTY_BOOK, [], [], [])
    {
      this.node, this.peers := node, peers;
      pendingPuts, oks, refusals, replies, sent := [], [], [], [], [];
      accepted, history := [], [];
    }

    /** Returns false when shutdown was requested. */
    method HandleClientRequest(req: Request, lib: Library) returns (go: bool)
      modifies this
      ensures (State(), go) == Handled(node.id, old(State()), req, lib)
    {
      match req
      case PutRequest(client, key, value) =>
        history := history + [PutOutcome(req, lib)];
        if lib.role != Leader {
          if lib.leaderId == 0 {
            refusals := refusals + [Refusal(client, NoLeaderYet)];
          } else {
            refusals := refusals + [Refusal(client, NotLeader(lib.leaderId))];
          }
        } else if !lib.proposeOk {
          refusals := refusals + [Refusal(client, ProposalFailed)];
        } else {
          pendingPuts := pendingPuts + [PendingPut(client, key, value)];
          accepted := accepted + [PendingPut(client, key, value)];
        }
        return true;
      case GetRequest(client, key) =>
        var value := node.ValueFor(key);
        replies := replies + [ValueReply(client, value)];
        return true;
      case StatusRequest(client) =>
        var store := node.store.Snapshot();
        replies := replies + [StatusReply(client, NodeStatus(node.id, lib.role, lib.leaderId, lib.term, store))];
        return true;
      case CampaignRequest(client) =>
        replies := replies + [CampaignReply(client, lib.campaignOk)];
        return true;
      case Shutdown =>
        return false;
    }

    /** Messages to this node go back to the library; unknown peers are skipped. */
    method DispatchMessage(msg: Message, rejected: set<Message>) returns (ok: bool)
      modifies this`sent
      ensures ok == !(msg.to == node.id && msg in rejected)
      ensures sent == old(sent) + Sent(node.id, peers, [msg], rejected)
    {
      if msg.to == node.id {
        return msg !in rejected;
      }
      if msg.to in peers {
        sent := sent + [msg];
      }
      return true;
    }

    method NotifyPut(report: ApplyReport)
      modifies this
      ensures State() == old(State()).(book := Notify(old(State()).book, report),
                                       history := old(State()).history + [NotifyOp(report)])
    {
      history := history + [NotifyOp(report)];
      var index := FirstMatch(pendingPuts, report.key, report.value);
      if index < |pendingPuts| {
        var pending := pendingPuts[index];
        pendingPuts := RemoveAt(pendingPuts, index);
        oks := oks + [Ack(pending, report.index)];
      }
    }

    method DispatchAll(msgs: seq<Message>, rejected: set<Message>) returns (ok: bool)
      modifies this`sent
      ensures ok == AllTaken(node.id, msgs, rejected)
      ensures sent == old(sent) + Sent(node.id, peers, msgs, rejected)
    {
      for i := 0 to |msgs|
        invariant AllTaken(node.id, msgs[..i], rejected)
        invariant sent + Sent(node.id, peers, msgs[i..], rejected) == old(sent) + Sent(node.id, peers, msgs, rejected)
      {
        assert msgs[i..][0] == msgs[i] && msgs[i..][1..] == msgs[i + 1..];
        ok := DispatchMessage(msgs[i], rejected);
        if !ok {
          return;
        }
      }
      assert msgs[|msgs|..] == [];
      ok := true;
    }

    method NotifyReports(reports: seq<ApplyReport>)
      modifies this
      ensures State() == old(State()).(book := NotifyAll(old(State()).book, reports),
                                       history := old(State()).history + NotifyOps(reports))
    {
      for i := 0 to |reports|
        invariant State() == old(State()).(book := State().book,
                                           history := old(State()).history + NotifyOps(reports[..i]))
        invariant NotifyAll(State().book, reports[i..]) == NotifyAll(old(State()).book, reports)
      {
        assert reports[i..][0] == reports[i] && reports[i..][1..] == reports[i + 1..];
        NotifyPut(reports[i]);
      }
      assert reports[..|reports|] == reports && reports[|reports|..] == [];
    }

    /** Drains the library's work: for each batch, messages first, then answers. */
    method ProcessReady(polls: seq<Poll>) returns (o: Outcome)
      modifies this, node.storage, node.store
      ensures (State(), o) == Drained(node.id, peers, old(State()), polls)
    {
      for i := 0 to |polls|
        invariant Drained(node.id, peers, State(), polls[i..]) == Drained(node.id, peers, old(State()), polls)
      {
        assert polls[i..][0] == polls[i] && polls[i..][1..] == polls[i + 1..];
        var r := node.PollReady(Some(polls[i].ready), polls[i].light);
        if r.Err? {
          return Crashed(PollFailed(r.error));
        }
        var bundle := r.value.value;
        var ok := DispatchAll(bundle.messages, polls[i].rejected);
        if !ok {
          return Crashed(StepFailed);
        }
        NotifyReports(bundle.applied);
      }
      assert polls[|polls|..] == [];
      o := Running;
    }

    /** The event loop, over the turns that the channels and the clock deal out. */
    method Run(turns: seq<Turn>) returns (o: Outcome)
      modifies this, node.storage, node.store
      ensures (State(), o) == Ran(node.id, peers, old(State()), turns)
    {
      for i := 0 to |turns|
        invariant Ran(node.id, peers, State(), turns[i..]) == Ran(node.id, peers, old(State()), turns)
      {
        assert turns[i..][0] == turns[i] && turns[i..][1..] == turns[i + 1..];
        match turns[i].event {
          case ClientEvent(req) =>
            var go := HandleClientRequest(req, turns[i].lib);
            if !go {
              return Stopped;
            }
          case ClientsGone => return Stopped;
          case NetworkEvent(taken) =>
            if !taken {
              return Crashed(StepFailed);
            }
          case NetworkGone => return Stopped;
          case Timeout =>
        }
        o := ProcessReady(turns[i].polls);
        if !o.Running? {
          return;
        }
      }
      assert turns[|turns|..] == [];
      o := Running;
    }
  }
}
