/** All connections of the broker, interleaved in any way. Each connection goes through
    the phases of `handle_connection`; an error returned with `?` ends it where it is,
    without the clean-up that a session ended by its client goes through. */
module BrokerRuns {
  import opened Text
  import opened BroadcastRing
  import opened Brokers

  datatype Phase =
    | Greeting      // waiting for the hello
    | Named         // nickname accepted
    | Numbered      // client id taken
    | Registered    // in the client map, welcome not sent
    | Welcomed      // welcome and roster sent
    | Announced     // join broadcast
    | InSession     // subscribed
    | Leaving       // session over, record not removed
    | Departed      // record removed, leave not broadcast
    | Closed        // over, nothing left behind
    | Aborted       // over after an error, record left in the map

  /** One connection. `announced` and `left` say whether its join and leave were
      broadcast; `receipts` is what its session took from the channel since `start`. */
  datatype Conn = Conn(
    phase: Phase,
    nickname: string,
    id: nat,
    roster: seq<string>,
    announced: bool,
    left: bool,
    start: nat,
    next: nat,
    receipts: seq<Receipt<ServerToClient>>)

  const NEW_CONN := Conn(Greeting, "", 0, [], false, false, 0, 0, [])

  /** `calls` are all broadcasts; `log` holds those that had a subscriber and were stored,
      `unheard` the others. */
  datatype Broker = Broker(
    accepting: bool,
    clients: map<nat, string>,
    nextId: nat,
    calls: seq<ServerToClient>,
    log: seq<ServerToClient>,
    unheard: seq<ServerToClient>,
    conns: seq<Conn>)

  /** `failed` tells whether the write or read of the step returned an error. */
  datatype Step =
    | Accept
    | Shutdown
    | BadHello
    | Hello(text: string)
    | TakeId
    | Register(roster: seq<string>)
    | WelcomeClient(failed: bool)
    | Announce
    | Subscribe
    | ChatLine(text: string)
    | HelloAgain(failed: bool)
    | ReadFails
    | EndOfInput
    | TakeBroadcast(failed: bool)
    | Remove
    | AnnounceLeave

  datatype Action = Action(conn: nat, step: Step)

  ghost predicate Listening(s: Broker) {
    exists i :: 0 <= i < |s.conns| && s.conns[i].phase.InSession?
  }

  ghost function Broadcast(s: Broker, m: ServerToClient): Broker {
    s.(calls := s.calls + [m],
       log := if Listening(s) then s.log + [m] else s.log,
       unheard := if Listening(s) then s.unheard else s.unheard + [m])
  }

  function WithConn(s: Broker, i: nat, c: Conn): Broker
    requires i < |s.conns|
  {
    s.(conns := s.conns[i := c])
  }

  ghost predicate Next(s: Broker, a: Action, s': Broker) {
    match a.step
    case Accept => s.accepting && s' == s.(conns := s.conns + [NEW_CONN])
    case Shutdown => s.accepting && s' == Broadcast(s.(accepting := false), Error("broker shutting down"))
    case _ => a.conn < |s.conns| && ConnNext(s, a.conn, s.conns[a.conn], a.step, s')
  }

  ghost predicate ConnNext(s: Broker, i: nat, c: Conn, step: Step, s': Broker)
    requires i < |s.conns| && c == s.conns[i]
  {
    match step
    case Accept => false
    case Shutdown => false
    case BadHello => c.phase.Greeting? && s' == WithConn(s, i, c.(phase := Closed))
    case Hello(text) =>
      && c.phase.Greeting?
      && s' == WithConn(s, i, if Trim(text) == "" then c.(phase := Closed)
                              else c.(phase := Named, nickname := Trim(text)))
    case TakeId =>
      && c.phase.Named?
      && s' == WithConn(s, i, c.(phase := Numbered, id := s.nextId)).(nextId := s.nextId + 1)
    case Register(roster) =>
      && c.phase.Numbered?
      && if Taken(s.clients, c.nickname) then s' == WithConn(s, i, c.(phase := Closed))
         else
           && Lists(roster, s.clients)
           && s' == WithConn(s, i, c.(phase := Registered, roster := roster)).(clients := s.clients[c.id := c.nickname])
    case WelcomeClient(failed) =>
      c.phase.Registered? && s' == WithConn(s, i, c.(phase := if failed then Aborted else Welcomed))
    case Announce =>
      && c.phase.Welcomed?
      && s' == Broadcast(WithConn(s, i, c.(phase := Announced, announced := true)), UserJoined(c.nickname))
    case Subscribe =>
      && c.phase.Announced?
      && s' == WithConn(s, i, c.(phase := InSession, start := |s.log|, next := |s.log|))
    case ChatLine(text) =>
      && c.phase.InSession?
      && s' == if Trim(text) == "" then s else Broadcast(s, Chat(c.nickname, text))
    case HelloAgain(failed) =>
      && c.phase.InSession?
      && s' == if failed then WithConn(s, i, c.(phase := Aborted)) else s
    case ReadFails => c.phase.InSession? && s' == WithConn(s, i, c.(phase := Aborted))
    case EndOfInput => c.phase.InSession? && s' == WithConn(s, i, c.(phase := Leaving))
    case TakeBroadcast(failed) =>
      && c.phase.InSession? && c.next < |s.log|
      && var (got, next) := ReceiveFrom(s.log, CAPACITY, c.next);
      && var receipt := if got.Got? then Message(c.next, got.message) else Gap(c.next, got.skipped);
      && s' == WithConn(s, i, c.(receipts := c.receipts + [receipt], next := next,
                                 phase := if failed then Leaving else InSession))
    case Remove =>
      && c.phase.Leaving?
      && var phase := if c.id in s.clients then Departed else Closed;
      && s' == WithConn(s, i, c.(phase := phase)).(clients := s.clients - {c.id})
    case AnnounceLeave =>
      && c.phase.Departed?
      && s' == Broadcast(WithConn(s, i, c.(phase := Closed, left := true)), UserLeft(c.nickname))
  }

  const EMPTY_BROKER := Broker(true, map[], 1, [], [], [], [])

  ghost predicate IsRun(run: seq<Broker>, actions: seq<Action>) {
    && |run| == |actions| + 1
    && run[0] == EMPTY_BROKER
    && forall i :: 0 <= i < |actions| ==> StepAt(run, actions, i)
  }

  ghost predicate StepAt(run: seq<Broker>, actions: seq<Action>, i: nat)
    requires |run| == |actions| + 1 && i < |actions|
  {
    Next(run[i], actions[i], run[i + 1])
  }

  // ---------- The invariant ----------

  /** The connection's record is in the client map. */
  predicate Holds(c: Conn) {
    || c.phase.Registered? || c.phase.Welcomed? || c.phase.Announced?
    || c.phase.InSession? || c.phase.Leaving? || c.phase.Aborted?
  }

  predicate AnnouncedPhase(c: Conn) {
    c.phase.Announced? || c.phase.InSession? || c.phase.Leaving? || c.phase.Departed?
  }

  predicate BeforeSession(c: Conn) {
    || c.phase.Greeting? || c.phase.Named? || c.phase.Numbered?
    || c.phase.Registered? || c.phase.Welcomed? || c.phase.Announced?
  }

  ghost predicate MapOk(clients: map<nat, string>, nextId: nat) {
    && NicknamesDiffer(clients)
    && forall id :: id in clients ==> 1 <= id < nextId && Trimmed(clients[id]) && clients[id] != ""
  }

  ghost predicate ConnOk(s: Broker, c: Conn) {
    && (c.phase.Greeting? || c.phase.Named? ==> c.id == 0)
    && (!c.phase.Greeting? && !c.phase.Named? && !c.phase.Closed? ==> 1 <= c.id)
    && (!c.phase.Greeting? && !c.phase.Closed? ==> Trimmed(c.nickname) && c.nickname != "")
    && c.id < s.nextId
    && (if Holds(c) then c.id in s.clients && s.clients[c.id] == c.nickname else c.id !in s.clients)
    && (AnnouncedPhase(c) ==> c.announced)
    && (!AnnouncedPhase(c) && !c.phase.Aborted? && !c.phase.Closed? ==> !c.announced)
    && (c.left ==> c.phase.Closed?) && (c.phase.Closed? ==> c.announced == c.left)
  }

  /** The session took the log in order, and none of it announced its own nickname. */
  ghost predicate SessionOk(s: Broker, c: Conn) {
    && Follows(s.log, c.start, c.receipts, c.next)
    && (BeforeSession(c) ==> c.receipts == [])
    && (c.phase.InSession? ==> forall p :: c.start <= p < |s.log| ==> s.log[p] != UserJoined(c.nickname))
    && (forall k :: 0 <= k < |c.receipts| && c.receipts[k].Message? ==> c.receipts[k].message != UserJoined(c.nickname))
  }

  /** Client ids, which start at 1, are never given twice. */
  ghost predicate IdsDiffer(conns: seq<Conn>) {
    forall i, j :: 0 <= i < j < |conns| && conns[i].id > 0 ==> conns[i].id != conns[j].id
  }

  ghost predicate Inv(s: Broker) {
    && s.nextId >= 1
    && MapOk(s.clients, s.nextId)
    && IdsDiffer(s.conns)
    && (forall i :: 0 <= i < |s.conns| ==> ConnOk(s, s.conns[i]))
    && (forall i :: 0 <= i < |s.conns| ==> SessionOk(s, s.conns[i]))
  }
}
