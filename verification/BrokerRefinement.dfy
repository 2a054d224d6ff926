/** The code of the shared broker state against the state machine: whenever the state
    represents a state of the machine, each operation that a connection performs on it is
    a step of the machine, and the state represents the machine's next state. */
module BrokerRefinement {
  import opened Basics
  import opened Text
  import opened BroadcastRing
  import opened Brokers
  import opened BrokerRuns

  /** Connections in session, each of which holds a receiver. */
  function Sessions(conns: seq<Conn>): nat {
    if conns == [] then 0
    else Sessions(conns[..|conns| - 1]) + if conns[|conns| - 1].phase.InSession? then 1 else 0
  }

  lemma {:induction false} SessionsUpdate(conns: seq<Conn>, i: nat, c: Conn)
    requires i < |conns|
    ensures Sessions(conns[i := c]) + (if conns[i].phase.InSession? then 1 else 0) ==
            Sessions(conns) + if c.phase.InSession? then 1 else 0
  {
    var last := |conns| - 1;
    if i == last {
      assert conns[i := c][..last] == conns[..last];
    } else {
      SessionsUpdate(conns[..last], i, c);
      assert conns[i := c][..last] == conns[..last][i := c];
    }
  }

  lemma {:induction false} SomeSession(conns: seq<Conn>)
    ensures Sessions(conns) > 0 <==> exists i :: 0 <= i < |conns| && conns[i].phase.InSession?
  {
    if conns != [] {
      var init := conns[..|conns| - 1];
      SomeSession(init);
      if Sessions(init) > 0 {
        var i :| 0 <= i < |init| && init[i].phase.InSession?;
        assert conns[i].phase.InSession?;
      }
      if i :| 0 <= i < |conns| && conns[i].phase.InSession? {
        assert i < |init| ==> init[i].phase.InSession?;
      }
    }
  }

  /** The shared state holds the machine's map, counter and channel, and the channel has
      one receiver for each connection in session. */
  ghost predicate Represents(b: BrokerState, s: Broker)
    reads b, b.broadcaster, b.broadcaster.slots
  {
    && b.Valid()
    && b.clients == s.clients && b.nextId == s.nextId && b.calls == s.calls
    && b.broadcaster.log == s.log && b.broadcaster.receivers == Sessions(s.conns)
  }

  method TakeNumber(b: BrokerState, ghost s: Broker, ghost i: nat) returns (id: nat, ghost s': Broker)
    requires Represents(b, s) && i < |s.conns| && s.conns[i].phase.Named?
    modifies b`nextId
    ensures ConnNext(s, i, s.conns[i], TakeId, s') && Represents(b, s')
    ensures s'.conns[i].id == id
  {
    id := b.NextId();
    ghost var c := s.conns[i].(phase := Numbered, id := id);
    SessionsUpdate(s.conns, i, c);
    s' := WithConn(s, i, c).(nextId := s.nextId + 1);
  }

  method Enter(b: BrokerState, id: nat, nickname: string, ghost s: Broker, ghost i: nat)
    returns (r: Result<seq<string>, RegisterError>, ghost roster: seq<string>, ghost s': Broker)
    requires Represents(b, s) && i < |s.conns| && s.conns[i].phase.Numbered?
    requires id == s.conns[i].id && nickname == s.conns[i].nickname
    modifies b`clients
    ensures ConnNext(s, i, s.conns[i], Register(roster), s') && Represents(b, s')
    ensures if r.Ok? then s'.conns[i].phase.Registered? && s'.conns[i].roster == r.value else s'.conns[i].phase.Closed?
  {
    r := b.RegisterClient(id, nickname);
    ghost var c := s.conns[i];
    if r.Ok? {
      roster := r.value;
      c := c.(phase := Registered, roster := roster);
    } else {
      roster := [];
      c := c.(phase := Closed);
    }
    SessionsUpdate(s.conns, i, c);
    s' := WithConn(s, i, c).(clients := b.clients);
  }

  /** Handing a message to the channel is the machine's broadcast. */
  method Tell(b: BrokerState, m: ServerToClient, ghost s: Broker) returns (ghost s': Broker)
    requires Represents(b, s)
    modifies b`calls, b.broadcaster, b.broadcaster.slots
    ensures s' == Broadcast(s, m) && Represents(b, s')
  {
    SomeSession(s.conns);
    b.Broadcast(m);
    s' := Broadcast(s, m);
  }

  method TellJoin(b: BrokerState, nickname: string, ghost s: Broker, ghost i: nat) returns (ghost s': Broker)
    requires Represents(b, s) && i < |s.conns| && s.conns[i].phase.Welcomed? && nickname == s.conns[i].nickname
    modifies b`calls, b.broadcaster, b.broadcaster.slots
    ensures ConnNext(s, i, s.conns[i], Announce, s') && Represents(b, s')
  {
    ghost var c := s.conns[i].(phase := Announced, announced := true);
    SessionsUpdate(s.conns, i, c);
    s' := Tell(b, UserJoined(nickname), WithConn(s, i, c));
  }

  method OpenSession(b: BrokerState, ghost s: Broker, ghost i: nat) returns (next: nat, ghost s': Broker)
    requires Represents(b, s) && i < |s.conns| && s.conns[i].phase.Announced?
    modifies b.broadcaster`receivers
    ensures ConnNext(s, i, s.conns[i], Subscribe, s') && Represents(b, s')
    ensures next == s'.conns[i].next
  {
    next := b.broadcaster.Subscribe();
    ghost var c := s.conns[i].(phase := InSession, start := |s.log|, next := |s.log|);
    SessionsUpdate(s.conns, i, c);
    s' := WithConn(s, i, c);
  }

  method TellChat(b: BrokerState, text: string, nickname: string, ghost s: Broker, ghost i: nat)
    returns (ghost s': Broker)
    requires Represents(b, s) && i < |s.conns| && s.conns[i].phase.InSession? && nickname == s.conns[i].nickname
    modifies b`calls, b.broadcaster, b.broadcaster.slots
    ensures ConnNext(s, i, s.conns[i], ChatLine(text), s') && Represents(b, s')
  {
    s' := s;
    if Trim(text) != "" {
      s' := Tell(b, Chat(nickname, text), s);
    }
  }

  /** Takes the next message or gap from the channel and writes it to the client; a write
      that fails ends the session, which gives up its receiver. */
  method TakeFromChannel(b: BrokerState, next: nat, failed: bool, ghost s: Broker, ghost i: nat)
    returns (r: Received<ServerToClient>, next': nat, ghost s': Broker)
    requires Represents(b, s) && i < |s.conns| && s.conns[i].phase.InSession?
    requires next == s.conns[i].next < |s.log|
    modifies b.broadcaster`receivers
    ensures ConnNext(s, i, s.conns[i], TakeBroadcast(failed), s') && Represents(b, s')
    ensures next' == s'.conns[i].next
    ensures (r, next') == ReceiveFrom(s.log, CAPACITY, next)
  {
    r, next' := b.broadcaster.Receive(next);
    ghost var receipt := if r.Got? then Message(next, r.message) else Gap(next, r.skipped);
    ghost var c := s.conns[i].(receipts := s.conns[i].receipts + [receipt], next := next',
                               phase := if failed then Leaving else InSession);
    SessionsUpdate(s.conns, i, c);
    if failed {
      b.broadcaster.Unsubscribe();
    }
    s' := WithConn(s, i, c);
  }

  /** The client's input ends: the session is over and gives up its receiver. */
  method CloseSession(b: BrokerState, ghost s: Broker, ghost i: nat) returns (ghost s': Broker)
    requires Represents(b, s) && i < |s.conns| && s.conns[i].phase.InSession?
    modifies b.broadcaster`receivers
    ensures ConnNext(s, i, s.conns[i], EndOfInput, s') && Represents(b, s')
  {
    ghost var c := s.conns[i].(phase := Leaving);
    SessionsUpdate(s.conns, i, c);
    b.broadcaster.Unsubscribe();
    s' := WithConn(s, i, c);
  }

  /** Reading from the client fails: the session gives up its receiver, nothing else. */
  method AbortSession(b: BrokerState, ghost s: Broker, ghost i: nat) returns (ghost s': Broker)
    requires Represents(b, s) && i < |s.conns| && s.conns[i].phase.InSession?
    modifies b.broadcaster`receivers
    ensures ConnNext(s, i, s.conns[i], ReadFails, s') && Represents(b, s')
  {
    ghost var c := s.conns[i].(phase := Aborted);
    SessionsUpdate(s.conns, i, c);
    b.broadcaster.Unsubscribe();
    s' := WithConn(s, i, c);
  }

  method RemoveRecord(b: BrokerState, id: nat, ghost s: Broker, ghost i: nat)
    returns (r: Option<string>, ghost s': Broker)
    requires Represents(b, s) && i < |s.conns| && s.conns[i].phase.Leaving? && id == s.conns[i].id
    modifies b`clients
    ensures ConnNext(s, i, s.conns[i], Remove, s') && Represents(b, s')
    ensures r.Some? <==> s'.conns[i].phase.Departed?
  {
    r := b.RemoveClient(id);
    ghost var c := s.conns[i].(phase := if id in s.clients then Departed else Closed);
    SessionsUpdate(s.conns, i, c);
    s' := WithConn(s, i, c).(clients := s.clients - {id});
  }

  method TellLeave(b: BrokerState, nickname: string, ghost s: Broker, ghost i: nat) returns (ghost s': Broker)
    requires Represents(b, s) && i < |s.conns| && s.conns[i].phase.Departed? && nickname == s.conns[i].nickname
    modifies b`calls, b.broadcaster, b.broadcaster.slots
    ensures ConnNext(s, i, s.conns[i], AnnounceLeave, s') && Represents(b, s')
  {
    ghost var c := s.conns[i].(phase := Closed, left := true);
    SessionsUpdate(s.conns, i, c);
    s' := Tell(b, UserLeft(nickname), WithConn(s, i, c));
  }
}
