/** The state shared by all connections of the chat broker (src/broker.rs): the client
    map, the id counter and the broadcast channel. */
module Brokers {
  import opened Basics
  import opened BroadcastRing

  datatype ServerToClient =
    | Welcome(nickname: string)
    | Roster(participants: seq<string>)
    | UserJoined(nickname: string)
    | UserLeft(nickname: string)
    | Chat(nickname: string, text: string)
    | Error(message: string)

  datatype RegisterError = NicknameTaken

  /** Slots of the broadcast channel. */
  const CAPACITY: nat := 128

  predicate Taken(clients: map<nat, string>, nickname: string) {
    exists id :: id in clients && clients[id] == nickname
  }

  ghost predicate NicknamesDiffer(clients: map<nat, string>) {
    forall a, b :: a in clients && b in clients && a != b ==> clients[a] != clients[b]
  }

  ghost predicate NoRepeats(names: seq<string>) {
    forall i, j :: 0 <= i < j < |names| ==> names[i] != names[j]
  }

  /** Every registered nickname once, in any order. */
  ghost predicate Lists(roster: seq<string>, clients: map<nat, string>) {
    NoRepeats(roster) && forall n :: n in roster <==> Taken(clients, n)
  }

  class BrokerState {
    var clients: map<nat, string>
    var nextId: nat
    const broadcaster: Ring<ServerToClient>
    /** Every message handed to the channel, stored there or not. */
    ghost var calls: seq<ServerToClient>

    ghost predicate Valid()
      reads this, broadcaster, broadcaster.slots
    {
      && broadcaster.Valid() && broadcaster.slots.Length == CAPACITY
      && NicknamesDiffer(clients)
    }

    constructor ()
      ensures Valid() && fresh(broadcaster) && fresh(broadcaster.slots)
      ensures clients == map[] && nextId == 1 && broadcaster.log == [] && broadcaster.receivers == 0 && calls == []
    {
      broadcaster := new Ring(CAPACITY);
      clients, nextId, calls := map[], 1, [];
    }

    method NextId() returns (id: nat)
      modifies this`nextId
      ensures id == old(nextId) && nextId == old(nextId) + 1
    {
      id := nextId;
      nextId := nextId + 1;
    }

    /** Refuses a nickname in use; otherwise lists who was there and inserts the client. */
    method RegisterClient(id: nat, nickname: string) returns (r: Result<seq<string>, RegisterError>)
      requires Valid()
      modifies this`clients
      ensures Valid()
      ensures r.Err? <==> Taken(old(clients), nickname)
      ensures r.Err? ==> clients == old(clients)
      ensures r.Ok? ==> Lists(r.value, old(clients)) && clients == old(clients)[id := nickname]
    {
      if Taken(clients, nickname) {
        return Err(NicknameTaken);
      }
      var roster: seq<string> := [];
      var left := clients.Keys;
      while left != {}
        invariant left <= clients.Keys
        invariant NoRepeats(roster)
        invariant forall n :: n in roster <==> exists id :: id in clients.Keys - left && clients[id] == n
        decreases left
      {
        var next :| next in left;
        assert clients[next] !in roster;
        var done := clients.Keys - left;
        left := left - {next};
        assert clients.Keys - left == done + {next};
        roster := roster + [clients[next]];
      }
      clients := clients[id := nickname];
      r := Ok(roster);
    }

    method RemoveClient(id: nat) returns (r: Option<string>)
      requires Valid()
      modifies this`clients
      ensures Valid()
      ensures r == if id in old(clients) then Some(old(clients)[id]) else None
      ensures clients == old(clients) - {id}
    {
      r := if id in clients then Some(clients[id]) else None;
      clients := clients - {id};
    }

    method Broadcast(message: ServerToClient)
      requires Valid()
      modifies this`calls, broadcaster, broadcaster.slots
      ensures Valid() && broadcaster.receivers == old(broadcaster.receivers)
      ensures calls == old(calls) + [message]
      ensures broadcaster.log ==
              if broadcaster.receivers > 0 then old(broadcaster.log) + [message] else old(broadcaster.log)
    {
      var _ := broadcaster.Send(message);
      calls := calls + [message];
    }
  }
}
