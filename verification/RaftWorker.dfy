/** What the theorems about the cluster say of the worker's event loop: whatever state of
    the cluster a worker starts from, and whatever its turns bring. */
module RaftWorker {
  import opened Basics
  import opened RaftLog
  import opened PendingPuts
  import opened Workers
  import opened AckSimulation
  import opened WorkerRuns
  import opened RaftCluster
  import opened RaftRefinement
  import opened RaftTheorems
  import opened RaftProposers
  import RaftSafety

  /** A reachable cluster state in which the worker of node `id` is between two turns. */
  ghost predicate BetweenTurns(run: seq<Cluster>, actions: seq<Action>, id: nat, w: WorkerState) {
    && IsRun(run, actions) && id < |run[|actions|].nodes|
    && run[|actions|].nodes[id].phase.Idle? && SameWorker(run[|actions|].nodes[id], w)
  }

  /** In that state these turns can come. */
  ghost predicate CanCome(c: Cluster, id: nat, w: WorkerState, turns: seq<Turn>, moves: seq<TurnMoves>)
    requires id < |c.nodes|
  {
    LoopHandsOut(c.agreed, c.nodes[id].raw, turns, moves) && FreshClients(Requested(w.history), turns)
  }

  /** A worker that starts is the worker of a fresh node. */
  lemma FreshWorkerIsBetweenTurns(c: Cluster, id: nat)
    requires Init(c) && id < |c.nodes|
    ensures BetweenTurns([c], [], id, Started(c.nodes[id].view))
  {
  }

  /** What the other nodes do between two turns leaves the worker where it is. */
  lemma OthersLeaveTheWorker(run: seq<Cluster>, actions: seq<Action>, id: nat, w: WorkerState, a: Action, c: Cluster)
    requires BetweenTurns(run, actions, id, w) && Next(run[|actions|], a, c)
    requires a.Agree? || a.id != id
    ensures BetweenTurns(run + [c], actions + [a], id, w)
  {
    OneMoreStep(run, actions, a, c);
  }

  /** The event loop takes the cluster from one reachable state to another. */
  lemma LoopReaches(run: seq<Cluster>, actions: seq<Action>, id: nat, peers: set<nat>, w: WorkerState,
                    turns: seq<Turn>, moves: seq<TurnMoves>)
    returns (run': seq<Cluster>, actions': seq<Action>)
    requires BetweenTurns(run, actions, id, w) && CanCome(run[|actions|], id, w, turns, moves)
    ensures IsRun(run', actions')
    ensures var (c, c') := (run[|actions|], run'[|actions'|]);
            && c'.agreed == c.agreed && c'.proposers == c.proposers && |c'.nodes| == |c.nodes|
            && SameWorker(c'.nodes[id], Ran(id, peers, w, turns).0)
    ensures Ran(id, peers, w, turns).1.Running? ==> BetweenTurns(run', actions', id, Ran(id, peers, w, turns).0)
  {
    var c := run[|actions|];
    var trace, steps := LoopIsARunOfSteps(c.agreed, id, peers, c.nodes[id], w, turns, moves);
    run', actions' := TraceExtendsRun(run, actions, id, trace, steps);
  }

  lemma {:induction false} AckWasSeen(seen: seq<Seen>, ack: Ack) returns (p: nat)
    requires ack in OksIn(seen)
    ensures p < |seen| && seen[p] == PutOk(ack.put, ack.index)
  {
    var last := |seen| - 1;
    if ack in OkOf(seen[last]) {
      p := last;
    } else {
      p := AckWasSeen(seen[..last], ack);
    }
  }

  /** Every Ok of the worker names an entry with the client's pair that is agreed and
      applied, and the worker's store has the value of that put or of a later one: a read
      of the key from then on answers the last put to it among the entries applied. */
  lemma WorkerReadsItsWrites(run: seq<Cluster>, actions: seq<Action>, id: nat, peers: set<nat>, w: WorkerState,
                             turns: seq<Turn>, moves: seq<TurnMoves>, ack: Ack)
    returns (z: nat, at: nat)
    requires BetweenTurns(run, actions, id, w) && CanCome(run[|actions|], id, w, turns, moves)
    requires ack in Ran(id, peers, w, turns).0.book.acked
    ensures var (w', agreed) := (Ran(id, peers, w, turns).0, run[|actions|].agreed);
            && 1 <= ack.index <= z + 1 <= at <= |agreed|
            && IsPut(agreed[ack.index - 1], ack.put.key, ack.put.value)
            && PutsTo(agreed[z], ack.put.key) && (forall j :: z < j < at ==> !PutsTo(agreed[j], ack.put.key))
            && w'.view.store == Replay(agreed[..at])
            && Lookup(w'.view.store, ack.put.key) == Some(agreed[z].data.cmd.value)
  {
    var run', actions' := LoopReaches(run, actions, id, peers, w, turns, moves);
    z, at := StateReadsItsWrites(run', actions', |actions'|, id, ack);
  }

  lemma StateReadsItsWrites(run: seq<Cluster>, actions: seq<Action>, i: nat, id: nat, ack: Ack)
    returns (z: nat, at: nat)
    requires IsRun(run, actions) && i < |run| && id < |run[i].nodes| && ack in run[i].nodes[id].book.acked
    ensures var (n, agreed) := (run[i].nodes[id], run[i].agreed);
            && 1 <= ack.index <= z + 1 <= at <= |agreed|
            && IsPut(agreed[ack.index - 1], ack.put.key, ack.put.value)
            && PutsTo(agreed[z], ack.put.key) && (forall j :: z < j < at ==> !PutsTo(agreed[j], ack.put.key))
            && n.view.store == Replay(agreed[..at])
            && Lookup(n.view.store, ack.put.key) == Some(agreed[z].data.cmd.value)
  {
    var n, agreed := run[i].nodes[id], run[i].agreed;
    BookIsOk(run, actions, i, id);
    var p := AckWasSeen(n.seen, ack);
    OkMeansAppliedForGood(run, actions, i, i, id, p);
    StoresConverge(run, actions, i, id, id);
    at := n.applied;
    z := LastPutBefore(agreed, at, ack.put.key, ack.index - 1);
  }

  lemma BookIsOk(run: seq<Cluster>, actions: seq<Action>, i: nat, id: nat)
    requires IsRun(run, actions) && i < |run| && id < |run[i].nodes|
    ensures BookOk(run[i].nodes[id])
  {
    RunKeepsProposers(run, actions, i);
    assert HistoryOk(run[i].proposers, id, run[i].nodes[id]);
  }

  lemma LastPutBefore(agreed: seq<Entry>, at: nat, key: string, x: nat) returns (z: nat)
    requires x < at <= |agreed| && PutsTo(agreed[x], key)
    ensures x <= z < at && PutsTo(agreed[z], key) && (forall j :: z < j < at ==> !PutsTo(agreed[j], key))
    ensures Lookup(Replay(agreed[..at]), key) == Some(agreed[z].data.cmd.value)
  {
    var es := agreed[..at];
    z := FindLastPut(es, key, x);
    LastPutWins(es, key, z);
    forall j | z < j < at
      ensures !PutsTo(agreed[j], key)
    {
      assert !PutsTo(es[j], key);
    }
  }

  /** The Oks of the event loop reach the clients whose puts became the entries, if and only
      if no entry was applied while a waiting put of its pair stood before its proposer's. */
  lemma WorkerOksReachTheirProposers(run: seq<Cluster>, actions: seq<Action>, id: nat, peers: set<nat>, w: WorkerState,
                                     turns: seq<Turn>, moves: seq<TurnMoves>)
    requires BetweenTurns(run, actions, id, w) && CanCome(run[|actions|], id, w, turns, moves)
    ensures var (w', proposer) := (Ran(id, peers, w, turns).0, ProposerOn(run[|actions|].proposers, id));
            OksReachProposers(w'.book.acked, proposer) <==> Unambiguous(w'.history, proposer)
  {
    var run', actions' := LoopReaches(run, actions, id, peers, w, turns, moves);
    OksReachTheirProposersIffUnambiguous(run', actions', |actions'|, id);
  }

  /** The values that the event loop replied to reads are those that clients saw: each is
      the value of its key in the store of a prefix of the agreed log, and no later read is
      from a shorter prefix. */
  lemma WorkerReadsAreOfThePrefix(run: seq<Cluster>, actions: seq<Action>, id: nat, peers: set<nat>, w: WorkerState,
                                  turns: seq<Turn>, moves: seq<TurnMoves>)
    returns (gets: seq<Seen>)
    requires BetweenTurns(run, actions, id, w) && CanCome(run[|actions|], id, w, turns, moves)
    ensures var (values, agreed) := (ValuesSent(Ran(id, peers, w, turns).0.replies), run[|actions|].agreed);
            && |gets| == |values|
            && (forall k :: 0 <= k < |gets| ==>
                  && gets[k].GetAnswer? && gets[k].value == values[k] && gets[k].at <= |agreed|
                  && values[k] == Lookup(Replay(agreed[..gets[k].at]), gets[k].key))
            && (forall k, l :: 0 <= k < l < |gets| ==> gets[k].at <= gets[l].at)
  {
    var run', actions' := LoopReaches(run, actions, id, peers, w, turns, moves);
    var seen := run'[|actions'|].nodes[id].seen;
    var f;
    gets, f := GetsIn(seen);
    forall k | 0 <= k < |gets|
      ensures gets[k].at <= |run[|actions|].agreed|
      ensures gets[k].value == Lookup(Replay(run[|actions|].agreed[..gets[k].at]), gets[k].key)
    {
      ReadIsOfAPrefix(run', actions', |actions'|, id, f[k]);
    }
    forall k, l | 0 <= k < l < |gets|
      ensures gets[k].at <= gets[l].at
    {
      ReadsAreMonotone(run', actions', |actions'|, id, f[k], f[l]);
    }
  }

  /** The reads among what was seen, and where they stand. */
  lemma {:induction false} GetsIn(seen: seq<Seen>) returns (gets: seq<Seen>, f: seq<nat>)
    ensures |gets| == |f| == |ValuesSeen(seen)|
    ensures forall k :: 0 <= k < |f| ==> f[k] < |seen| && seen[f[k]] == gets[k] && gets[k].GetAnswer?
    ensures forall k :: 0 <= k < |gets| ==> gets[k].GetAnswer? && gets[k].value == ValuesSeen(seen)[k]
    ensures forall k, l :: 0 <= k < l < |f| ==> f[k] < f[l]
  {
    gets, f := [], [];
    if seen != [] {
      var last := |seen| - 1;
      gets, f := GetsIn(seen[..last]);
      if seen[last].GetAnswer? {
        gets, f := gets + [seen[last]], f + [last];
      }
    }
  }

  lemma ReadIsOfAPrefix(run: seq<Cluster>, actions: seq<Action>, i: nat, id: nat, p: nat)
    requires IsRun(run, actions) && i < |run| && id < |run[i].nodes|
    requires p < |run[i].nodes[id].seen| && run[i].nodes[id].seen[p].GetAnswer?
    ensures var (get, agreed) := (run[i].nodes[id].seen[p], run[i].agreed);
            get.at <= |agreed| && get.value == Lookup(Replay(agreed[..get.at]), get.key)
  {
    RaftSafety.RunKeeps(run, actions, i);
    var n := run[i].nodes[id];
    assert NodeInv(run[i].agreed, id, n);
    assert FactOk(run[i].agreed, n, n.seen[p]);
  }
}
