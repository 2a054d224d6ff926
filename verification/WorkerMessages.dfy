/** What one pass of the drain loop of src/runtime.rs sends, and why it may fail, told in
    terms of the batch that the library hands out. */
module WorkerMessages {
  import opened Basics
  import opened RaftLog
  import opened RaftNodes
  import opened PendingPuts
  import opened Workers

  // ---------- Dispatch ----------

  /** `after` is `before` and then, in order and each once, those of `all` that are for a
      known peer. */
  ghost predicate Emits(id: nat, peers: set<nat>, all: seq<Message>, before: seq<Message>, after: seq<Message>) {
    before <= after && exists f :: SelectsPeers(f, id, peers, all, after[|before|..])
  }

  ghost predicate SelectsPeers(f: seq<nat>, id: nat, peers: set<nat>, all: seq<Message>, out: seq<Message>) {
    Embeds(f, out, all) && forall i :: 0 <= i < |all| ==> (i in f <==> all[i].to != id && all[i].to in peers)
  }

  lemma SelectsJoined(f: seq<nat>, g: seq<nat>, id: nat, peers: set<nat>, all: seq<Message>, out: seq<Message>,
                      all': seq<Message>, out': seq<Message>)
    requires SelectsPeers(f, id, peers, all, out) && SelectsPeers(g, id, peers, all', out')
    ensures SelectsPeers(Joined(f, |all|, g), id, peers, all + all', out + out')
  {
    EmbedsJoined(f, out, all, g, out', all');
    forall i: nat | i < |all + all'|
      ensures i in Joined(f, |all|, g) <==> (all + all')[i].to != id && (all + all')[i].to in peers
    {
      InJoined(f, |all|, g, i);
    }
  }

  lemma OneSelected(id: nat, peers: set<nat>, m: Message)
    ensures var goes := m.to != id && m.to in peers;
            SelectsPeers(if goes then [0] else [], id, peers, [m], if goes then [m] else [])
  {
    assert [0][0] == 0;
  }

  lemma {:induction false} SentSelectsPeers(id: nat, peers: set<nat>, msgs: seq<Message>, rejected: set<Message>)
    returns (n: nat, f: seq<nat>)
    ensures n <= |msgs| && AllTaken(id, msgs[..n], rejected)
    ensures n < |msgs| ==> msgs[n].to == id && msgs[n] in rejected
    ensures SelectsPeers(f, id, peers, msgs[..n], Sent(id, peers, msgs, rejected))
  {
    n, f := 0, [];
    if msgs != [] && !(msgs[0].to == id && msgs[0] in rejected) {
      var rest, g := SentSelectsPeers(id, peers, msgs[1..], rejected);
      var m := msgs[0];
      var goes := m.to != id && m.to in peers;
      OneSelected(id, peers, m);
      SelectsJoined(if goes then [0] else [], g, id, peers, [m], if goes then [m] else [], msgs[1..][..rest],
                    Sent(id, peers, msgs[1..], rejected));
      NothingBefore(Sent(id, peers, msgs[1..], rejected));
      n, f := rest + 1, Joined(if goes then [0] else [], 1, g);
      FirstAndRest(msgs, n);
      FirstIsTaken(id, m, msgs[1..][..rest], rejected);
    }
  }

  lemma FirstAndRest<T>(s: seq<T>, n: nat)
    requires 0 < n <= |s|
    ensures s[..n] == [s[0]] + s[1..][..n - 1]
  {
  }

  lemma FirstIsTaken(id: nat, m: Message, rest: seq<Message>, rejected: set<Message>)
    requires !(m.to == id && m in rejected) && AllTaken(id, rest, rejected)
    ensures AllTaken(id, [m] + rest, rejected)
  {
  }

  /** n messages are dispatched: all, or those in front of the first one to the node itself
      that its library rejects. Of these, exactly the ones for a known peer go out, each
      once and in order: f lists their positions. */
  lemma SentIsTheMessagesToPeers(id: nat, peers: set<nat>, msgs: seq<Message>, rejected: set<Message>)
    returns (n: nat, f: seq<nat>)
    ensures n <= |msgs|
    ensures forall i :: 0 <= i < n ==> !(msgs[i].to == id && msgs[i] in rejected)
    ensures n < |msgs| ==> msgs[n].to == id && msgs[n] in rejected
    ensures Embeds(f, Sent(id, peers, msgs, rejected), msgs[..n])
    ensures forall i :: 0 <= i < n ==> (i in f <==> msgs[i].to != id && msgs[i].to in peers)
  {
    n, f := SentSelectsPeers(id, peers, msgs, rejected);
    forall i | 0 <= i < n
      ensures msgs[..n][i] == msgs[i]
    {
    }
  }

  lemma EmitsMore(id: nat, peers: set<nat>, a: seq<Message>, b: seq<Message>, x: seq<Message>, y: seq<Message>,
                  z: seq<Message>)
    requires Emits(id, peers, a, x, y) && Emits(id, peers, b, y, z)
    ensures Emits(id, peers, a + b, x, z)
  {
    var f :| SelectsPeers(f, id, peers, a, y[|x|..]);
    var g :| SelectsPeers(g, id, peers, b, z[|y|..]);
    SelectsJoined(f, g, id, peers, a, y[|x|..], b, z[|y|..]);
    Tails(x, y, z);
  }

  lemma Tails<T>(x: seq<T>, y: seq<T>, z: seq<T>)
    requires x <= y <= z
    ensures x <= z && y[|x|..] + z[|y|..] == z[|x|..]
  {
  }

  lemma EmitsNothing(id: nat, peers: set<nat>, sent: seq<Message>)
    ensures Emits(id, peers, [], sent, sent)
  {
    assert SelectsPeers([], id, peers, [], sent[|sent|..]);
  }

  lemma EmitsSent(id: nat, peers: set<nat>, msgs: seq<Message>, rejected: set<Message>, sent: seq<Message>)
    returns (n: nat)
    ensures n <= |msgs| && AllTaken(id, msgs[..n], rejected)
    ensures n < |msgs| ==> msgs[n].to == id && msgs[n] in rejected
    ensures Emits(id, peers, msgs[..n], sent, sent + Sent(id, peers, msgs, rejected))
  {
    var f;
    n, f := SentSelectsPeers(id, peers, msgs, rejected);
    var out := Sent(id, peers, msgs, rejected);
    assert (sent + out)[|sent|..] == out;
    assert SelectsPeers(f, id, peers, msgs[..n], out);
  }

  // ---------- A poll ----------

  function BatchMessages(p: Poll): seq<Message> {
    p.ready.messages + p.ready.persistedMessages + p.light.messages
  }

  function BatchEntries(p: Poll): seq<Entry> {
    p.ready.committed + p.light.committed
  }

  ghost predicate SomeMalformed(es: seq<Entry>) {
    exists i :: 0 <= i < |es| && es[i].kind.EntryNormal? && es[i].data.Malformed?
  }

  lemma {:induction false} AllDecodableIffPrefix(es: seq<Entry>)
    ensures DecodablePrefix(es) == es <==> !SomeMalformed(es)
  {
    if es != [] {
      AllDecodableIffPrefix(es[1..]);
      if SomeMalformed(es[1..]) {
        var i :| 0 <= i < |es[1..]| && es[1..][i].kind.EntryNormal? && es[1..][i].data.Malformed?;
        assert es[i + 1].data.Malformed?;
      }
      if !Undecodable(es[0]) {
        SameRest(es, DecodablePrefix(es[1..]));
        if SomeMalformed(es) {
          var i :| 0 <= i < |es| && es[i].kind.EntryNormal? && es[i].data.Malformed?;
          assert es[1..][i - 1].data.Malformed?;
        }
      }
    }
  }

  lemma SameRest<T>(s: seq<T>, rest: seq<T>)
    requires s != []
    ensures [s[0]] + rest == s <==> rest == s[1..]
  {
    assert s == [s[0]] + s[1..];
    if [s[0]] + rest == s {
      assert ([s[0]] + rest)[1..] == rest;
    }
  }

  lemma MalformedInSum(a: seq<Entry>, b: seq<Entry>)
    ensures SomeMalformed(a + b) <==> SomeMalformed(a) || SomeMalformed(b)
  {
    if i :| 0 <= i < |a| && a[i].kind.EntryNormal? && a[i].data.Malformed? {
      assert (a + b)[i].data.Malformed?;
    }
    if i :| 0 <= i < |b| && b[i].kind.EntryNormal? && b[i].data.Malformed? {
      assert (a + b)[|a| + i].data.Malformed?;
    }
    if i :| 0 <= i < |a + b| && (a + b)[i].kind.EntryNormal? && (a + b)[i].data.Malformed? {
      assert if i < |a| then a[i].data.Malformed? else b[i - |a|].data.Malformed?;
    }
  }

  /** A poll fails to append exactly when its entries leave a gap in storage or have no
      index, fails to decode exactly when some entry of either phase is malformed, and
      otherwise brings the messages and reports of both phases in order. */
  lemma PollOutcome(id: nat, v: NodeView, p: Poll)
    ensures var r := Polled(id, v, Some(p.ready), p.light).1;
            && (r == Err(AppendFailed) <==>
                p.ready.entries != [] && (p.ready.entries[0].index == 0 || p.ready.entries[0].index > |v.stored| + 1))
            && (r == Err(DecodeFailed) <==>
                r != Err(AppendFailed) && SomeMalformed(p.ready.committed + p.light.committed))
            && (r.Ok? ==>
                  r.value == Some(ReadyBundle(p.ready.messages + p.ready.persistedMessages + p.light.messages,
                                              Reports(id, p.ready.committed + p.light.committed))))
  {
    AllDecodableIffPrefix(p.ready.committed);
    AllDecodableIffPrefix(p.light.committed);
    MalformedInSum(p.ready.committed, p.light.committed);
    ReportsInBatches(id, p.ready.committed, p.light.committed);
  }

  /** What a successful poll leaves: the hard state of the first phase with the commit index
      of the second, each kept where the library gives none; the stored entries up to the
      first new one and then the new ones; and the store with all entries of both phases. */
  lemma PollStores(id: nat, v: NodeView, p: Poll)
    requires Polled(id, v, Some(p.ready), p.light).1.Ok?
    ensures var (v', hs, es) := (Polled(id, v, Some(p.ready), p.light).0, p.ready.hs, p.ready.entries);
            && v'.hard.term == (if hs.Some? then hs.value.term else v.hard.term)
            && v'.hard.vote == (if hs.Some? then hs.value.vote else v.hard.vote)
            && v'.hard.commit == (if p.light.commit.Some? then p.light.commit.value
                                  else if hs.Some? then hs.value.commit else v.hard.commit)
            && (es == [] ==> v'.stored == v.stored)
            && (es != [] ==>
                  1 <= es[0].index <= |v.stored| + 1 && v'.stored == v.stored[..es[0].index - 1] + es)
            && v'.store == ApplyTo(v.store, p.ready.committed + p.light.committed)
  {
    ApplyInBatches(v.store, p.ready.committed, p.light.committed);
  }

  // ---------- A pass ----------

  /** The batch goes through: all entries decode and no message to the node is rejected. */
  ghost predicate GoesThrough(id: nat, p: Poll) {
    !SomeMalformed(BatchEntries(p)) && AllTaken(id, BatchMessages(p), p.rejected)
  }

  /** Why a pass fails after d of its messages: the poll finds a malformed entry or a gap,
      or the message that follows is for the node itself and rejected. */
  ghost predicate FailsAfter(id: nat, p: Poll, d: nat, e: WorkerError) {
    match e
    case StepFailed =>
      && d < |BatchMessages(p)| && BatchMessages(p)[d].to == id && BatchMessages(p)[d] in p.rejected
      && AllTaken(id, BatchMessages(p)[..d], p.rejected) && !SomeMalformed(BatchEntries(p))
    case PollFailed(DecodeFailed) => d == 0 && SomeMalformed(BatchEntries(p))
    case PollFailed(AppendFailed) => d == 0 && p.ready.entries != []
  }

  /** A pass sends the messages of its batch that are for known peers, up to the rejected
      one if there is one, and only when all are dispatched are its reports handled. */
  lemma PassTells(id: nat, peers: set<nat>, w: WorkerState, p: Poll) returns (d: nat)
    ensures var (w', o) := Passed(id, peers, w, p);
            && d <= |BatchMessages(p)|
            && Emits(id, peers, BatchMessages(p)[..d], w.sent, w'.sent)
            && w'.replies == w.replies
            && if o.Running? then
                 && GoesThrough(id, p) && d == |BatchMessages(p)|
                 && w'.history == w.history + NotifyOps(Reports(id, BatchEntries(p)))
               else
                 o.Crashed? && FailsAfter(id, p, d, o.error) && w'.history == w.history && w'.book == w.book
  {
    PollOutcome(id, w.view, p);
    d := 0;
    if Polled(id, w.view, Some(p.ready), p.light).1.Ok? {
      d := EmitsSent(id, peers, BatchMessages(p), p.rejected, w.sent);
      if d == |BatchMessages(p)| {
        assert BatchMessages(p)[..d] == BatchMessages(p);
      }
    } else {
      EmitsNothing(id, peers, w.sent);
      assert BatchMessages(p)[..0] == [];
    }
  }
}
