/** The replicated log as the state machine sees it: entries, the commands they
    carry, the reports they produce, and the store that replaying them gives. */
module RaftLog {
  import opened Basics

  type Kv = map<string, string>

  datatype Command = Put(key: string, value: string)

  datatype EntryType = EntryNormal | EntryConfChange

  /** The data of an entry, up to the codec: no bytes at all, the encoding of a
      command, or bytes that do not decode. */
  datatype EntryData = Empty | Encoded(cmd: Command) | Malformed

  datatype Entry = Entry(index: nat, term: nat, kind: EntryType, data: EntryData)

  datatype ApplyReport = ApplyReport(nodeId: nat, key: string, value: string, index: nat, term: nat)

  /** The entry reaches the decoder: it is neither empty nor a configuration change. */
  predicate Carries(e: Entry) {
    !e.data.Empty? && e.kind.EntryNormal?
  }

  predicate Undecodable(e: Entry) {
    Carries(e) && e.data.Malformed?
  }

  ghost predicate AllDecodable(es: seq<Entry>) {
    forall i :: 0 <= i < |es| ==> !Undecodable(es[i])
  }

  predicate PutsTo(e: Entry, key: string) {
    Carries(e) && e.data.Encoded? && e.data.cmd.key == key
  }

  predicate IsPut(e: Entry, key: string, value: string) {
    PutsTo(e, key) && e.data.cmd.value == value
  }

  /** Entry i of a log has index i + 1. */
  ghost predicate WellIndexed(log: seq<Entry>) {
    forall i :: 0 <= i < |log| ==> log[i].index == i + 1
  }

  function Lookup(store: Kv, key: string): Option<string> {
    if key in store then Some(store[key]) else None
  }

  function ApplyOne(store: Kv, e: Entry): Kv {
    if Carries(e) && e.data.Encoded? then store[e.data.cmd.key := e.data.cmd.value] else store
  }

  function ApplyTo(store: Kv, es: seq<Entry>): Kv {
    if es == [] then store
    else ApplyOne(ApplyTo(store, es[..|es| - 1]), es[|es| - 1])
  }

  function Replay(es: seq<Entry>): Kv {
    ApplyTo(map[], es)
  }

  function ReportOf(id: nat, e: Entry): seq<ApplyReport> {
    if Carries(e) && e.data.Encoded?
    then [ApplyReport(id, e.data.cmd.key, e.data.cmd.value, e.index, e.term)]
    else []
  }

  function Reports(id: nat, es: seq<Entry>): seq<ApplyReport> {
    if es == [] then []
    else Reports(id, es[..|es| - 1]) + ReportOf(id, es[|es| - 1])
  }

  /** The entries that are applied before the first one that does not decode. */
  function DecodablePrefix(es: seq<Entry>): (r: seq<Entry>)
    ensures r <= es
  {
    if es == [] || Undecodable(es[0]) then []
    else [es[0]] + DecodablePrefix(es[1..])
  }

  lemma {:induction false} DecodablePrefixStops(es: seq<Entry>, k: nat)
    requires k <= |es| && AllDecodable(es[..k])
    requires k < |es| ==> Undecodable(es[k])
    ensures DecodablePrefix(es) == es[..k]
  {
    if k > 0 {
      assert es[1..][..k - 1] == es[..k][1..];
      assert !Undecodable(es[..k][0]);
      DecodablePrefixStops(es[1..], k - 1);
      assert es[..k] == [es[0]] + es[1..][..k - 1];
    }
  }

  /** Applying is insensitive to how the entries are cut into batches. */
  lemma {:induction false} ApplyInBatches(store: Kv, a: seq<Entry>, b: seq<Entry>)
    ensures ApplyTo(ApplyTo(store, a), b) == ApplyTo(store, a + b)
  {
    if b == [] {
      assert a + b == a;
    } else {
      ApplyInBatches(store, a, b[..|b| - 1]);
      AppendedLast(a, b);
    }
  }

  lemma {:induction false} ReportsInBatches(id: nat, a: seq<Entry>, b: seq<Entry>)
    ensures Reports(id, a) + Reports(id, b) == Reports(id, a + b)
  {
    if b == [] {
      assert a + b == a;
    } else {
      ReportsInBatches(id, a, b[..|b| - 1]);
      AppendedLast(a, b);
      calc {
        Reports(id, a + b);
        Reports(id, a + b[..|b| - 1]) + ReportOf(id, b[|b| - 1]);
        (Reports(id, a) + Reports(id, b[..|b| - 1])) + ReportOf(id, b[|b| - 1]);
        Reports(id, a) + (Reports(id, b[..|b| - 1]) + ReportOf(id, b[|b| - 1]));
      }
    }
  }

  lemma ApplyOneMore(id: nat, store: Kv, es: seq<Entry>, i: nat)
    requires i < |es|
    ensures ApplyTo(store, es[..i + 1]) == ApplyOne(ApplyTo(store, es[..i]), es[i])
    ensures Reports(id, es[..i + 1]) == Reports(id, es[..i]) + ReportOf(id, es[i])
  {
    assert es[..i + 1][..i] == es[..i];
  }

  /** Two nodes report the same applications, up to the node's own id. */
  lemma {:induction false} ReportsDifferOnlyInNode(id: nat, other: nat, es: seq<Entry>)
    ensures |Reports(id, es)| == |Reports(other, es)|
    ensures forall i :: 0 <= i < |Reports(id, es)| ==>
              Reports(id, es)[i] == Reports(other, es)[i].(nodeId := id)
  {
    if es != [] {
      ReportsDifferOnlyInNode(id, other, es[..|es| - 1]);
    }
  }

  /** Every report names an entry of the log that puts its pair, and reports come
      in strictly increasing index order. */
  lemma {:induction false} ReportsFollowTheLog(id: nat, es: seq<Entry>)
    requires WellIndexed(es)
    ensures forall r :: r in Reports(id, es) ==>
              1 <= r.index <= |es| && IsPut(es[r.index - 1], r.key, r.value) && r.term == es[r.index - 1].term
    ensures forall i, j :: 0 <= i < j < |Reports(id, es)| ==> Reports(id, es)[i].index < Reports(id, es)[j].index
  {
    if es != [] {
      ReportsFollowTheLog(id, es[..|es| - 1]);
      var before, last := Reports(id, es[..|es| - 1]), ReportOf(id, es[|es| - 1]);
      forall i, j | 0 <= i < j < |Reports(id, es)|
        ensures Reports(id, es)[i].index < Reports(id, es)[j].index
      {
        assert Reports(id, es)[i] == before[i];
        assert before[i] in before;
      }
    }
  }

  predicate HoldsPut(e: Entry) {
    e.kind.EntryNormal? && e.data.Encoded?
  }

  /** f lists, in order, the positions of exactly the entries that hold a put. */
  ghost predicate ListsPuts(f: seq<nat>, es: seq<Entry>) {
    && (forall i, j :: 0 <= i < j < |f| ==> f[i] < f[j])
    && (forall k :: 0 <= k < |f| ==> f[k] < |es| && HoldsPut(es[f[k]]))
    && (forall i :: 0 <= i < |es| && HoldsPut(es[i]) ==> i in f)
  }

  /** Report k is that of entry f[k]. */
  ghost predicate Announces(rs: seq<ApplyReport>, id: nat, es: seq<Entry>, f: seq<nat>) {
    |rs| == |f| && forall k :: 0 <= k < |f| ==> f[k] < |es| && AnnouncedBy(rs[k], id, es[f[k]])
  }

  predicate AnnouncedBy(r: ApplyReport, id: nat, e: Entry) {
    e.data.Encoded? && r == ApplyReport(id, e.data.cmd.key, e.data.cmd.value, e.index, e.term)
  }

  lemma ListsOneMore(f: seq<nat>, es: seq<Entry>, e: Entry)
    requires ListsPuts(f, es)
    ensures ListsPuts(if HoldsPut(e) then f + [|es|] else f, es + [e])
  {
    var f' := if HoldsPut(e) then f + [|es|] else f;
    forall i | 0 <= i < |es + [e]| && HoldsPut((es + [e])[i])
      ensures i in f'
    {
      if i < |es| {
        assert HoldsPut(es[i]);
      } else {
        assert f'[|f|] == i;
      }
    }
  }

  lemma AnnouncesOneMore(rs: seq<ApplyReport>, id: nat, es: seq<Entry>, f: seq<nat>, e: Entry)
    requires Announces(rs, id, es, f)
    ensures Announces(rs + ReportOf(id, e), id, es + [e], if HoldsPut(e) then f + [|es|] else f)
  {
  }

  /** The other direction, so that reports and puts correspond one to one: the k-th report
      is that of the k-th entry that holds a put. */
  lemma {:induction false} ReportsAreThePuts(id: nat, es: seq<Entry>) returns (f: seq<nat>)
    ensures ListsPuts(f, es) && Announces(Reports(id, es), id, es, f)
  {
    if es == [] {
      f := [];
    } else {
      var init, e := es[..|es| - 1], es[|es| - 1];
      f := ReportsAreThePuts(id, init);
      ListsOneMore(f, init, e);
      AnnouncesOneMore(Reports(id, init), id, init, f, e);
      LastAgain(es);
      f := if HoldsPut(e) then f + [|init|] else f;
    }
  }

  /** So no put is applied without being reported. */
  lemma EveryPutIsReported(id: nat, es: seq<Entry>, i: nat, key: string, value: string)
    requires i < |es| && es[i].kind.EntryNormal? && es[i].data == Encoded(Put(key, value))
    ensures ApplyReport(id, key, value, es[i].index, es[i].term) in Reports(id, es)
  {
    var f := ReportsAreThePuts(id, es);
    var k :| 0 <= k < |f| && f[k] == i;
    assert AnnouncedBy(Reports(id, es)[k], id, es[f[k]]);
  }

  /** What replaying means, first half: a key has the value of the last entry that
      puts it. */
  lemma {:induction false} LastPutWins(es: seq<Entry>, key: string, i: nat)
    requires i < |es| && PutsTo(es[i], key)
    requires forall j :: i < j < |es| ==> !PutsTo(es[j], key)
    ensures Lookup(Replay(es), key) == Some(es[i].data.cmd.value)
  {
    if i < |es| - 1 {
      LastPutWins(es[..|es| - 1], key, i);
    }
  }

  /** Second half: a key that no entry puts has no value. */
  lemma {:induction false} UnputKeyIsAbsent(es: seq<Entry>, key: string)
    requires forall j :: 0 <= j < |es| ==> !PutsTo(es[j], key)
    ensures Lookup(Replay(es), key) == None
  {
    if es != [] {
      UnputKeyIsAbsent(es[..|es| - 1], key);
    }
  }
}
