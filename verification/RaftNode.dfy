/** One node: the durable storage, the store, and the two-phase Ready loop of
    src/node.rs. What the Raft library hands out on each call is an argument. */
module RaftNodes {
  import opened Basics
  import opened RaftLog
  import opened KvStores

  datatype HardState = HardState(term: nat, vote: nat, commit: nat)

  datatype Message = Message(to: nat, body: seq<nat>)

  /** First phase of the library's output. Snapshots are always empty here. */
  datatype Ready = Ready(
    hs: Option<HardState>,
    entries: seq<Entry>,
    committed: seq<Entry>,
    messages: seq<Message>,
    persistedMessages: seq<Message>)

  /** Second phase, handed out once the first has been acknowledged. */
  datatype LightReady = LightReady(commit: Option<nat>, committed: seq<Entry>, messages: seq<Message>)

  datatype ReadyBundle = ReadyBundle(messages: seq<Message>, applied: seq<ApplyReport>)

  datatype PollError = AppendFailed | DecodeFailed

  /** What a node keeps besides the library: the hard state and the entries in
      storage, and the key-value store. */
  datatype NodeView = NodeView(hard: HardState, stored: seq<Entry>, store: Kv)

  // ---------- The steps of one poll ----------

  function HardStateWritten(v: NodeView, hs: Option<HardState>): NodeView {
    if hs.Some? then v.(hard := hs.value) else v
  }

  /** New entries may overwrite a suffix of the stored ones but leave no gap. */
  predicate Appendable(stored: seq<Entry>, es: seq<Entry>) {
    es != [] ==> 1 <= es[0].index <= |stored| + 1
  }

  function EntriesWritten(v: NodeView, es: seq<Entry>): NodeView
    requires Appendable(v.stored, es)
  {
    if es == [] then v else v.(stored := v.stored[..es[0].index - 1] + es)
  }

  function CommitWritten(v: NodeView, commit: Option<nat>): NodeView {
    if commit.Some? then v.(hard := v.hard.(commit := commit.value)) else v
  }

  function EntriesApplied(v: NodeView, es: seq<Entry>): NodeView {
    v.(store := ApplyTo(v.store, DecodablePrefix(es)))
  }

  function Polled(id: nat, v: NodeView, ready: Option<Ready>, light: LightReady)
    : (r: (NodeView, Result<Option<ReadyBundle>, PollError>))
  {
    if ready.None? then (v, Ok(None))
    else
      var rd := ready.value;
      var v1 := HardStateWritten(v, rd.hs);
      if !Appendable(v1.stored, rd.entries) then (v1, Err(AppendFailed))
      else
        var v2 := EntriesApplied(EntriesWritten(v1, rd.entries), rd.committed);
        if DecodablePrefix(rd.committed) != rd.committed then (v2, Err(DecodeFailed))
        else
          var v3 := EntriesApplied(CommitWritten(v2, light.commit), light.committed);
          if DecodablePrefix(light.committed) != light.committed then (v3, Err(DecodeFailed))
          else
            (v3, Ok(Some(ReadyBundle(
                           rd.messages + rd.persistedMessages + light.messages,
                           Reports(id, rd.committed) + Reports(id, light.committed)))))
  }

  // ---------- The node ----------

  class MemStorage {
    var hardState: HardState
    var entries: seq<Entry>

    constructor ()
      ensures hardState == HardState(0, 0, 0) && entries == []
    {
      hardState := HardState(0, 0, 0);
      entries := [];
    }

    method SetHardState(hs: HardState)
      modifies this`hardState
      ensures hardState == hs
    {
      hardState := hs;
    }

    method SetCommit(commit: nat)
      modifies this`hardState
      ensures hardState == old(hardState).(commit := commit)
    {
      hardState := hardState.(commit := commit);
    }

    method Append(es: seq<Entry>) returns (ok: bool)
      modifies this`entries
      ensures ok == Appendable(old(entries), es)
      ensures !ok || es == [] ==> entries == old(entries)
      ensures ok && es != [] ==> entries == old(entries)[..es[0].index - 1] + es
    {
      if es == [] {
        ok := true;
      } else if es[0].index < 1 || es[0].index > |entries| + 1 {
        ok := false;
      } else {
        entries := entries[..es[0].index - 1] + es;
        ok := true;
      }
    }
  }

  class RaftNode {
    const id: nat
    const storage: MemStorage
    const store: KvStore

    ghost function View(): NodeView
      reads storage, store
    {
      NodeView(storage.hardState, storage.entries, store.data)
    }

    constructor (id: nat)
      ensures this.id == id && fresh(storage) && fresh(store)
      ensures View() == NodeView(HardState(0, 0, 0), [], map[])
    {
      this.id := id;
      storage := new MemStorage();
      store := new KvStore();
    }

    /** Applies committed entries in order and stops at the first that does not decode;
        what was applied before it stays applied and its reports are dropped. */
    method ApplyEntries(entries: seq<Entry>) returns (r: Result<seq<ApplyReport>, PollError>)
      modifies store
      ensures View() == EntriesApplied(old(View()), entries)
      ensures r == if DecodablePrefix(entries) == entries then Ok(Reports(id, entries)) else Err(DecodeFailed)
    {
      var applied: seq<ApplyReport> := [];
      for i := 0 to |entries|
        invariant AllDecodable(entries[..i])
        invariant applied == Reports(id, entries[..i])
        invariant store.data == ApplyTo(old(store.data), entries[..i])
      {
        var entry := entries[i];
        ApplyOneMore(id, old(store.data), entries, i);
        if entry.data.Empty? {
          continue;
        }
        if entry.kind.EntryNormal? {
          if entry.data.Malformed? {
            DecodablePrefixStops(entries, i);
            return Err(DecodeFailed);
          }
          var report := ApplyCommand(entry.index, entry.term, entry.data.cmd);
          applied := applied + [report];
        }
      }
      assert entries[..|entries|] == entries;
      DecodablePrefixStops(entries, |entries|);
      r := Ok(applied);
    }

    method ApplyCommand(index: nat, term: nat, cmd: Command) returns (report: ApplyReport)
      modifies store
      ensures store.data == old(store.data)[cmd.key := cmd.value]
      ensures report == ApplyReport(id, cmd.key, cmd.value, index, term)
    {
      match cmd
      case Put(key, value) =>
        store.Put(key, value);
        report := ApplyReport(id, key, value, index, term);
    }

    /** One turn of the Ready loop. `ready` is None when the library has no work; `light`
        is what it returns once `ready` is acknowledged. */
    method PollReady(ready: Option<Ready>, light: LightReady) returns (r: Result<Option<ReadyBundle>, PollError>)
      modifies storage, store
      ensures (View(), r) == Polled(id, old(View()), ready, light)
    {
      if ready.None? {
        return Ok(None);
      }
      var rd := ready.value;
      if rd.hs.Some? {
        storage.SetHardState(rd.hs.value);
      }
      ghost var v1 := View();
      assert v1 == HardStateWritten(old(View()), rd.hs);
      if rd.entries != [] {
        var appended := storage.Append(rd.entries);
        if !appended {
          return Err(AppendFailed);
        }
      }
      assert View() == EntriesWritten(v1, rd.entries);
      var applied := ApplyEntries(rd.committed);
      if applied.Err? {
        return Err(applied.error);
      }
      var outbound := rd.messages;
      outbound := outbound + rd.persistedMessages;

      ghost var v2 := View();
      if light.commit.Some? {
        storage.SetCommit(light.commit.value);
      }
      assert View() == CommitWritten(v2, light.commit);
      var more := ApplyEntries(light.committed);
      if more.Err? {
        return Err(more.error);
      }
      outbound := outbound + light.messages;

      r := Ok(Some(ReadyBundle(outbound, applied.value + more.value)));
    }

    method ValueFor(key: string) returns (r: Option<string>)
      ensures r == Lookup(View().store, key)
    {
      r := store.Get(key);
    }
  }
}
