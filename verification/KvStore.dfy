/** The key-value store that every node keeps (src/store.rs). */
module KvStores {
  import opened Basics
  import opened RaftLog

  class KvStore {
    var data: Kv

    constructor ()
      ensures data == map[]
    {
      data := map[];
    }

    method Put(key: string, value: string)
      modifies this
      ensures data == old(data)[key := value]
    {
      data := data[key := value];
    }

    method Get(key: string) returns (r: Option<string>)
      ensures r == Lookup(data, key)
    {
      if key in data {
        r := Some(data[key]);
      } else {
        r := None;
      }
    }

    method Snapshot() returns (r: Kv)
      ensures r == data
    {
      r := data;
    }
  }
}
