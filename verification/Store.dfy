// storage/store.py: the key-value store.

module Stores {
  import opened Prelude
  import opened Types

  class KVStore {
    var data: Store

    constructor ()
      ensures data == map[]
    {
      data := map[];
    }

    method Put(key: string, value: string)
      modifies this
      ensures data == old(data)[key := value]
    {
      data := data[key := value];
    }

    method Get(key: string) returns (value: Option<string>)
      ensures value == if key in data then Some(data[key]) else None
    {
      return if key in data then Some(data[key]) else None;
    }

    method Delete(key: string) returns (found: bool)
      modifies this
      ensures found <==> key in old(data)
      ensures data == old(data) - {key}
    {
      if key !in data {
        assert data == data - {key};
        return false;
      }
      data := data - {key};
      return true;
    }

    method Snapshot() returns (copy: Store)
      ensures copy == data
    {
      return data;
    }

    method Restore(copy: Store)
      modifies this
      ensures data == copy
    {
      data := copy;
    }
  }
}
