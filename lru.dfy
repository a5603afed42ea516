/** The part of `golang-lru`'s cache that the Twitter handler relies on. */
module Lru {

  /** One call made on the cache, in the order it was made. */
  datatype Op = Lookup(key: string) | Store(key: string, value: string)

  /** A string-to-string cache. `entries` is what a lookup sees; `ops` records
      every call made on it, since a lookup also counts as a use of an entry. */
  class Cache {
    var entries: map<string, string>
    ghost var ops: seq<Op>

    constructor ()
      ensures entries == map[] && ops == []
    {
      entries := map[];
      ops := [];
    }

    /** `Get(key) (value, ok)`: `ok` tells whether the key is cached, and then
        `value` is what is cached for it. */
    method Get(key: string) returns (value: string, ok: bool)
      modifies this`ops
      ensures ok <==> key in entries
      ensures ok ==> value == entries[key]
      ensures !ok ==> value == ""
      ensures entries == old(entries)
      ensures ops == old(ops) + [Lookup(key)]
    {
      ok := key in entries;
      value := if ok then entries[key] else "";
      ops := ops + [Lookup(key)];
    }

    /** `Add(key, value)`: afterwards the key maps to the value; no other key changes. */
    method Add(key: string, value: string)
      modifies this
      ensures entries == old(entries)[key := value]
      ensures ops == old(ops) + [Store(key, value)]
    {
      entries := entries[key := value];
      ops := ops + [Store(key, value)];
    }
  }
}
