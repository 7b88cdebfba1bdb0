/**
 * The external cache store (an Illuminate cache repository) as ImageCache uses
 * it: `get($key)` answers the stored value or `null`, `put($key, $value, $minutes)`
 * stores a value. Expiry after the lifetime is not modelled; every `put` is
 * logged so that callers can state how many writes happened and with what.
 */
module CacheRepository {

  import opened Wrappers

  /** One `put($key, $value, $minutes)` call. */
  datatype PutRecord = PutRecord(key: string, value: string, minutes: int)

  class Repository {
    var entries: map<string, string>
    var puts: seq<PutRecord>

    constructor (entries: map<string, string>)
      ensures this.entries == entries && puts == []
    {
      this.entries := entries;
      puts := [];
    }

    /** What `get($key)` answers: the stored value, or `null` for a missing key. */
    function Lookup(key: string): Option<string>
      reads this
    {
      if key in entries then Some(entries[key]) else None
    }

    method Get(key: string) returns (v: Option<string>)
      ensures v.Some? <==> key in entries
      ensures v.Some? ==> v.value == entries[key]
    {
      if key in entries {
        v := Some(entries[key]);
      } else {
        v := None;
      }
    }

    method Put(key: string, value: string, minutes: int)
      modifies this
      ensures entries == old(entries)[key := value]
      ensures puts == old(puts) + [PutRecord(key, value, minutes)]
    {
      entries := entries[key := value];
      puts := puts + [PutRecord(key, value, minutes)];
    }
  }
}
