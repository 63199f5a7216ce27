/**
 * The in-memory, time-limited key/value store the AQI routes build with a
 * default time-to-live of 600 seconds. The clock is an explicit argument in
 * milliseconds. An entry set at time `t` carries the expiry stamp
 * `t + 600000` and expires once a read happens strictly after that stamp; a
 * read that finds an expired entry deletes it and reports a miss.
 */
module ResponseCache {
  import opened Json

  /** The default time-to-live, in seconds, and in the milliseconds the clock counts. */
  const StdTtlSeconds: nat := 600
  const StdTtlMs: nat := StdTtlSeconds * 1000

  /** A stored value with the time it was set. */
  datatype Entry = Entry(value: Json, insertedAt: int)

  type Store = map<string, Entry>

  /** The entry for `key` has not expired at `now`. */
  predicate IsLive(st: Store, key: string, now: int) {
    key in st && now <= st[key].insertedAt + StdTtlMs
  }

  /** A read at `now`: the value when live, and the store after lazy eviction. */
  function Read(st: Store, key: string, now: int): (Option<Json>, Store) {
    if IsLive(st, key, now) then (Some(st[key].value), st)
    else (None, st - {key})
  }

  /** A write at `now`: unconditionally replaces the entry for `key`. */
  function Write(st: Store, key: string, value: Json, now: int): Store {
    st[key := Entry(value, now)]
  }

  /** A value written at `t0` is read back at every `t1` up to the TTL and at none after it. */
  lemma ReadAfterWrite(st: Store, key: string, value: Json, t0: int, t1: int)
    ensures t1 <= t0 + StdTtlMs ==> Read(Write(st, key, value, t0), key, t1).0 == Some(value)
    ensures t1 > t0 + StdTtlMs ==> Read(Write(st, key, value, t0), key, t1).0 == None
  {
  }

  /** Reads and writes of one key leave every other key's entry as it was. */
  lemma OtherKeysUntouched(st: Store, key: string, other: string, value: Json, now: int)
    requires other != key
    ensures other in Read(st, key, now).1 <==> other in st
    ensures other in st ==> Read(st, key, now).1[other] == st[other]
    ensures other in Write(st, key, value, now) <==> other in st
    ensures other in st ==> Write(st, key, value, now)[other] == st[other]
  {
  }

  /** Eviction on read is unobservable: it removes only an entry that no read could return. */
  lemma ReadEvictsOnlyExpired(st: Store, key: string, now: int, later: int)
    requires now <= later
    ensures Read(Read(st, key, now).1, key, later).0 == Read(st, key, later).0
  {
  }

  class Cache {
    var entries: Store

    constructor ()
      ensures entries == map[]
    {
      entries := map[];
    }

    method Get(key: string, now: int) returns (r: Option<Json>)
      modifies this
      ensures (r, entries) == Read(old(entries), key, now)
    {
      if key in entries && now <= entries[key].insertedAt + StdTtlMs {
        r := Some(entries[key].value);
      } else {
        r := None;
        entries := entries - {key};
      }
    }

    method Set(key: string, value: Json, now: int)
      modifies this
      ensures entries == Write(old(entries), key, value, now)
    {
      entries := entries[key := Entry(value, now)];
    }
  }
}
