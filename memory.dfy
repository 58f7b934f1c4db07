/**
 * The in-process store: one map from key to state. Reads hand out a copy of
 * the entry; writes replace the entry whole; nothing ever fails, expires or
 * is evicted.
 */
module Memory {
  import opened Wrappers

  /**
   * The entry for `key` in `entries`, if there is one: the map read of
   * `get`, as a function, so that lemmas and other contracts can speak of it.
   */
  function Lookup<S>(entries: map<string, S>, key: string): (r: Option<S>)
    ensures r.Some? <==> key in entries
    ensures r.Some? ==> r.value == entries[key]
  {
    if key in entries then Some(entries[key]) else None
  }

  class MemoryStore<S> {
    var entries: map<string, S>

    /** A new store holds no entries. */
    constructor ()
      ensures entries == map[]
    {
      entries := map[];
    }

    /** The stored state for `key`, or nothing if the key was never set or has been cleared. */
    method Get(key: string) returns (r: Option<S>)
      ensures r.Some? <==> key in entries
      ensures r.Some? ==> r.value == entries[key]
    {
      if key in entries {
        r := Some(entries[key]);
      } else {
        r := None;
      }
    }

    /** Creates or replaces the entry for `key`; every other entry stays. */
    method Set(key: string, state: S)
      modifies this
      ensures entries == old(entries)[key := state]
    {
      entries := entries[key := state];
    }

    /** Removes the entry for `key`, if any; every other entry stays. */
    method Clear(key: string)
      modifies this
      ensures entries == old(entries) - {key}
    {
      entries := entries - {key};
    }
  }

  /** A new store has nothing under any key. */
  lemma EmptyStoreHasNoEntries<S>(key: string)
    ensures Lookup<S>(map[], key) == None
  {
  }

  /** After a set, the key reads back the state that was set and every other key reads as before. */
  lemma LookupAfterSet<S>(entries: map<string, S>, key: string, state: S, other: string)
    ensures Lookup(entries[key := state], key) == Some(state)
    ensures other != key ==> Lookup(entries[key := state], other) == Lookup(entries, other)
  {
  }

  /** After a clear, the key reads as absent, clearing again changes nothing, and every other key reads as before. */
  lemma LookupAfterClear<S>(entries: map<string, S>, key: string, other: string)
    ensures Lookup(entries - {key}, key) == None
    ensures (entries - {key}) - {key} == entries - {key}
    ensures other != key ==> Lookup(entries - {key}, other) == Lookup(entries, other)
  {
  }

  /** A client's view: set then get returns what was set, clear then get returns nothing, twice or once. */
  method SetGetClearRoundTrip<S>(store: MemoryStore<S>, key: string, state: S) returns (afterSet: Option<S>, afterClear: Option<S>, afterSecondClear: Option<S>)
    modifies store
    ensures afterSet == Some(state)
    ensures afterClear == None && afterSecondClear == None
    ensures store.entries == old(store.entries) - {key}
  {
    store.Set(key, state);
    afterSet := store.Get(key);
    store.Clear(key);
    afterClear := store.Get(key);
    store.Clear(key);
    afterSecondClear := store.Get(key);
  }
}
