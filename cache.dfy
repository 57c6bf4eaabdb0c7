/**
 * The string-keyed memo table (Helpers/Cache.php). A stored null is a value like any
 * other: it is represented by None, and a key that is present with None is a hit.
 */
module Caching {
  import opened Wrappers
  import opened Php

  class Cache<V> {
    /** The memo: key -> stored value, None standing for a stored null. */
    var entries: map<string, Option<V>>
    /** How many times a resolve callback has been run. */
    ghost var calls: nat

    constructor ()
      ensures entries == map[] && calls == 0
    {
      entries := map[];
      calls := 0;
    }

    /** resolve($key, $callback): a present key answers from the memo without running the
        callback; an absent key runs the callback once and stores what it returns. A callback
        that throws stores nothing and the exception passes through. `ran` tells the caller
        whether the callback ran, so that it can carry out the callback's side effects. */
    method Resolve(key: string, compute: () -> Result<Option<V>, Error>) returns (r: Result<Option<V>, Error>, ran: bool)
      modifies this
      ensures ran <==> key !in old(entries)
      ensures key in old(entries) ==> r == Ok(old(entries)[key]) && entries == old(entries) && calls == old(calls)
      ensures key !in old(entries) ==> r == compute() && calls == old(calls) + 1
      ensures key !in old(entries) && r.Ok? ==> entries == old(entries)[key := r.value]
      ensures key !in old(entries) && r.Err? ==> entries == old(entries)
    {
      if key in entries {
        r, ran := Ok(entries[key]), false;
      } else {
        r := compute();
        calls := calls + 1;
        ran := true;
        if r.Ok? {
          entries := entries[key := r.value];
        }
      }
    }

    /** has($key): a stored null counts as present. */
    method Has(key: string) returns (b: bool)
      ensures b <==> key in entries
    {
      b := key in entries;
    }

    /** get($key): the stored value, or null for an absent key. */
    method Get(key: string) returns (r: Option<V>)
      ensures key in entries ==> r == entries[key]
      ensures key !in entries ==> r == None
    {
      r := if key in entries then entries[key] else None;
    }

    /** put($key, $value): overwrites one key and leaves every other entry as it was. */
    method Put(key: string, value: Option<V>)
      modifies this
      ensures entries == old(entries)[key := value] && calls == old(calls)
    {
      entries := entries[key := value];
    }

    /** clear(): forgets every key. */
    method Clear()
      modifies this
      ensures entries == map[] && calls == old(calls)
    {
      entries := map[];
    }
  }

  /** The memo only ever holds what the backing table says for a key (None for a key the
      table lacks): the invariant of the rewrite-prefix memos. */
  ghost predicate MemoOf<V>(c: Cache<V>, table: map<string, V>)
    reads c
  {
    forall k :: k in c.entries ==> c.entries[k] == Wrappers.Get(table, k)
  }

  /** Resolving the same key twice runs the callback at most once, and both answers agree;
      in particular a miss (a stored null) is not recomputed. */
  method ResolveTwiceComputesOnce<V>(c: Cache<V>, key: string, compute: () -> Result<Option<V>, Error>)
    returns (first: Result<Option<V>, Error>, second: Result<Option<V>, Error>)
    modifies c
    ensures key !in old(c.entries) && compute().Ok? ==> c.calls == old(c.calls) + 1
    ensures key in old(c.entries) ==> c.calls == old(c.calls)
    ensures first.Ok? ==> second == first
  {
    var ran1, ran2;
    first, ran1 := c.Resolve(key, compute);
    second, ran2 := c.Resolve(key, compute);
  }
}
