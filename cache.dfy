/** The retry context caches of stateful retries: bounded maps from key to
  * context that refuse a `put` at capacity instead of evicting. Keys are
  * integers; the template never stores a null key. */
module Caches {
  import opened Types
  import opened Contexts

  const DEFAULT_CAPACITY: int := 4096

  /** What `put` raises when the cache is full. */
  function CapacityExceeded(): (f: Failure)
    ensures f.ClassOf() == RETRY_CACHE_CAPACITY_EXCEEDED_EXCEPTION && f.InstanceOf(EXCEPTION) && !f.InstanceOf(ERROR)
  {
    RetryFailure(RETRY_CACHE_CAPACITY_EXCEEDED_EXCEPTION, None)
  }

  /** `MapRetryContextCache` */
  class MapRetryContextCache {
    var entries: map<int, RetryContext>
    var capacity: int

    constructor ()
      ensures entries == map[] && capacity == DEFAULT_CAPACITY
    {
      entries := map[];
      capacity := DEFAULT_CAPACITY;
    }

    constructor WithCapacity(capacity: int)
      ensures entries == map[] && this.capacity == capacity
    {
      entries := map[];
      this.capacity := capacity;
    }

    method SetCapacity(capacity: int)
      modifies this
      ensures this.capacity == capacity && entries == old(entries)
    {
      this.capacity := capacity;
    }

    predicate ContainsKey(key: int)
      reads this
    {
      key in entries
    }

    /** `get`: null for a key that is not there. */
    function Get(key: int): (r: Option<RetryContext>)
      reads this
      ensures r.Some? <==> ContainsKey(key)
      ensures r.Some? ==> r.value == entries[key]
    {
      if key in entries then Some(entries[key]) else None
    }

    /** `put`: refused when the map already holds `capacity` entries, even
      * for a key it holds; otherwise the entry is stored. */
    method Put(key: int, context: RetryContext) returns (error: Option<Failure>)
      modifies this
      ensures error.Some? <==> |old(entries)| >= old(capacity)
      ensures error.Some? ==> error.value == CapacityExceeded() && entries == old(entries)
      ensures error.None? ==> entries == old(entries)[key := context]
      ensures capacity == old(capacity)
    {
      if |entries| >= capacity {
        return Some(CapacityExceeded());
      }
      entries := entries[key := context];
      error := None;
    }

    method Remove(key: int)
      modifies this
      ensures entries == old(entries) - {key} && capacity == old(capacity)
    {
      entries := entries - {key};
    }

    /** Puts distinct keys one after another into an empty cache: exactly
      * the puts after the first `capacity` ones fail. */
    method PutAll(keys: seq<int>, context: RetryContext) returns (failed: seq<bool>)
      requires entries == map[]
      requires forall i, j :: 0 <= i < j < |keys| ==> keys[i] != keys[j]
      modifies this
      ensures |failed| == |keys|
      ensures forall i :: 0 <= i < |keys| ==> (failed[i] <==> i >= capacity)
    {
      failed := [];
      var i := 0;
      while i < |keys|
        invariant 0 <= i <= |keys| && |failed| == i && capacity == old(capacity)
        invariant forall j :: 0 <= j < i ==> (failed[j] <==> j >= capacity)
        invariant forall j :: i <= j < |keys| ==> keys[j] !in entries
        invariant |entries| == if i <= capacity then i else if capacity < 0 then 0 else capacity
      {
        var error := Put(keys[i], context);
        failed := failed + [error.Some?];
        i := i + 1;
      }
    }
  }

  /** `SoftReferenceMapRetryContextCache`: the values are soft references,
    * and `collected` holds the keys whose referent the garbage collector
    * has cleared. */
  class SoftReferenceMapRetryContextCache {
    var entries: map<int, RetryContext>
    var collected: set<int>
    var capacity: int

    ghost predicate Valid()
      reads this
    {
      collected <= entries.Keys
    }

    constructor ()
      ensures Valid() && entries == map[] && collected == {} && capacity == DEFAULT_CAPACITY
    {
      entries := map[];
      collected := {};
      capacity := DEFAULT_CAPACITY;
    }

    constructor WithCapacity(capacity: int)
      ensures Valid() && entries == map[] && collected == {} && this.capacity == capacity
    {
      entries := map[];
      collected := {};
      this.capacity := capacity;
    }

    /** The garbage collector clears the reference stored under `key`. */
    method Collect(key: int)
      requires Valid()
      modifies this
      ensures Valid() && entries == old(entries) && capacity == old(capacity)
      ensures collected == if key in entries then old(collected) + {key} else old(collected)
    {
      if key in entries {
        collected := collected + {key};
      }
    }

    /** `containsKey`: a cleared entry is purged and reported absent. */
    method ContainsKey(key: int) returns (b: bool)
      requires Valid()
      modifies this
      ensures Valid() && capacity == old(capacity)
      ensures b <==> key in old(entries) && key !in old(collected)
      ensures key in old(collected) ==> entries == old(entries) - {key} && collected == old(collected) - {key}
      ensures key !in old(collected) ==> entries == old(entries) && collected == old(collected)
    {
      if key !in entries {
        return false;
      }
      if key in collected {
        entries := entries - {key};
        collected := collected - {key};
      }
      b := key in entries;
    }

    /** `get`: dereferences the stored reference, so a missing key raises a
      * `NullPointerException`; a cleared reference yields null. */
    method Get(key: int) returns (r: Option<RetryContext>, error: Option<Failure>)
      requires Valid()
      ensures key !in entries ==> r.None? && error == Some(NullPointer())
      ensures key in entries ==> error.None? && r == if key in collected then None else Some(entries[key])
    {
      if key !in entries {
        return None, Some(NullPointer());
      }
      r := if key in collected then None else Some(entries[key]);
      error := None;
    }

    /** `put`: the same capacity rule; cleared entries that were not purged
      * still count. */
    method Put(key: int, context: RetryContext) returns (error: Option<Failure>)
      requires Valid()
      modifies this
      ensures Valid() && capacity == old(capacity)
      ensures error.Some? <==> |old(entries)| >= old(capacity)
      ensures error.Some? ==> error.value == CapacityExceeded() && entries == old(entries) && collected == old(collected)
      ensures error.None? ==> entries == old(entries)[key := context] && collected == old(collected) - {key}
    {
      if |entries| >= capacity {
        return Some(CapacityExceeded());
      }
      entries := entries[key := context];
      collected := collected - {key};
      error := None;
    }

    method Remove(key: int)
      requires Valid()
      modifies this
      ensures Valid() && capacity == old(capacity)
      ensures entries == old(entries) - {key} && collected == old(collected) - {key}
    {
      entries := entries - {key};
      collected := collected - {key};
    }
  }
}
