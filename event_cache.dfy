/**
 * The single-slot cache of the home page's formatted event list: one nullable
 * slot holding the list and the time it was stored, with lazy expiry: a read
 * that finds the slot older than the TTL empties it.
 */
module EventCache {
  import opened Wrappers
  import ProgramCache

  /** Time-to-live of the slot, in milliseconds. */
  const CACHE_TTL_MS: int := 60000

  datatype Slot<T> = Slot(data: T, fetchedAt: int)

  /** The slot after a read, and what the read returned (`None` for `null`). */
  datatype Read<T> = Read(slot: Option<Slot<T>>, result: Option<T>)

  /** `getCachedEvents()` at time `now`. */
  function GetAt<T>(slot: Option<Slot<T>>, now: int): Read<T> {
    if slot.None? then Read(None, None)
    else if now - slot.value.fetchedAt > CACHE_TTL_MS then Read(None, None)
    else Read(slot, Some(slot.value.data))
  }

  /** A read of an empty slot gives null. */
  lemma EmptySlotReadsNull<T>(now: int)
    ensures GetAt<T>(None, now) == Read(None, None)
  {
  }

  /** Up to and including the TTL, a read returns the stored data unchanged and keeps the slot. */
  lemma FreshSlotIsServed<T>(d: T, fetchedAt: int, now: int)
    requires now - fetchedAt <= CACHE_TTL_MS
    ensures GetAt(Some(Slot(d, fetchedAt)), now) == Read(Some(Slot(d, fetchedAt)), Some(d))
  {
  }

  /** Past the TTL, a read empties the slot and gives null. */
  lemma ExpiredSlotIsCleared<T>(d: T, fetchedAt: int, now: int)
    requires now - fetchedAt > CACHE_TTL_MS
    ensures GetAt(Some(Slot(d, fetchedAt)), now) == Read(None, None)
  {
  }

  /** Reads at the given times, one after the other, with no write in between. */
  function GetAll<T>(slot: Option<Slot<T>>, times: seq<int>): (r: seq<Option<T>>)
    ensures |r| == |times|
    decreases |times|
  {
    if times == [] then []
    else
      var rd := GetAt(slot, times[0]);
      [rd.result] + GetAll(rd.slot, times[1..])
  }

  /** Once a read has found the slot expired, every later read gives null until the next write, whatever the clock says. */
  lemma {:induction false} NullUntilNextSet<T>(d: T, fetchedAt: int, now: int, later: seq<int>)
    requires now - fetchedAt > CACHE_TTL_MS
    ensures forall i :: 0 <= i < |later| ==> GetAll(GetAt(Some(Slot(d, fetchedAt)), now).slot, later)[i] == None
  {
    EmptyStaysEmpty<T>(later);
  }

  lemma {:induction false} EmptyStaysEmpty<T>(times: seq<int>)
    ensures forall i :: 0 <= i < |times| ==> GetAll<T>(None, times)[i] == None
    decreases |times|
  {
    if times != [] {
      EmptyStaysEmpty<T>(times[1..]);
      var r := GetAll<T>(None, times);
      assert forall i :: 0 < i < |times| ==> r[i] == GetAll<T>(None, times[1..])[i - 1];
    }
  }

  /**
   * At an age of exactly the TTL the two caches of the client disagree: this
   * slot still serves its data, while the keyed request cache, whose default
   * TTL is the same, treats its entry as a miss.
   */
  lemma BoundaryDiffersFromRequestCache<T>(d: T, fetchedAt: int, s: ProgramCache.Snapshot<T>, key: string)
    requires key in s.store && s.store[key].fetchedAt == fetchedAt
    ensures GetAt(Some(Slot(d, fetchedAt)), fetchedAt + CACHE_TTL_MS).result == Some(d)
    ensures !ProgramCache.BeginFetch(s, key, fetchedAt + ProgramCache.TTL_MS, ProgramCache.TTL_MS).begin.Hit?
  {
  }

  /** The module-level `cache` variable. */
  class SingleSlotCache<T> {
    var cache: Option<Slot<T>>

    constructor ()
      ensures cache == None
    {
      cache := None;
    }

    /** `getCachedEvents()` */
    method GetCachedEvents(now: int) returns (r: Option<T>)
      modifies this
      ensures Read(cache, r) == GetAt(old(cache), now)
    {
      if cache.None? {
        return None;
      }
      var age := now - cache.value.fetchedAt;
      if age > CACHE_TTL_MS {
        cache := None;
        return None;
      }
      r := Some(cache.value.data);
    }

    /** `setCachedEvents(data)`: overwrites whatever the slot held. */
    method SetCachedEvents(data: T, now: int)
      modifies this
      ensures cache == Some(Slot(data, now))
      ensures GetAt(cache, now).result == Some(data)
    {
      cache := Some(Slot(data, now));
    }

    /** `invalidateCache()`: the next read gives null. */
    method InvalidateCache()
      modifies this
      ensures cache == None
      ensures forall now :: GetAt(cache, now).result == None
    {
      cache := None;
    }
  }
}
