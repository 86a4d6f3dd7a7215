/**
 * The keyed request cache of the client: a store from key to the last
 * successful fetch result with its fetch time, and a table of fetches in
 * flight, so that concurrent readers of one key share one network round trip.
 *
 * A call of `cachedFetch` is split at its only suspension point. `BeginFetch`
 * is everything before it: serve a fresh entry, join the fetch already in
 * flight, or call the fetcher and register its promise. `SettleFetch` is the
 * promise's continuation, run when the fetch fulfils or rejects at time `now`.
 * Interleavings of asynchronous callers are sequences of these two steps.
 * Every fetcher call gets a number (its position in `fetches`); a joined
 * caller waits for the fetch of that number, and `settled` records how each
 * fetch ended, which is what every caller waiting on it receives.
 */
module ProgramCache {
  import opened Wrappers

  /** Default time-to-live of a stored entry, in milliseconds. */
  const TTL_MS: int := 60000

  datatype Entry<T> = Entry(data: T, fetchedAt: int)

  /** What one `cachedFetch` call does before it suspends. */
  datatype Begin<T> =
    | Hit(data: T)          // a fresh entry, served without calling the fetcher
    | Join(fetch: nat)      // the fetch already in flight for the key
    | Started(fetch: nat)   // the fetcher was called and its promise registered

  datatype Snapshot<T> = Snapshot(
    store: map<string, Entry<T>>,
    inflight: map<string, nat>,     // key -> number of its pending fetch
    fetches: seq<string>,           // the key of every fetcher call, in call order
    settled: map<nat, Outcome<T>>)  // fetch number -> how it ended

  datatype Step<T> = Step(state: Snapshot<T>, begin: Begin<T>)

  predicate Pending<T>(s: Snapshot<T>, id: nat) {
    id < |s.fetches| && id !in s.settled
  }

  /**
   * The in-flight table names exactly the fetches that have not settled, each
   * under its own key: so at most one fetch per key is ever outstanding.
   */
  ghost predicate Consistent<T>(s: Snapshot<T>) {
    && (forall k :: k in s.inflight ==> Pending(s, s.inflight[k]) && s.fetches[s.inflight[k]] == k)
    && (forall id :: id in s.settled ==> id < |s.fetches|)
    && (forall id: nat :: Pending(s, id) ==> s.fetches[id] in s.inflight && s.inflight[s.fetches[id]] == id)
  }

  /** The module-level maps as the program starts. */
  function Empty<T>(): (s: Snapshot<T>)
    ensures Consistent(s) && s.store == map[] && s.inflight == map[] && s.fetches == []
  {
    Snapshot(map[], map[], [], map[])
  }

  predicate IsFresh<T>(s: Snapshot<T>, key: string, now: int, ttl: int) {
    key in s.store && now - s.store[key].fetchedAt < ttl
  }

  /** `cachedFetch(key, fetcher, ttl)` at time `now`, up to its first `await`. */
  function BeginFetch<T>(s: Snapshot<T>, key: string, now: int, ttl: int): Step<T> {
    if key in s.store && now - s.store[key].fetchedAt < ttl then
      Step(s, Hit(s.store[key].data))
    else if key in s.inflight then
      Step(s, Join(s.inflight[key]))
    else
      Step(s.(inflight := s.inflight[key := |s.fetches|], fetches := s.fetches + [key]),
           Started(|s.fetches|))
  }

  /** The continuation of fetch `id`: it fulfils with a value or rejects, at time `now`. */
  function SettleFetch<T>(s: Snapshot<T>, id: nat, outcome: Outcome<T>, now: int): Snapshot<T>
    requires Pending(s, id)
  {
    var key := s.fetches[id];
    var done := s.(inflight := s.inflight - {key}, settled := s.settled[id := outcome]);
    if outcome.Ok? then done.(store := s.store[key := Entry(outcome.value, now)]) else done
  }

  /** `invalidateProgramCache(key)` */
  function InvalidateKey<T>(s: Snapshot<T>, key: string): (r: Snapshot<T>)
    ensures key !in r.store
    ensures forall k :: k != key ==> (k in r.store <==> k in s.store)
    ensures forall k :: k in r.store ==> r.store[k] == s.store[k]
    ensures r.inflight == s.inflight && r.fetches == s.fetches && r.settled == s.settled
  {
    s.(store := s.store - {key})
  }

  /** `invalidateAllProgramCache()` */
  function ClearStore<T>(s: Snapshot<T>): (r: Snapshot<T>)
    ensures forall k :: k !in r.store
    ensures r.inflight == s.inflight && r.fetches == s.fetches && r.settled == s.settled
  {
    s.(store := map[])
  }

  /** What a caller awaiting fetch `id` has received so far. */
  function Received<T>(s: Snapshot<T>, id: nat): Option<Outcome<T>> {
    if id in s.settled then Some(s.settled[id]) else None
  }

  // ---------------------------------------------------------------------------
  // One call

  lemma BeginKeepsConsistent<T>(s: Snapshot<T>, key: string, now: int, ttl: int)
    requires Consistent(s)
    ensures Consistent(BeginFetch(s, key, now, ttl).state)
  {
    if !IsFresh(s, key, now, ttl) && key !in s.inflight {
      var t := BeginFetch(s, key, now, ttl).state;
      var n := |s.fetches|;
      assert t.fetches[n] == key;
      forall id: nat | Pending(t, id)
        ensures t.fetches[id] in t.inflight && t.inflight[t.fetches[id]] == id
      {
        if id < n {
          assert Pending(s, id);
          assert t.fetches[id] == s.fetches[id];
        }
      }
      forall k | k in t.inflight
        ensures Pending(t, t.inflight[k]) && t.fetches[t.inflight[k]] == k
      {
        if k != key {
          assert s.fetches[s.inflight[k]] == k;
        }
      }
    }
  }

  /** A fresh entry is returned as it is stored, and nothing changes: the fetcher is not called. */
  lemma FreshEntryIsServed<T>(s: Snapshot<T>, key: string, now: int, ttl: int)
    requires key in s.store && now - s.store[key].fetchedAt < ttl
    ensures BeginFetch(s, key, now, ttl) == Step(s, Hit(s.store[key].data))
  {
  }

  /**
   * An absent entry, or one whose age has reached the TTL, is a miss: the call
   * joins the fetch in flight for the key if there is one, without calling the
   * fetcher again; otherwise it calls the fetcher once and registers that fetch
   * before anything can settle it. The store is never touched.
   */
  lemma MissJoinsOrStarts<T>(s: Snapshot<T>, key: string, now: int, ttl: int)
    requires Consistent(s)
    requires key !in s.store || now - s.store[key].fetchedAt >= ttl
    ensures var st := BeginFetch(s, key, now, ttl);
      && !st.begin.Hit?
      && st.state.store == s.store
      && (key in s.inflight ==> st == Step(s, Join(s.inflight[key])) && s.fetches[s.inflight[key]] == key)
      && (key !in s.inflight ==>
            && st.begin == Started(|s.fetches|)
            && st.state.fetches == s.fetches + [key]
            && st.state.inflight == s.inflight[key := |s.fetches|]
            && Pending(st.state, |s.fetches|))
  {
  }

  /** At most one fetch per key is outstanding. */
  lemma AtMostOneOutstanding<T>(s: Snapshot<T>, a: nat, b: nat)
    requires Consistent(s) && Pending(s, a) && Pending(s, b)
    requires s.fetches[a] == s.fetches[b]
    ensures a == b
  {
    assert s.inflight[s.fetches[a]] == a;
    assert s.inflight[s.fetches[b]] == b;
  }

  /**
   * A fulfilled fetch stores its value under its key, stamped with the settle
   * time, leaves the flight table, and hands the value to every waiting caller.
   * Nothing is stored under any other key.
   */
  lemma SettleOk<T>(s: Snapshot<T>, id: nat, data: T, now: int)
    requires Consistent(s) && Pending(s, id)
    ensures var t := SettleFetch(s, id, Ok(data), now); var key := s.fetches[id];
      && Consistent(t)
      && key in t.store && t.store[key] == Entry(data, now)
      && key !in t.inflight
      && Received(t, id) == Some(Ok(data))
      && (forall k :: k != key ==> (k in t.store <==> k in s.store))
      && (forall k :: k != key && k in s.store ==> t.store[k] == s.store[k])
  {
    SettleKeepsConsistent(s, id, Ok(data), now);
  }

  /**
   * A rejected fetch leaves the store exactly as it was (a failure is never
   * cached, an older entry survives), leaves the flight table, and passes the
   * same error to every waiting caller.
   */
  lemma SettleErr<T>(s: Snapshot<T>, id: nat, message: string, now: int)
    requires Consistent(s) && Pending(s, id)
    ensures var t := SettleFetch(s, id, Err(message), now);
      && Consistent(t)
      && t.store == s.store
      && s.fetches[id] !in t.inflight
      && Received(t, id) == Some(Err(message))
  {
    SettleKeepsConsistent(s, id, Err(message), now);
  }

  lemma SettleKeepsConsistent<T>(s: Snapshot<T>, id: nat, outcome: Outcome<T>, now: int)
    requires Consistent(s) && Pending(s, id)
    ensures Consistent(SettleFetch(s, id, outcome, now))
  {
    var t := SettleFetch(s, id, outcome, now);
    var key := s.fetches[id];
    assert s.inflight[key] == id;
    forall k | k in t.inflight
      ensures Pending(t, t.inflight[k]) && t.fetches[t.inflight[k]] == k
    {
      assert s.fetches[s.inflight[k]] == k;
    }
    forall j: nat | Pending(t, j)
      ensures t.fetches[j] in t.inflight && t.inflight[t.fetches[j]] == j
    {
      assert Pending(s, j);
      if t.fetches[j] == key {
        AtMostOneOutstanding(s, j, id);
      }
    }
  }

  /** Invalidation drops only the stored entry; the fetch in flight, if any, is left running. */
  lemma InvalidateKeepsConsistent<T>(s: Snapshot<T>, key: string)
    requires Consistent(s)
    ensures Consistent(InvalidateKey(s, key)) && Consistent(ClearStore(s))
  {
  }

  lemma InvalidateIdempotent<T>(s: Snapshot<T>, key: string)
    ensures InvalidateKey(InvalidateKey(s, key), key) == InvalidateKey(s, key)
  {
  }

  /** After invalidating a key, or the whole store, the next read of it is never served from the store. */
  lemma InvalidatedKeyMisses<T>(s: Snapshot<T>, key: string, other: string, now: int, ttl: int)
    ensures !BeginFetch(InvalidateKey(s, key), key, now, ttl).begin.Hit?
    ensures !BeginFetch(ClearStore(s), other, now, ttl).begin.Hit?
  {
  }

  // ---------------------------------------------------------------------------
  // Isolation of keys

  /** `s` and `t` agree on everything the cache holds for key `k`. */
  ghost predicate SameAt<T>(s: Snapshot<T>, t: Snapshot<T>, k: string) {
    && (k in s.store <==> k in t.store)
    && (k in s.store ==> s.store[k] == t.store[k])
    && (k in s.inflight <==> k in t.inflight)
    && (k in s.inflight ==> s.inflight[k] == t.inflight[k])
  }

  /** Reading, settling or invalidating one key never changes what is held for another. */
  lemma KeysAreIsolated<T>(s: Snapshot<T>, key: string, other: string, now: int, ttl: int)
    requires key != other
    ensures SameAt(s, BeginFetch(s, key, now, ttl).state, other)
    ensures SameAt(s, InvalidateKey(s, key), other)
    ensures forall id: nat, o: Outcome<T> :: Pending(s, id) && s.fetches[id] == key ==>
              SameAt(s, SettleFetch(s, id, o, now), other)
  {
  }

  // ---------------------------------------------------------------------------
  // Many callers racing on one key

  datatype Trace<T> = Trace(state: Snapshot<T>, begins: seq<Begin<T>>)

  /** Callers reading `key` at the given times, none of their fetches settling in between. */
  function BeginAll<T>(s: Snapshot<T>, key: string, times: seq<int>, ttl: int): (r: Trace<T>)
    ensures |r.begins| == |times|
    decreases |times|
  {
    if times == [] then Trace(s, [])
    else
      var st := BeginFetch(s, key, times[0], ttl);
      var rest := BeginAll(st.state, key, times[1..], ttl);
      Trace(rest.state, [st.begin] + rest.begins)
  }

  predicate NotHit<T>(b: Begin<T>) { !b.Hit? }

  function FetchOf<T>(b: Begin<T>): nat
    requires !b.Hit?
  {
    if b.Join? then b.fetch else b.fetch
  }

  lemma {:induction false} BeginAllWhileInFlight<T>(s: Snapshot<T>, key: string, times: seq<int>, ttl: int)
    requires key in s.inflight
    ensures BeginAll(s, key, times, ttl).state == s
    ensures forall i :: 0 <= i < |times| && NotHit(BeginAll(s, key, times, ttl).begins[i]) ==>
              BeginAll(s, key, times, ttl).begins[i] == Join(s.inflight[key])
    decreases |times|
  {
    if times != [] {
      BeginAllWhileInFlight(s, key, times[1..], ttl);
      var tr := BeginAll(s, key, times, ttl);
      var rest := BeginAll(s, key, times[1..], ttl);
      assert BeginFetch(s, key, times[0], ttl).state == s;
      forall i | 0 <= i < |times| && NotHit(tr.begins[i])
        ensures tr.begins[i] == Join(s.inflight[key])
      {
        if i > 0 { assert tr.begins[i] == rest.begins[i - 1]; }
      }
    }
  }

  /**
   * However many callers read one key before any fetch settles, the fetcher is
   * called at most once, and every caller not served from the store waits for
   * that same fetch, so all of them receive the same value or the same error.
   */
  lemma {:induction false} ConcurrentReadersShareOneFetch<T>(s: Snapshot<T>, key: string, times: seq<int>, ttl: int)
    requires Consistent(s)
    ensures var tr := BeginAll(s, key, times, ttl);
      && s.fetches <= tr.state.fetches
      && |tr.state.fetches| <= |s.fetches| + 1
      && (key in s.inflight ==> tr.state.fetches == s.fetches)
      && forall i, j :: 0 <= i < |times| && 0 <= j < |times| && NotHit(tr.begins[i]) && NotHit(tr.begins[j]) ==>
           FetchOf(tr.begins[i]) == FetchOf(tr.begins[j])
    decreases |times|
  {
    if key in s.inflight {
      BeginAllWhileInFlight(s, key, times, ttl);
    } else if times != [] {
      var st := BeginFetch(s, key, times[0], ttl);
      var tr := BeginAll(s, key, times, ttl);
      var rest := BeginAll(st.state, key, times[1..], ttl);
      BeginKeepsConsistent(s, key, times[0], ttl);
      if st.begin.Hit? {
        ConcurrentReadersShareOneFetch(s, key, times[1..], ttl);
        assert forall i :: 0 < i < |times| ==> tr.begins[i] == rest.begins[i - 1];
      } else {
        assert st.begin == Started(|s.fetches|);
        assert st.state.inflight[key] == |s.fetches|;
        BeginAllWhileInFlight(st.state, key, times[1..], ttl);
        assert forall i :: 0 < i < |times| ==> tr.begins[i] == rest.begins[i - 1];
        assert forall i :: 0 <= i < |times| && NotHit(tr.begins[i]) ==> FetchOf(tr.begins[i]) == |s.fetches|;
      }
    }
  }

  /** The worked example: fetch at t=0, cached read at t=30000, invalidation, a second fetch at t=30001. */
  lemma ExampleScenario<T>(d: T, e: T)
    ensures var s0 := BeginFetch(Empty<T>(), "eventAccount", 0, TTL_MS);
      && s0.begin == Started(0)
      && var s1 := SettleFetch(s0.state, 0, Ok(d), 0);
      && BeginFetch(s1, "eventAccount", 30000, TTL_MS).begin == Hit(d)
      && var s2 := InvalidateKey(s1, "eventAccount");
      && BeginFetch(s2, "eventAccount", 30001, TTL_MS).begin == Started(1)
  {
    var s0 := BeginFetch(Empty<T>(), "eventAccount", 0, TTL_MS);
    assert Pending(s0.state, 0);
  }

  // ---------------------------------------------------------------------------
  // The cache object

  /** The two module-level maps of the source and the bookkeeping of their promises. */
  class RequestCache<T> {
    var store: map<string, Entry<T>>
    var inflight: map<string, nat>
    var fetches: seq<string>
    var settled: map<nat, Outcome<T>>

    function Snap(): Snapshot<T>
      reads this
    {
      Snapshot(store, inflight, fetches, settled)
    }

    ghost predicate Valid()
      reads this
    {
      Consistent(Snap())
    }

    constructor ()
      ensures Valid() && Snap() == Empty()
    {
      store, inflight, fetches, settled := map[], map[], [], map[];
    }

    /** `cachedFetch(key, fetcher, ttl)` up to its `await`. */
    method CachedFetch(key: string, now: int, ttl: int := TTL_MS) returns (b: Begin<T>)
      requires Valid()
      modifies this
      ensures Valid()
      ensures Step(Snap(), b) == BeginFetch(old(Snap()), key, now, ttl)
    {
      BeginKeepsConsistent(Snap(), key, now, ttl);
      if key in store && now - store[key].fetchedAt < ttl {
        return Hit(store[key].data);
      }
      if key in inflight {
        return Join(inflight[key]);
      }
      var id := |fetches|;
      fetches := fetches + [key];       // fetcher() is called
      inflight := inflight[key := id];  // inflight.set(key, promise)
      b := Started(id);
    }

    /** The `.then` / `.catch` continuation of fetch `id`, which every waiting caller receives. */
    method Settle(id: nat, outcome: Outcome<T>, now: int) returns (r: Outcome<T>)
      requires Valid() && Pending(Snap(), id)
      modifies this
      ensures Valid()
      ensures Snap() == SettleFetch(old(Snap()), id, outcome, now)
      ensures r == outcome
    {
      SettleKeepsConsistent(Snap(), id, outcome, now);
      var key := fetches[id];
      if outcome.Ok? {
        store := store[key := Entry(outcome.value, now)];
      }
      inflight := inflight - {key};
      settled := settled[id := outcome];
      r := outcome;
    }

    /** What a caller waiting on fetch `id` has been handed, if it has settled. */
    method Await(id: nat) returns (r: Option<Outcome<T>>)
      ensures r == Received(Snap(), id)
      ensures r.Some? <==> id in settled
    {
      r := if id in settled then Some(settled[id]) else None;
    }

    method InvalidateProgramCache(key: string)
      requires Valid()
      modifies this
      ensures Valid()
      ensures Snap() == InvalidateKey(old(Snap()), key)
    {
      InvalidateKeepsConsistent(Snap(), key);
      store := store - {key};
    }

    method InvalidateAllProgramCache()
      requires Valid()
      modifies this
      ensures Valid()
      ensures Snap() == ClearStore(old(Snap()))
    {
      InvalidateKeepsConsistent(Snap(), "");
      store := map[];
    }
  }
}
