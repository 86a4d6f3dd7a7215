/**
 * The home page's event feed: `fetchWithRetry`, the pipeline that turns raw
 * event and tier accounts into the displayed list, and `fetchEvents`, which
 * serves the single-slot cache, fetches, and falls back to a stale list.
 */
module HomeFeed {
  import opened Wrappers
  import opened Strings
  import opened Lists
  import opened Sorting
  import EventCache

  // ---------------------------------------------------------------------------
  // fetchWithRetry

  /** The errors worth retrying: rate limiting by the RPC node. */
  predicate IsRateLimit(message: string) {
    Contains(message, "429") || Contains(message, "Too Many Requests") || Contains(message, "rate limit")
  }

  function Pow2(k: nat): (r: nat)
    ensures r >= 1
  {
    if k == 0 then 1 else 2 * Pow2(k - 1)
  }

  /** Doubling the delay and then waiting `i - 1` more doublings is waiting `i` doublings. */
  lemma DoubledDelay(d: int, i: nat)
    requires i > 0
    ensures (d * 2) * Pow2(i - 1) == d * Pow2(i)
  {
    assert Pow2(i) == 2 * Pow2(i - 1);
  }

  /** What `fetchWithRetry` settles with, how many times it called `fn`, and the waits between calls. */
  datatype Retry<T> = Retry(result: Outcome<T>, attempts: nat, delays: seq<int>)

  /**
   * `fetchWithRetry(fn, retries, delayMs)`, where `outcomes[i]` is how the
   * i-th call of `fn` settles; the waits are returned instead of slept.
   */
  function FetchWithRetry<T>(outcomes: seq<Outcome<T>>, retries: int, delayMs: int): Retry<T>
    requires |outcomes| > Max(retries, 0)
    decreases |outcomes|
  {
    match outcomes[0]
    case Ok(v) => Retry(Ok(v), 1, [])
    case Err(m) =>
      if retries > 0 && IsRateLimit(m) then
        var rest := FetchWithRetry(outcomes[1..], retries - 1, delayMs * 2);
        Retry(rest.result, rest.attempts + 1, [delayMs] + rest.delays)
      else Retry(Err(m), 1, [])
  }

  /** Attempt `i` failed in a way that is retried. */
  predicate RetriedError<T>(o: Outcome<T>) {
    o.Err? && IsRateLimit(o.message)
  }

  /**
   * The retry loop stops at the first attempt that succeeds, fails with an
   * error that is not rate limiting, or is the last one allowed; it settles
   * exactly as that attempt did. Every earlier attempt was a rate-limit error,
   * there are at most `retries + 1` attempts, and the waits between them are
   * `delayMs`, `2 * delayMs`, `4 * delayMs`, ….
   */
  lemma {:induction false} RetryBehaviour<T>(outcomes: seq<Outcome<T>>, retries: int, delayMs: int)
    requires |outcomes| > Max(retries, 0)
    ensures var r := FetchWithRetry(outcomes, retries, delayMs);
      && 1 <= r.attempts <= Max(retries, 0) + 1
      && r.result == outcomes[r.attempts - 1]
      && (forall i :: 0 <= i < r.attempts - 1 ==> RetriedError(outcomes[i]))
      && (r.attempts - 1 < Max(retries, 0) ==> !RetriedError(outcomes[r.attempts - 1]))
      && |r.delays| == r.attempts - 1
      && (forall i :: 0 <= i < |r.delays| ==> r.delays[i] == delayMs * Pow2(i))
    decreases |outcomes|
  {
    var r := FetchWithRetry(outcomes, retries, delayMs);
    if outcomes[0].Err? && retries > 0 && IsRateLimit(outcomes[0].message) {
      var rest := FetchWithRetry(outcomes[1..], retries - 1, delayMs * 2);
      RetryBehaviour(outcomes[1..], retries - 1, delayMs * 2);
      assert r.attempts == rest.attempts + 1;
      forall i | 0 <= i < r.attempts - 1 ensures RetriedError(outcomes[i]) {
        if i > 0 { assert outcomes[i] == outcomes[1..][i - 1]; }
      }
      forall i | 0 <= i < |r.delays| ensures r.delays[i] == delayMs * Pow2(i) {
        if i > 0 {
          assert r.delays[i] == rest.delays[i - 1];
          DoubledDelay(delayMs, i);
        }
      }
    }
  }

  /** A first call that succeeds is returned at once: one call, no wait. */
  lemma FirstSuccessReturned<T>(outcomes: seq<Outcome<T>>, retries: int, delayMs: int, v: T)
    requires |outcomes| > Max(retries, 0) && outcomes[0] == Ok(v)
    ensures FetchWithRetry(outcomes, retries, delayMs) == Retry(Ok(v), 1, [])
  {
  }

  /** An error that is not rate limiting is rethrown at once, with no wait. */
  lemma OtherErrorsNotRetried<T>(outcomes: seq<Outcome<T>>, retries: int, delayMs: int)
    requires |outcomes| > Max(retries, 0) && outcomes[0].Err? && !IsRateLimit(outcomes[0].message)
    ensures FetchWithRetry(outcomes, retries, delayMs) == Retry(outcomes[0], 1, [])
  {
  }

  /** When every allowed attempt is rate limited, `retries + 1` calls are made and the last error is rethrown. */
  lemma ExhaustionRethrowsLastError<T>(outcomes: seq<Outcome<T>>, retries: nat, delayMs: int)
    requires |outcomes| > retries
    requires forall i :: 0 <= i <= retries ==> RetriedError(outcomes[i])
    ensures FetchWithRetry(outcomes, retries, delayMs).attempts == retries + 1
    ensures FetchWithRetry(outcomes, retries, delayMs).result == outcomes[retries]
  {
    RetryBehaviour(outcomes, retries, delayMs);
  }

  /** With the defaults (3 retries, 1500 ms), the waits are 1500, 3000 and 6000 ms. */
  lemma DefaultSchedule<T>(outcomes: seq<Outcome<T>>)
    requires |outcomes| > 3
    requires forall i :: 0 <= i < 4 ==> RetriedError(outcomes[i])
    ensures FetchWithRetry(outcomes, 3, 1500) == Retry(outcomes[3], 4, [1500, 3000, 6000])
  {
    RetryBehaviour(outcomes, 3, 1500);
    var r := FetchWithRetry(outcomes, 3, 1500);
    assert r.delays[0] == 1500 && r.delays[1] == 3000 && r.delays[2] == 6000;
  }

  // ---------------------------------------------------------------------------
  // Formatting raw accounts

  /** An event account, with its address in base58 and its status enum by its keys (absent when `null`). */
  datatype RawEvent = RawEvent(
    pda: string, eventId: int, name: string, organizer: string, location: string,
    startTime: int, endTime: int, status: Option<seq<string>>, ticketsSold: Option<int>)

  /** A tier account: the event it belongs to may sit under any of three field names; numbers may be absent. */
  datatype RawTier = RawTier(
    event: Option<string>, eventAccount: Option<string>, eventPubkey: Option<string>,
    maxSupply: Option<int>, price: Option<int>)

  /** The lowest tier price: an integer number of lamports, or `Infinity` when the event has no tiers. */
  datatype LowestPrice = NoTiers | Lamports(amount: int)

  datatype FormattedEvent = FormattedEvent(
    id: int, name: string, organizer: string, location: string, startTime: int, endTime: int,
    sold: int, available: int, lowestPrice: LowestPrice)

  /** This file's `enumKey(val)`: the first key, `"unknown"` for no value, `undefined` for an empty object. */
  function EnumKey(val: Option<seq<string>>): Option<string> {
    if val.None? then Some("unknown") else if val.value == [] then None else Some(val.value[0])
  }

  predicate IsActive(e: RawEvent) { EnumKey(e.status) == Some("active") }

  /** `tier.account.event ?? tier.account.eventAccount ?? tier.account.eventPubkey` */
  function TierEventAddress(t: RawTier): Option<string> {
    if t.event.Some? then t.event else if t.eventAccount.Some? then t.eventAccount else t.eventPubkey
  }

  predicate BelongsTo(t: RawTier, pda: string) { TierEventAddress(t) == Some(pda) }

  function TiersOf(pda: string, tiers: seq<RawTier>): seq<RawTier> {
    Filter(tiers, t => BelongsTo(t, pda))
  }

  function Supply(t: RawTier): int { t.maxSupply.GetOr(0) }

  function Capacity(tiers: seq<RawTier>): int { Sum(tiers, Supply) }

  /** One step of the price `reduce`: `lamports < min ? lamports : min`. */
  function MinStep(acc: LowestPrice, t: RawTier): LowestPrice {
    var lamports := t.price.GetOr(0);
    if acc.NoTiers? || lamports < acc.amount then Lamports(lamports) else acc
  }

  function FoldLowest(acc: LowestPrice, tiers: seq<RawTier>): LowestPrice
    decreases |tiers|
  {
    if tiers == [] then acc else FoldLowest(MinStep(acc, tiers[0]), tiers[1..])
  }

  function LowestPriceOf(tiers: seq<RawTier>): LowestPrice { FoldLowest(NoTiers, tiers) }

  /** One active event account as the page displays it. */
  function Format(e: RawEvent, tiers: seq<RawTier>): (f: FormattedEvent)
    ensures f.available >= 0 && f.available >= Capacity(TiersOf(e.pda, tiers)) - f.sold
    ensures f.available == 0 || f.available == Capacity(TiersOf(e.pda, tiers)) - f.sold
  {
    var mine := TiersOf(e.pda, tiers);
    var sold := e.ticketsSold.GetOr(0);
    FormattedEvent(e.eventId, e.name, e.organizer, e.location, e.startTime, e.endTime,
                   sold, Max(0, Capacity(mine) - sold), LowestPriceOf(mine))
  }

  function FormatAll(events: seq<RawEvent>, tiers: seq<RawTier>): (r: seq<FormattedEvent>)
    ensures |r| == |events| && forall i :: 0 <= i < |events| ==> r[i] == Format(events[i], tiers)
    decreases |events|
  {
    if events == [] then [] else [Format(events[0], tiers)] + FormatAll(events[1..], tiers)
  }

  function StartTime(f: FormattedEvent): int { f.startTime }

  /** The list `fetchEvents` builds from the fetched accounts. */
  function FormatEvents(events: seq<RawEvent>, tiers: seq<RawTier>): seq<FormattedEvent> {
    SortDesc(FormatAll(Filter(events, IsActive), tiers), StartTime)
  }

  /**
   * The displayed list is sorted by start time, latest first, and holds
   * exactly the formatted active events, each as often as it occurs.
   */
  lemma FormatEventsCorrect(events: seq<RawEvent>, tiers: seq<RawTier>)
    ensures var r := FormatEvents(events, tiers);
      && SortedDesc(r, StartTime)
      && multiset(r) == multiset(FormatAll(Filter(events, IsActive), tiers))
      && |r| == Count(events, IsActive)
  {
    SortDescCorrect(FormatAll(Filter(events, IsActive), tiers), StartTime);
  }

  /** Only active events appear, each formatted against its own tiers. */
  lemma OnlyActiveEventsShown(events: seq<RawEvent>, tiers: seq<RawTier>, f: FormattedEvent)
    requires f in FormatEvents(events, tiers)
    ensures exists e :: e in events && IsActive(e) && f == Format(e, tiers)
  {
    var active := Filter(events, IsActive);
    var all := FormatAll(active, tiers);
    FormatEventsCorrect(events, tiers);
    assert f in multiset(FormatEvents(events, tiers));
    assert f in multiset(all);
    assert f in all;
    var i :| 0 <= i < |all| && all[i] == f;
    var e := active[i];
    FilterMembership(events, IsActive, e);
    assert e in events && IsActive(e) && f == Format(e, tiers);
  }

  /** Every active event is shown. */
  lemma EveryActiveEventShown(events: seq<RawEvent>, tiers: seq<RawTier>, e: RawEvent)
    requires e in events && IsActive(e)
    ensures Format(e, tiers) in FormatEvents(events, tiers)
  {
    var active := Filter(events, IsActive);
    FilterMembership(events, IsActive, e);
    var i :| 0 <= i < |active| && active[i] == e;
    assert FormatAll(active, tiers)[i] == Format(e, tiers);
    FormatEventsCorrect(events, tiers);
    assert Format(e, tiers) in multiset(FormatEvents(events, tiers));
  }

  /**
   * A tier adds its supply to the capacity of the event it points at and of
   * no other event; a missing supply counts as 0.
   */
  lemma CapacityCountsOwnTiers(pda: string, tiers: seq<RawTier>, t: RawTier)
    ensures BelongsTo(t, pda) ==> Capacity(TiersOf(pda, tiers + [t])) == Capacity(TiersOf(pda, tiers)) + t.maxSupply.GetOr(0)
    ensures !BelongsTo(t, pda) ==> Capacity(TiersOf(pda, tiers + [t])) == Capacity(TiersOf(pda, tiers))
  {
    FilterAppend(tiers, [t], x => BelongsTo(x, pda));
    SumAppend(TiersOf(pda, tiers), Filter([t], x => BelongsTo(x, pda)), Supply);
  }

  /** A tier's price, missing counting as 0 lamports. */
  function Price(t: RawTier): int { t.price.GetOr(0) }

  /**
   * The fold from `Infinity` yields `Infinity` exactly for an event without
   * tiers, and otherwise the price of one of its tiers that no other tier
   * undercuts.
   */
  lemma {:induction false} LowestPriceIsMinimum(tiers: seq<RawTier>)
    ensures LowestPriceOf(tiers).NoTiers? <==> tiers == []
    ensures tiers != [] ==>
      && (exists i :: 0 <= i < |tiers| && LowestPriceOf(tiers).amount == Price(tiers[i]))
      && (forall i :: 0 <= i < |tiers| ==> LowestPriceOf(tiers).amount <= Price(tiers[i]))
  {
    if tiers != [] {
      FoldFacts(Lamports(Price(tiers[0])), tiers[1..]);
      var r := LowestPriceOf(tiers);
      assert r == FoldLowest(Lamports(Price(tiers[0])), tiers[1..]);
      if r.amount != Price(tiers[0]) {
        var j :| 0 <= j < |tiers[1..]| && r.amount == Price(tiers[1..][j]);
        assert r.amount == Price(tiers[j + 1]);
      }
      forall i | 0 <= i < |tiers| ensures r.amount <= Price(tiers[i]) {
        if i > 0 { assert tiers[i] == tiers[1..][i - 1]; }
      }
    }
  }

  lemma {:induction false} FoldFacts(acc: LowestPrice, tiers: seq<RawTier>)
    requires acc.Lamports?
    ensures var r := FoldLowest(acc, tiers);
      && r.Lamports?
      && r.amount <= acc.amount
      && (r.amount == acc.amount || exists i :: 0 <= i < |tiers| && r.amount == Price(tiers[i]))
      && (forall i :: 0 <= i < |tiers| ==> r.amount <= Price(tiers[i]))
    decreases |tiers|
  {
    if tiers != [] {
      var next := MinStep(acc, tiers[0]);
      FoldFacts(next, tiers[1..]);
      var r := FoldLowest(acc, tiers);
      assert r == FoldLowest(next, tiers[1..]);
      if r.amount != acc.amount && r.amount != next.amount {
        var j :| 0 <= j < |tiers[1..]| && r.amount == Price(tiers[1..][j]);
        assert r.amount == Price(tiers[j + 1]);
      }
      forall i | 0 <= i < |tiers| ensures r.amount <= Price(tiers[i]) {
        if i > 0 { assert tiers[i] == tiers[1..][i - 1]; }
      }
    }
  }

  // ---------------------------------------------------------------------------
  // fetchEvents

  /** The two error banners of the page. */
  datatype FeedError = StaleData | LoadFailed

  /** The stale-data warning as the page's source spells it: its dash is stored mis-encoded, as the three characters U+00E2 U+20AC U+201D. */
  const STALE_TEXT := "Data may be stale \U{00E2}\U{20AC}\U{201D} failed to refresh from blockchain."
  const LOAD_FAILED_TEXT := "Failed to load events from Solana. Try refreshing the page."

  function FeedErrorText(e: FeedError): string {
    match e
    case StaleData => STALE_TEXT
    case LoadFailed => LOAD_FAILED_TEXT
  }

  /** The banner's text is never empty, so `{error && ...}` always draws it, and it tells the two failures apart. */
  lemma BannerTellsFailure(e: FeedError, f: FeedError)
    ensures FeedErrorText(e) != ""
    ensures FeedErrorText(e) == FeedErrorText(f) <==> e == f
  {
    assert STALE_TEXT != LOAD_FAILED_TEXT;
  }

  /** The fetched accounts: all event accounts and all tier accounts. */
  datatype Accounts = Accounts(events: seq<RawEvent>, tiers: seq<RawTier>)

  /** The page's `events`, `loading` and `error` state, over the shared single-slot cache. */
  class Feed {
    var events: seq<FormattedEvent>
    var loading: bool
    var error: Option<FeedError>
    const cache: EventCache.SingleSlotCache<seq<FormattedEvent>>

    /** The error banner above the grid, drawn while `error` is set. */
    function Banner(): Option<string>
      reads this
    {
      if error.Some? then Some(FeedErrorText(error.value)) else None
    }

    constructor (cache: EventCache.SingleSlotCache<seq<FormattedEvent>>)
      ensures this.cache == cache && events == [] && loading && error == None
    {
      this.cache := cache;
      events, loading, error := [], true, None;
    }

    /**
     * `fetchEvents(force)` up to its `await`. A non-forced call that finds the
     * cached list (fresh, by the slot's rule) shows it and returns `true`:
     * nothing is fetched. Otherwise the page enters the loading state with no
     * error and returns `false`: the accounts are then fetched.
     */
    method FetchEvents(force: bool, now: int) returns (served: bool)
      modifies this, cache
      ensures var rd := EventCache.GetAt(old(cache.cache), now);
        if !force && rd.result.Some? then
          && served && events == rd.result.value && !loading && error == old(error)
          && cache.cache == rd.slot
        else
          && !served && loading && error == None && events == old(events)
          && cache.cache == (if force then old(cache.cache) else rd.slot)
    {
      if !force {
        var cached := cache.GetCachedEvents(now);
        if cached.Some? {
          events := cached.value;
          loading := false;
          return true;
        }
      }
      loading := true;
      error := None;
      served := false;
    }

    /**
     * The rest of `fetchEvents`, once the retried fetch has settled at time
     * `now`. On success the formatted list is cached and shown. On failure a
     * list still held by the cache is shown with the stale-data warning;
     * otherwise the load-failed error is shown over the old list. Loading
     * ends either way.
     */
    method FinishFetch(fetched: Outcome<Accounts>, now: int)
      modifies this, cache
      ensures !loading
      ensures fetched.Ok? ==>
        var list := FormatEvents(fetched.value.events, fetched.value.tiers);
        && events == list && error == old(error)
        && cache.cache == Some(EventCache.Slot(list, now))
      ensures fetched.Err? ==>
        var rd := EventCache.GetAt(old(cache.cache), now);
        && cache.cache == rd.slot
        && (rd.result.Some? ==> events == rd.result.value && error == Some(StaleData))
        && (rd.result.None? ==> events == old(events) && error == Some(LoadFailed))
        && Banner() == Some(if rd.result.Some? then STALE_TEXT else LOAD_FAILED_TEXT)
    {
      match fetched {
        case Ok(accounts) =>
          var list := FormatEvents(accounts.events, accounts.tiers);
          cache.SetCachedEvents(list, now);
          events := list;
        case Err(_) =>
          var stale := cache.GetCachedEvents(now);
          if stale.Some? {
            events := stale.value;
            error := Some(StaleData);
          } else {
            error := Some(LoadFailed);
          }
      }
      loading := false;
    }
  }
}
