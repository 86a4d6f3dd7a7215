/**
 * The organizer's validator table: validator accounts are joined with the
 * organizer's events (a validator of someone else's event is dropped), each
 * row carries its event's name, the table shows the rows of the selected
 * event, and adding a validator is guarded by three checks before any
 * transaction is sent. Both account lists are read through the request cache,
 * which a forced refresh busts first.
 */
module ValidatorsTable {
  import opened Wrappers
  import opened Strings
  import opened Lists
  import opened ProgramCache

  /** An event of the organizer: its address and name. */
  datatype EventRef = EventRef(pda: string, name: string)

  /** A validator account; its event address may sit under any of three field names. */
  datatype RawValidator = RawValidator(
    pda: string, validator: string,
    event: Option<string>, eventAccount: Option<string>, eventPubkey: Option<string>)

  datatype ValidatorRow = ValidatorRow(id: string, address: string, eventName: string, eventPda: string)

  /** `addr.slice(0, 6) + "..." + addr.slice(-4)` */
  function ShortenAddr(addr: string): (r: string)
    ensures |addr| >= 6 ==> r == addr[..6] + "..." + addr[|addr| - 4..]
  {
    if |addr| >= 6 then AbbreviateLong(addr, 6, 4); Abbreviate(addr, 6, 4) else Abbreviate(addr, 6, 4)
  }

  function EventPdaOf(v: RawValidator): Option<string> { FirstOf(v.event, v.eventAccount, v.eventPubkey) }

  /** The set of the organizer's event addresses. */
  function Pdas(events: seq<EventRef>): (r: set<string>)
    ensures forall p :: p in r <==> exists e :: e in events && e.pda == p
    decreases |events|
  {
    if events == [] then {} else {events[0].pda} + Pdas(events[1..])
  }

  /** The name of the first event with the given address (`find`). */
  function FindName(events: seq<EventRef>, pda: string): (r: Option<string>)
    ensures r.None? <==> pda !in Pdas(events)
    ensures r.Some? ==> EventRef(pda, r.value) in events
    decreases |events|
  {
    if events == [] then None
    else if events[0].pda == pda then Some(events[0].name)
    else FindName(events[1..], pda)
  }

  /** `find` names the first event with the address: the match at `i` when none comes before it. */
  lemma {:induction false} FindNameIsFirst(events: seq<EventRef>, pda: string, i: nat)
    requires i < |events| && events[i].pda == pda
    requires forall j :: 0 <= j < i ==> events[j].pda != pda
    ensures FindName(events, pda) == Some(events[i].name)
    decreases i
  {
    if i > 0 {
      FindNameIsFirst(events[1..], pda, i - 1);
    }
  }

  /** The filter: the event address is present, non-empty and one of the organizer's. */
  predicate Kept(events: seq<EventRef>, v: RawValidator) {
    var e := EventPdaOf(v);
    e.Some? && e.value != "" && e.value in Pdas(events)
  }

  function ToRow(events: seq<EventRef>, v: RawValidator): ValidatorRow {
    var e := EventPdaOf(v).GetOr("");
    ValidatorRow(v.pda, v.validator, FindName(events, e).GetOr("Unknown"), e)
  }

  function ValidatorRows(validators: seq<RawValidator>, events: seq<EventRef>): (rows: seq<ValidatorRow>)
    ensures |rows| <= |validators|
    decreases |validators|
  {
    if validators == [] then []
    else
      (if Kept(events, validators[0]) then [ToRow(events, validators[0])] else [])
      + ValidatorRows(validators[1..], events)
  }

  /**
   * The rows are exactly the kept validators, converted: a row exists for a
   * validator only when its event is one of the organizer's.
   */
  lemma {:induction false} ValidatorRowsAreKept(validators: seq<RawValidator>, events: seq<EventRef>, r: ValidatorRow)
    ensures r in ValidatorRows(validators, events) <==>
      exists v :: v in validators && Kept(events, v) && r == ToRow(events, v)
    decreases |validators|
  {
    if validators != [] {
      ValidatorRowsAreKept(validators[1..], events, r);
      if r in ValidatorRows(validators[1..], events) {
        var v :| v in validators[1..] && Kept(events, v) && r == ToRow(events, v);
        assert v in validators;
      }
    }
  }

  /**
   * Every row belongs to one of the organizer's events, and its name is that
   * event's name: "Unknown" cannot appear for a kept row unless an event is
   * itself named so.
   */
  lemma RowsNameTheirEvent(validators: seq<RawValidator>, events: seq<EventRef>, r: ValidatorRow)
    requires r in ValidatorRows(validators, events)
    ensures r.eventPda in Pdas(events) && r.eventPda != ""
    ensures EventRef(r.eventPda, r.eventName) in events
  {
    ValidatorRowsAreKept(validators, events, r);
  }

  /** The rows shown: those of the selected event, or all rows when none is selected. */
  function Visible(rows: seq<ValidatorRow>, selected: string): seq<ValidatorRow> {
    if selected != "" then Filter(rows, (r: ValidatorRow) => r.eventPda == selected) else rows
  }

  lemma VisibleRows(rows: seq<ValidatorRow>, selected: string, r: ValidatorRow)
    ensures selected == "" ==> Visible(rows, selected) == rows
    ensures selected != "" ==> (r in Visible(rows, selected) <==> r in rows && r.eventPda == selected)
    ensures IsSubseq(Visible(rows, selected), rows)
  {
    FilterMembership(rows, (r: ValidatorRow) => r.eventPda == selected, r);
    FilterIsSubseq(rows, (r: ValidatorRow) => r.eventPda == selected);
    if selected == "" {
      SubseqReflexive(rows);
    }
  }

  /** After a fetch, the selection defaults to the first event only when nothing is selected and there are events. */
  function DefaultSelection(selected: string, events: seq<EventRef>): (r: string)
    ensures selected != "" ==> r == selected
    ensures selected == "" && events != [] ==> r == events[0].pda
    ensures selected == "" && events == [] ==> r == ""
  {
    if selected == "" && |events| > 0 then events[0].pda else selected
  }

  /**
   * `handleAdd`'s checks, in order: a wallet, a selected event, and an input
   * that trims to a valid address (`isValidKey` is whether `new PublicKey`
   * accepts it). On success the trimmed address is to be added.
   */
  function AddCheck(walletConnected: bool, selected: string, input: string, isValidKey: string -> bool): Outcome<string> {
    if !walletConnected then Err("Connect your wallet first.")
    else if selected == "" then Err("Select an event first.")
    else if !isValidKey(Trim(input)) then Err("Enter a valid Solana wallet address.")
    else Ok(Trim(input))
  }

  /** The checks run in order, the first failing one names the error, and only passing all three adds the trimmed input. */
  lemma AddCheckOrder(walletConnected: bool, selected: string, input: string, isValidKey: string -> bool)
    ensures AddCheck(walletConnected, selected, input, isValidKey).Ok? <==>
      walletConnected && selected != "" && isValidKey(Trim(input))
    ensures AddCheck(walletConnected, selected, input, isValidKey).Ok? ==>
      AddCheck(walletConnected, selected, input, isValidKey).value == Trim(input)
    ensures !walletConnected ==> AddCheck(walletConnected, selected, input, isValidKey) == Err("Connect your wallet first.")
    ensures walletConnected && selected == "" ==> AddCheck(walletConnected, selected, input, isValidKey) == Err("Select an event first.")
    ensures walletConnected && selected != "" && !isValidKey(Trim(input)) ==>
      AddCheck(walletConnected, selected, input, isValidKey) == Err("Enter a valid Solana wallet address.")
  {
  }

  /** The cache keys of the two reads. */
  function EventsKey(walletKey: string): string { "orgEvents:" + walletKey }

  const VALIDATORS_KEY := "validatorAccount"

  lemma KeysDiffer(walletKey: string)
    ensures EventsKey(walletKey) != VALIDATORS_KEY
  {
    assert EventsKey(walletKey)[0] == 'o';
  }

  /** What the two cached reads hold: the organizer's events, or all validator accounts. */
  datatype Accounts = EventAccounts(events: seq<EventRef>) | ValidatorAccounts(validators: seq<RawValidator>)

  /** The cache state after `fetchAll(force)`'s invalidation, before its two reads. */
  function Busted(s: Snapshot<Accounts>, walletKey: string, force: bool): Snapshot<Accounts> {
    if force then InvalidateKey(InvalidateKey(s, EventsKey(walletKey)), VALIDATORS_KEY) else s
  }

  /** The two reads of `fetchAll` at `now`, one after the other. */
  function ReadBoth(s: Snapshot<Accounts>, walletKey: string, now: int): (Step<Accounts>, Step<Accounts>) {
    var first := BeginFetch(s, EventsKey(walletKey), now, TTL_MS);
    (first, BeginFetch(first.state, VALIDATORS_KEY, now, TTL_MS))
  }

  /** A forced refresh serves neither list from the store: each read joins or starts a fetch. */
  lemma ForcedRefreshMisses(s: Snapshot<Accounts>, walletKey: string, now: int)
    requires Consistent(s)
    ensures var r := ReadBoth(Busted(s, walletKey, true), walletKey, now);
      !r.0.begin.Hit? && !r.1.begin.Hit?
  {
    KeysDiffer(walletKey);
    var s1 := InvalidateKey(s, EventsKey(walletKey));
    var s2 := InvalidateKey(s1, VALIDATORS_KEY);
    InvalidateKeepsConsistent(s, EventsKey(walletKey));
    KeysAreIsolated(s1, VALIDATORS_KEY, EventsKey(walletKey), now, TTL_MS);
    InvalidatedKeyMisses(s, EventsKey(walletKey), VALIDATORS_KEY, now, TTL_MS);
    InvalidatedKeyMisses(s1, VALIDATORS_KEY, VALIDATORS_KEY, now, TTL_MS);
    var first := BeginFetch(s2, EventsKey(walletKey), now, TTL_MS);
    KeysAreIsolated(s2, EventsKey(walletKey), VALIDATORS_KEY, now, TTL_MS);
  }

  class ValidatorsTablePage {
    var validators: seq<ValidatorRow>
    var events: seq<EventRef>
    var selected: string
    var input: string
    var loading: bool
    var adding: bool
    var error: Option<string>
    const cache: RequestCache<Accounts>

    constructor (cache: RequestCache<Accounts>)
      ensures validators == [] && events == [] && selected == "" && input == ""
      ensures loading && !adding && error.None? && this.cache == cache
    {
      validators, events, selected, input := [], [], "", "";
      loading, adding, error := true, false, None;
      this.cache := cache;
    }

    /**
     * `fetchAll(force)` up to its two reads. Without a wallet nothing
     * happens. Otherwise loading starts, a forced call first busts both
     * cache keys, and the two reads begin; their results are returned.
     */
    method StartFetchAll(walletKey: Option<string>, force: bool, now: int) returns (begun: Option<(Begin<Accounts>, Begin<Accounts>)>)
      requires cache.Valid()
      modifies this, cache
      ensures cache.Valid()
      ensures walletKey.None? ==> begun.None? && cache.Snap() == old(cache.Snap()) && loading == old(loading)
      ensures walletKey.Some? ==> loading && (var r := ReadBoth(Busted(old(cache.Snap()), walletKey.value, force), walletKey.value, now);
        begun == Some((r.0.begin, r.1.begin)) && cache.Snap() == r.1.state)
      ensures validators == old(validators) && events == old(events) && selected == old(selected)
      ensures input == old(input) && adding == old(adding) && error == old(error)
    {
      if walletKey.None? {
        return None;
      }
      var w := walletKey.value;
      loading := true;
      if force {
        cache.InvalidateProgramCache(EventsKey(w));
        cache.InvalidateProgramCache(VALIDATORS_KEY);
      }
      var b1 := cache.CachedFetch(EventsKey(w), now);
      var b2 := cache.CachedFetch(VALIDATORS_KEY, now);
      begun := Some((b1, b2));
    }

    /**
     * Both reads settled (`Promise.all`): on success the events are stored,
     * the selection defaults to the first event, and the rows are joined; a
     * failure is only logged. Loading ends either way.
     */
    method FinishFetchAll(fetched: Outcome<(seq<EventRef>, seq<RawValidator>)>)
      modifies this
      ensures !loading && input == old(input) && adding == old(adding) && error == old(error)
      ensures fetched.Ok? ==> (events == fetched.value.0
        && selected == DefaultSelection(old(selected), fetched.value.0)
        && validators == ValidatorRows(fetched.value.1, fetched.value.0))
      ensures fetched.Err? ==> events == old(events) && selected == old(selected) && validators == old(validators)
    {
      if fetched.Ok? {
        var (evs, vals) := fetched.value;
        events := evs;
        if selected == "" && |evs| > 0 {
          selected := evs[0].pda;
        }
        validators := ValidatorRows(vals, evs);
      }
      loading := false;
    }

    /** `handleAdd` up to its transaction: returns the address to add, or sets the first failing check's error. */
    method StartAdd(walletConnected: bool, isValidKey: string -> bool) returns (address: Option<string>)
      modifies this
      ensures var c := AddCheck(walletConnected, old(selected), old(input), isValidKey);
        (c.Ok? ==> address == Some(c.value) && adding && error.None?)
        && (c.Err? ==> address.None? && error == Some(c.message) && adding == old(adding))
      ensures validators == old(validators) && events == old(events) && selected == old(selected)
      ensures input == old(input) && loading == old(loading)
    {
      error := None;
      var c := AddCheck(walletConnected, selected, input, isValidKey);
      if c.Err? {
        error := Some(c.message);
        return None;
      }
      adding := true;
      address := Some(c.value);
    }

    /**
     * The add transaction settled. On success the input is cleared and a
     * forced refresh is due (the caller runs it, then `EndAdd`); on failure
     * the error shows and adding ends.
     */
    method FinishAdd(tx: TxOutcome) returns (refresh: bool)
      modifies this
      ensures refresh <==> tx.Done?
      ensures tx.Done? ==> input == "" && error == old(error) && adding == old(adding)
      ensures tx.Failed? ==> input == old(input) && error == Some(FailureText(tx.message)) && !adding
      ensures validators == old(validators) && events == old(events) && selected == old(selected) && loading == old(loading)
    {
      if tx.Done? {
        input := "";
        return true;
      }
      error := Some(FailureText(tx.message));
      adding := false;
      refresh := false;
    }

    /** The forced refresh after a successful add has finished. */
    method EndAdd()
      modifies this
      ensures !adding
      ensures validators == old(validators) && events == old(events) && selected == old(selected)
      ensures input == old(input) && loading == old(loading) && error == old(error)
    {
      adding := false;
    }
  }
}
