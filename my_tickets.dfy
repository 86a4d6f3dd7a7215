/**
 * The "My Tickets" page: the wallet's ticket accounts are joined with the event
 * catalogue, each ticket gets a status, missing event data falls back to
 * placeholders, and the list is shown newest first (reversed).
 */
module MyTickets {
  import opened Wrappers
  import opened Lists

  /** A ticket account owned by the wallet; the event and tier keys may sit under any of three field names. */
  datatype RawTicket = RawTicket(
    pda: string,
    event: Option<string>, eventAccount: Option<string>, eventPubkey: Option<string>,
    tier: Option<string>, tierAccount: Option<string>, tierPubkey: Option<string>,
    isUsed: bool)

  /** An event account of the catalogue; `status`'s cancelled variant is a flag, `category` an enum by its keys. */
  datatype CatalogEvent = CatalogEvent(
    pda: string, name: Option<string>, organizer: string,
    startTime: Option<int>, endTime: Option<int>, cancelled: bool, category: Option<seq<string>>)

  /** A date or time column: "TBA" or the start timestamp, which the page renders in the user's locale. */
  datatype When = TBA | At(timestamp: int)

  datatype MyTicket = MyTicket(
    id: string, status: string, category: string, title: string, date: When, time: When,
    eventPda: Option<string>, tierPda: Option<string>, organizer: Option<string>)

  /** The first catalogue event with the given address (`find`). */
  function FindEvent(events: seq<CatalogEvent>, pda: Option<string>): (r: Option<CatalogEvent>)
    ensures r.Some? ==> r.value in events && pda == Some(r.value.pda)
    ensures r.None? ==> forall e :: e in events ==> pda != Some(e.pda)
    decreases |events|
  {
    if events == [] then None
    else if pda == Some(events[0].pda) then Some(events[0])
    else FindEvent(events[1..], pda)
  }

  /** `find` returns the first event with the address: the match at `i` when none comes before it. */
  lemma {:induction false} FindEventIsFirst(events: seq<CatalogEvent>, pda: Option<string>, i: nat)
    requires i < |events| && pda == Some(events[i].pda)
    requires forall j :: 0 <= j < i ==> pda != Some(events[j].pda)
    ensures FindEvent(events, pda) == Some(events[i])
    decreases i
  {
    if i > 0 {
      FindEventIsFirst(events[1..], pda, i - 1);
    }
  }

  /** This page's `enumKey(val) ?? "other"`: the first key, "other" for no value or no key. */
  function EnumKeyOrOther(val: Option<seq<string>>): string {
    if val.None? || val.value == [] then "other" else val.value[0]
  }

  /** The status of a ticket at `now` (seconds), given its event's data if found. */
  function TicketStatus(t: RawTicket, ev: Option<CatalogEvent>, now: int): string {
    var endTs := if ev.Some? then ev.value.endTime.GetOr(0) else 0;
    if ev.Some? && ev.value.cancelled then "cancelled"
    else if t.isUsed || now > endTs then "attended"
    else "upcoming"
  }

  function FormatTicket(t: RawTicket, events: seq<CatalogEvent>, now: int): MyTicket {
    var eventKey := FirstOf(t.event, t.eventAccount, t.eventPubkey);
    var ev := FindEvent(events, eventKey);
    var startTs := if ev.Some? then ev.value.startTime.GetOr(0) else 0;
    var when := if startTs != 0 then At(startTs) else TBA;
    MyTicket(
      t.pda,
      TicketStatus(t, ev, now),
      EnumKeyOrOther(if ev.Some? then ev.value.category else None),
      if ev.Some? && ev.value.name.Some? then ev.value.name.value else "Unknown Event",
      when, when,
      eventKey,
      FirstOf(t.tier, t.tierAccount, t.tierPubkey),
      if ev.Some? then Some(ev.value.organizer) else None)
  }

  function FormatTickets(tickets: seq<RawTicket>, events: seq<CatalogEvent>, now: int): (r: seq<MyTicket>)
    ensures |r| == |tickets| && forall i :: 0 <= i < |tickets| ==> r[i] == FormatTicket(tickets[i], events, now)
    decreases |tickets|
  {
    if tickets == [] then [] else [FormatTicket(tickets[0], events, now)] + FormatTickets(tickets[1..], events, now)
  }

  /** The list the page shows: `formattedTickets.reverse()`. */
  function MyTicketList(tickets: seq<RawTicket>, events: seq<CatalogEvent>, now: int): seq<MyTicket> {
    Reverse(FormatTickets(tickets, events, now))
  }

  /**
   * A ticket is "cancelled" exactly when its event is cancelled; otherwise
   * "attended" exactly when it is used or its event has ended, and otherwise
   * "upcoming".
   */
  lemma TicketStatusCases(t: RawTicket, ev: Option<CatalogEvent>, now: int)
    ensures var endTs := if ev.Some? then ev.value.endTime.GetOr(0) else 0;
      && (TicketStatus(t, ev, now) == "cancelled" <==> ev.Some? && ev.value.cancelled)
      && (TicketStatus(t, ev, now) == "attended" <==> !(ev.Some? && ev.value.cancelled) && (t.isUsed || now > endTs))
      && (TicketStatus(t, ev, now) == "upcoming" <==> !(ev.Some? && ev.value.cancelled) && !t.isUsed && now <= endTs)
  {
  }

  /**
   * A ticket whose event is not in the catalogue is shown as "Unknown Event",
   * category "other", date and time "TBA", and, its end counting as 0,
   * "attended" at any positive time.
   */
  lemma MissingEventFallbacks(t: RawTicket, events: seq<CatalogEvent>, now: int)
    requires forall e :: e in events ==> FirstOf(t.event, t.eventAccount, t.eventPubkey) != Some(e.pda)
    requires now > 0
    ensures var m := FormatTicket(t, events, now);
      && m.title == "Unknown Event" && m.category == "other"
      && m.date == TBA && m.time == TBA
      && m.status == "attended"
      && m.organizer == None
  {
    assert FindEvent(events, FirstOf(t.event, t.eventAccount, t.eventPubkey)).None?;
  }

  /** A found event without a start time (or with start 0) also shows "TBA". */
  lemma NoStartShowsTba(t: RawTicket, events: seq<CatalogEvent>, now: int)
    requires var ev := FindEvent(events, FirstOf(t.event, t.eventAccount, t.eventPubkey));
      ev.Some? && ev.value.startTime.GetOr(0) == 0
    ensures FormatTicket(t, events, now).date == TBA
  {
  }

  /** The list shows the fetched tickets in reverse order: the last fetched comes first. */
  lemma ListIsReversed(tickets: seq<RawTicket>, events: seq<CatalogEvent>, now: int)
    ensures |MyTicketList(tickets, events, now)| == |tickets|
    ensures forall i :: 0 <= i < |tickets| ==>
      MyTicketList(tickets, events, now)[i] == FormatTicket(tickets[|tickets| - 1 - i], events, now)
  {
  }

  class MyTicketsPage {
    var tickets: seq<MyTicket>
    var loading: bool

    constructor ()
      ensures tickets == [] && loading
    {
      tickets, loading := [], true;
    }

    /**
     * `fetchMyTickets()` until the wallet's ticket accounts are known. It
     * returns whether the event and tier catalogue must now be fetched: only
     * when the wallet owns at least one ticket. Without a wallet, or with no
     * tickets, the list is emptied and loading ends; a failed fetch ends
     * loading and leaves the list as it was.
     */
    method FetchMyTickets(walletConnected: bool, owned: Outcome<seq<RawTicket>>) returns (needCatalogue: bool)
      modifies this
      ensures needCatalogue <==> walletConnected && owned.Ok? && |owned.value| > 0
      ensures needCatalogue ==> loading && tickets == old(tickets)
      ensures !needCatalogue ==> !loading
      ensures !walletConnected || (owned.Ok? && owned.value == []) ==> tickets == []
      ensures walletConnected && owned.Err? ==> tickets == old(tickets)
    {
      needCatalogue := false;
      if !walletConnected {
        tickets := [];
        loading := false;
        return;
      }
      loading := true;
      match owned {
        case Err(_) =>
          loading := false;
        case Ok(list) =>
          if |list| == 0 {
            tickets := [];
            loading := false;
          } else {
            needCatalogue := true;
          }
      }
    }

    /** The rest of `fetchMyTickets`, once the catalogue has been fetched (or not) at `now`. */
    method FinishFetch(owned: seq<RawTicket>, catalogue: Outcome<seq<CatalogEvent>>, now: int)
      modifies this
      ensures !loading
      ensures catalogue.Ok? ==> tickets == MyTicketList(owned, catalogue.value, now)
      ensures catalogue.Err? ==> tickets == old(tickets)
    {
      if catalogue.Ok? {
        tickets := MyTicketList(owned, catalogue.value, now);
      }
      loading := false;
    }
  }
}
