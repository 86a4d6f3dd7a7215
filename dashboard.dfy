/**
 * The organizer dashboard page: each of the organizer's events gets a status
 * from its flags and the clock, the rows are ordered by event id, newest
 * first, and the page totals the tickets sold.
 */
module Dashboard {
  import opened Wrappers
  import opened Lists
  import opened Sorting

  datatype DashStatus = Cancelled | Withdrawn | OnSale | Ongoing | Ended

  function StatusText(s: DashStatus): string {
    match s
    case Cancelled => "Cancelled"
    case Withdrawn => "Withdrawn"
    case OnSale => "On Sale"
    case Ongoing => "Ongoing"
    case Ended => "Ended"
  }

  /** An event account of the organizer: the two status flags are the `cancelled` / `ended` enum variants. */
  datatype OrgEvent = OrgEvent(
    eventId: int, name: string, location: string, startTime: int, endTime: int,
    cancelled: bool, ended: bool, ticketsSold: Option<int>)

  /** The status of one event at `now` (seconds); the flags are tested before the clock. */
  function Classify(e: OrgEvent, now: int): DashStatus {
    if e.cancelled then Cancelled
    else if e.ended then Withdrawn
    else if now < e.startTime then OnSale
    else if now >= e.startTime && now <= e.endTime then Ongoing
    else Ended
  }

  /**
   * The cancelled flag wins over everything, the ended flag over the clock;
   * otherwise the three time statuses split the timeline with no gap or
   * overlap: before the start, from start to end inclusive, after the end.
   */
  lemma ClassifyCases(e: OrgEvent, now: int)
    ensures Classify(e, now) == Cancelled <==> e.cancelled
    ensures Classify(e, now) == Withdrawn <==> !e.cancelled && e.ended
    ensures Classify(e, now) == OnSale <==> !e.cancelled && !e.ended && now < e.startTime
    ensures Classify(e, now) == Ongoing <==> !e.cancelled && !e.ended && e.startTime <= now <= e.endTime
    ensures Classify(e, now) == Ended <==> !e.cancelled && !e.ended && now >= e.startTime && now > e.endTime
  {
  }

  /** The five status texts are pairwise distinct, so each row shows exactly one status. */
  lemma StatusTextsDistinct(a: DashStatus, b: DashStatus)
    ensures StatusText(a) == StatusText(b) <==> a == b
  {
  }

  datatype Row = Row(id: int, name: string, location: string, status: DashStatus, sold: Option<int>)

  function ToRow(e: OrgEvent, now: int): Row {
    Row(e.eventId, e.name, e.location, Classify(e, now), e.ticketsSold)
  }

  function ToRows(events: seq<OrgEvent>, now: int): (r: seq<Row>)
    ensures |r| == |events| && forall i :: 0 <= i < |events| ==> r[i] == ToRow(events[i], now)
    decreases |events|
  {
    if events == [] then [] else [ToRow(events[0], now)] + ToRows(events[1..], now)
  }

  function RowId(r: Row): int { r.id }

  /** The rows of the page: `formattedEvents.sort((a, b) => Number(b.id) - Number(a.id))`. */
  function DashboardRows(events: seq<OrgEvent>, now: int): seq<Row> {
    SortDesc(ToRows(events, now), RowId)
  }

  function SoldOrZero(r: Row): int { r.sold.GetOr(0) }

  /** What the page reports: the tickets sold over all rows (missing counts as 0) and the number of rows. */
  datatype Summary = Summary(totalSold: int, eventCount: nat)

  function Summarize(rows: seq<Row>): Summary {
    Summary(Sum(rows, SoldOrZero), |rows|)
  }

  /** The rows are ordered by id, highest first, and are exactly the classified events. */
  lemma DashboardRowsSorted(events: seq<OrgEvent>, now: int)
    ensures SortedDesc(DashboardRows(events, now), RowId)
    ensures multiset(DashboardRows(events, now)) == multiset(ToRows(events, now))
  {
    SortDescCorrect(ToRows(events, now), RowId);
  }

  /**
   * Sorting does not change the totals: the sold count is the sum over all
   * the organizer's events, cancelled ones included, and the count is the
   * number of events.
   */
  lemma SummaryOfSortedRows(events: seq<OrgEvent>, now: int)
    ensures Summarize(DashboardRows(events, now)).totalSold == Sum(ToRows(events, now), SoldOrZero)
    ensures Summarize(DashboardRows(events, now)).eventCount == |events|
  {
    SortDescCorrect(ToRows(events, now), RowId);
    SumPermutation(DashboardRows(events, now), ToRows(events, now), SoldOrZero);
  }

  class DashboardPage {
    var events: seq<Row>
    var loading: bool
    var summary: Option<Summary>

    constructor ()
      ensures events == [] && loading && summary == None
    {
      events, loading, summary := [], true, None;
    }

    /**
     * `fetchDashboardData()`, once the organizer's events have been fetched
     * (or the fetch failed). Without a wallet the list is emptied and nothing
     * is fetched. A failed fetch is logged and leaves the list as it was.
     * Loading ends in every case.
     */
    method FetchDashboardData(walletConnected: bool, fetched: Outcome<seq<OrgEvent>>, now: int)
      modifies this
      ensures !loading
      ensures !walletConnected ==> events == [] && summary == old(summary)
      ensures walletConnected && fetched.Ok? ==>
        events == DashboardRows(fetched.value, now) && summary == Some(Summarize(events))
      ensures walletConnected && fetched.Err? ==> events == old(events) && summary == old(summary)
    {
      if !walletConnected {
        events := [];
        loading := false;
        return;
      }
      loading := true;
      if fetched.Ok? {
        var rows := DashboardRows(fetched.value, now);
        events := rows;
        summary := Some(Summarize(rows));
      }
      loading := false;
    }
  }
}
