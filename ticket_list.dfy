/**
 * The tabbed, paginated list of the "My Tickets" page: the tickets with the
 * active tab's status, of which the first `visibleCount` are shown, with a
 * "Load more" button that shows five more and a badge per tab counting its
 * tickets.
 */
module TicketList {
  import opened Wrappers
  import opened Lists
  import opened Strings
  import opened MyTickets

  datatype Tab = Tab(caption: string, value: string)

  /** The four tabs, in the order they are drawn; none of them is "all". */
  const TABS: seq<Tab> := [
    Tab("Upcoming", "upcoming"), Tab("Attended", "attended"),
    Tab("Cancelled", "cancelled"), Tab("Listed", "listed")]

  const PAGE_SIZE: nat := 5

  function HasStatus(value: string): MyTicket -> bool {
    (t: MyTicket) => t.status == value
  }

  /** The tickets of the active tab: all of them for "all", else those whose status is the tab's value. */
  function Filtered(tickets: seq<MyTicket>, activeTab: string): seq<MyTicket> {
    if activeTab == "all" then tickets else Filter(tickets, HasStatus(activeTab))
  }

  /** `s.slice(0, n)` for `n >= 0`: the longest prefix of at most `n` elements. */
  function Take<T>(s: seq<T>, n: nat): (r: seq<T>)
    ensures r <= s && |r| <= n
    ensures |r| < n ==> r == s
  {
    s[..Min(n, |s|)]
  }

  function Visible(tickets: seq<MyTicket>, activeTab: string, visibleCount: nat): seq<MyTicket> {
    Take(Filtered(tickets, activeTab), visibleCount)
  }

  predicate HasMore(tickets: seq<MyTicket>, activeTab: string, visibleCount: nat) {
    |Filtered(tickets, activeTab)| > visibleCount
  }

  /** The badge number of the tab with this value. */
  function TabCount(tickets: seq<MyTicket>, value: string): nat {
    Count(tickets, HasStatus(value))
  }

  /**
   * The shown tickets are the leading tickets of the active tab, in their
   * order, never more than `visibleCount`; each was passed in and, unless
   * the tab is "all", has the tab's status.
   */
  lemma VisibleIsLeadingOfTab(tickets: seq<MyTicket>, activeTab: string, visibleCount: nat)
    ensures var v := Visible(tickets, activeTab, visibleCount);
      |v| <= visibleCount && v == Filtered(tickets, activeTab)[..|v|]
    ensures forall i :: 0 <= i < |Visible(tickets, activeTab, visibleCount)| ==>
      (Visible(tickets, activeTab, visibleCount)[i] in tickets
      && (activeTab != "all" ==> Visible(tickets, activeTab, visibleCount)[i].status == activeTab))
  {
    var f := Filtered(tickets, activeTab);
    var v := Visible(tickets, activeTab, visibleCount);
    forall i | 0 <= i < |v|
      ensures v[i] in tickets && (activeTab != "all" ==> v[i].status == activeTab)
    {
      assert v[i] == f[i];
    }
  }

  /**
   * "Load more" is offered exactly when some ticket of the tab is hidden, and
   * then the list shows exactly `visibleCount` tickets; otherwise it shows the
   * whole tab.
   */
  lemma HasMoreIffHidden(tickets: seq<MyTicket>, activeTab: string, visibleCount: nat)
    ensures HasMore(tickets, activeTab, visibleCount) <==>
      |Visible(tickets, activeTab, visibleCount)| < |Filtered(tickets, activeTab)|
    ensures HasMore(tickets, activeTab, visibleCount) ==> |Visible(tickets, activeTab, visibleCount)| == visibleCount
    ensures !HasMore(tickets, activeTab, visibleCount) ==> Visible(tickets, activeTab, visibleCount) == Filtered(tickets, activeTab)
  {
  }

  /** Loading more keeps what was shown and appends the next (at most five) tickets of the tab. */
  lemma LoadMoreAppendsNext(tickets: seq<MyTicket>, activeTab: string, visibleCount: nat)
    ensures var f := Filtered(tickets, activeTab);
      Visible(tickets, activeTab, visibleCount + PAGE_SIZE)
        == Visible(tickets, activeTab, visibleCount) + f[Min(visibleCount, |f|)..Min(visibleCount + PAGE_SIZE, |f|)]
  {
    var f := Filtered(tickets, activeTab);
    assert f[..Min(visibleCount + PAGE_SIZE, |f|)]
      == f[..Min(visibleCount, |f|)] + f[Min(visibleCount, |f|)..Min(visibleCount + PAGE_SIZE, |f|)];
  }

  /** The empty-state message shows exactly when the active tab has no ticket (a page is never empty). */
  lemma EmptyStateIffTabEmpty(tickets: seq<MyTicket>, activeTab: string, visibleCount: nat)
    requires visibleCount > 0
    ensures Visible(tickets, activeTab, visibleCount) == [] <==> Filtered(tickets, activeTab) == []
  {
  }

  /** A tab's badge counts the tickets its filter shows. */
  lemma BadgeCountsTab(tickets: seq<MyTicket>, value: string)
    requires value != "all"
    ensures TabCount(tickets, value) == |Filtered(tickets, value)|
    ensures TabCount(tickets, value) == 0 <==> (forall t :: t in tickets ==> t.status != value)
  {
    if TabCount(tickets, value) == 0 {
      forall t | t in tickets
        ensures t.status != value
      {
        FilterMembership(tickets, HasStatus(value), t);
      }
    } else {
      var t := Filtered(tickets, value)[0];
      FilterMembership(tickets, HasStatus(value), t);
    }
  }

  predicate PageStatus(s: string) { s == "upcoming" || s == "attended" || s == "cancelled" }

  /**
   * When every ticket carries one of the three statuses the page assigns,
   * the "Upcoming", "Attended" and "Cancelled" badges add up to the number
   * of tickets and "Listed" counts none.
   */
  lemma {:induction false} TabsPartition(tickets: seq<MyTicket>)
    requires forall i :: 0 <= i < |tickets| ==> PageStatus(tickets[i].status)
    ensures TabCount(tickets, "upcoming") + TabCount(tickets, "attended") + TabCount(tickets, "cancelled") == |tickets|
    ensures TabCount(tickets, "listed") == 0
    decreases |tickets|
  {
    if tickets != [] {
      TabsPartition(tickets[1..]);
    }
  }

  /** The page's own list satisfies that: its tabs split it, and the "Listed" tab is always empty. */
  lemma PageTicketsFillThreeTabs(owned: seq<RawTicket>, events: seq<CatalogEvent>, now: int)
    ensures var ts := MyTicketList(owned, events, now);
      TabCount(ts, "upcoming") + TabCount(ts, "attended") + TabCount(ts, "cancelled") == |ts|
      && TabCount(ts, "listed") == 0
  {
    var ts := MyTicketList(owned, events, now);
    ListIsReversed(owned, events, now);
    forall i | 0 <= i < |ts|
      ensures PageStatus(ts[i].status)
    {
      var t := owned[|owned| - 1 - i];
      var ev := FindEvent(events, FirstOf(t.event, t.eventAccount, t.eventPubkey));
      assert ts[i].status == TicketStatus(t, ev, now);
    }
    TabsPartition(ts);
  }

  class TicketListView {
    var tickets: seq<MyTicket>
    var activeTab: string
    var visibleCount: nat

    /** The page size divides the count, which never drops below one page. */
    predicate Valid()
      reads this
    {
      visibleCount >= PAGE_SIZE && visibleCount % PAGE_SIZE == 0
    }

    function Shown(): seq<MyTicket>
      reads this
    {
      Visible(tickets, activeTab, visibleCount)
    }

    constructor (tickets: seq<MyTicket>)
      ensures this.tickets == tickets && activeTab == "upcoming" && visibleCount == PAGE_SIZE && Valid()
      ensures Shown() == Take(Filter(tickets, HasStatus("upcoming")), PAGE_SIZE)
    {
      this.tickets := tickets;
      activeTab, visibleCount := "upcoming", PAGE_SIZE;
    }

    /** The parent passes a new `tickets` prop: the tab and the page count stay. */
    method SyncTickets(tickets: seq<MyTicket>)
      modifies this
      ensures this.tickets == tickets && activeTab == old(activeTab) && visibleCount == old(visibleCount)
    {
      this.tickets := tickets;
    }

    /** A tab button: that tab becomes active and the list falls back to its first page. */
    method SelectTab(value: string)
      modifies this
      ensures activeTab == value && visibleCount == PAGE_SIZE && tickets == old(tickets) && Valid()
      ensures Shown() == Take(Filtered(tickets, value), PAGE_SIZE)
    {
      activeTab := value;
      visibleCount := PAGE_SIZE;
    }

    /** "Load more tickets": five more tickets of the same tab. */
    method LoadMore()
      requires Valid()
      modifies this
      ensures visibleCount == old(visibleCount) + PAGE_SIZE && Valid()
      ensures activeTab == old(activeTab) && tickets == old(tickets)
      ensures old(Shown()) == Shown()[..|old(Shown())|]
    {
      visibleCount := visibleCount + PAGE_SIZE;
      LoadMoreAppendsNext(tickets, activeTab, old(visibleCount));
    }
  }
}
