/**
 * The statistics cards above the organizer's event table: the number of
 * events, the tickets sold outside cancelled events, and the number of
 * events still running or on sale.
 */
module DashboardStats {
  import opened Wrappers
  import opened Lists
  import Dashboard

  /** A row as the cards see it: the status text and the optional sold count. */
  datatype StatRow = StatRow(status: string, sold: Option<int>)

  /** `curr.sold || 0`: a missing count adds nothing. */
  function SoldOrZero(r: StatRow): int { r.sold.GetOr(0) }

  predicate NotCancelled(r: StatRow) { r.status != "Cancelled" }

  predicate IsActive(r: StatRow) {
    r.status == "Upcoming" || r.status == "On Sale" || r.status == "Ongoing" || r.status == "Active"
  }

  function TotalEvents(events: seq<StatRow>): (n: nat)
    ensures n == |events|
  {
    |events|
  }

  /** The `reduce` that skips cancelled rows, accumulating from the left. */
  function SoldFrom(acc: int, events: seq<StatRow>): int
    decreases |events|
  {
    if events == [] then acc
    else if events[0].status == "Cancelled" then SoldFrom(acc, events[1..])
    else SoldFrom(acc + SoldOrZero(events[0]), events[1..])
  }

  function TotalSold(events: seq<StatRow>): int { SoldFrom(0, events) }

  function ActiveEvents(events: seq<StatRow>): (n: nat)
    ensures n <= TotalEvents(events)
  {
    Count(events, IsActive)
  }

  lemma {:induction false} SoldFromIsSum(acc: int, events: seq<StatRow>)
    ensures SoldFrom(acc, events) == acc + Sum(Filter(events, NotCancelled), SoldOrZero)
    decreases |events|
  {
    if events != [] {
      SoldFromIsSum(if events[0].status == "Cancelled" then acc else acc + SoldOrZero(events[0]), events[1..]);
      assert events == [events[0]] + events[1..];
    }
  }

  /** The total sold is the sum, missing counts as 0, over exactly the rows whose status is not "Cancelled". */
  lemma TotalSoldSkipsCancelled(events: seq<StatRow>)
    ensures TotalSold(events) == Sum(Filter(events, NotCancelled), SoldOrZero)
  {
    SoldFromIsSum(0, events);
  }

  /** With non-negative counts, cancelling an event can only lower the total, and every other row contributes fully. */
  lemma {:induction false} TotalSoldBounds(events: seq<StatRow>)
    requires forall i :: 0 <= i < |events| ==> SoldOrZero(events[i]) >= 0
    ensures 0 <= TotalSold(events) <= Sum(events, SoldOrZero)
    decreases |events|
  {
    TotalSoldSkipsCancelled(events);
    if events != [] {
      TotalSoldBounds(events[1..]);
      TotalSoldSkipsCancelled(events[1..]);
      assert events == [events[0]] + events[1..];
    }
  }

  /** The cards of the dashboard page: each row's status text and sold count. */
  function FromRow(r: Dashboard.Row): StatRow { StatRow(Dashboard.StatusText(r.status), r.sold) }

  function FromRows(rows: seq<Dashboard.Row>): (r: seq<StatRow>)
    ensures |r| == |rows| && forall i :: 0 <= i < |rows| ==> r[i] == FromRow(rows[i])
    decreases |rows|
  {
    if rows == [] then [] else [FromRow(rows[0])] + FromRows(rows[1..])
  }

  predicate RunningOrOnSale(r: Dashboard.Row) { r.status == Dashboard.OnSale || r.status == Dashboard.Ongoing }

  predicate RowCancelled(r: Dashboard.Row) { r.status == Dashboard.Cancelled }

  /** On the rows the dashboard page produces, "Upcoming" and "Active" never occur: the active count is the number of "On Sale" and "Ongoing" rows. */
  lemma {:induction false} ActiveOfDashboardRows(rows: seq<Dashboard.Row>)
    ensures ActiveEvents(FromRows(rows)) == Count(rows, RunningOrOnSale)
    decreases |rows|
  {
    if rows != [] {
      ActiveOfDashboardRows(rows[1..]);
      assert FromRows(rows)[1..] == FromRows(rows[1..]);
      assert IsActive(FromRow(rows[0])) <==> RunningOrOnSale(rows[0]);
    }
  }

  lemma {:induction false} SumSplitsOnCancelled(rows: seq<Dashboard.Row>)
    ensures Sum(rows, Dashboard.SoldOrZero)
      == Sum(Filter(FromRows(rows), NotCancelled), SoldOrZero) + Sum(Filter(rows, RowCancelled), Dashboard.SoldOrZero)
    decreases |rows|
  {
    if rows != [] {
      SumSplitsOnCancelled(rows[1..]);
      var x, t := rows[0], rows[1..];
      assert FromRows(rows)[1..] == FromRows(t);
      assert FromRows(rows)[0] == FromRow(x);
      if RowCancelled(x) {
        assert Filter(FromRows(rows), NotCancelled) == Filter(FromRows(t), NotCancelled);
        SumAppend([x], Filter(t, RowCancelled), Dashboard.SoldOrZero);
      } else {
        assert Filter(rows, RowCancelled) == Filter(t, RowCancelled);
        SumAppend([FromRow(x)], Filter(FromRows(t), NotCancelled), SoldOrZero);
      }
    }
  }

  /** The dashboard page's own total (every row) exceeds the card's total by exactly the sales of cancelled rows. */
  lemma TotalSoldOfDashboardRows(rows: seq<Dashboard.Row>)
    ensures Sum(rows, Dashboard.SoldOrZero) == TotalSold(FromRows(rows)) + Sum(Filter(rows, RowCancelled), Dashboard.SoldOrZero)
  {
    TotalSoldSkipsCancelled(FromRows(rows));
    SumSplitsOnCancelled(rows);
  }
}
