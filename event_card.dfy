/**
 * The card of an event in the home page's grid: a category label, a status
 * badge computed from the cancelled flag and the current time, the number of
 * tickets left, and the call to action.
 */
module EventCard {
  import opened Wrappers
  import opened Utils
  import HomeFeed

  /** `CATEGORY_LABELS[key]`: the label of one of the five known keys. */
  function CategoryLabel(key: string): Option<string> {
    match key
    case "music" => Some("Music")
    case "conference" => Some("Conference")
    case "sports" => Some("Sports")
    case "art" => Some("Art")
    case "other" => Some("Other")
    case _ => None
  }

  /**
   * `getCategory(catObj)`: "Other" for a falsy value, otherwise the label of
   * `Object.keys(catObj)[0]`, or "Event" when there is no such key or it has
   * no label. A string is keyed by its indices and a number or a boolean has
   * no keys, so a truthy primitive always gives "Event".
   */
  function GetCategory(v: CategoryValue): string {
    if !Truthy(v) then "Other"
    else
      var key: Option<string> := if v.Obj? && v.keys != [] then Some(v.keys[0]) else if v.Text? then Some("0") else None;
      if key.Some? && CategoryLabel(key.value).Some? then CategoryLabel(key.value).value else "Event"
  }

  /**
   * The label is "Other" for an absent category, a known enum key's label
   * for an enum object, and "Event" for anything else; it is always one of
   * six texts.
   */
  lemma GetCategoryCases(v: CategoryValue)
    ensures !Truthy(v) ==> GetCategory(v) == "Other"
    ensures v.Obj? && v.keys != [] && CategoryLabel(v.keys[0]).Some? ==> GetCategory(v) == CategoryLabel(v.keys[0]).value
    ensures v.Obj? && (v.keys == [] || CategoryLabel(v.keys[0]).None?) ==> GetCategory(v) == "Event"
    ensures Truthy(v) && !v.Obj? ==> GetCategory(v) == "Event"
    ensures GetCategory(v) in {"Music", "Conference", "Sports", "Art", "Other", "Event"}
  {
  }

  /** An enum object whose key is "other" and an absent category read alike. */
  lemma OtherKeyReadsAsAbsent(rest: seq<string>)
    ensures GetCategory(Obj(["other"] + rest)) == GetCategory(Absent) == "Other"
  {
  }

  datatype Badge = CancelledBadge | EndedBadge | UpcomingBadge | NoBadge

  /** The badge at `now` (seconds): cancelled first, then ended, then not started. */
  function BadgeOf(cancelled: bool, startTime: int, endTime: int, now: int): (b: Badge)
    ensures b == CancelledBadge <==> cancelled
  {
    if cancelled then CancelledBadge
    else if now > endTime then EndedBadge
    else if now < startTime then UpcomingBadge
    else NoBadge
  }

  function BadgeText(b: Badge): Option<string> {
    match b
    case CancelledBadge => Some("Cancelled")
    case EndedBadge => Some("Ended")
    case UpcomingBadge => Some("Upcoming")
    case NoBadge => None
  }

  /** A cancelled event is marked as such at any time; otherwise "Ended" after its end, "Upcoming" before its start, and no badge while it runs. */
  lemma BadgeCases(cancelled: bool, startTime: int, endTime: int, now: int)
    ensures var b := BadgeOf(cancelled, startTime, endTime, now);
      && (b == EndedBadge <==> !cancelled && now > endTime)
      && (b == UpcomingBadge <==> !cancelled && now <= endTime && now < startTime)
      && (b == NoBadge <==> !cancelled && startTime <= now <= endTime)
      && (BadgeText(b).None? <==> b == NoBadge)
  {
  }

  /** The button's text. */
  function CallToAction(b: Badge): string {
    if b == EndedBadge || b == CancelledBadge then "View Details" else "Buy Tickets"
  }

  /** Tickets are offered for sale unless the event is cancelled or over. */
  lemma CallToActionCases(cancelled: bool, startTime: int, endTime: int, now: int)
    ensures CallToAction(BadgeOf(cancelled, startTime, endTime, now)) == "Buy Tickets" <==> !cancelled && now <= endTime
    ensures CallToAction(BadgeOf(cancelled, startTime, endTime, now)) == "View Details" <==> cancelled || now > endTime
  {
  }

  /** `event.available || 0`: a missing (or zero) count shows as 0. */
  function AvailableShown(available: Option<int>): (n: int)
    ensures available.None? ==> n == 0
    ensures available.Some? ==> n == available.value
  {
    if available.Some? && available.value != 0 then available.value else 0
  }

  /** On the home feed's events, the figure shown is the tickets left, never negative. */
  lemma FeedAvailabilityShown(e: HomeFeed.RawEvent, tiers: seq<HomeFeed.RawTier>)
    ensures var f := HomeFeed.Format(e, tiers);
      AvailableShown(Some(f.available)) == f.available >= 0
  {
  }
}
