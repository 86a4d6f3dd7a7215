/**
 * One row of the "My Tickets" list: its status is normalised to lower case
 * (absent or empty meaning "upcoming"), the status picks the badge and the
 * card style (unknown statuses look "upcoming"), and the status picks the one
 * action button: a refund for a cancelled event, a disabled "Event Ended" for
 * an attended one, and the QR code otherwise.
 */
module TicketItem {
  import opened Wrappers
  import opened Strings
  import opened Toasts
  import MyTickets

  /** `ticket.status?.toLowerCase() || "upcoming"` */
  function SafeStatus(status: Option<string>): (r: string)
    ensures r != ""
    ensures status.None? || status.value == "" ==> r == "upcoming"
    ensures status.Some? && status.value != "" ==> r == ToLower(status.value)
  {
    if status.Some? && ToLower(status.value) != "" then ToLower(status.value) else "upcoming"
  }

  /** The parts of a `STATUS_CONFIG` entry the row's badge and image use. */
  datatype StatusConfig = StatusConfig(badgeBg: string, badgeText: string, grayscale: string)

  predicate KnownStatus(s: string) { s == "upcoming" || s == "attended" || s == "listed" || s == "cancelled" }

  /** `STATUS_CONFIG[safeStatus] || STATUS_CONFIG["upcoming"]` */
  function Config(safeStatus: string): StatusConfig {
    match safeStatus
    case "attended" => StatusConfig("bg-slate-500", "Attended", "grayscale opacity-70")
    case "listed" => StatusConfig("bg-amber-500", "Listed", "")
    case "cancelled" => StatusConfig("bg-red-500", "Cancelled", "grayscale opacity-50")
    case _ => StatusConfig("bg-[#5048e5]", "Upcoming", "")
  }

  /**
   * Normalising is case-insensitive and idempotent, and its result is
   * lower case.
   */
  lemma SafeStatusNormalises(s: string)
    ensures SafeStatus(Some(s)) == SafeStatus(Some(ToLower(s)))
    ensures SafeStatus(Some(SafeStatus(Some(s)))) == SafeStatus(Some(s))
    ensures forall i :: 0 <= i < |SafeStatus(Some(s))| ==> !IsUpper(SafeStatus(Some(s))[i])
  {
    ToLowerIdempotent(s);
  }

  /**
   * Each known status has its own badge text; every other text shows the
   * "upcoming" configuration.
   */
  lemma ConfigFallsBackToUpcoming(s: string, t: string)
    ensures !KnownStatus(s) ==> Config(s) == Config("upcoming")
    ensures KnownStatus(s) && KnownStatus(t) ==> (Config(s).badgeText == Config(t).badgeText <==> s == t)
  {
  }

  /** The statuses the "My Tickets" page assigns are already normalised and known. */
  lemma PageStatusesAreNormal(t: MyTickets.RawTicket, ev: Option<MyTickets.CatalogEvent>, now: int)
    ensures var s := MyTickets.TicketStatus(t, ev, now);
      SafeStatus(Some(s)) == s && KnownStatus(s)
  {
  }

  /** The action area of the row. */
  datatype Action =
    | ClaimRefund(disabled: bool, caption: string)
    | EventEnded
    | ViewQr

  function RowAction(safeStatus: string, isRefunding: bool): Action {
    if safeStatus == "cancelled" then
      ClaimRefund(isRefunding, if isRefunding then "Processing..." else "Claim Refund")
    else if safeStatus == "attended" then EventEnded
    else ViewQr
  }

  /**
   * The refund button appears exactly for cancelled tickets and is disabled
   * exactly while the refund runs; attended tickets get only the disabled
   * "Event Ended"; every other status, unknown ones included, offers the QR
   * code.
   */
  lemma RowActionCases(status: Option<string>, isRefunding: bool)
    ensures var a := RowAction(SafeStatus(status), isRefunding);
      && (a.ClaimRefund? <==> SafeStatus(status) == "cancelled")
      && (a.ClaimRefund? ==> (a.disabled <==> isRefunding))
      && (a.ClaimRefund? ==> (a.caption == "Claim Refund" <==> !isRefunding))
      && (a.EventEnded? <==> SafeStatus(status) == "attended")
      && (a.ViewQr? <==> SafeStatus(status) != "cancelled" && SafeStatus(status) != "attended")
    ensures status.None? ==> RowAction(SafeStatus(status), isRefunding) == ViewQr
  {
  }

  const WALLET_WARNING := "Please connect a wallet!"
  const REFUND_SUCCESS := "Refund Success! SOL have been sent back into wallet."

  /** The failure toast's text: a template literal prints an absent message as "undefined". */
  function RefundFailure(message: Option<string>): (text: string)
    ensures message.Some? ==> text == "Failed refund: " + message.value
    ensures message.None? ==> text == "Failed refund: undefined"
  {
    "Failed refund: " + message.GetOr("undefined")
  }

  class TicketItemView {
    var status: Option<string>
    var showQR: bool
    var isRefunding: bool
    const toasts: ToastQueue

    constructor (status: Option<string>, toasts: ToastQueue)
      ensures this.status == status && !showQR && !isRefunding && this.toasts == toasts
    {
      this.status := status;
      showQR, isRefunding := false, false;
      this.toasts := toasts;
    }

    /** "View QR": only offered when the row's action is the QR code. */
    method OpenQr()
      modifies this
      ensures showQR == (old(showQR) || RowAction(SafeStatus(status), isRefunding).ViewQr?)
      ensures status == old(status) && isRefunding == old(isRefunding)
    {
      if RowAction(SafeStatus(status), isRefunding).ViewQr? {
        showQR := true;
      }
    }

    method CloseQr()
      modifies this
      ensures !showQR && status == old(status) && isRefunding == old(isRefunding)
    {
      showQR := false;
    }

    /**
     * A click on "Claim Refund" up to the transaction. A disabled button (a
     * refund already running) ignores it; without a wallet the click only
     * warns; otherwise the refund starts.
     */
    method ClickRefund(walletConnected: bool, now: int) returns (sending: bool)
      requires SafeStatus(status) == "cancelled"
      modifies this, toasts
      ensures sending <==> !old(isRefunding) && walletConnected
      ensures sending ==> isRefunding && toasts.toasts == old(toasts.toasts)
      ensures !sending ==> isRefunding == old(isRefunding)
      ensures !old(isRefunding) && !walletConnected ==>
        toasts.toasts == Pushed(old(toasts.toasts), old(toasts.mounted), now, WALLET_WARNING, ToastType.Warning)
      ensures old(isRefunding) ==> toasts.toasts == old(toasts.toasts)
      ensures toasts.mounted == old(toasts.mounted) && status == old(status) && showQR == old(showQR)
    {
      if isRefunding {
        return false;
      }
      if !walletConnected {
        toasts.Warning(WALLET_WARNING, now);
        return false;
      }
      isRefunding := true;
      sending := true;
    }

    /** The refund settled (a bad account address counts as a failure): one toast, and refunding ends either way. */
    method FinishRefund(tx: TxOutcome, now: int)
      modifies this, toasts
      ensures !isRefunding && status == old(status) && showQR == old(showQR)
      ensures tx.Done? ==> toasts.toasts == Pushed(old(toasts.toasts), old(toasts.mounted), now, REFUND_SUCCESS, ToastType.Success)
      ensures tx.Failed? ==>
        toasts.toasts == Pushed(old(toasts.toasts), old(toasts.mounted), now, RefundFailure(tx.message), ToastType.Error)
      ensures toasts.mounted == old(toasts.mounted)
    {
      match tx {
        case Done =>
          toasts.Success(REFUND_SUCCESS, now);
        case Failed(message) =>
          toasts.Error(RefundFailure(message), now);
      }
      isRefunding := false;
    }
  }
}
