/**
 * The organizer's event table with its two actions. A row offers "Cancel
 * Event" while the event is on sale or ongoing and "Withdraw Funds" otherwise;
 * the row whose id is in `loadingAction` is processing. Cancelling needs a
 * wallet and a confirmed dialog; either action marks its row as processing
 * until its transaction settles, then clears the mark.
 */
module ManageEvents {
  import opened Wrappers
  import Dashboard
  import opened Toasts

  /** A row of the table, as the dashboard page formats it. */
  datatype ManagedRow = ManagedRow(id: string, name: string, location: string, status: string)

  const ON_SALE_STYLE := "bg-blue-100 text-blue-800 dark:bg-blue-900/30 dark:text-blue-400"
  const ONGOING_STYLE := "bg-green-100 text-green-800 dark:bg-green-900/30 dark:text-green-400"
  const ENDED_STYLE := "bg-amber-100 text-amber-800 dark:bg-amber-900/30 dark:text-amber-400"
  const CANCELLED_STYLE := "bg-red-100 text-red-800 dark:bg-red-900/30 dark:text-red-400"
  const WITHDRAWN_STYLE := "bg-slate-200 text-slate-600 dark:bg-slate-800 dark:text-slate-500"
  const DEFAULT_STYLE := "bg-slate-100 text-slate-800 dark:bg-slate-800 dark:text-slate-400"

  /** The badge classes of a status; any text other than the five known ones gets the neutral style. */
  function StatusStyle(status: string): string {
    match status
    case "On Sale" => ON_SALE_STYLE
    case "Ongoing" => ONGOING_STYLE
    case "Ended" => ENDED_STYLE
    case "Cancelled" => CANCELLED_STYLE
    case "Withdrawn" => WITHDRAWN_STYLE
    case _ => DEFAULT_STYLE
  }

  /** Each of the five statuses the dashboard produces has its own style, and none of them the neutral one. */
  lemma StatusStylesDistinct(a: Dashboard.DashStatus, b: Dashboard.DashStatus)
    ensures StatusStyle(Dashboard.StatusText(a)) == StatusStyle(Dashboard.StatusText(b)) <==> a == b
    ensures StatusStyle(Dashboard.StatusText(a)) != DEFAULT_STYLE
  {
    StyleTable();
    StylesDiffer();
  }

  lemma StyleTable()
    ensures StatusStyle("On Sale") == ON_SALE_STYLE && StatusStyle("Ongoing") == ONGOING_STYLE
    ensures StatusStyle("Ended") == ENDED_STYLE && StatusStyle("Cancelled") == CANCELLED_STYLE
    ensures StatusStyle("Withdrawn") == WITHDRAWN_STYLE
  {
  }

  /** The six class strings are pairwise different. */
  lemma StylesDiffer()
    ensures ON_SALE_STYLE != ONGOING_STYLE && ON_SALE_STYLE != ENDED_STYLE && ON_SALE_STYLE != CANCELLED_STYLE && ON_SALE_STYLE != WITHDRAWN_STYLE && ON_SALE_STYLE != DEFAULT_STYLE
    ensures ONGOING_STYLE != ENDED_STYLE && ONGOING_STYLE != CANCELLED_STYLE && ONGOING_STYLE != WITHDRAWN_STYLE && ONGOING_STYLE != DEFAULT_STYLE
    ensures ENDED_STYLE != CANCELLED_STYLE && ENDED_STYLE != WITHDRAWN_STYLE && ENDED_STYLE != DEFAULT_STYLE
    ensures CANCELLED_STYLE != WITHDRAWN_STYLE && CANCELLED_STYLE != DEFAULT_STYLE
    ensures WITHDRAWN_STYLE != DEFAULT_STYLE
  {
  }

  /** Any other status text gets the neutral style. */
  lemma UnknownStatusStyle(other: string)
    requires other != "On Sale" && other != "Ongoing" && other != "Ended" && other != "Cancelled" && other != "Withdrawn"
    ensures StatusStyle(other) == DEFAULT_STYLE
  {
  }

  /** The action button of a row. */
  datatype Action = CancelButton(disabled: bool, caption: string) | WithdrawButton(disabled: bool, caption: string)

  predicate Cancelable(status: string) { status == "On Sale" || status == "Ongoing" }

  function RowAction(status: string, processing: bool): Action {
    var isWithdrawn := status == "Withdrawn";
    var isCancelled := status == "Cancelled";
    if Cancelable(status) then
      CancelButton(processing, if processing then "Processing..." else "Cancel Event")
    else
      WithdrawButton(processing || isWithdrawn || isCancelled,
        if processing then "Wait..." else if isWithdrawn then "Already Withdrawn" else "Withdraw Funds")
  }

  /**
   * Cancel is offered exactly for "On Sale" and "Ongoing" rows, and disabled
   * only while processing; every other row gets Withdraw, disabled while
   * processing, withdrawn or cancelled, and labelled "Wait...", "Already
   * Withdrawn" or "Withdraw Funds" in that order of precedence.
   */
  lemma RowActionCases(status: string, processing: bool)
    ensures RowAction(status, processing).CancelButton? <==> status == "On Sale" || status == "Ongoing"
    ensures RowAction(status, processing).CancelButton? ==>
      RowAction(status, processing).disabled == processing
      && RowAction(status, processing).caption == (if processing then "Processing..." else "Cancel Event")
    ensures RowAction(status, processing).WithdrawButton? ==>
      (RowAction(status, processing).disabled <==> processing || status == "Withdrawn" || status == "Cancelled")
    ensures RowAction(status, processing).WithdrawButton? ==>
      (RowAction(status, processing).caption == "Wait..." <==> processing)
      && (RowAction(status, processing).caption == "Already Withdrawn" <==> !processing && status == "Withdrawn")
      && (RowAction(status, processing).caption == "Withdraw Funds" <==> !processing && status != "Withdrawn")
  {
  }

  /** On the dashboard's statuses, an idle row offers an enabled Withdraw exactly when its event has ended. */
  lemma WithdrawOnlyAfterEnd(s: Dashboard.DashStatus)
    ensures var a := RowAction(Dashboard.StatusText(s), false);
      (a.WithdrawButton? && !a.disabled) <==> s == Dashboard.Ended
  {
  }

  /** `loadingAction === event.id` */
  predicate Processing(loadingAction: Option<string>, r: ManagedRow) {
    loadingAction == Some(r.id)
  }

  /** With distinct ids, at most one row is processing at a time, and none when nothing is loading. */
  lemma AtMostOneRowProcessing(rows: seq<ManagedRow>, loadingAction: Option<string>, i: int, j: int)
    requires forall a, b :: 0 <= a < b < |rows| ==> rows[a].id != rows[b].id
    requires 0 <= i < |rows| && 0 <= j < |rows|
    ensures Processing(loadingAction, rows[i]) && Processing(loadingAction, rows[j]) ==> i == j
    ensures loadingAction.None? ==> !Processing(loadingAction, rows[i])
  {
    if i < j {
      assert rows[i].id != rows[j].id;
    } else if j < i {
      assert rows[j].id != rows[i].id;
    }
  }

  const WALLET_WARNING := "Please connect a wallet!"

  const CANCEL_DIALOG := ConfirmOptions(
    "Cancel this event?", Some("This will lock the event. Buyers may request refunds."),
    Some("Yes, Cancel"), Some("Keep Event"), Some(Danger))

  datatype ActionKind = CancelAction | WithdrawAction

  /** What a failed cancel shows when the error carries no message. */
  const CANCEL_FALLBACK := "Something Wrong Happened"

  /** The toast shown when an action's transaction settles. */
  function SettleToast(kind: ActionKind, tx: TxOutcome): (t: (string, ToastType))
    ensures tx.Done? <==> t.1 == ToastType.Success
  {
    match (kind, tx)
    case (CancelAction, Done) => ("Event successfully cancelled!", ToastType.Success)
    case (WithdrawAction, Done) => ("Fund (Revenue + Stake) successfully withdraw to Wallet!", ToastType.Success)
    case (CancelAction, Failed(m)) => ("Failed: " + MessageOr(m, CANCEL_FALLBACK), ToastType.Error)
    case (WithdrawAction, Failed(_)) => ("Failed to withdraw", ToastType.Error)
  }

  /** A failed cancel reports the error's message, or a fixed text when it has none; a failed withdraw never shows the message. */
  lemma FailureToasts(m: Option<string>)
    ensures m.Some? && m.value != "" ==> SettleToast(CancelAction, Failed(m)).0 == "Failed: " + m.value
    ensures m.None? || m.value == "" ==> SettleToast(CancelAction, Failed(m)).0 == "Failed: " + CANCEL_FALLBACK
    ensures SettleToast(WithdrawAction, Failed(m)).0 == "Failed to withdraw"
  {
  }

  class ManageEventsTable {
    var events: seq<ManagedRow>
    var loadingAction: Option<string>
    const toasts: ToastQueue
    const dialog: ConfirmDialog

    constructor (initial: seq<ManagedRow>, toasts: ToastQueue, dialog: ConfirmDialog)
      ensures events == initial && loadingAction.None?
      ensures this.toasts == toasts && this.dialog == dialog
    {
      this.events, this.loadingAction := initial, None;
      this.toasts, this.dialog := toasts, dialog;
    }

    /** The parent passes a new `events` prop. */
    method SyncEvents(initial: seq<ManagedRow>)
      modifies this
      ensures events == initial && loadingAction == old(loadingAction)
    {
      events := initial;
    }

    /**
     * `handleCancel(eventId)` up to the dialog. Without a wallet it only
     * warns; otherwise it opens the cancel dialog and returns the number of
     * the pending confirmation. No row is marked yet.
     */
    method StartCancel(eventId: string, walletConnected: bool, now: int) returns (request: Option<nat>)
      modifies toasts, dialog
      ensures !walletConnected ==> (request.None?
        && toasts.toasts == Pushed(old(toasts.toasts), toasts.mounted, now, WALLET_WARNING, ToastType.Warning)
        && dialog.Snap() == old(dialog.Snap()))
      ensures walletConnected ==> (request == Some(old(dialog.requests))
        && dialog.Snap() == Ask(old(dialog.Snap()), CANCEL_DIALOG)
        && toasts.toasts == old(toasts.toasts))
      ensures toasts.mounted == old(toasts.mounted)
    {
      if !walletConnected {
        toasts.Warning(WALLET_WARNING, now);
        return None;
      }
      var r := dialog.Confirm(CANCEL_DIALOG);
      request := Some(r);
    }

    /**
     * The dialog has resolved with `confirmed`. Only a confirmation marks the
     * row and lets the cancel transaction be sent.
     */
    method ResumeCancel(eventId: string, confirmed: bool) returns (sending: bool)
      modifies this
      ensures sending == confirmed
      ensures events == old(events)
      ensures loadingAction == if confirmed then Some(eventId) else old(loadingAction)
    {
      sending := confirmed;
      if confirmed {
        loadingAction := Some(eventId);
      }
    }

    /** `handleWithdraw(eventId)` up to its transaction: no dialog, otherwise as cancel. */
    method StartWithdraw(eventId: string, walletConnected: bool, now: int) returns (sending: bool)
      modifies this, toasts
      ensures sending == walletConnected
      ensures events == old(events)
      ensures !walletConnected ==> (loadingAction == old(loadingAction)
        && toasts.toasts == Pushed(old(toasts.toasts), toasts.mounted, now, WALLET_WARNING, ToastType.Warning))
      ensures walletConnected ==> loadingAction == Some(eventId) && toasts.toasts == old(toasts.toasts)
      ensures toasts.mounted == old(toasts.mounted)
    {
      if !walletConnected {
        toasts.Warning(WALLET_WARNING, now);
        return false;
      }
      loadingAction := Some(eventId);
      sending := true;
    }

    /** The action's transaction settled: one toast, and the processing mark is cleared on success and on failure. */
    method FinishAction(kind: ActionKind, tx: TxOutcome, now: int)
      modifies this, toasts
      ensures loadingAction.None? && events == old(events)
      ensures toasts.mounted == old(toasts.mounted)
      ensures toasts.toasts == Pushed(old(toasts.toasts), toasts.mounted, now, SettleToast(kind, tx).0, SettleToast(kind, tx).1)
    {
      var t := SettleToast(kind, tx);
      toasts.Toast(t.0, now, t.1);
      loadingAction := None;
    }
  }
}
