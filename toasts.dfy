/**
 * The notification queue and the confirmation dialog shared by every page.
 * `useToast` appends to the list of the mounted `ToastProvider` (nothing
 * happens before one has mounted), closing a toast removes the items with its
 * id, and `useConfirm` shows one dialog at a time whose buttons resolve the
 * pending request and clear the dialog.
 */
module Toasts {
  import opened Wrappers
  import opened Lists

  datatype ToastType = Success | Error | Warning | Info

  const SUCCESS_ICON := "check_circle"
  const ERROR_ICON := "cancel"
  const WARNING_ICON := "warning"
  const INFO_ICON := "info"

  /** The icon of each toast type. */
  function Icon(t: ToastType): (name: string)
    ensures name in {SUCCESS_ICON, ERROR_ICON, WARNING_ICON, INFO_ICON}
  {
    match t
    case Success => SUCCESS_ICON
    case Error => ERROR_ICON
    case Warning => WARNING_ICON
    case Info => INFO_ICON
  }

  /** Each type has its own icon, so the icon tells the type. */
  lemma IconInjective(t: ToastType, u: ToastType)
    ensures Icon(t) == Icon(u) <==> t == u
  {
    IconsDiffer();
  }

  lemma IconsDiffer()
    ensures SUCCESS_ICON != ERROR_ICON && SUCCESS_ICON != WARNING_ICON && SUCCESS_ICON != INFO_ICON
    ensures ERROR_ICON != WARNING_ICON && ERROR_ICON != INFO_ICON && WARNING_ICON != INFO_ICON
  {
  }

  /** An item of the list; its id is the clock reading (`Date.now()`) when it was added. */
  datatype ToastItem = ToastItem(id: int, message: string, kind: ToastType)

  /** The list after `toast(message, kind)` at time `now`, with or without a mounted provider. */
  function Pushed(toasts: seq<ToastItem>, mounted: bool, now: int, message: string, kind: ToastType): seq<ToastItem> {
    if mounted then toasts + [ToastItem(now, message, kind)] else toasts
  }

  /** The list after the toast with the given id closes. */
  function Closed(toasts: seq<ToastItem>, id: int): seq<ToastItem> {
    Filter(toasts, (x: ToastItem) => x.id != id)
  }

  /** With a provider mounted, exactly one item is added, at the end, and the earlier ones are kept in order. */
  lemma PushedAppendsOne(toasts: seq<ToastItem>, now: int, message: string, kind: ToastType)
    ensures var r := Pushed(toasts, true, now, message, kind);
      |r| == |toasts| + 1 && r[..|toasts|] == toasts && r[|toasts|] == ToastItem(now, message, kind)
    ensures Pushed(toasts, false, now, message, kind) == toasts
  {
  }

  /** Closing keeps exactly the items with another id, every copy of each, in their order, and closing twice is closing once. */
  lemma ClosedKeepsOthers(toasts: seq<ToastItem>, id: int, x: ToastItem)
    ensures x in Closed(toasts, id) <==> x in toasts && x.id != id
    ensures IsSubseq(Closed(toasts, id), toasts)
    ensures multiset(Closed(toasts, id))[x] == if x.id != id then multiset(toasts)[x] else 0
    ensures Closed(Closed(toasts, id), id) == Closed(toasts, id)
  {
    FilterMultiplicity(toasts, (x: ToastItem) => x.id != id, x);
    FilterMembership(toasts, (x: ToastItem) => x.id != id, x);
    FilterIsSubseq(toasts, (x: ToastItem) => x.id != id);
    FilterTwice(toasts, (x: ToastItem) => x.id != id);
  }

  /** A toast whose id no earlier item carries is undone by closing it. */
  lemma {:induction false} CloseUndoesPush(toasts: seq<ToastItem>, now: int, message: string, kind: ToastType)
    requires forall i :: 0 <= i < |toasts| ==> toasts[i].id != now
    ensures Closed(Pushed(toasts, true, now, message, kind), now) == toasts
    decreases |toasts|
  {
    if toasts != [] {
      CloseUndoesPush(toasts[1..], now, message, kind);
      assert (toasts + [ToastItem(now, message, kind)])[1..] == toasts[1..] + [ToastItem(now, message, kind)];
    } else {
      assert Closed([ToastItem(now, message, kind)][1..], now) == [];
    }
  }

  /** Two toasts raised in the same millisecond share an id, so closing either removes both. */
  lemma SameMillisecondToastsCloseTogether(now: int, m1: string, m2: string, k1: ToastType, k2: ToastType)
    ensures Closed(Pushed(Pushed([], true, now, m1, k1), true, now, m2, k2), now) == []
  {
    var two := [ToastItem(now, m1, k1), ToastItem(now, m2, k2)];
    assert Pushed(Pushed([], true, now, m1, k1), true, now, m2, k2) == two;
    FilterKeepsNone(two, (x: ToastItem) => x.id != now);
  }

  class ToastQueue {
    /** Whether a `ToastProvider` has rendered and published its setter. */
    var mounted: bool
    var toasts: seq<ToastItem>

    constructor ()
      ensures !mounted && toasts == []
    {
      mounted, toasts := false, [];
    }

    /** A `ToastProvider` renders: from now on toasts reach its list. */
    method Mount()
      modifies this
      ensures mounted && toasts == old(toasts)
    {
      mounted := true;
    }

    /** `toast(message, type = "info")` at time `now`. */
    method Toast(message: string, now: int, kind: ToastType := ToastType.Info)
      modifies this
      ensures mounted == old(mounted)
      ensures toasts == Pushed(old(toasts), old(mounted), now, message, kind)
    {
      if mounted {
        toasts := toasts + [ToastItem(now, message, kind)];
      }
    }

    method Success(message: string, now: int)
      modifies this
      ensures mounted == old(mounted) && toasts == Pushed(old(toasts), old(mounted), now, message, ToastType.Success)
    {
      Toast(message, now, ToastType.Success);
    }

    method Error(message: string, now: int)
      modifies this
      ensures mounted == old(mounted) && toasts == Pushed(old(toasts), old(mounted), now, message, ToastType.Error)
    {
      Toast(message, now, ToastType.Error);
    }

    method Warning(message: string, now: int)
      modifies this
      ensures mounted == old(mounted) && toasts == Pushed(old(toasts), old(mounted), now, message, ToastType.Warning)
    {
      Toast(message, now, ToastType.Warning);
    }

    method Info(message: string, now: int)
      modifies this
      ensures mounted == old(mounted) && toasts == Pushed(old(toasts), old(mounted), now, message, ToastType.Info)
    {
      Toast(message, now, ToastType.Info);
    }

    /** The toast with this id finishes its exit (or its close button is pressed). */
    method Close(id: int)
      modifies this
      ensures mounted == old(mounted) && toasts == Closed(old(toasts), id)
    {
      toasts := Filter(toasts, (x: ToastItem) => x.id != id);
    }
  }

  datatype Variant = Danger | Caution | Question

  /** `ConfirmOptions`: only the title is required. */
  datatype ConfirmOptions = ConfirmOptions(
    title: string, description: Option<string>,
    confirmLabel: Option<string>, cancelLabel: Option<string>, variant: Option<Variant>)

  /** The dialog's presentation, with its defaults: variant "danger", buttons "Cancel" and "Confirm". */
  datatype DialogView = DialogView(title: string, description: Option<string>, cancelText: string, confirmText: string, icon: string)

  function View(o: ConfirmOptions): (v: DialogView)
    ensures v.title == o.title && v.description == o.description
    ensures o.cancelLabel.None? ==> v.cancelText == "Cancel"
    ensures o.confirmLabel.None? ==> v.confirmText == "Confirm"
    ensures o.variant.None? ==> v.icon == "warning"
  {
    var variant := o.variant.GetOr(Danger);
    DialogView(o.title, o.description, o.cancelLabel.GetOr("Cancel"), o.confirmLabel.GetOr("Confirm"),
      match variant
      case Danger => "warning"
      case Caution => "error"
      case Question => "help")
  }

  /** The request currently shown, with the number of the promise its buttons resolve. */
  datatype Pending = Pending(options: ConfirmOptions, request: nat)

  /**
   * The confirmation machinery: whether a `ConfirmProvider` has mounted, the
   * dialog shown, how many `confirm(...)` promises were created, and the value
   * each resolved promise received.
   */
  datatype Dialog = Dialog(mounted: bool, state: Option<Pending>, requests: nat, answers: map<nat, bool>)

  /** Answers only ever concern created promises, and the request shown is still unanswered. */
  predicate DialogValid(d: Dialog) {
    (forall k :: k in d.answers ==> k < d.requests)
    && (d.state.Some? ==> d.state.value.request < d.requests && d.state.value.request !in d.answers)
    && (d.state.Some? ==> d.mounted)
  }

  /** `confirm(opts)`: a new promise; with a provider mounted the dialog now shows it (replacing any other). */
  function Ask(d: Dialog, o: ConfirmOptions): (r: Dialog)
    ensures r.requests == d.requests + 1 && r.answers == d.answers && r.mounted == d.mounted
  {
    d.(state := if d.mounted then Some(Pending(o, d.requests)) else d.state, requests := d.requests + 1)
  }

  /** `handle(v)`: the shown request, if any, resolves with `v`, and the dialog closes. */
  function Answer(d: Dialog, v: bool): (r: Dialog)
    ensures r.state.None? && r.requests == d.requests && r.mounted == d.mounted
  {
    d.(state := None, answers := if d.state.Some? then d.answers[d.state.value.request := v] else d.answers)
  }

  lemma AskAnswerKeepValid(d: Dialog, o: ConfirmOptions, v: bool)
    requires DialogValid(d)
    ensures DialogValid(Ask(d, o)) && DialogValid(Answer(d, v))
  {
  }

  /** Pressing a button resolves the promise just shown with that button's value and clears the dialog. */
  lemma AnswerResolvesShownRequest(d: Dialog, o: ConfirmOptions, v: bool)
    requires d.mounted
    ensures var r := Answer(Ask(d, o), v);
      r.state.None? && d.requests in r.answers && r.answers[d.requests] == v
  {
  }

  /** Without a provider the promise is never shown, so no button can resolve it. */
  lemma UnmountedRequestNeverResolves(d: Dialog, o: ConfirmOptions, v: bool)
    requires DialogValid(d) && !d.mounted
    ensures d.requests !in Answer(Ask(d, o), v).answers
  {
  }

  /** A dialog replaced by a second one before any button is pressed leaves the first promise unresolved. */
  lemma ReplacedRequestNeverResolves(d: Dialog, o1: ConfirmOptions, o2: ConfirmOptions, v: bool)
    requires DialogValid(d) && d.mounted
    ensures d.requests !in Answer(Ask(Ask(d, o1), o2), v).answers
  {
  }

  /** A resolved promise keeps its value: answering never changes an earlier answer. */
  lemma AnswersAreFinal(d: Dialog, v: bool, k: nat)
    requires DialogValid(d) && k in d.answers
    ensures k in Answer(d, v).answers && Answer(d, v).answers[k] == d.answers[k]
  {
  }

  class ConfirmDialog {
    var mounted: bool
    var state: Option<Pending>
    var requests: nat
    var answers: map<nat, bool>

    function Snap(): Dialog
      reads this
    {
      Dialog(mounted, state, requests, answers)
    }

    constructor ()
      ensures Snap() == Dialog(false, None, 0, map[]) && DialogValid(Snap())
    {
      mounted, state, requests, answers := false, None, 0, map[];
    }

    /** A `ConfirmProvider` renders and publishes `_showConfirm`. */
    method Mount()
      modifies this
      ensures Snap() == old(Snap()).(mounted := true)
    {
      mounted := true;
    }

    /** `confirm(opts)`: returns the number of the new promise. */
    method Confirm(o: ConfirmOptions) returns (request: nat)
      modifies this
      ensures request == old(requests)
      ensures Snap() == Ask(old(Snap()), o)
    {
      request := requests;
      if mounted {
        state := Some(Pending(o, requests));
      }
      requests := requests + 1;
    }

    /** One of the dialog's buttons (or the backdrop, which answers false). */
    method Handle(v: bool)
      modifies this
      ensures Snap() == Answer(old(Snap()), v)
    {
      if state.Some? {
        answers := answers[state.value.request := v];
      }
      state := None;
    }
  }
}
