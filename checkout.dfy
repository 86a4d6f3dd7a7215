/**
 * The checkout dialog of an event's ticket tier: a quantity between 1 and
 * `MAX_QTY` chosen with two clamped buttons, and a payment that builds one
 * transaction holding one mint instruction per ticket, numbered on from the
 * tier's sold count.
 */
module Checkout {
  import opened Wrappers
  import opened Strings
  import opened ProgramSeeds
  import opened Toasts

  const MAX_QTY: int := 4

  /** The "-" button's update, `Math.max(1, q - 1)`. */
  function Decrement(q: int): (r: int)
    ensures 1 <= r && (q <= MAX_QTY + 1 ==> r <= MAX_QTY)
    ensures q > 1 ==> r == q - 1
  {
    Max(1, q - 1)
  }

  /** The "+" button's update, `Math.min(MAX_QTY, q + 1)`. */
  function Increment(q: int): (r: int)
    ensures r <= MAX_QTY && (q >= 0 ==> 1 <= r)
    ensures q < MAX_QTY ==> r == q + 1
  {
    Min(MAX_QTY, q + 1)
  }

  predicate DecrementDisabled(q: int) { q <= 1 }

  predicate IncrementDisabled(q: int, available: int) { q >= MAX_QTY || q >= available }

  /** What the dialog keeps true of the quantity: within 1..MAX_QTY, and within the tickets left unless it is 1. */
  predicate QtyOk(q: int, available: int) {
    1 <= q <= MAX_QTY && (q == 1 || q <= available)
  }

  /** Enabled clicks keep the quantity in range; the two buttons undo each other away from the bounds. */
  lemma ClicksKeepQtyOk(q: int, available: int)
    requires QtyOk(q, available)
    ensures !DecrementDisabled(q) ==> QtyOk(Decrement(q), available)
    ensures !IncrementDisabled(q, available) ==> QtyOk(Increment(q), available)
    ensures !IncrementDisabled(q, available) ==> Decrement(Increment(q)) == q
    ensures !DecrementDisabled(q) ==> Increment(Decrement(q)) == q
  {
  }

  /** One `mintTicket` instruction: the token id and the ticket account it creates. */
  datatype MintCall = MintCall(tokenId: int, ticketPda: Address)

  function MintCallOf(derive: Seeds -> Address, eventPda: Address, sold: int, i: int): MintCall {
    MintCall(sold + i + 1, GetTicketPda(derive, eventPda, sold + i + 1))
  }

  /** The loop of `handlePay`: one instruction per ticket, token ids sold + 1, ..., sold + qty. */
  method MintCalls(derive: Seeds -> Address, eventPda: Address, sold: int, qty: int) returns (calls: seq<MintCall>)
    ensures |calls| == if qty > 0 then qty else 0
    ensures forall i :: 0 <= i < |calls| ==> calls[i] == MintCallOf(derive, eventPda, sold, i)
  {
    calls := [];
    var i := 0;
    while i < qty
      invariant 0 <= i && (qty > 0 ==> i <= qty) && (qty <= 0 ==> i == 0)
      invariant |calls| == i
      invariant forall k :: 0 <= k < i ==> calls[k] == MintCallOf(derive, eventPda, sold, k)
    {
      calls := calls + [MintCallOf(derive, eventPda, sold, i)];
      i := i + 1;
    }
  }

  /**
   * The token ids are consecutive, starting right after the sold count, so
   * they are pairwise distinct; within the u64 range their ticket seeds
   * differ too.
   */
  lemma MintIdsConsecutive(derive: Seeds -> Address, eventPda: Address, sold: int, i: int, j: int)
    ensures MintCallOf(derive, eventPda, sold, i).tokenId == sold + 1 + i
    ensures i != j ==> MintCallOf(derive, eventPda, sold, i).tokenId != MintCallOf(derive, eventPda, sold, j).tokenId
    ensures i != j && 0 <= sold + i + 1 < TWO_TO_64 && 0 <= sold + j + 1 < TWO_TO_64 ==>
      TicketSeeds(eventPda, sold + i + 1) != TicketSeeds(eventPda, sold + j + 1)
  {
    if i != j && 0 <= sold + i + 1 < TWO_TO_64 && 0 <= sold + j + 1 < TWO_TO_64 {
      IdSeedsAreInjective(eventPda, eventPda, sold + i + 1, sold + j + 1);
    }
  }

  /** The wallet's abbreviation in the dialog: 4 leading and 4 trailing characters, or "Not Connected". */
  function WalletLabel(address: Option<string>): (r: string)
    ensures address.None? ==> r == "Not Connected"
    ensures address.Some? && |address.value| >= 4 ==>
      r == address.value[..4] + "..." + address.value[|address.value| - 4..]
  {
    if address.None? then "Not Connected"
    else if |address.value| >= 4 then AbbreviateLong(address.value, 4, 4); Abbreviate(address.value, 4, 4)
    else Abbreviate(address.value, 4, 4)
  }

  predicate PayDisabled(isPaying: bool, walletConnected: bool) { isPaying || !walletConnected }

  /**
   * A click the pay button lets through always has a wallet, so it never
   * takes the warning path of `handlePay`, and a payment in progress cannot
   * be started a second time.
   */
  lemma EnabledPayStarts(isPaying: bool, walletConnected: bool)
    ensures !PayDisabled(isPaying, walletConnected) ==> walletConnected && !isPaying
    ensures isPaying ==> PayDisabled(isPaying, walletConnected)
  {
  }

  class CheckoutDialog {
    var qty: int
    var isPaying: bool
    var paid: bool
    var txSignature: string
    const toasts: ToastQueue

    constructor (toasts: ToastQueue)
      ensures qty == 1 && !isPaying && !paid && txSignature == "" && this.toasts == toasts
      ensures forall available :: QtyOk(qty, available)
    {
      qty, isPaying, paid, txSignature := 1, false, false, "";
      this.toasts := toasts;
    }

    /** A click on "-"; a disabled button ignores it. */
    method ClickDecrement()
      modifies this
      ensures qty == if DecrementDisabled(old(qty)) then old(qty) else Decrement(old(qty))
      ensures isPaying == old(isPaying) && paid == old(paid) && txSignature == old(txSignature)
    {
      if !DecrementDisabled(qty) {
        qty := Max(1, qty - 1);
      }
    }

    /** A click on "+", with `available` tickets left; a disabled button ignores it. */
    method ClickIncrement(available: int)
      modifies this
      ensures qty == if IncrementDisabled(old(qty), available) then old(qty) else Increment(old(qty))
      ensures old(QtyOk(qty, available)) ==> QtyOk(qty, available)
      ensures isPaying == old(isPaying) && paid == old(paid) && txSignature == old(txSignature)
    {
      if !IncrementDisabled(qty, available) {
        qty := Min(MAX_QTY, qty + 1);
      }
    }

    /** `handlePay` up to sending: without a wallet it only warns; otherwise paying starts. */
    method StartPay(walletConnected: bool, now: int) returns (sending: bool)
      modifies this, toasts
      ensures sending == walletConnected
      ensures sending ==> isPaying && PayDisabled(isPaying, walletConnected) && toasts.toasts == old(toasts.toasts)
      ensures !sending ==> (isPaying == old(isPaying)
        && toasts.toasts == Pushed(old(toasts.toasts), old(toasts.mounted), now, "Please connect your Phantom Wallet first!", ToastType.Warning))
      ensures toasts.mounted == old(toasts.mounted)
      ensures qty == old(qty) && paid == old(paid) && txSignature == old(txSignature)
    {
      if !walletConnected {
        toasts.Warning("Please connect your Phantom Wallet first!", now);
        return false;
      }
      isPaying := true;
      sending := true;
    }

    /**
     * Sending and confirming the transaction settled with its signature or a
     * rejection (an absent message is the empty text). Paid only on success;
     * paying ends either way.
     */
    method FinishPay(sent: Outcome<string>, now: int)
      modifies this, toasts
      ensures !isPaying && !PayDisabled(isPaying, true) && qty == old(qty)
      ensures sent.Ok? ==> paid && txSignature == sent.value && toasts.toasts == old(toasts.toasts)
      ensures sent.Err? ==> (paid == old(paid) && txSignature == old(txSignature)
        && toasts.toasts == Pushed(old(toasts.toasts), old(toasts.mounted), now,
             "Transaction Failed: " + MessageOr(Some(sent.message), "Unknown error"), ToastType.Error))
      ensures toasts.mounted == old(toasts.mounted)
    {
      match sent {
        case Ok(signature) =>
          txSignature := signature;
          paid := true;
        case Err(message) =>
          toasts.Error("Transaction Failed: " + MessageOr(Some(message), "Unknown error"), now);
      }
      isPaying := false;
    }
  }
}
