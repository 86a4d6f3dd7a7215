/**
 * The entry pass of a ticket: the QR code encodes the ticket's account
 * address, the viewer's wallet address and the event title, and is what the
 * validation page scans.
 */
module QrModal {
  import opened Wrappers
  import opened Strings
  import MyTickets
  import Validate

  /** The record `JSON.stringify` turns into the QR text. */
  datatype QrPayload = QrPayload(ticketId: string, owner: string, event: string)

  /** The payload of a ticket for the connected wallet (its base58 address), if any. */
  function PayloadOf(ticket: MyTickets.MyTicket, wallet: Option<string>): (p: QrPayload)
    ensures p.ticketId == ticket.id && p.event == ticket.title
    ensures wallet.Some? ==> p.owner == wallet.value
    ensures wallet.None? ==> p.owner == "unknown"
  {
    QrPayload(ticket.id, wallet.GetOr("unknown"), ticket.title)
  }

  /** What the scanner's `JSON.parse` gives back for the code: the same three fields. */
  function Parsed(p: QrPayload): Validate.ScanPayload {
    Validate.ScanPayload(Some(p.ticketId), Some(p.owner), Some(p.event))
  }

  /**
   * Scanned by a validator with a connected wallet, the pass of a ticket with
   * a non-empty id is taken up and checked, with or without a wallet on the
   * attendee's side; a ticket without id gives a pass the scanner ignores.
   */
  lemma PassReachesScanner(ticket: MyTickets.MyTicket, wallet: Option<string>, page: Validate.Page)
    ensures wallet.Some? && wallet.value == "" ==> !Validate.ScanAccepted(Validate.Scanned(Some(Parsed(PayloadOf(ticket, wallet)))), true)
    ensures ticket.id == "" ==> !Validate.ScanAccepted(Validate.Scanned(Some(Parsed(PayloadOf(ticket, wallet)))), true)
    ensures ticket.id != "" && (wallet.None? || wallet.value != "") ==>
      var p := Validate.ScanStart(page, Validate.Scanned(Some(Parsed(PayloadOf(ticket, wallet)))), true);
      p.state == Validate.Checking && p.payload == Some(Parsed(PayloadOf(ticket, wallet)))
  {
  }

  /** The wallet line under the code: 6 leading and 4 trailing characters, or "Unknown Wallet". */
  function ShortAddress(wallet: Option<string>): (r: string)
    ensures wallet.None? ==> r == "Unknown Wallet"
    ensures wallet.Some? && |wallet.value| >= 6 ==>
      r == wallet.value[..6] + "..." + wallet.value[|wallet.value| - 4..] && |r| == 13
  {
    if wallet.None? then "Unknown Wallet"
    else if |wallet.value| >= 6 then AbbreviateLong(wallet.value, 6, 4); Abbreviate(wallet.value, 6, 4)
    else Abbreviate(wallet.value, 6, 4)
  }
}
