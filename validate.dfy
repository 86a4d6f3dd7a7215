/**
 * The entry-validation page: a validator scans an attendee's QR code, the page
 * reads the ticket and its event from the chain and gives a verdict, and an
 * approved ticket can be checked in with a transaction.
 *
 * The page's state is a record; each handler is a transition on it, split at
 * its `await`s into a synchronous start and a settle step that receives what
 * the chain returned. The class `ValidatePage` holds that state in fields.
 */
module Validate {
  import opened Wrappers

  datatype ValidationState = Idle | Checking | Approved | Denied | Used | Confirming | Success | Error

  /** The QR payload as `JSON.parse` returns it: any field may be missing. */
  datatype ScanPayload = ScanPayload(ticketId: Option<string>, owner: Option<string>, event: Option<string>)

  /** What the scanner hands over: nothing, or a code whose text parses to a payload (`None` when it does not). */
  datatype ScanInput = NoResult | Scanned(parsed: Option<ScanPayload>)

  datatype TicketAccount = TicketAccount(event: string, isUsed: bool)
  datatype EventAccount = EventAccount(startTime: int, endTime: int)

  /** The text under the verdict; the two time messages carry the timestamp they print. */
  datatype Message =
    | NoMessage
    | NotStarted(startTs: int)
    | AlreadyEnded(endTs: int)
    | NotFound
    | NotValidator
    | Failure(text: string)

  function NotFoundText(): string { "Invalid QR code or ticket not found on-chain." }

  datatype Page = Page(
    isScanning: bool,
    payload: Option<ScanPayload>,
    ticket: Option<TicketAccount>,
    event: Option<EventAccount>,
    state: ValidationState,
    message: Message,
    scannerKey: int)

  function Initial(): Page { Page(true, None, None, None, Idle, NoMessage, 0) }

  /** A string field is truthy: present and non-empty. */
  predicate Truthy(f: Option<string>) { f.Some? && f.value != "" }

  /** The guard of `handleScan`: a result, a connected wallet, and a payload with a ticket id and an owner. */
  predicate ScanAccepted(input: ScanInput, walletConnected: bool) {
    input.Scanned? && walletConnected
    && (input.parsed.Some? ==> Truthy(input.parsed.value.ticketId) && Truthy(input.parsed.value.owner))
  }

  /** `handleScan(result)` up to its first `await`. */
  function ScanStart(p: Page, input: ScanInput, walletConnected: bool): Page {
    if !ScanAccepted(input, walletConnected) then p
    else if input.parsed.None? then p.(state := Denied, message := NotFound)
    else p.(payload := input.parsed, isScanning := false, state := Checking)
  }

  /** The checks of a fetched ticket against its event's window, in the order the page makes them. */
  function Verdict(now: int, ev: EventAccount, t: TicketAccount): (ValidationState, Message) {
    if now < ev.startTime then (Denied, NotStarted(ev.startTime))
    else if now > ev.endTime then (Denied, AlreadyEnded(ev.endTime))
    else if t.isUsed then (Used, NoMessage)
    else (Approved, NoMessage)
  }

  /**
   * The rest of `handleScan`: the ticket fetch, then the event fetch, then the
   * verdict at `now` (seconds). A failed fetch ends in the not-found denial.
   */
  function ScanSettle(p: Page, ticketFetch: Outcome<TicketAccount>, eventFetch: Outcome<EventAccount>, now: int): Page {
    if ticketFetch.Err? then p.(state := Denied, message := NotFound)
    else
      var withTicket := p.(ticket := Some(ticketFetch.value));
      if eventFetch.Err? then withTicket.(state := Denied, message := NotFound)
      else
        var v := Verdict(now, eventFetch.value, ticketFetch.value);
        if v.0 == Denied then withTicket.(event := Some(eventFetch.value), state := v.0, message := v.1)
        else withTicket.(event := Some(eventFetch.value), state := v.0)
  }

  predicate ConfirmAccepted(p: Page, walletConnected: bool) {
    walletConnected && p.payload.Some? && p.ticket.Some?
  }

  /** `handleConfirmCheckIn()` up to its first `await`. */
  function ConfirmStart(p: Page, walletConnected: bool): Page {
    if ConfirmAccepted(p, walletConnected) then p.(state := Confirming) else p
  }

  /** The rest of `handleConfirmCheckIn`: the validator-account lookup, then the `validateTicket` transaction. */
  function ConfirmSettle(p: Page, validatorFound: bool, tx: TxOutcome): Page {
    if !validatorFound then p.(state := Error, message := NotValidator)
    else if tx.Failed? then p.(state := Error, message := Failure(FailureText(tx.message)))
    else p.(state := Success)
  }

  /** `handleReset()` */
  function Reset(p: Page): (r: Page)
    ensures r.state == Idle && r.isScanning && r.scannerKey == p.scannerKey + 1
    ensures r.payload == None && r.ticket == None && r.event == None && r.message == NoMessage
  {
    Page(true, None, None, None, Idle, NoMessage, p.scannerKey + 1)
  }

  datatype Button = ConfirmCheckIn | ScanNext | TryAgain

  /** The six states the verdict card is drawn for. */
  predicate VerdictState(s: ValidationState) {
    s in {Approved, Denied, Used, Confirming, Success, Error}
  }

  /** The card is drawn only inside the results area, which needs a payload and a state other than "idle". */
  predicate ShowsVerdictCard(p: Page) {
    p.payload.Some? && p.state != Idle && VerdictState(p.state)
  }

  /** The buttons under the verdict card (none while it is hidden). */
  function VerdictButtons(p: Page): (r: seq<Button>)
    ensures ConfirmCheckIn in r <==> p.payload.Some? && p.state == Approved
    ensures ShowsVerdictCard(p) <==> |r| > 0
    ensures ShowsVerdictCard(p) ==> r[|r| - 1] == (if p.state == Success then ScanNext else TryAgain)
  {
    if !ShowsVerdictCard(p) then []
    else (if p.state == Approved then [ConfirmCheckIn] else []) + [if p.state == Success then ScanNext else TryAgain]
  }

  // ---------------------------------------------------------------------------
  // Properties

  /** A scan without a result, without a wallet, or whose payload lacks a ticket id or an owner changes nothing. */
  lemma IgnoredScansChangeNothing(p: Page, input: ScanInput, walletConnected: bool)
    requires input.NoResult? || !walletConnected
      || (input.Scanned? && input.parsed.Some? && (!Truthy(input.parsed.value.ticketId) || !Truthy(input.parsed.value.owner)))
    ensures ScanStart(p, input, walletConnected) == p
  {
  }

  /** An accepted scan stores the payload, stops the camera and starts checking; a code that does not parse is denied. */
  lemma AcceptedScanStartsChecking(p: Page, input: ScanInput, walletConnected: bool)
    requires ScanAccepted(input, walletConnected)
    ensures var r := ScanStart(p, input, walletConnected);
      && (input.parsed.Some? ==> r == p.(payload := input.parsed, isScanning := false, state := Checking))
      && (input.parsed.None? ==> r.state == Denied && r.message == NotFound && r.payload == p.payload)
  {
  }

  /**
   * The verdict is a denial before the start or after the end, and otherwise
   * "used" for a used ticket and "approved" for an unused one; the start test
   * comes first.
   */
  lemma VerdictCases(now: int, ev: EventAccount, t: TicketAccount)
    ensures Verdict(now, ev, t).0 == Denied <==> now < ev.startTime || now > ev.endTime
    ensures now < ev.startTime ==> Verdict(now, ev, t).1 == NotStarted(ev.startTime)
    ensures ev.startTime <= now && now > ev.endTime ==> Verdict(now, ev, t).1 == AlreadyEnded(ev.endTime)
    ensures Verdict(now, ev, t).0 == Used <==> ev.startTime <= now <= ev.endTime && t.isUsed
    ensures Verdict(now, ev, t).0 == Approved <==> ev.startTime <= now <= ev.endTime && !t.isUsed
  {
  }

  /** The window is inclusive at both ends: scanning exactly at the start or the end is not denied. */
  lemma WindowIsInclusive(ev: EventAccount, t: TicketAccount)
    requires ev.startTime <= ev.endTime
    ensures Verdict(ev.startTime, ev, t).0 != Denied && Verdict(ev.endTime, ev, t).0 != Denied
  {
  }

  /** A failed ticket or event fetch (a bad address, a missing account) ends in the not-found denial. */
  lemma FailedFetchDenies(p: Page, ticketFetch: Outcome<TicketAccount>, eventFetch: Outcome<EventAccount>, now: int)
    requires ticketFetch.Err? || eventFetch.Err?
    ensures ScanSettle(p, ticketFetch, eventFetch, now).state == Denied
    ensures ScanSettle(p, ticketFetch, eventFetch, now).message == NotFound
  {
  }

  /** A settled scan shows the verdict for the fetched accounts, and keeps both. */
  lemma SettledScanShowsVerdict(p: Page, t: TicketAccount, ev: EventAccount, now: int)
    ensures var r := ScanSettle(p, Ok(t), Ok(ev), now);
      && r.state == Verdict(now, ev, t).0
      && r.ticket == Some(t) && r.event == Some(ev)
      && r.payload == p.payload
      && (p.payload.Some? ==> ShowsVerdictCard(r))
  {
  }

  /**
   * A code that does not parse is denied, but with no payload stored from an
   * earlier scan the results area stays hidden: no verdict card and no button.
   */
  lemma UnparsedScanShowsNoCard(p: Page, walletConnected: bool)
    requires walletConnected && p.payload.None?
    ensures var r := ScanStart(p, Scanned(None), walletConnected);
      r.state == Denied && r.message == NotFound && !ShowsVerdictCard(r) && VerdictButtons(r) == []
  {
  }

  /** Reset is the initial page with the next scanner key, so no verdict is shown. */
  lemma ResetStartsOver(p: Page)
    ensures Reset(p) == Initial().(scannerKey := p.scannerKey + 1)
    ensures !ShowsVerdictCard(Reset(p)) && VerdictButtons(Reset(p)) == []
    ensures Reset(Reset(p)).scannerKey == p.scannerKey + 2 && Reset(Reset(p)).(scannerKey := 0) == Reset(p).(scannerKey := 0)
  {
  }

  /**
   * Confirming moves to "confirming" when a wallet, a payload and a ticket are
   * present; it then ends in "error" if no validator account exists or the
   * transaction fails, and in "success" only when `validateTicket` resolves.
   */
  lemma ConfirmTransitions(p: Page, walletConnected: bool, validatorFound: bool, tx: TxOutcome)
    ensures ConfirmStart(p, walletConnected).state == (if ConfirmAccepted(p, walletConnected) then Confirming else p.state)
    ensures ConfirmSettle(p, validatorFound, tx).state == Success <==> validatorFound && tx.Done?
    ensures !validatorFound ==> ConfirmSettle(p, validatorFound, tx).message == NotValidator
    ensures validatorFound && tx.Failed? ==>
      ConfirmSettle(p, validatorFound, tx) == p.(state := Error, message := Failure(FailureText(tx.message)))
  {
  }

  /** No step but a resolved check-in transaction enters "success". */
  lemma SuccessOnlyFromTransaction(p: Page, input: ScanInput, w: bool, tf: Outcome<TicketAccount>, ef: Outcome<EventAccount>, now: int)
    requires p.state != Success
    ensures ScanStart(p, input, w).state != Success
    ensures ScanSettle(p, tf, ef, now).state != Success
    ensures ConfirmStart(p, w).state != Success
    ensures Reset(p).state != Success
  {
  }

  /**
   * The page's invariant: it is idle only with nothing scanned, and it only
   * confirms a scanned ticket.
   */
  predicate Consistent(p: Page) {
    && (p.state == Idle ==> p.payload.None? && p.ticket.None? && p.event.None?)
    && (p.state == Confirming ==> p.payload.Some? && p.ticket.Some?)
  }

  lemma StepsKeepConsistent(p: Page, input: ScanInput, w: bool, tf: Outcome<TicketAccount>, ef: Outcome<EventAccount>,
                            now: int, found: bool, tx: TxOutcome)
    requires Consistent(p)
    ensures Consistent(ScanStart(p, input, w))
    ensures Consistent(ScanSettle(p, tf, ef, now))
    ensures Consistent(ConfirmStart(p, w))
    ensures Consistent(ConfirmSettle(p, found, tx))
    ensures Consistent(Reset(p)) && Consistent(Initial())
  {
  }

  // ---------------------------------------------------------------------------
  // The page object

  class ValidatePage {
    var isScanning: bool
    var payload: Option<ScanPayload>
    var ticket: Option<TicketAccount>
    var event: Option<EventAccount>
    var state: ValidationState
    var message: Message
    var scannerKey: int

    function Snap(): Page
      reads this
    {
      Page(isScanning, payload, ticket, event, state, message, scannerKey)
    }

    constructor ()
      ensures Snap() == Initial()
    {
      isScanning, payload, ticket, event := true, None, None, None;
      state, message, scannerKey := Idle, NoMessage, 0;
    }

    /** `handleScan` up to its first `await`; `fetching` tells whether the ticket is now being read. */
    method HandleScan(input: ScanInput, walletConnected: bool) returns (fetching: bool)
      modifies this
      ensures Snap() == ScanStart(old(Snap()), input, walletConnected)
      ensures fetching <==> ScanAccepted(input, walletConnected) && input.parsed.Some?
    {
      fetching := false;
      if input.NoResult? || !walletConnected {
        return;
      }
      match input.parsed {
        case None =>
          state := Denied;
          message := NotFound;
        case Some(parsed) =>
          if !Truthy(parsed.ticketId) || !Truthy(parsed.owner) {
            return;
          }
          payload := Some(parsed);
          isScanning := false;
          state := Checking;
          fetching := true;
      }
    }

    method FinishScan(ticketFetch: Outcome<TicketAccount>, eventFetch: Outcome<EventAccount>, now: int)
      modifies this
      ensures Snap() == ScanSettle(old(Snap()), ticketFetch, eventFetch, now)
    {
      if ticketFetch.Err? {
        state, message := Denied, NotFound;
        return;
      }
      ticket := Some(ticketFetch.value);
      if eventFetch.Err? {
        state, message := Denied, NotFound;
        return;
      }
      event := Some(eventFetch.value);
      var ev := eventFetch.value;
      if now < ev.startTime {
        state, message := Denied, NotStarted(ev.startTime);
        return;
      }
      if now > ev.endTime {
        state, message := Denied, AlreadyEnded(ev.endTime);
        return;
      }
      state := if ticketFetch.value.isUsed then Used else Approved;
    }

    method HandleConfirmCheckIn(walletConnected: bool) returns (sending: bool)
      modifies this
      ensures Snap() == ConfirmStart(old(Snap()), walletConnected)
      ensures sending <==> ConfirmAccepted(old(Snap()), walletConnected)
    {
      sending := walletConnected && payload.Some? && ticket.Some?;
      if sending {
        state := Confirming;
      }
    }

    method FinishConfirmCheckIn(validatorFound: bool, tx: TxOutcome)
      modifies this
      ensures Snap() == ConfirmSettle(old(Snap()), validatorFound, tx)
    {
      if !validatorFound {
        state, message := Error, NotValidator;
      } else if tx.Failed? {
        state, message := Error, Failure(FailureText(tx.message));
      } else {
        state := Success;
      }
    }

    method HandleReset()
      modifies this
      ensures Snap() == Reset(old(Snap()))
    {
      payload, ticket, event := None, None, None;
      state, message := Idle, NoMessage;
      isScanning := true;
      scannerKey := scannerKey + 1;
    }
  }
}
