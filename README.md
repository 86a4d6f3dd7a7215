# Flox ticketing client: a verified model of its logic

Flox is a web client for an event-ticketing program on Solana. Organisers stake
SOL and deploy events with ticket tiers. Attendees buy tickets, which are minted
as program accounts, and show them as QR codes. Validators scan those codes and
check tickets in at the door. This project models the sequential logic under the
client's React rendering and proves what that logic promises.

What is modelled:

- the keyed request cache with in-flight deduplication (`ProgramCache`);
- the single-slot event cache (`EventCache`);
- the home feed's retry-with-backoff and event pipeline (`HomeFeed`);
- the category and search helpers (`Utils`);
- the account-address seed layouts and their little-endian u64 ids (`ProgramSeeds`);
- the check-in state machine (`Validate`);
- the organiser dashboard (`Dashboard`, `DashboardStats`, `ManageEvents`, `ValidatorsTable`);
- the event creation form (`CreateEvent`) and the checkout dialog (`Checkout`);
- the "My Tickets" page (`MyTickets`, `TicketList`, `TicketItem`, `QrModal`);
- the event card, the header, the floating assistant, the toast and confirm providers and the theme provider.

There is one module per source file. `Wrappers`, `Strings`, `Lists` and
`Sorting` hold the few helpers they share.

How the model is built:

- **State is kept in classes.** Where the source keeps state (module-level
  maps, the cache slot, React state), a class holds that state as fields.
  Each method's contract ties the new state to a pure function of the old
  one, and the properties are proved as lemmas about those functions.
- **Async handlers are split in two.** A start step runs up to the first
  `await`. A finish step receives the settled outcome. Interleavings are
  sequences of these calls.
- **The outside world comes in as parameters.** This covers the clock
  (`now`), the wallet, RPC results, the program-address hash (`derive`) and
  the public-key validity test.
- **Toasts and the confirm dialog are shared objects.** Each page holds them,
  so a contract can say exactly which toast a handler raises.

Three behaviours of the source are kept as written:

- Tier ids in the creation form come from `Date.now()`, so two tiers added
  in the same millisecond share an id. Removing one then removes both. With
  only those two tiers left, the "at least one tier" guard is then defeated
  (`CreateEvent.SharedIdEmptiesList`). With distinct ids the list is never
  emptied (`CreateEvent.RemoveTierNeverEmpties`).
- The two caches test expiry differently. The keyed cache serves an entry
  younger than the TTL (`<`). The event slot serves one up to the TTL
  inclusive (`>` clears). `EventCache.BoundaryDiffersFromRequestCache`
  states the difference.
- The home page's stale-data warning stores its dash mis-encoded, so the
  page shows "â€”" where a dash was meant. `HomeFeed.STALE_TEXT` keeps
  those three characters.

## Model

| member | source | states |
|---|---|---|
| ProgramCache.Empty | frontend/src/lib/programCache.ts:8-10 | both module-level maps start empty and the state is consistent |
| ProgramCache.InvalidateKey | frontend/src/lib/programCache.ts:48-50 | only `key` leaves the store; every other entry and the whole in-flight table stay as they were |
| ProgramCache.ClearStore | frontend/src/lib/programCache.ts:52-54 | the store ends empty; the in-flight table and the fetch bookkeeping are untouched |
| ProgramCache.BeginKeepsConsistent | frontend/src/lib/programCache.ts:24-44 | a call up to its `await` keeps "in-flight names exactly the unsettled fetches, one per key" |
| ProgramCache.FreshEntryIsServed | frontend/src/lib/programCache.ts:24-27 | an entry younger than the TTL is returned as stored and nothing changes, so the fetcher is not called |
| ProgramCache.MissJoinsOrStarts | frontend/src/lib/programCache.ts:25-44 | an absent or aged entry (age >= TTL) is a miss: it joins the in-flight fetch of the key without a new call, or calls the fetcher once and registers it before it can settle; the store is untouched |
| ProgramCache.AtMostOneOutstanding | frontend/src/lib/programCache.ts:29-44 | two pending fetches of the same key are the same fetch |
| ProgramCache.SettleOk | frontend/src/lib/programCache.ts:34-37 | a fulfilled fetch stores `{data, fetchedAt = now}` under its key, leaves the in-flight table, hands `data` to its waiters and changes no other key |
| ProgramCache.SettleErr | frontend/src/lib/programCache.ts:39-42 | a rejected fetch leaves the store unchanged (no failure cached), leaves the in-flight table and passes the error to its waiters |
| ProgramCache.SettleKeepsConsistent | frontend/src/lib/programCache.ts:33-42 | settling either way keeps the in-flight/store invariant |
| ProgramCache.InvalidateKeepsConsistent | frontend/src/lib/programCache.ts:48-54 | both invalidations keep the invariant and leave fetches in flight running |
| ProgramCache.InvalidateIdempotent | frontend/src/lib/programCache.ts:48-50 | invalidating a key twice is the same as once |
| ProgramCache.InvalidatedKeyMisses | frontend/src/lib/programCache.ts:24-54 | after invalidating a key, or the whole store, the next read is never served from the store |
| ProgramCache.KeysAreIsolated | frontend/src/lib/programCache.ts:19-50 | a read, a settle or an invalidation of one key leaves what is held for any other key unchanged |
| ProgramCache.BeginAll | frontend/src/lib/programCache.ts:19-46 | a run of reads of one key yields one begin step per read |
| ProgramCache.BeginAllWhileInFlight | frontend/src/lib/programCache.ts:29-31 | while a fetch of the key is in flight, every further read that misses joins that fetch and the state stays the same |
| ProgramCache.ConcurrentReadersShareOneFetch | frontend/src/lib/programCache.ts:29-44 | any number of unsettled reads of one key call the fetcher at most once, and every read that is not a hit waits on that same fetch |
| ProgramCache.ExampleScenario | frontend/src/lib/programCache.ts:1-54 | with the default TTL of 60000 ms: a fetch at 0, a cached hit at 30000, then after invalidation a new fetch at 30001 |
| ProgramCache.RequestCache.CachedFetch | frontend/src/lib/programCache.ts:19-46 | the new maps and the returned step are exactly `BeginFetch` of the old state |
| ProgramCache.RequestCache.Settle | frontend/src/lib/programCache.ts:33-45 | the new state is `SettleFetch` of the old one, and the outcome is returned |
| ProgramCache.RequestCache.Await | frontend/src/lib/programCache.ts:30-45 | a waiting caller receives the recorded outcome once its fetch has settled, and nothing before |
| ProgramCache.RequestCache.InvalidateProgramCache | frontend/src/lib/programCache.ts:48-50 | the new state is `InvalidateKey` of the old one |
| ProgramCache.RequestCache.InvalidateAllProgramCache | frontend/src/lib/programCache.ts:52-54 | the new state is `ClearStore` of the old one |
| EventCache.EmptySlotReadsNull | frontend/src/lib/eventCache.ts:26-27 | a read of the empty slot returns null and leaves it empty |
| EventCache.FreshSlotIsServed | frontend/src/lib/eventCache.ts:22-33 | up to an age of 60000 ms inclusive, a read returns the stored list unchanged and keeps the slot |
| EventCache.ExpiredSlotIsCleared | frontend/src/lib/eventCache.ts:29-32 | past 60000 ms a read empties the slot and returns null |
| EventCache.GetAll | frontend/src/lib/eventCache.ts:26-34 | a run of reads gives one result per read |
| EventCache.NullUntilNextSet | frontend/src/lib/eventCache.ts:29-32 | once a read found the slot expired, every later read returns null until the next write, whatever the clock |
| EventCache.EmptyStaysEmpty | frontend/src/lib/eventCache.ts:27 | reads of an empty slot keep returning null |
| EventCache.BoundaryDiffersFromRequestCache | frontend/src/lib/eventCache.ts:29 | at an age of exactly the TTL this slot still serves its data while the keyed cache (`<` test) treats its entry as a miss |
| EventCache.SingleSlotCache.GetCachedEvents | frontend/src/lib/eventCache.ts:26-34 | the new slot and the result are exactly `GetAt` of the old slot at `now` |
| EventCache.SingleSlotCache.SetCachedEvents | frontend/src/lib/eventCache.ts:36-38 | the slot holds the list stamped `now`, overwriting any previous one, and a read at `now` returns it |
| EventCache.SingleSlotCache.InvalidateCache | frontend/src/lib/eventCache.ts:40-42 | the slot is empty, so the next read at any time returns null |
| Utils.CategoryKeyDefaults | frontend/src/lib/utils.ts:4-6 | a falsy category, and an enum object with no keys, give "other" |
| Utils.CategoryKeyOfObject | frontend/src/lib/utils.ts:5-8 | an enum object gives its first key lowercased, except "hackathon" and "workshop", which give "other" |
| Utils.CategoryKeyOfPrimitive | frontend/src/lib/utils.ts:10 | a truthy primitive gives its string form lowercased, with no upper-case letter left |
| Utils.FilterLabel | frontend/src/lib/utils.ts:38-45 | each filter label is its category's name with the first letter capitalised |
| Utils.FilterEventsMembership | frontend/src/lib/utils.ts:18-31 | an event is kept exactly when it is in the input, has the chosen category key (unless "all") and, for a non-blank query, its name (else title) or location contains the lowercased query case-insensitively |
| Utils.FilterEventsIsSelection | frontend/src/lib/utils.ts:18-31 | the result is the input filtered by the one-event test `Selected` (category, then query), so every copy of a selected event is kept and no copy of any other |
| Utils.FilterEventsIdentity | frontend/src/lib/utils.ts:18-23 | category "all" with a whitespace-only query returns the input unchanged |
| Utils.FilterEventsIsSubseq | frontend/src/lib/utils.ts:18-31 | the result is an order-preserving subsequence of the input |
| Utils.FilterEventsIdempotent | frontend/src/lib/utils.ts:13-32 | filtering twice with the same arguments equals filtering once |
| Utils.FilterEventsCaseInsensitive | frontend/src/lib/utils.ts:24-29 | lowercasing the query first does not change the result |
| Utils.FormatPriceRoundTrip | frontend/src/lib/utils.ts:34-36 | the amount and the currency can be read back from the formatted price |
| Strings.TrimEmptyIffBlank | frontend/src/lib/utils.ts:23 | `trim()` gives the empty text exactly for a whitespace-only text |
| Strings.ContainsIffOccurs | frontend/src/lib/utils.ts:27-28 | `includes` holds exactly when the needle occurs at some position |
| Strings.ToLowerIdempotent | frontend/src/lib/utils.ts:6-24 | lowercasing is idempotent and leaves no upper-case letter |
| ProgramSeeds.EncodeU64LE | frontend/src/lib/program.ts:38-55 | the id is written as exactly 8 bytes |
| ProgramSeeds.LittleEndianRoundTrip | frontend/src/lib/program.ts:39-55 | decoding the low `len` little-endian bytes of `n` gives `n` modulo 256^len |
| ProgramSeeds.U64RoundTrip | frontend/src/lib/program.ts:39-55 | the 8 bytes decode to the id modulo 2^64, hence to the id itself for 0 <= id < 2^64 |
| ProgramSeeds.U64Injective | frontend/src/lib/program.ts:39-55 | distinct ids in the u64 range encode differently; ids 2^64 apart collide (`setBigUint64` wraps) |
| ProgramSeeds.SeedLayouts | frontend/src/lib/program.ts:30-70 | the seed lists are ["escrow", organizer], ["event", organizer, id as 8 LE bytes], ["tier", event, index byte], ["ticket", event, id as 8 LE bytes] and ["validator", event, validator] |
| ProgramSeeds.IdSeedsAreInjective | frontend/src/lib/program.ts:37-60 | event and ticket seeds carry 8 id bytes and are equal only for the same key and, in the u64 range, the same id |
| ProgramSeeds.TierIndexIsOneByte | frontend/src/lib/program.ts:48 | tier indices 0..255 give distinct seeds, and index i + 256 gives the same seeds as i |
| ProgramSeeds.SeedKindsAreSeparated | frontend/src/lib/program.ts:32-67 | seeds of two different account kinds never share their first part |
| HomeFeed.RetryBehaviour | frontend/src/app/page.tsx:22-41 | the loop stops at the first success, at the first error that is not rate limiting, or at the last allowed attempt, and settles as that attempt did; every earlier attempt was a rate-limit error; at most `retries + 1` attempts; the waits are `delayMs * 2^i` |
| HomeFeed.FirstSuccessReturned | frontend/src/app/page.tsx:27-28 | a first call that succeeds is returned at once: one call, no wait |
| HomeFeed.OtherErrorsNotRetried | frontend/src/app/page.tsx:30-39 | an error whose message contains none of "429", "Too Many Requests", "rate limit" is rethrown at once with no wait |
| HomeFeed.ExhaustionRethrowsLastError | frontend/src/app/page.tsx:35-39 | when every allowed attempt is rate limited, `retries + 1` calls happen and the last error is rethrown |
| HomeFeed.DefaultSchedule | frontend/src/app/page.tsx:24-37 | with the defaults (3 retries, 1500 ms) the waits are 1500, 3000 and 6000 ms |
| HomeFeed.Format | frontend/src/app/page.tsx:119-159 | `available` is never negative and is `capacity - sold` whenever that is not negative |
| HomeFeed.FormatAll | frontend/src/app/page.tsx:107-163 | each account is formatted in place, one result per account |
| HomeFeed.FormatEventsCorrect | frontend/src/app/page.tsx:105-166 | the list is sorted by start time, latest first, and is a permutation of the formatted active events |
| HomeFeed.OnlyActiveEventsShown | frontend/src/app/page.tsx:105-106 | every listed event comes from an account whose status key is "active" |
| HomeFeed.EveryActiveEventShown | frontend/src/app/page.tsx:105-107 | every active account is listed |
| HomeFeed.CapacityCountsOwnTiers | frontend/src/app/page.tsx:111-122 | a tier adds its `maxSupply` (missing as 0) to the capacity of the event its address field names, and to no other |
| HomeFeed.LowestPriceIsMinimum | frontend/src/app/page.tsx:130-141 | the fold from `Infinity` stays `Infinity` exactly when there are no tiers, and otherwise is the price of some tier and at most every tier's price |
| HomeFeed.FoldFacts | frontend/src/app/page.tsx:130-137 | the price fold never rises and ends at its start or at some tier's price that undercuts every tier |
| HomeFeed.Feed.FetchEvents | frontend/src/app/page.tsx:53-79 | a non-forced call that finds a cached list shows it, ends loading and fetches nothing; otherwise loading starts with no error |
| HomeFeed.Feed.FinishFetch | frontend/src/app/page.tsx:168-197 | success caches and shows the formatted list; failure shows a list the cache still holds with the stale-data warning, else the load-failed error, and the banner then shows that text; loading ends either way |
| HomeFeed.BannerTellsFailure | frontend/src/app/page.tsx:189-194 | both banner texts are non-empty, so the banner is drawn, and they differ, so the banner tells a stale list from a failed load |
| Validate.ResetStartsOver | frontend/src/app/validate/page.tsx:130-138 | reset gives the initial page (camera on, nothing scanned, no message, "idle") with the scanner key one higher, so no verdict card or button is shown; resetting twice differs only in the key |
| Validate.VerdictButtons | frontend/src/app/validate/page.tsx:239-403 | the card and its buttons are drawn exactly when a payload is held, the state is not "idle" and it is one of the six verdict states; "Confirm Check-In" is offered exactly with a payload in "approved"; the last button reads "Scan Next" after success and "Try Again" otherwise |
| Validate.UnparsedScanShowsNoCard | frontend/src/app/validate/page.tsx:88-91 | a code that does not parse is denied with the not-found message, but with no payload held the results area stays hidden: no card and no button |
| Validate.IgnoredScansChangeNothing | frontend/src/app/validate/page.tsx:37-42 | a scan with no result, no wallet, or a payload without a ticket id or owner leaves the page unchanged |
| Validate.AcceptedScanStartsChecking | frontend/src/app/validate/page.tsx:40-91 | an accepted scan stores the payload, stops scanning and enters "checking"; a code that does not parse is denied with the not-found message |
| Validate.VerdictCases | frontend/src/app/validate/page.tsx:57-87 | denied exactly before the start or after the end (start test first, each with its message); otherwise "used" exactly for a used ticket and "approved" exactly for an unused one |
| Validate.WindowIsInclusive | frontend/src/app/validate/page.tsx:61-72 | scanning exactly at the start or at the end is not denied |
| Validate.FailedFetchDenies | frontend/src/app/validate/page.tsx:51-92 | a failed ticket or event fetch ends in "denied" with the not-found message |
| Validate.SettledScanShowsVerdict | frontend/src/app/validate/page.tsx:51-87 | a settled scan shows the verdict of the fetched accounts and keeps both accounts and the payload |
| Validate.ConfirmTransitions | frontend/src/app/validate/page.tsx:95-127 | confirming enters "confirming" only with a wallet, payload and ticket; it ends in "error" with the not-a-validator message when the validator account is missing or with the transaction's message when it fails, and in "success" exactly when `validateTicket` resolves |
| Validate.SuccessOnlyFromTransaction | frontend/src/app/validate/page.tsx:98-122 | no step other than a resolved check-in enters "success" |
| Validate.StepsKeepConsistent | frontend/src/app/validate/page.tsx:36-138 | every handler keeps "idle holds nothing scanned, confirming holds a payload and a ticket" |
| Validate.ValidatePage.HandleScan | frontend/src/app/validate/page.tsx:36-46 | the fields become `ScanStart` of the old page; the ticket is fetched exactly for an accepted, parsed scan |
| Validate.ValidatePage.FinishScan | frontend/src/app/validate/page.tsx:51-92 | the fields become `ScanSettle` of the old page |
| Validate.ValidatePage.HandleConfirmCheckIn | frontend/src/app/validate/page.tsx:95-98 | the fields become `ConfirmStart` of the old page; a transaction is sent exactly when it is accepted |
| Validate.ValidatePage.FinishConfirmCheckIn | frontend/src/app/validate/page.tsx:110-127 | the fields become `ConfirmSettle` of the old page |
| Validate.ValidatePage.HandleReset | frontend/src/app/validate/page.tsx:130-138 | the fields become `Reset` of the old page |
| Dashboard.ClassifyCases | frontend/src/app/dashboard/page.tsx:61-78 | "Cancelled" exactly for the cancelled flag, "Withdrawn" exactly for the ended flag without it, then "On Sale" before the start, "Ongoing" from start to end inclusive and "Ended" after the end |
| Dashboard.StatusTextsDistinct | frontend/src/app/dashboard/page.tsx:66-77 | the five status texts are pairwise distinct, so each event gets exactly one status |
| Dashboard.ToRows | frontend/src/app/dashboard/page.tsx:53-92 | every event account gives one row, in place |
| Dashboard.DashboardRowsSorted | frontend/src/app/dashboard/page.tsx:94 | the rows are ordered by id, highest first, and are a permutation of the classified events |
| Dashboard.SummaryOfSortedRows | frontend/src/app/dashboard/page.tsx:102-109 | `totalSold` is the sum of `sold` (missing as 0) over all events, and `eventCount` is the number of events |
| Dashboard.DashboardPage.FetchDashboardData | frontend/src/app/dashboard/page.tsx:24-119 | without a wallet the list is emptied; a successful fetch shows the sorted rows and their summary; a failed one keeps the list; loading ends in every case |
| DashboardStats.ActiveEvents | frontend/src/components/dashboard/DashboardStats.tsx:8-23 | the active count never exceeds the event count |
| DashboardStats.SoldFromIsSum | frontend/src/components/dashboard/DashboardStats.tsx:10-13 | the left fold from `acc` equals `acc` plus the sum over the rows that are not cancelled |
| DashboardStats.TotalSoldSkipsCancelled | frontend/src/components/dashboard/DashboardStats.tsx:10-13 | the total sold is the sum of `sold` (missing as 0) over exactly the rows whose status is not "Cancelled" |
| DashboardStats.TotalSoldBounds | frontend/src/components/dashboard/DashboardStats.tsx:10-13 | with non-negative counts the total sold lies between 0 and the sum over all rows |
| DashboardStats.FromRows | frontend/src/components/dashboard/DashboardStats.tsx:4-7 | each dashboard row is seen by its status text and sold count, in order |
| DashboardStats.ActiveOfDashboardRows | frontend/src/components/dashboard/DashboardStats.tsx:21-23 | on the dashboard page's rows the active count is the number of "On Sale" and "Ongoing" rows ("Upcoming" and "Active" never occur) |
| DashboardStats.SumSplitsOnCancelled | frontend/src/components/dashboard/DashboardStats.tsx:10-13 | the sum over all rows splits into the cancelled and the other rows |
| DashboardStats.TotalSoldOfDashboardRows | frontend/src/components/dashboard/DashboardStats.tsx:10-13 | the page's own total exceeds the card's total by exactly the sales of cancelled events |
| MyTickets.FindEvent | frontend/src/app/my-tickets/page.tsx:68 | a found event is in the catalogue and has the ticket's event address; `None` means no catalogue event has it |
| MyTickets.FindEventIsFirst | frontend/src/app/my-tickets/page.tsx:68 | `find` returns the first catalogue event with the address: the match at `i` when no earlier event has it |
| MyTickets.FormatTickets | frontend/src/app/my-tickets/page.tsx:59-101 | each ticket account gives one row, in place |
| MyTickets.TicketStatusCases | frontend/src/app/my-tickets/page.tsx:74-84 | "cancelled" exactly when the event is cancelled; otherwise "attended" exactly when the ticket is used or now is past its end; otherwise "upcoming" |
| MyTickets.MissingEventFallbacks | frontend/src/app/my-tickets/page.tsx:74-99 | a ticket whose event is not found shows "Unknown Event", category "other", date and time "TBA", no organizer, and, its end counting as 0, "attended" for any positive now |
| MyTickets.NoStartShowsTba | frontend/src/app/my-tickets/page.tsx:74-92 | a found event with no start time (or start 0) shows "TBA" |
| MyTickets.ListIsReversed | frontend/src/app/my-tickets/page.tsx:103 | the displayed list is the formatted tickets in reverse fetch order |
| MyTickets.MyTicketsPage.FetchMyTickets | frontend/src/app/my-tickets/page.tsx:27-50 | the catalogue is fetched only when a wallet owns at least one ticket; no wallet or zero tickets empties the list and ends loading |
| MyTickets.MyTicketsPage.FinishFetch | frontend/src/app/my-tickets/page.tsx:52-103 | a fetched catalogue shows `MyTicketList` of the tickets; loading ends either way |
| ManageEvents.StatusStylesDistinct | frontend/src/components/dashboard/ManageEventStable.tsx:85-93 | each of the five dashboard statuses gets its own class string, none of them the default |
| ManageEvents.StyleTable | frontend/src/components/dashboard/ManageEventStable.tsx:86-92 | each of the five known statuses gets its own class string, as written in the table |
| ManageEvents.UnknownStatusStyle | frontend/src/components/dashboard/ManageEventStable.tsx:92 | any other status text gets the default class string |
| ManageEvents.RowActionCases | frontend/src/components/dashboard/ManageEventStable.tsx:113-157 | Cancel is offered exactly for "On Sale" and "Ongoing" and is disabled exactly while processing; otherwise Withdraw, disabled exactly while processing, withdrawn or cancelled, labelled "Wait...", else "Already Withdrawn", else "Withdraw Funds" |
| ManageEvents.WithdrawOnlyAfterEnd | frontend/src/components/dashboard/ManageEventStable.tsx:114-148 | on the dashboard's statuses an idle row offers an enabled Withdraw exactly when the event has ended |
| ManageEvents.AtMostOneRowProcessing | frontend/src/components/dashboard/ManageEventStable.tsx:113 | with distinct ids at most one row is processing, and none when no action is loading |
| ManageEvents.SettleToast | frontend/src/components/dashboard/ManageEventStable.tsx:52-79 | the toast of a settled action is a success toast exactly when its transaction succeeded |
| ManageEvents.StylesDiffer | frontend/src/components/dashboard/ManageEventStable.tsx:86-92 | the six class strings of the table, the default included, are pairwise different |
| ManageEvents.FailureToasts | frontend/src/components/dashboard/ManageEventStable.tsx:56-79 | a failed cancel shows "Failed: " and the error's message, or "Something Wrong Happened" when the message is absent or empty; a failed withdraw always shows "Failed to withdraw" |
| ManageEvents.ManageEventsTable.SyncEvents | frontend/src/components/dashboard/ManageEventStable.tsx:26-28 | a new `events` prop replaces the rows and keeps the loading mark |
| ManageEvents.ManageEventsTable.StartCancel | frontend/src/components/dashboard/ManageEventStable.tsx:30-39 | without a wallet only the warning toast is pushed and no dialog opens; otherwise the cancel dialog is asked with its texts and "danger" variant |
| ManageEvents.ManageEventsTable.ResumeCancel | frontend/src/components/dashboard/ManageEventStable.tsx:40-43 | only a confirmed dialog marks the row and lets the cancel transaction be sent |
| ManageEvents.ManageEventsTable.StartWithdraw | frontend/src/components/dashboard/ManageEventStable.tsx:62-66 | without a wallet only the warning toast; otherwise the row is marked and the withdraw is sent |
| ManageEvents.ManageEventsTable.FinishAction | frontend/src/components/dashboard/ManageEventStable.tsx:52-82 | one settle toast is pushed and the loading mark is cleared on success and on failure |
| ValidatorsTable.ShortenAddr | frontend/src/components/dashboard/ValidatorStable.tsx:16-18 | an address of at least 6 characters shows its first 6 characters, "...", then its last 4 |
| ValidatorsTable.Pdas | frontend/src/components/dashboard/ValidatorStable.tsx:68 | the set holds exactly the addresses of the organizer's events |
| ValidatorsTable.FindName | frontend/src/components/dashboard/ValidatorStable.tsx:88 | a name is found exactly for an organizer event address, and it is the name of an event with that address |
| ValidatorsTable.FindNameIsFirst | frontend/src/components/dashboard/ValidatorStable.tsx:88 | the name is that of the first event with the address: the match at `i` when no earlier event has it |
| ValidatorsTable.ValidatorRows | frontend/src/components/dashboard/ValidatorStable.tsx:70-91 | the join produces at most one row per validator account |
| ValidatorsTable.ValidatorRowsAreKept | frontend/src/components/dashboard/ValidatorStable.tsx:70-78 | a row exists exactly for a validator account whose event address is one of the organizer's event addresses |
| ValidatorsTable.RowsNameTheirEvent | frontend/src/components/dashboard/ValidatorStable.tsx:79-90 | every row's event is an organizer event and its name is that event's name, so "Unknown" is only a fallback |
| ValidatorsTable.VisibleRows | frontend/src/components/dashboard/ValidatorStable.tsx:129-131 | with an event selected the table shows exactly its rows, in order; with none it shows all rows |
| ValidatorsTable.DefaultSelection | frontend/src/components/dashboard/ValidatorStable.tsx:64-66 | the selection defaults to the first event only when none is selected and events exist |
| ValidatorsTable.AddCheckOrder | frontend/src/components/dashboard/ValidatorStable.tsx:103-108 | `handleAdd` rejects, in order, a missing wallet, a missing selected event and an invalid trimmed address, each with its own message; only passing all three adds the trimmed address |
| ValidatorsTable.KeysDiffer | frontend/src/components/dashboard/ValidatorStable.tsx:40-41 | the two cache keys are different |
| ValidatorsTable.ForcedRefreshMisses | frontend/src/components/dashboard/ValidatorStable.tsx:43-57 | after `fetchAll(true)` invalidates both keys, neither read is served from the store |
| ValidatorsTable.ValidatorsTablePage.StartFetchAll | frontend/src/components/dashboard/ValidatorStable.tsx:33-57 | without a wallet nothing happens; otherwise loading starts, a forced call invalidates both keys first, and the cache moves through both reads |
| ValidatorsTable.ValidatorsTablePage.FinishFetchAll | frontend/src/components/dashboard/ValidatorStable.tsx:59-98 | on success the events, the default selection and the joined rows are stored; a failure changes nothing; loading ends either way |
| ValidatorsTable.ValidatorsTablePage.StartAdd | frontend/src/components/dashboard/ValidatorStable.tsx:103-110 | the error is cleared, then the first failing check's message is set and nothing is sent; otherwise adding starts with the trimmed address |
| ValidatorsTable.ValidatorsTablePage.FinishAdd | frontend/src/components/dashboard/ValidatorStable.tsx:113-120 | success clears the input and asks for a forced refresh; failure shows the transaction's message and ends adding |
| ValidatorsTable.ValidatorsTablePage.EndAdd | frontend/src/components/dashboard/ValidatorStable.tsx:118-120 | adding ends after the refresh |
| CreateEvent.AddTier | frontend/src/app/dashboard/create/page.tsx:87 | exactly one blank tier, whose id is the clock reading, is appended at the end; the others stay in place |
| CreateEvent.RemoveTierKeepsOthers | frontend/src/app/dashboard/create/page.tsx:88 | with one tier left nothing changes; otherwise exactly the tiers with other ids remain, each as many times as before, in order |
| CreateEvent.RemoveTierNeverEmpties | frontend/src/app/dashboard/create/page.tsx:87-88 | with distinct ids the tier list never becomes empty |
| CreateEvent.SharedIdEmptiesList | frontend/src/app/dashboard/create/page.tsx:87-88 | two tiers added in the same millisecond share an id, and removing it then empties the list |
| CreateEvent.UpdateTierTouchesOneField | frontend/src/app/dashboard/create/page.tsx:89-90 | only the named field of the tiers with that id changes; ids, order and the other fields stay |
| CreateEvent.UpdateTierLastWins | frontend/src/app/dashboard/create/page.tsx:89-90 | setting a field twice equals setting it once to the last value |
| CreateEvent.DeployCheckOrder | frontend/src/app/dashboard/create/page.tsx:153-155 | deploy rejects, in order, a missing wallet, an empty name and a missing start or end date, each with its warning, and proceeds only when all pass |
| CreateEvent.EventArgsOf | frontend/src/app/dashboard/create/page.tsx:190-196 | a blank location is sent as "TBA", so the location sent is never empty |
| CreateEvent.TierCalls | frontend/src/app/dashboard/create/page.tsx:209-227 | the loop sends one `addTicketTier` call per tier, in list order, the i-th built from tier i at index i |
| CreateEvent.TierCallsIndexing | frontend/src/app/dashboard/create/page.tsx:209-218 | call i carries index i and the tier address derived from index i; with at most 256 tiers the seeds differ; blank names default to distinct "Tier i+1" |
| CreateEvent.StakeCalls | frontend/src/app/dashboard/create/page.tsx:120-139 | `initializeEscrow` is sent, first, exactly when no escrow account exists; `stakeForEvent` is always sent last |
| CreateEvent.CreateEventPage.constructor | frontend/src/app/dashboard/create/page.tsx:60-79 | the form starts with the two default tiers, unstaked, with staking enabled and deploy disabled |
| CreateEvent.CreateEventPage.AddTierAt | frontend/src/app/dashboard/create/page.tsx:87 | the tiers become `AddTier` of the old ones |
| CreateEvent.CreateEventPage.RemoveTierById | frontend/src/app/dashboard/create/page.tsx:88 | the tiers become `RemoveTier` of the old ones |
| CreateEvent.CreateEventPage.UpdateTierField | frontend/src/app/dashboard/create/page.tsx:89-90 | the tiers become `UpdateTier` of the old ones |
| CreateEvent.CreateEventPage.StartStake | frontend/src/app/dashboard/create/page.tsx:113-115 | without a wallet only the warning toast; otherwise staking starts |
| CreateEvent.CreateEventPage.FinishStake | frontend/src/app/dashboard/create/page.tsx:141-148 | staked only on success, which disables staking and enables deploy; one toast either way; staking ends |
| CreateEvent.CreateEventPage.StartDeploy | frontend/src/app/dashboard/create/page.tsx:152-157 | the first failing check's warning is toasted and nothing is sent; otherwise deploying starts |
| CreateEvent.CreateEventPage.FinishDeploy | frontend/src/app/dashboard/create/page.tsx:229-238 | success clears the progress text, empties the whole request-cache store and marks the event deployed; failure toasts an error and leaves the cache; deploying ends |
| Checkout.Decrement | frontend/src/components/event-detail/CheckoutModal.tsx:201 | "-" gives at least 1, lowers any quantity above 1 by exactly one, and stays within `MAX_QTY` from the range |
| Checkout.Increment | frontend/src/components/event-detail/CheckoutModal.tsx:205 | "+" gives at most `MAX_QTY` = 4, raises any quantity below it by exactly one, and gives at least 1 from a non-negative quantity |
| Checkout.ClicksKeepQtyOk | frontend/src/components/event-detail/CheckoutModal.tsx:201-205 | enabled clicks keep the quantity within 1..4 and within the tickets left (once above 1, since "+" is disabled at `qty >= available`); away from the bounds the two buttons undo each other |
| Checkout.MintCalls | frontend/src/components/event-detail/CheckoutModal.tsx:91-110 | the transaction holds exactly `qty` mint instructions, the i-th for token id `sold + i + 1` and its ticket address |
| Checkout.MintIdsConsecutive | frontend/src/components/event-detail/CheckoutModal.tsx:94-95 | the token ids are consecutive from `sold + 1` and pairwise distinct, and within the u64 range so are their ticket seeds |
| Checkout.WalletLabel | frontend/src/components/event-detail/CheckoutModal.tsx:41-43 | no wallet shows "Not Connected"; otherwise the first 4 characters, "...", and the last 4 |
| Checkout.CheckoutDialog.constructor | frontend/src/components/event-detail/CheckoutModal.tsx:25-28 | the quantity starts at 1, not paying, not paid |
| Checkout.CheckoutDialog.ClickDecrement | frontend/src/components/event-detail/CheckoutModal.tsx:201 | a disabled "-" (at 1) ignores the click; otherwise the quantity becomes `Decrement` of the old one |
| Checkout.CheckoutDialog.ClickIncrement | frontend/src/components/event-detail/CheckoutModal.tsx:205 | a disabled "+" ignores the click; otherwise the quantity becomes `Increment`; the quantity stays in range |
| Checkout.EnabledPayStarts | frontend/src/components/event-detail/CheckoutModal.tsx:256 | a click the enabled pay button lets through has a wallet and no payment running, and the button is disabled while paying |
| Checkout.CheckoutDialog.StartPay | frontend/src/components/event-detail/CheckoutModal.tsx:76-82 | without a wallet only the warning toast, no transaction; otherwise paying starts and the pay button is disabled |
| Checkout.CheckoutDialog.FinishPay | frontend/src/components/event-detail/CheckoutModal.tsx:112-123 | `paid` and the signature are set only after send and confirmation succeed; a failure toasts its message (or "Unknown error"); paying ends in every case, which re-enables the pay button for a connected wallet |
| Toasts.Icon | frontend/src/components/Toast.tsx:8-13 | each toast type has one of the four configured icons |
| Toasts.IconInjective | frontend/src/components/Toast.tsx:8-13 | two types share an icon only when they are the same type, so the icon tells the type |
| Toasts.PushedAppendsOne | frontend/src/components/Toast.tsx:42-44 | with a provider mounted exactly one item `{id: now, message, type}` is appended, earlier items kept in order; without one nothing changes |
| Toasts.ClosedKeepsOthers | frontend/src/components/Toast.tsx:63 | closing keeps exactly the items with another id, each as many times as before, in order, and is idempotent |
| Toasts.CloseUndoesPush | frontend/src/components/Toast.tsx:44-63 | a toast whose id no earlier item carries is undone by closing it |
| Toasts.SameMillisecondToastsCloseTogether | frontend/src/components/Toast.tsx:44-63 | two toasts raised in the same millisecond share an id, so closing one removes both |
| Toasts.ToastQueue.Mount | frontend/src/components/Toast.tsx:54-56 | a rendered provider publishes its setter; the list is unchanged |
| Toasts.ToastQueue.Toast | frontend/src/components/Toast.tsx:43-44 | the list becomes `Pushed` of the old list; the default type is "info" |
| Toasts.ToastQueue.Success | frontend/src/components/Toast.tsx:47 | as `Toast` with type "success" |
| Toasts.ToastQueue.Error | frontend/src/components/Toast.tsx:48 | as `Toast` with type "error" |
| Toasts.ToastQueue.Warning | frontend/src/components/Toast.tsx:49 | as `Toast` with type "warning" |
| Toasts.ToastQueue.Info | frontend/src/components/Toast.tsx:50 | as `Toast` with type "info" |
| Toasts.ToastQueue.Close | frontend/src/components/Toast.tsx:31-63 | the list becomes `Closed` of the old list |
| Toasts.View | frontend/src/components/Toast.tsx:101-125 | the dialog shows the title and description given, "Cancel" and "Confirm" when no labels are given, and the "danger" icon when no variant is given |
| Toasts.Ask | frontend/src/components/Toast.tsx:81-96 | `confirm` creates one new promise; with a provider it is the one shown |
| Toasts.Answer | frontend/src/components/Toast.tsx:98 | a button resolves the shown promise and clears the dialog |
| Toasts.AskAnswerKeepValid | frontend/src/components/Toast.tsx:81-98 | asking and answering keep "answers concern created promises, the shown one is unanswered" |
| Toasts.AnswerResolvesShownRequest | frontend/src/components/Toast.tsx:96-98 | pressing a button resolves the promise just shown with that button's value and clears the dialog |
| Toasts.UnmountedRequestNeverResolves | frontend/src/components/Toast.tsx:83 | without a provider, `_showConfirm?.` does nothing and the promise never resolves |
| Toasts.ReplacedRequestNeverResolves | frontend/src/components/Toast.tsx:96 | a dialog replaced by a second one before any button is pressed leaves the first promise unresolved |
| Toasts.AnswersAreFinal | frontend/src/components/Toast.tsx:98 | answering never changes an earlier answer |
| Toasts.ConfirmDialog.Mount | frontend/src/components/Toast.tsx:94-96 | a rendered provider publishes `_showConfirm` |
| Toasts.ConfirmDialog.Confirm | frontend/src/components/Toast.tsx:81-96 | the dialog state becomes `Ask` of the old one, and the new promise's number is returned |
| Toasts.ConfirmDialog.Handle | frontend/src/components/Toast.tsx:98-123 | the dialog state becomes `Answer` of the old one (the backdrop answers false) |
| TicketList.Take | frontend/src/components/my-tickets/TicketList.tsx:27 | `slice(0, n)` gives a prefix of at most `n` items, and the whole list whenever fewer than `n` come back |
| TicketList.VisibleIsLeadingOfTab | frontend/src/components/my-tickets/TicketList.tsx:22-27 | the shown tickets are the leading tickets of the active tab, in order, at most `visibleCount`; each was passed in and has the tab's status unless the tab is "all" |
| TicketList.HasMoreIffHidden | frontend/src/components/my-tickets/TicketList.tsx:27-28 | "Load more" shows exactly when a ticket of the tab is hidden; then exactly `visibleCount` are shown, otherwise the whole tab |
| TicketList.LoadMoreAppendsNext | frontend/src/components/my-tickets/TicketList.tsx:92 | five more keeps what was shown and appends the tab's next (at most five) tickets |
| TicketList.EmptyStateIffTabEmpty | frontend/src/components/my-tickets/TicketList.tsx:68 | the empty-state message shows exactly when the tab has no ticket |
| TicketList.BadgeCountsTab | frontend/src/components/my-tickets/TicketList.tsx:36-51 | a tab's badge counts exactly the tickets its filter shows, and is hidden exactly when no ticket has that status |
| TicketList.TabsPartition | frontend/src/components/my-tickets/TicketList.tsx:11-36 | when every ticket is upcoming, attended or cancelled, those three badges add up to the number of tickets and "Listed" counts none |
| TicketList.PageTicketsFillThreeTabs | frontend/src/app/my-tickets/page.tsx:74-84 | the "My Tickets" page's own list always splits over the three tabs, and the "Listed" tab stays empty |
| TicketList.TicketListView.constructor | frontend/src/components/my-tickets/TicketList.tsx:19-20 | the list opens on "upcoming" with five tickets shown |
| TicketList.TicketListView.SyncTickets | frontend/src/components/my-tickets/TicketList.tsx:18-20 | a new tickets prop keeps the active tab and the count |
| TicketList.TicketListView.SelectTab | frontend/src/components/my-tickets/TicketList.tsx:40-43 | a tab click selects that tab and shows its first five tickets |
| TicketList.TicketListView.LoadMore | frontend/src/components/my-tickets/TicketList.tsx:92 | five more tickets; what was shown stays a prefix of what is shown |
| TicketItem.SafeStatus | frontend/src/components/my-tickets/TicketItem.tsx:52 | the status lower-cased, or "upcoming" when absent or empty; never empty |
| TicketItem.SafeStatusNormalises | frontend/src/components/my-tickets/TicketItem.tsx:52 | normalising ignores case, is idempotent and yields no upper-case letter |
| TicketItem.ConfigFallsBackToUpcoming | frontend/src/components/my-tickets/TicketItem.tsx:14-53 | an unknown status looks "upcoming"; the four known statuses have four distinct badge texts |
| TicketItem.PageStatusesAreNormal | frontend/src/app/my-tickets/page.tsx:74-84 | every status the "My Tickets" page assigns is already normalised and known |
| TicketItem.RowActionCases | frontend/src/components/my-tickets/TicketItem.tsx:116-133 | the refund button exactly for cancelled tickets, disabled and captioned "Processing..." exactly while refunding; "Event Ended" exactly for attended; the QR button otherwise |
| TicketItem.RefundFailure | frontend/src/components/my-tickets/TicketItem.tsx:90 | the failure text, with "undefined" for an absent message |
| TicketItem.TicketItemView.constructor | frontend/src/components/my-tickets/TicketItem.tsx:46-47 | the QR modal is closed and no refund runs |
| TicketItem.TicketItemView.OpenQr | frontend/src/components/my-tickets/TicketItem.tsx:130 | the QR modal opens only where the row offers "View QR" |
| TicketItem.TicketItemView.CloseQr | frontend/src/components/my-tickets/TicketItem.tsx:137 | the modal's close hides it |
| TicketItem.TicketItemView.ClickRefund | frontend/src/components/my-tickets/TicketItem.tsx:60-64 | a disabled button ignores the click; without a wallet one warning toast; otherwise refunding starts with no toast |
| TicketItem.TicketItemView.FinishRefund | frontend/src/components/my-tickets/TicketItem.tsx:75-93 | exactly one success or failure toast, and refunding ends either way |
| EventCard.GetCategoryCases | frontend/src/components/EventCard.tsx:7-20 | no category reads "Other"; an object's first key picks its label; an unknown or missing first key reads "Event"; every result is one of the six texts |
| EventCard.OtherKeyReadsAsAbsent | frontend/src/components/EventCard.tsx:12-17 | an `{other: ...}` category reads the same as no category |
| EventCard.BadgeOf | frontend/src/components/EventCard.tsx:28 | the "Cancelled" badge shows exactly for a cancelled event |
| EventCard.BadgeCases | frontend/src/components/EventCard.tsx:26-48 | otherwise "Ended" exactly after the end, "Upcoming" exactly before the start, and no badge exactly while the event runs |
| EventCard.CallToActionCases | frontend/src/components/EventCard.tsx:106 | "Buy Tickets" exactly when the event is neither cancelled nor over, "View Details" otherwise |
| EventCard.AvailableShown | frontend/src/components/EventCard.tsx:99 | a missing count is shown as 0, any other as itself |
| EventCard.FeedAvailabilityShown | frontend/src/components/EventCard.tsx:99 | on the home feed's events the figure shown is the tickets left, never negative |
| QrModal.PassReachesScanner | frontend/src/app/validate/page.tsx:37-46 | a pass with a ticket id, shown with no wallet or a non-empty address, is taken up by a validator's scanner and checked with that payload; a pass without id, or with an empty owner, is ignored |
| QrModal.ShortAddress | frontend/src/components/my-tickets/QRModal.tsx:47-49 | "Unknown Wallet" without a wallet; otherwise six leading and four trailing characters around "..." |
| Header.ShortenAddress | frontend/src/components/Header.tsx:19-21 | for an address of four characters or more, its first four and last four characters around "..." (eleven characters) |
| Header.Initials | frontend/src/components/Header.tsx:61-62 | "??" without an address; otherwise its first (at most) two characters in upper case |
| Header.NavLinksCases | frontend/src/components/Header.tsx:65-70 | the three base links first, in order; "Validate Tickets" appended exactly for validators and the only link with the badge |
| Header.AtMostOneActive | frontend/src/components/Header.tsx:90 | at most one link is highlighted for any path, and none on "/validate" for a non-validator |
| Header.HeaderView.constructor | frontend/src/components/Header.tsx:29-30 | the dropdown starts closed and no balance is known |
| Header.HeaderView.ToggleDropdown | frontend/src/components/Header.tsx:125 | the wallet chip flips the dropdown |
| Header.HeaderView.ChooseMenuItem | frontend/src/components/Header.tsx:191-221 | a menu item or "Disconnect Wallet" closes the dropdown |
| Header.HeaderView.MouseDown | frontend/src/components/Header.tsx:51-59 | a press outside the rendered dropdown area closes it; any other press changes nothing |
| Header.HeaderView.FetchBalance | frontend/src/components/Header.tsx:35-43 | nothing without a wallet; the balance read on success; no balance after a failed read |
| Themes.InitialTheme | frontend/src/components/ThemeProvider.tsx:31-33 | a saved "dark" or "light" is restored as that theme, and the result is dark only from a saved "dark" |
| Themes.InitialThemeCases | frontend/src/components/ThemeProvider.tsx:31-33 | a saved "light" or "dark" is kept, and any other value or none starts light |
| Themes.Toggled | frontend/src/components/ThemeProvider.tsx:44-45 | the toggle always gives a theme other than the previous one, and dark when there was none yet |
| Themes.ToggleTwice | frontend/src/components/ThemeProvider.tsx:44-45 | toggling always changes the theme, and toggling twice restores it |
| Themes.ApplyThemeSetsOneClass | frontend/src/components/ThemeProvider.tsx:56-64 | afterwards the root holds the theme's class and not the other one, every other class is unchanged, and only the last theme applied matters |
| Themes.PersistedThemeIsRestored | frontend/src/components/ThemeProvider.tsx:31-41 | a theme written to storage is the one the next mount starts with |
| Themes.ThemeProvider.constructor | frontend/src/components/ThemeProvider.tsx:28-47 | before the mount effect there is no theme and nothing is rendered |
| Themes.ThemeProvider.Mount | frontend/src/components/ThemeProvider.tsx:30-36 | the theme becomes the initial theme of storage and is applied; storage is not written |
| Themes.ThemeProvider.ThemeChanged | frontend/src/components/ThemeProvider.tsx:38-42 | nothing without a theme; otherwise the theme is applied and saved, so the document and storage agree with it |
| Themes.ThemeProvider.Toggle | frontend/src/components/ThemeProvider.tsx:44-45 | the theme becomes `Toggled` of the old one |
| FloatingAgent.ToggleCategory | frontend/src/components/FloatingAgent.tsx:177-183 | an unselected category is appended at the end |
| FloatingAgent.ToggleFlipsOnlyThatCategory | frontend/src/components/FloatingAgent.tsx:177-183 | after a toggle the category is selected exactly when it was not, and every other category keeps its state |
| FloatingAgent.ToggleTwiceRestores | frontend/src/components/FloatingAgent.tsx:180-182 | toggling an unselected category twice restores the list |
| FloatingAgent.FilterKeepsNoDuplicates | frontend/src/components/FloatingAgent.tsx:181 | filtering a list without repeats leaves none |
| FloatingAgent.ToggleKeepsNoDuplicates | frontend/src/components/FloatingAgent.tsx:177-183 | toggling keeps the selected categories free of repeats |
| FloatingAgent.JoinTextsAppend | frontend/src/components/FloatingAgent.tsx:194 | the joined text of two part lists is the concatenation of their texts |
| FloatingAgent.JoinTextsIgnoresOthers | frontend/src/components/FloatingAgent.tsx:194 | only text parts contribute, in order: dropping the others changes nothing |
| FloatingAgent.MessageTextCases | frontend/src/components/FloatingAgent.tsx:192-195 | a message with parts is rendered from them alone (empty parts give ""); one without shows its content or "" |
| FloatingAgent.AllMessages | frontend/src/components/FloatingAgent.tsx:128 | the welcome message comes first, then the chat's messages in order |
| FloatingAgent.SuggestionsOnlyBeforeFirstMessage | frontend/src/components/FloatingAgent.tsx:280 | the suggestion chips show exactly before any chat message while nothing loads |
| FloatingAgent.SendContent | frontend/src/components/FloatingAgent.tsx:185-187 | nothing is sent while loading or when the content is empty; a chip's text is sent as it is; otherwise the trimmed input |
| FloatingAgent.SendButtonMatchesGuard | frontend/src/components/FloatingAgent.tsx:303 | the send button is disabled exactly when pressing it would send nothing |
| FloatingAgent.MovesFollowCursor | frontend/src/components/FloatingAgent.tsx:141-175 | while dragging, the button follows the cursor's displacement from the press, and the drag counts as moved once a point strayed more than 3 pixels |
| FloatingAgent.ClickAfterDrag | frontend/src/components/FloatingAgent.tsx:413 | after a press, moves and a release, the click toggles the panel exactly when no point strayed more than 3 pixels |
| FloatingAgent.AgentWidget.constructor | frontend/src/components/FloatingAgent.tsx:33-45 | closed panel on the chat tab, empty input, default preferences, button at the origin |
| FloatingAgent.AgentWidget.SelectTab | frontend/src/components/FloatingAgent.tsx:233 | a tab button selects the tab, nothing else changes |
| FloatingAgent.AgentWidget.Type | frontend/src/components/FloatingAgent.tsx:297 | the input holds what was typed |
| FloatingAgent.AgentWidget.HandleSend | frontend/src/components/FloatingAgent.tsx:185-190 | when `SendContent` is some text, that text is sent and the input cleared; otherwise nothing changes |
| FloatingAgent.AgentWidget.ToggleCategoryButton | frontend/src/components/FloatingAgent.tsx:320 | the categories become `ToggleCategory` of the old ones and stay free of repeats |
| FloatingAgent.AgentWidget.SetEventType | frontend/src/components/FloatingAgent.tsx:336 | only the event type preference changes |
| FloatingAgent.AgentWidget.SetLanguage | frontend/src/components/FloatingAgent.tsx:352 | only the language preference changes |
| FloatingAgent.AgentWidget.PressAt | frontend/src/components/FloatingAgent.tsx:134-160 | the drag state becomes `Press` of the old one |
| FloatingAgent.AgentWidget.MoveTo | frontend/src/components/FloatingAgent.tsx:142-170 | the drag state becomes `Move` of the old one |
| FloatingAgent.AgentWidget.ReleaseButton | frontend/src/components/FloatingAgent.tsx:149-171 | the drag state becomes `Release` of the old one |
| FloatingAgent.AgentWidget.ClickButton | frontend/src/components/FloatingAgent.tsx:413 | the drag state becomes `Click` of the old one |
| FloatingAgent.AgentWidget.ClosePanel | frontend/src/components/FloatingAgent.tsx:225 | the panel closes, nothing else changes |

## Left out

- Rendering: JSX, styling, portals, icons and motion are not modelled. Only the texts, labels and enabled states that the logic decides are kept.
- Wallet and RPC: Anchor and wallet-adapter calls (`.rpc()`, `.all()`, `.fetch()`, `sendTransaction`, `getBalance`, `getAccountInfo`) are opaque. Their results enter as `Outcome` or `TxOutcome` parameters.
- Address derivation: `findProgramAddressSync` (a SHA-256 hash) is the parameter `derive`. Only the seed lists given to it are modelled.
- Public-key parsing: `new PublicKey(...)` validity is the parameter `isValidKey`.
- Concurrency: promises and the event loop are not modelled. Each handler is a start step and a finish step, and interleavings are call sequences.
- Retry waits: the `setTimeout` waits in `fetchWithRetry` are returned as a list of delays. No time passes.
- Floating point: SOL and USD amounts, `toFixed` and revenue are not modelled. This covers:
  - `parseFloat` of prices into lamports;
  - the balance in SOL (lamports / LAMPORTS_PER_SOL);
  - revenue totals, the checkout totals and the `escrowLocked` check.

  Prices and supplies typed into the form stay texts, and ticket counts are integers.
- Dates: locale date and time formatting (`toLocaleDateString`, `toLocaleString`) is not modelled. Date texts are inputs.
- Clock: the wall clock is the `now` parameter (milliseconds, or seconds where the source divides by 1000).
- Letter case: the case mapping is ASCII only. JavaScript's full Unicode `toLowerCase`/`toUpperCase` is not modelled.
- Object keys: a category looked up by a name of `Object.prototype` (for example `constructor`) is treated like any other unknown key.
- QR codes: `JSON.stringify` and `JSON.parse` of the pass are taken as an exact round trip on its three text fields. QR drawing and camera scanning are not modelled.
- Page reloads: `window.location.reload` after a refund or a check-in is not modelled.
- Toast timers: the fade-out and 4-second auto-close timers of a toast item are not modelled. Neither are the per-type colour classes.
- Escape key and backdrop: the Escape-key and backdrop close of the QR modal are not modelled.
- The creation form's image upload (`imageUri`, upload progress) is not modelled: it is an XHR outside the core. The form's escrow lookup is only an existence check, and `CreateEvent.StakeCalls` models it.
- The dashboard's escrow-balance fetch (`escrowLocked`, frontend/src/app/dashboard/page.tsx:35-42) is not modelled: it is an RPC read followed by a floating-point division.
- `REQUIRED_STAKE` is not modelled. No modelled operation passes it: `stakeForEvent` takes no amount, and the on-chain program fixes the stake.
- The checkout dialog's CoinGecko SOL price and its refresh interval are not modelled.
- The header's 30-second balance polling interval is not modelled. Each read is one `FetchBalance` call. The wallet adapter's display name is not modelled.
- `buildSystemPrompt`, the chat transport and the chat API route of the assistant are not modelled. The fixed suggestion texts are not modelled either: any chip text is a parameter. Cursor coordinates are integers.
- The agent data context (`pushEvents`, `pushUserTickets`, `pushOrganizerData`) is not modelled: these are plain state setters.
- `useTheme`'s default context value (used outside a provider) is not modelled.
- The home page's fallback image address for events without an http image (built with `encodeURIComponent`) is not modelled.
- `updateTier` is not modelled for the `id` field. Form values are texts, and `ticketsSold` is taken to be a number.
- ValidatorsTable: the component's stale closure over `selectedEventPDA` inside `fetchAll` is not modelled. The selection is read at the finish step.
- ManageEvents: the order in which two outstanding transactions settle is not modelled. Each settle clears `loadingAction`, as the source does.
- TicketItem.TicketItemView.ClickRefund: requires a cancelled status, because the refund button exists only then.
- TicketList.TicketListView.LoadMore: requires `Valid()` (a count of whole pages), which every reachable state satisfies.
- HomeFeed.Format: a lowest price of `Infinity` (no tiers) is represented as `NoTiers`, which the page shows as "0". Its `toFixed` formatting is not modelled.
