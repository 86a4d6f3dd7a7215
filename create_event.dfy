/**
 * The create-event form: editing the list of ticket tiers, staking (which
 * opens the organizer's escrow first when it does not exist yet), and
 * deploying, which checks the form, creates the event and then one tier per
 * list entry with indices 0, 1, ... in list order, and finally busts the whole
 * request cache.
 */
module CreateEvent {
  import opened Wrappers
  import opened Strings
  import opened Lists
  import opened ProgramSeeds
  import ProgramCache
  import opened Toasts

  datatype TicketTier = TicketTier(id: int, name: string, price: string, supply: string)

  /** The form's initial tiers. */
  const INITIAL_TIERS := [TicketTier(1, "VIP Access", "0.5", "100"), TicketTier(2, "Regular", "0.1", "500")]

  predicate HasId(id: int, t: TicketTier) { t.id == id }

  /** `addTier()` at time `now`: a blank tier whose id is the clock reading. */
  function AddTier(tiers: seq<TicketTier>, now: int): (r: seq<TicketTier>)
    ensures |r| == |tiers| + 1 && r[..|tiers|] == tiers && r[|tiers|] == TicketTier(now, "", "", "")
  {
    tiers + [TicketTier(now, "", "", "")]
  }

  /** `removeTier(id)`: nothing when one tier (or none) is left, else drop every tier with that id. */
  function RemoveTier(tiers: seq<TicketTier>, id: int): seq<TicketTier> {
    if |tiers| > 1 then Filter(tiers, (t: TicketTier) => !HasId(id, t)) else tiers
  }

  ghost predicate DistinctIds(tiers: seq<TicketTier>) {
    forall i, j :: 0 <= i < j < |tiers| ==> tiers[i].id != tiers[j].id
  }

  /** Removing keeps exactly the other tiers, every copy of each, in order, and a single tier is never removed. */
  lemma RemoveTierKeepsOthers(tiers: seq<TicketTier>, id: int, t: TicketTier)
    ensures |tiers| <= 1 ==> RemoveTier(tiers, id) == tiers
    ensures |tiers| > 1 ==> (t in RemoveTier(tiers, id) <==> t in tiers && t.id != id)
    ensures IsSubseq(RemoveTier(tiers, id), tiers)
    ensures |tiers| > 1 ==> multiset(RemoveTier(tiers, id))[t] == if t.id != id then multiset(tiers)[t] else 0
  {
    FilterMultiplicity(tiers, (t: TicketTier) => !HasId(id, t), t);
    FilterMembership(tiers, (t: TicketTier) => !HasId(id, t), t);
    FilterIsSubseq(tiers, (t: TicketTier) => !HasId(id, t));
    if |tiers| <= 1 {
      SubseqReflexive(tiers);
    }
  }

  lemma {:induction false} FilterKeepsOne(tiers: seq<TicketTier>, id: int, k: int)
    requires 0 <= k < |tiers| && tiers[k].id != id
    ensures |Filter(tiers, (t: TicketTier) => !HasId(id, t))| >= 1
    decreases |tiers|
  {
    if k > 0 {
      FilterKeepsOne(tiers[1..], id, k - 1);
    }
  }

  /** With distinct ids the list never becomes empty: at most one tier goes, and only when two or more are left. */
  lemma RemoveTierNeverEmpties(tiers: seq<TicketTier>, id: int)
    requires DistinctIds(tiers) && |tiers| >= 1
    ensures |RemoveTier(tiers, id)| >= 1
  {
    if |tiers| > 1 {
      if tiers[0].id != id {
        FilterKeepsOne(tiers, id, 0);
      } else {
        FilterKeepsOne(tiers, id, 1);
      }
    }
  }

  /** The ids come from the clock: two tiers added in the same millisecond share one, and removing it then empties the list. */
  lemma SharedIdEmptiesList(now: int)
    ensures RemoveTier(AddTier(AddTier([], now), now), now) == []
  {
    var two := AddTier(AddTier([], now), now);
    FilterKeepsNone(two, (t: TicketTier) => !HasId(now, t));
  }

  datatype Field = Name | Price | Supply

  function SetField(t: TicketTier, f: Field, value: string): TicketTier {
    match f
    case Name => t.(name := value)
    case Price => t.(price := value)
    case Supply => t.(supply := value)
  }

  /** `updateTier(id, field, value)` */
  function UpdateTier(tiers: seq<TicketTier>, id: int, f: Field, value: string): (r: seq<TicketTier>)
    ensures |r| == |tiers|
    ensures forall i :: 0 <= i < |tiers| ==> r[i] == if tiers[i].id == id then SetField(tiers[i], f, value) else tiers[i]
  {
    seq(|tiers|, i requires 0 <= i < |tiers| => if tiers[i].id == id then SetField(tiers[i], f, value) else tiers[i])
  }

  /** Only the named field of the tiers with that id changes; ids, order and every other field stay. */
  lemma UpdateTierTouchesOneField(tiers: seq<TicketTier>, id: int, f: Field, value: string, i: int)
    requires 0 <= i < |tiers|
    ensures var t, u := tiers[i], UpdateTier(tiers, id, f, value)[i];
      && u.id == t.id
      && u.name == (if t.id == id && f == Name then value else t.name)
      && u.price == (if t.id == id && f == Price then value else t.price)
      && u.supply == (if t.id == id && f == Supply then value else t.supply)
  {
  }

  /** Setting the same field twice is the same as setting it once to the last value. */
  lemma UpdateTierLastWins(tiers: seq<TicketTier>, id: int, f: Field, v1: string, v2: string)
    ensures UpdateTier(UpdateTier(tiers, id, f, v1), id, f, v2) == UpdateTier(tiers, id, f, v2)
  {
  }

  /** `handleDeploy`'s checks, in order; the first failing one gives its warning. */
  function DeployCheck(walletConnected: bool, eventName: string, startDate: string, endDate: string): Option<string> {
    if !walletConnected then Some("Wallet not connected.")
    else if eventName == "" then Some("Event name is required.")
    else if startDate == "" || endDate == "" then Some("Start and end date are required.")
    else None
  }

  lemma DeployCheckOrder(walletConnected: bool, eventName: string, startDate: string, endDate: string)
    ensures DeployCheck(walletConnected, eventName, startDate, endDate).None? <==>
      walletConnected && eventName != "" && startDate != "" && endDate != ""
    ensures !walletConnected ==> DeployCheck(walletConnected, eventName, startDate, endDate) == Some("Wallet not connected.")
    ensures walletConnected && eventName == "" ==> DeployCheck(walletConnected, eventName, startDate, endDate) == Some("Event name is required.")
    ensures walletConnected && eventName != "" && (startDate == "" || endDate == "") ==>
      DeployCheck(walletConnected, eventName, startDate, endDate) == Some("Start and end date are required.")
  {
  }

  /** The text fields of `createEvent`: a blank description is sent empty, a blank location as "TBA". */
  datatype EventArgs = EventArgs(eventId: int, name: string, description: string, location: string)

  function EventArgsOf(eventId: int, name: string, description: string, location: string): (a: EventArgs)
    ensures a.location == if location == "" then "TBA" else location
    ensures a.location != ""
  {
    EventArgs(eventId, name, description, if location == "" then "TBA" else location)
  }

  /** One `addTicketTier` call: the tier index, its name, its address, the raw price and supply texts, and the progress text. */
  datatype TierCall = TierCall(index: int, name: string, tierPda: Address, priceText: string, supplyText: string, step: string)

  /** A blank tier name becomes "Tier n", counting from 1. */
  function TierName(t: TicketTier, i: nat): string {
    if t.name == "" then "Tier " + NatToString(i + 1) else t.name
  }

  function TierCallOf(derive: Seeds -> Address, eventPda: Address, tiers: seq<TicketTier>, i: nat): TierCall
    requires i < |tiers|
  {
    var t := tiers[i];
    TierCall(i, TierName(t, i), GetTierPda(derive, eventPda, i),
      if t.price == "" then "0" else t.price,
      if t.supply == "" then "0" else t.supply,
      "Creating tier " + NatToString(i + 1) + "/" + NatToString(|tiers|) + ": \"" + TierName(t, i) + "\"...")
  }

  /** The tier loop of `handleDeploy`: the calls it sends, in order. */
  method TierCalls(derive: Seeds -> Address, eventPda: Address, tiers: seq<TicketTier>) returns (calls: seq<TierCall>)
    ensures |calls| == |tiers|
    ensures forall i :: 0 <= i < |tiers| ==> calls[i] == TierCallOf(derive, eventPda, tiers, i)
  {
    calls := [];
    var i := 0;
    while i < |tiers|
      invariant 0 <= i <= |tiers|
      invariant |calls| == i
      invariant forall k :: 0 <= k < i ==> calls[k] == TierCallOf(derive, eventPda, tiers, k)
    {
      calls := calls + [TierCallOf(derive, eventPda, tiers, i)];
      i := i + 1;
    }
  }

  /**
   * The calls carry the indices 0..n-1 in list order, each tier's address is
   * derived from its own index under the event, the seeds of two calls differ
   * while there are at most 256 tiers, and default names differ by position.
   */
  lemma TierCallsIndexing(derive: Seeds -> Address, eventPda: Address, tiers: seq<TicketTier>, i: nat, j: nat)
    requires i < |tiers| && j < |tiers|
    ensures TierCallOf(derive, eventPda, tiers, i).index == i
    ensures TierCallOf(derive, eventPda, tiers, i).tierPda == derive(TierSeeds(eventPda, i))
    ensures i != j && |tiers| <= 256 ==> TierSeeds(eventPda, i) != TierSeeds(eventPda, j)
    ensures i != j && tiers[i].name == "" && tiers[j].name == "" ==>
      TierCallOf(derive, eventPda, tiers, i).name != TierCallOf(derive, eventPda, tiers, j).name
  {
    TierIndexIsOneByte(eventPda, i, j);
    if i != j && tiers[i].name == "" && tiers[j].name == "" {
      NatToStringInjective(i + 1, j + 1);
      assert ("Tier " + NatToString(i + 1))[5..] == NatToString(i + 1);
      assert ("Tier " + NatToString(j + 1))[5..] == NatToString(j + 1);
    }
  }

  /** The instructions of `handleStake`. */
  datatype StakeCall = InitializeEscrow | StakeForEvent

  function StakeCalls(escrowExists: bool): (calls: seq<StakeCall>)
    ensures |calls| >= 1 && calls[|calls| - 1] == StakeForEvent
    ensures InitializeEscrow in calls <==> !escrowExists
    ensures !escrowExists ==> calls[0] == InitializeEscrow
  {
    if escrowExists then [StakeForEvent] else [InitializeEscrow, StakeForEvent]
  }

  /** The stake button is disabled once staked or while staking; the deploy button until staked and while deploying. */
  predicate StakeEnabled(staked: bool, staking: bool) { !staked && !staking }

  predicate DeployEnabled(staked: bool, deploying: bool) { staked && !deploying }

  class CreateEventPage<T> {
    var tiers: seq<TicketTier>
    var eventName: string
    var startDate: string
    var endDate: string
    var staked: bool
    var staking: bool
    var deploying: bool
    var deployStep: string
    var deployed: bool
    const cache: ProgramCache.RequestCache<T>
    const toasts: ToastQueue

    constructor (cache: ProgramCache.RequestCache<T>, toasts: ToastQueue)
      ensures tiers == INITIAL_TIERS && eventName == "" && startDate == "" && endDate == ""
      ensures !staked && !staking && !deploying && deployStep == "" && !deployed
      ensures this.cache == cache && this.toasts == toasts
      ensures StakeEnabled(staked, staking) && !DeployEnabled(staked, deploying)
    {
      tiers := INITIAL_TIERS;
      eventName, startDate, endDate := "", "", "";
      staked, staking, deploying, deployStep, deployed := false, false, false, "", false;
      this.cache, this.toasts := cache, toasts;
    }

    method AddTierAt(now: int)
      modifies this
      ensures tiers == AddTier(old(tiers), now)
      ensures staked == old(staked) && deploying == old(deploying) && deployed == old(deployed)
    {
      tiers := tiers + [TicketTier(now, "", "", "")];
    }

    method RemoveTierById(id: int)
      modifies this
      ensures tiers == RemoveTier(old(tiers), id)
      ensures staked == old(staked) && deploying == old(deploying) && deployed == old(deployed)
    {
      if |tiers| > 1 {
        tiers := Filter(tiers, (t: TicketTier) => !HasId(id, t));
      }
    }

    method UpdateTierField(id: int, f: Field, value: string)
      modifies this
      ensures tiers == UpdateTier(old(tiers), id, f, value)
      ensures staked == old(staked) && deploying == old(deploying) && deployed == old(deployed)
    {
      tiers := UpdateTier(tiers, id, f, value);
    }

    /** `handleStake` up to its transactions: without a wallet it only warns; otherwise staking starts. */
    method StartStake(walletConnected: bool, now: int) returns (sending: bool)
      modifies this, toasts
      ensures sending == walletConnected
      ensures sending ==> staking && toasts.toasts == old(toasts.toasts)
      ensures !sending ==> (staking == old(staking)
        && toasts.toasts == Pushed(old(toasts.toasts), old(toasts.mounted), now, "Please connect your Phantom wallet first.", ToastType.Warning))
      ensures toasts.mounted == old(toasts.mounted)
      ensures staked == old(staked) && tiers == old(tiers) && deploying == old(deploying)
    {
      if !walletConnected {
        toasts.Warning("Please connect your Phantom wallet first.", now);
        return false;
      }
      staking := true;
      sending := true;
    }

    /** The stake transactions (`StakeCalls`) settled: staked only on success; staking ends either way. */
    method FinishStake(tx: TxOutcome, now: int)
      modifies this, toasts
      ensures !staking
      ensures staked == (old(staked) || tx.Done?)
      ensures tx.Done? && !old(deploying) ==> !StakeEnabled(staked, staking) && DeployEnabled(staked, deploying)
      ensures toasts.mounted == old(toasts.mounted)
      ensures toasts.toasts == Pushed(old(toasts.toasts), old(toasts.mounted), now,
        if tx.Done? then "Stake successful! You can now deploy your event." else "Transaction failed. Check the console for details.",
        if tx.Done? then ToastType.Success else ToastType.Error)
      ensures tiers == old(tiers) && deploying == old(deploying) && deployed == old(deployed)
    {
      if tx.Done? {
        staked := true;
        toasts.Success("Stake successful! You can now deploy your event.", now);
      } else {
        toasts.Error("Transaction failed. Check the console for details.", now);
      }
      staking := false;
    }

    /** `handleDeploy` up to its transactions: the checks, then deploying starts. */
    method StartDeploy(walletConnected: bool, now: int) returns (sending: bool)
      modifies this, toasts
      ensures var c := DeployCheck(walletConnected, old(eventName), old(startDate), old(endDate));
        (sending <==> c.None?)
        && (c.None? ==> deploying && toasts.toasts == old(toasts.toasts))
        && (c.Some? ==> (deploying == old(deploying)
            && toasts.toasts == Pushed(old(toasts.toasts), old(toasts.mounted), now, c.value, ToastType.Warning)))
      ensures toasts.mounted == old(toasts.mounted)
      ensures tiers == old(tiers) && staked == old(staked) && deployed == old(deployed)
      ensures eventName == old(eventName) && startDate == old(startDate) && endDate == old(endDate)
    {
      var c := DeployCheck(walletConnected, eventName, startDate, endDate);
      if c.Some? {
        toasts.Warning(c.value, now);
        return false;
      }
      deploying := true;
      sending := true;
    }

    /**
     * The event and tier transactions settled. Success clears the progress
     * text, busts every stored entry of the request cache and marks the event
     * deployed; failure toasts an error and clears the progress text. The
     * store is left alone on failure.
     */
    method FinishDeploy(tx: TxOutcome, now: int)
      requires cache.Valid()
      modifies this, toasts, cache
      ensures cache.Valid()
      ensures !deploying && deployStep == ""
      ensures deployed == (old(deployed) || tx.Done?)
      ensures tx.Done? ==> cache.Snap() == ProgramCache.ClearStore(old(cache.Snap())) && toasts.toasts == old(toasts.toasts)
      ensures tx.Failed? ==> (cache.Snap() == old(cache.Snap())
        && toasts.toasts == Pushed(old(toasts.toasts), old(toasts.mounted), now, "Deploy failed. Check the console for details.", ToastType.Error))
      ensures toasts.mounted == old(toasts.mounted)
      ensures tiers == old(tiers) && staked == old(staked)
    {
      if tx.Done? {
        deployStep := "";
        cache.InvalidateAllProgramCache();
        deployed := true;
      } else {
        toasts.Error("Deploy failed. Check the console for details.", now);
        deployStep := "";
      }
      deploying := false;
    }
  }
}
