/** The three-step "new subscription" wizard: choose a service, enter the
    price, split it among members. The wizard's state and the rules that gate
    its buttons; saving is `Store.Ledger.SaveSubscription`. */
module NewSubscriptionFlow {
  import opened Common
  import opened Categories
  import opened Models
  import opened Presets

  datatype SplitMode = Equal | Custom

  /** The largest price the price field accepts. */
  const MaxPrice: real := 999999.99

  /** The wizard's state. `step` is 0 (service), 1 (price) or 2 (split). */
  datatype FlowState = FlowState(
    step: nat,
    selectedPresetId: string,
    customServiceName: string,
    iconName: string,
    totalCost: real,
    currency: string,
    billingCycle: BillingCycle,
    category: SubscriptionCategory,
    splitMode: SplitMode,
    selectedMemberIds: set<MemberId>,
    customAmounts: map<MemberId, real>,
    nextBillingDate: int)

  /** The state the wizard opens with: the first preset, a zero price, an equal
      split and nobody selected. */
  function InitialFlow(nextBillingDate: int): FlowState {
    FlowState(0, AllPresets()[0].id, "", "creditcard.fill", 0.0, "USD", Monthly, Media,
              Equal, {}, map[], nextBillingDate)
  }

  /** On first showing the service step, the currency becomes the resolved
      default currency of the first settings record, or "USD" without one. */
  function CurrencyOnAppear(f: FlowState, settings: seq<AppSettings>): (r: string)
    ensures f.step != 0 ==> r == f.currency
    ensures f.step == 0 && settings == [] ==> r == "USD"
    ensures f.step == 0 && settings != [] ==> r == ResolvedDefaultCurrency(settings[0])
    ensures f.step == 0 ==> r != []
  {
    if f.step == 0 then (if settings != [] then ResolvedDefaultCurrency(settings[0]) else "USD")
    else f.currency
  }

  /** Picking a preset other than "custom" adopts that preset's category. */
  function SelectPreset(f: FlowState, id: string): (r: FlowState)
    ensures r.selectedPresetId == id
    ensures id != "custom" && PresetFor(id).Some? ==> r.category == PresetFor(id).value.category
    ensures id == "custom" || PresetFor(id).None? ==> r.category == f.category
    ensures r.(selectedPresetId := f.selectedPresetId, category := f.category) == f
  {
    var f' := f.(selectedPresetId := id);
    match PresetFor(id)
    case Some(p) => if p.id != "custom" then f'.(category := p.category) else f'
    case None => f'
  }

  /** The name the subscription is saved under: the typed name (or "Custom
      service" when blank) for the custom preset, else the preset's name.
      Never empty. */
  function ServiceName(f: FlowState): (r: string)
    ensures r != []
    ensures f.selectedPresetId == "custom" && f.customServiceName != [] ==> r == f.customServiceName
    ensures f.selectedPresetId == "custom" && f.customServiceName == [] ==> r == "Custom service"
    ensures f.selectedPresetId != "custom" && PresetFor(f.selectedPresetId).Some? ==>
      r == PresetFor(f.selectedPresetId).value.serviceName
    ensures f.selectedPresetId != "custom" && PresetFor(f.selectedPresetId).None? ==> r == "Custom service"
  {
    if f.selectedPresetId == "custom" then
      (if f.customServiceName == [] then "Custom service" else f.customServiceName)
    else
      match PresetFor(f.selectedPresetId)
      case Some(p) => PresetNamesNonEmpty(p); p.serviceName
      case None => "Custom service"
  }

  /** The icon the subscription is saved with: the picked icon for the custom
      preset, else the preset's icon, else the generic card icon. */
  function EffectiveIconName(f: FlowState): (r: string)
    ensures f.selectedPresetId == "custom" ==> r == f.iconName
    ensures f.selectedPresetId != "custom" && PresetFor(f.selectedPresetId).Some? ==>
      r == PresetFor(f.selectedPresetId).value.iconName
    ensures f.selectedPresetId != "custom" && PresetFor(f.selectedPresetId).None? ==> r == "creditcard.fill"
  {
    if f.selectedPresetId == "custom" then f.iconName
    else
      match PresetFor(f.selectedPresetId)
      case Some(p) => p.iconName
      case None => "creditcard.fill"
  }

  /** Picking a listed preset other than "custom" saves the subscription under
      that preset's name, icon and category; the rest of the wizard is kept. */
  lemma PickedPresetAdopted(f: FlowState, p: SubscriptionPreset)
    requires p in AllPresets() && p.id != "custom"
    ensures var r := SelectPreset(f, p.id);
      && ServiceName(r) == p.serviceName && EffectiveIconName(r) == p.iconName
      && r.category == p.category && r.customServiceName == f.customServiceName
      && r.iconName == f.iconName
  {
    PresetLookupExact(p);
  }

  /** `allMembers.filter { selectedMemberIds.contains($0.id) }`, in the
      members' display order. */
  function SelectedMembers(f: FlowState, allMembers: seq<MemberId>): (r: seq<MemberId>)
    ensures forall m :: m in r <==> m in allMembers && m in f.selectedMemberIds
    ensures NoDup(allMembers) ==> NoDup(r)
  {
    Filter(allMembers, m => m in f.selectedMemberIds)
  }

  /** Sum of the custom amounts of the given members, a missing amount counting as 0. */
  function CustomSum(ids: seq<MemberId>, amounts: map<MemberId, real>): real {
    if ids == [] then 0.0 else CustomSum(ids[..|ids| - 1], amounts) + Lookup(amounts, ids[|ids| - 1], 0.0)
  }

  /** `sumOfShares`: for an equal split the per-person amount times the head
      count (at least one); for custom amounts their sum over the selection. */
  function SumOfShares(f: FlowState, allMembers: seq<MemberId>): real {
    match f.splitMode
    case Equal =>
      var n := |SelectedMembers(f, allMembers)|;
      var count := if n > 1 then n else 1;
      (f.totalCost / count as real) * count as real
    case Custom => CustomSum(SelectedMembers(f, allMembers), f.customAmounts)
  }

  /** Over the reals an equal split always adds up to the price. */
  lemma EqualSplitSumsToTotal(f: FlowState, allMembers: seq<MemberId>)
    requires f.splitMode == Equal
    ensures SumOfShares(f, allMembers) == f.totalCost
  {
  }

  /** `isPriceValid` (finiteness holds of every real). */
  predicate IsPriceValid(totalCost: real) {
    0.0 <= totalCost <= MaxPrice
  }

  /** The price field's correction: negative input becomes 0, input above the
      maximum becomes the maximum, and a valid price is kept. */
  function ClampPrice(v: real): (r: real)
    ensures IsPriceValid(r)
    ensures IsPriceValid(v) ==> r == v
    ensures v < 0.0 ==> r == 0.0
    ensures v > MaxPrice ==> r == MaxPrice
  {
    if v < 0.0 then 0.0 else if v > MaxPrice then MaxPrice else v
  }

  /** `sharesValid`: someone is selected, the price is positive, and the shares
      add up to the price within 0.01. */
  predicate SharesValid(f: FlowState, allMembers: seq<MemberId>) {
    && SelectedMembers(f, allMembers) != []
    && f.totalCost > 0.0
    && Abs(SumOfShares(f, allMembers) - f.totalCost) < 0.01
  }

  /** With an equal split the shares are valid exactly when someone is selected
      and the price is positive. */
  lemma EqualSplitValidity(f: FlowState, allMembers: seq<MemberId>)
    requires f.splitMode == Equal
    ensures SharesValid(f, allMembers) <==> SelectedMembers(f, allMembers) != [] && f.totalCost > 0.0
  {
    EqualSplitSumsToTotal(f, allMembers);
  }

  /** Whether the toolbar's confirm button (Next on steps 0 and 1, Save on
      step 2) is enabled. */
  function ConfirmEnabled(f: FlowState, allMembers: seq<MemberId>): (r: bool)
    ensures f.step == 0 ==> r
    ensures f.step == 1 ==> (r <==> IsPriceValid(f.totalCost))
    ensures f.step >= 2 ==> (r <==> SharesValid(f, allMembers))
  {
    if f.step < 2 then
      (if f.step == 0 then true else if f.step == 1 then IsPriceValid(f.totalCost) else SharesValid(f, allMembers))
    else SharesValid(f, allMembers)
  }

  /** The Next button on steps 0 and 1: when `ConfirmEnabled` allows it, the
      wizard moves one step on and nothing else changes; on the last step
      there is no Next. */
  function Next(f: FlowState, allMembers: seq<MemberId>): (r: Option<FlowState>)
    ensures r.Some? <==> f.step < 2 && ConfirmEnabled(f, allMembers)
    ensures r.Some? ==> r.value.step == f.step + 1 && r.value.(step := f.step) == f
  {
    if f.step < 2 && ConfirmEnabled(f, allMembers) then Some(f.(step := f.step + 1)) else None
  }

  /** The member toggle on the split step. Turning a member off also forgets
      that member's custom amount; no other member's selection or amount changes. */
  function ToggleMember(f: FlowState, m: MemberId, on: bool): (r: FlowState)
    ensures on ==> m in r.selectedMemberIds
    ensures !on ==> m !in r.selectedMemberIds && m !in r.customAmounts
    ensures forall k :: k != m ==> (k in r.selectedMemberIds <==> k in f.selectedMemberIds)
    ensures forall k :: k != m && k in f.customAmounts ==> k in r.customAmounts && r.customAmounts[k] == f.customAmounts[k]
    ensures forall k :: k in r.customAmounts ==> k in f.customAmounts
    ensures r.(selectedMemberIds := f.selectedMemberIds, customAmounts := f.customAmounts) == f
  {
    if on then f.(selectedMemberIds := f.selectedMemberIds + {m})
    else f.(selectedMemberIds := f.selectedMemberIds - {m}, customAmounts := f.customAmounts - {m})
  }

  /** The amount saved for member `m` when `count` members are selected: the
      price divided by the count for an equal split, else `m`'s custom amount
      (0 when none was entered). */
  function PlannedAmount(f: FlowState, count: nat, m: MemberId): real {
    match f.splitMode
    case Equal => if count > 0 then f.totalCost / count as real else 0.0
    case Custom => Lookup(f.customAmounts, m, 0.0)
  }

  /** The sum of the planned amounts of the given members. */
  function PlannedTotal(f: FlowState, ids: seq<MemberId>, count: nat): real {
    if ids == [] then 0.0 else PlannedTotal(f, ids[..|ids| - 1], count) + PlannedAmount(f, count, ids[|ids| - 1])
  }

  lemma {:induction false} PlannedTotalEqual(f: FlowState, ids: seq<MemberId>, count: nat)
    requires f.splitMode == Equal && count > 0
    ensures PlannedTotal(f, ids, count) == |ids| as real * (f.totalCost / count as real)
  {
    if ids != [] {
      PlannedTotalEqual(f, ids[..|ids| - 1], count);
    }
  }

  lemma {:induction false} PlannedTotalCustom(f: FlowState, ids: seq<MemberId>, count: nat)
    requires f.splitMode == Custom
    ensures PlannedTotal(f, ids, count) == CustomSum(ids, f.customAmounts)
  {
    if ids != [] {
      PlannedTotalCustom(f, ids[..|ids| - 1], count);
    }
  }

  /** `n` equal parts of `t / n` make up `t`. */
  lemma EqualPartsMakeWhole(t: real, n: nat)
    requires n > 0
    ensures n as real * (t / n as real) == t
  {
  }

  /** When at least one member is selected, the amounts saved add up to
      `sumOfShares`. */
  lemma {:induction false} PlannedTotalIsSumOfShares(f: FlowState, allMembers: seq<MemberId>)
    requires SelectedMembers(f, allMembers) != []
    ensures PlannedTotal(f, SelectedMembers(f, allMembers), |SelectedMembers(f, allMembers)|) == SumOfShares(f, allMembers)
  {
    var sel := SelectedMembers(f, allMembers);
    if f.splitMode == Equal {
      PlannedTotalWhole(f, sel);
      EqualSplitSumsToTotal(f, allMembers);
    } else {
      PlannedTotalCustom(f, sel, |sel|);
    }
  }

  /** An equal split over all of `ids` plans exactly the price. */
  lemma PlannedTotalWhole(f: FlowState, ids: seq<MemberId>)
    requires f.splitMode == Equal && ids != []
    ensures PlannedTotal(f, ids, |ids|) == f.totalCost
  {
    PlannedTotalEqual(f, ids, |ids|);
    EqualPartsMakeWhole(f.totalCost, |ids|);
  }

  /** So a save the Save button allows leaves shares whose amounts match the
      price within 0.01. */
  lemma SavedSharesMatchPrice(f: FlowState, allMembers: seq<MemberId>)
    requires SharesValid(f, allMembers)
    ensures var sel := SelectedMembers(f, allMembers);
      Abs(PlannedTotal(f, sel, |sel|) - f.totalCost) < 0.01
  {
    PlannedTotalIsSumOfShares(f, allMembers);
  }

  /** A freshly opened wizard can move on from its first step but cannot save. */
  lemma InitialFlowGating(next: int, allMembers: seq<MemberId>)
    ensures ConfirmEnabled(InitialFlow(next), allMembers)
    ensures !SharesValid(InitialFlow(next), allMembers)
    ensures ServiceName(InitialFlow(next)) == "Netflix"
  {
    PresetTableShape();
    PresetLookupExact(AllPresets()[0]);
  }
}
