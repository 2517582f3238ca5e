/** The wizard's final Save, as a transition of the stored state: the new
    subscription is inserted, then one share per selected member is created
    in the members' display order. */
module SubscriptionCreation {
  import opened Common
  import opened Categories
  import opened Models
  import opened Totals
  import opened StoreState
  import opened ShareOps
  import opened NewSubscriptionFlow

  /** The subscription the wizard builds, before any share is attached. */
  function SavedSubscription(f: FlowState, now: int): Subscription {
    NewSubscription(ServiceName(f), EffectiveIconName(f), f.totalCost, f.currency,
                    f.billingCycle, f.category, f.nextBillingDate, now)
  }

  /** `saveSubscription`, given the subscription `sub` it builds: `sub` gets id
      `nextId`; the selected members (those of `allMembers`, the members'
      query, that are selected) each get a share with their planned amount,
      which is added to their balance. */
  function SubscriptionSaved(st: LedgerState, sub: Subscription, f: FlowState, allMembers: seq<MemberId>): LedgerState
    requires forall m :: m in allMembers ==> m in st.members
  {
    var sel := SelectedMembers(f, allMembers);
    SharesPlanned(SubscriptionAdded(st, sub), st.nextId, f, sel, |sel|)
  }

  /** Saving keeps the store coherent. */
  lemma SubscriptionSavedCoherent(st: LedgerState, f: FlowState, allMembers: seq<MemberId>, now: int)
    requires Coherent(st) && forall m :: m in allMembers ==> m in st.members
    ensures Coherent(SubscriptionSaved(st, SavedSubscription(f, now), f, allMembers))
  {
    var sub := SavedSubscription(f, now);
    var sel := SelectedMembers(f, allMembers);
    SubscriptionAddedCoherent(st, sub);
    SharesPlannedCoherent(SubscriptionAdded(st, sub), st.nextId, f, sel, |sel|);
  }

  /** The new subscription is `nextId`, which no subscription used; it is
      `sub` with the new shares `nextId + 1`, `nextId + 2`, ... one per
      selected member, as its share list. */
  lemma SubscriptionSavedRecord(st: LedgerState, sub: Subscription, f: FlowState, allMembers: seq<MemberId>)
    requires IdsFresh(st) && forall m :: m in allMembers ==> m in st.members
    requires sub.shares == []
    ensures var r := SubscriptionSaved(st, sub, f, allMembers);
      var s := st.nextId;
      var sel := SelectedMembers(f, allMembers);
      && s !in st.subscriptions && s in r.subscriptions
      && r.subscriptions[s].(shares := []) == sub
      && |r.subscriptions[s].shares| == |sel|
      && (forall i :: 0 <= i < |sel| ==> r.subscriptions[s].shares[i] == s + 1 + i)
      && r.nextId == s + 1 + |sel|
  {
    var s := st.nextId;
    var st1 := SubscriptionAdded(st, sub);
    var sel := SelectedMembers(f, allMembers);
    SharesPlannedList(st1, s, f, sel, |sel|);
    SharesPlannedKeeps(st1, s, f, sel, |sel|);
  }

  /** No existing subscription, share or payment changes. */
  lemma SubscriptionSavedKeeps(st: LedgerState, sub: Subscription, f: FlowState, allMembers: seq<MemberId>)
    requires IdsFresh(st) && forall m :: m in allMembers ==> m in st.members
    ensures var r := SubscriptionSaved(st, sub, f, allMembers);
      && (forall s' :: s' in st.subscriptions ==> s' in r.subscriptions && r.subscriptions[s'] == st.subscriptions[s'])
      && (forall k :: k in st.shares ==> k in r.shares && r.shares[k] == st.shares[k])
      && r.logs == st.logs && r.settings == st.settings
  {
    var sel := SelectedMembers(f, allMembers);
    SharesPlannedKeeps(SubscriptionAdded(st, sub), st.nextId, f, sel, |sel|);
  }

  /** The `i`-th selected member gets the `i`-th new share, fixed exactly for
      a custom split, holding its planned amount. */
  lemma SubscriptionSavedShare(st: LedgerState, sub: Subscription, f: FlowState, allMembers: seq<MemberId>, i: nat)
    requires forall m :: m in allMembers ==> m in st.members
    requires i < |SelectedMembers(f, allMembers)|
    ensures var r := SubscriptionSaved(st, sub, f, allMembers);
      var sel := SelectedMembers(f, allMembers);
      var n := st.nextId + 1 + i;
      && n in r.shares
      && r.shares[n].member == Some(sel[i]) && r.shares[n].subscription == Some(st.nextId)
      && r.shares[n].amount == PlannedAmount(f, |sel|, sel[i])
      && r.shares[n].isFixed == (f.splitMode == Custom)
  {
    var sel := SelectedMembers(f, allMembers);
    SharesPlannedCreates(SubscriptionAdded(st, sub), st.nextId, f, sel, |sel|, i);
  }

  /** The new subscription's share sum is the planned total; when somebody is
      selected it is the wizard's `sumOfShares`, which for an equal split is
      the price itself. */
  lemma SubscriptionSavedSum(st: LedgerState, sub: Subscription, f: FlowState, allMembers: seq<MemberId>)
    requires forall m :: m in allMembers ==> m in st.members
    requires sub.shares == []
    ensures var r := SubscriptionSaved(st, sub, f, allMembers);
      var sel := SelectedMembers(f, allMembers);
      && st.nextId in r.subscriptions
      && ShareTotal(r, st.nextId) == PlannedTotal(f, sel, |sel|)
      && (sel != [] ==> ShareTotal(r, st.nextId) == SumOfShares(f, allMembers))
      && (sel != [] && f.splitMode == Equal ==> ShareTotal(r, st.nextId) == f.totalCost)
  {
    var s := st.nextId;
    var st1 := SubscriptionAdded(st, sub);
    var sel := SelectedMembers(f, allMembers);
    assert ShareTotal(st1, s) == 0.0;
    SharesPlannedSum(st1, s, f, sel, |sel|);
    if sel != [] {
      PlannedTotalIsSumOfShares(f, allMembers);
      if f.splitMode == Equal {
        EqualSplitSumsToTotal(f, allMembers);
      }
    }
  }

  /** A member's balance rises by its planned amount when it is selected and
      listed by the query, and stays as it was otherwise. */
  lemma SubscriptionSavedBalances(st: LedgerState, sub: Subscription, f: FlowState, allMembers: seq<MemberId>, k: MemberId)
    requires NoDup(allMembers) && forall m :: m in allMembers ==> m in st.members
    requires k in st.members
    ensures var r := SubscriptionSaved(st, sub, f, allMembers);
      var sel := SelectedMembers(f, allMembers);
      && k in r.members
      && r.members[k].totalBalance == st.members[k].totalBalance +
           (if k in allMembers && k in f.selectedMemberIds then PlannedAmount(f, |sel|, k) else 0.0)
  {
    var sel := SelectedMembers(f, allMembers);
    SharesPlannedBalances(SubscriptionAdded(st, sub), st.nextId, f, sel, |sel|);
  }
}
