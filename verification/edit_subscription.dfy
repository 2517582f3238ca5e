/** The read-only side of the "edit subscription" screen: its draft fields, the
    running sum of shares, the Save gate and the "add member" picker. The edits
    themselves are methods of `Store.Ledger`. */
module EditSubscription {
  import opened Common
  import opened Models
  import opened Totals

  /** The screen's own state. The three payment fields are a draft written back
      only by Save; the picker and amount belong to the "Add member" section. */
  datatype EditState = EditState(
    nextBillingDate: int,
    totalCost: real,
    currency: string,
    memberToAdd: Option<MemberId>,
    newMemberAmount: real)

  /** The state before the screen appears. */
  function InitialEditState(now: int): EditState {
    EditState(now, 0.0, "USD", None, 0.0)
  }

  /** `onAppear`: the draft is loaded from the subscription; the picker is untouched. */
  function OnAppear(e: EditState, sub: Subscription): (r: EditState)
    ensures r.nextBillingDate == sub.nextBillingDate && r.totalCost == sub.totalCost && r.currency == sub.currency
    ensures r.memberToAdd == e.memberToAdd && r.newMemberAmount == e.newMemberAmount
  {
    e.(nextBillingDate := sub.nextBillingDate, totalCost := sub.totalCost, currency := sub.currency)
  }

  /** What Save writes: the draft's date, cost and currency, and nothing else. */
  function Edited(sub: Subscription, e: EditState): (r: Subscription)
    ensures r.nextBillingDate == e.nextBillingDate && r.totalCost == e.totalCost && r.currency == e.currency
    ensures r.(nextBillingDate := sub.nextBillingDate, totalCost := sub.totalCost, currency := sub.currency) == sub
    ensures r.shares == sub.shares && r.paymentLogs == sub.paymentLogs
  {
    sub.(nextBillingDate := e.nextBillingDate, totalCost := e.totalCost, currency := e.currency)
  }

  /** Saving a draft nobody changed leaves the subscription as it was. */
  lemma UneditedSaveIsIdentity(sub: Subscription, e: EditState)
    ensures Edited(sub, OnAppear(e, sub)) == sub
  {
  }

  /** `currentSharesSum`: the sum of the amounts of the subscription's shares. */
  function CurrentSharesSum(shares: map<ShareId, Share>, sub: Subscription): real {
    Total(shares, sub.shares, ShareAmount)
  }

  /** `sharesValid`, which gates Save: the shares add up to the draft's total
      cost within 0.01. */
  predicate SharesValid(shares: map<ShareId, Share>, sub: Subscription, e: EditState) {
    Abs(CurrentSharesSum(shares, sub) - e.totalCost) < 0.01
  }

  /** A subscription whose shares sum to its cost can be saved unchanged. */
  lemma ConsistentSubscriptionSaves(shares: map<ShareId, Share>, sub: Subscription, e: EditState)
    requires CurrentSharesSum(shares, sub) == sub.totalCost
    ensures SharesValid(shares, sub, OnAppear(e, sub))
  {
  }

  /** The members that hold one of the given shares. */
  function MembersWithShares(shares: map<ShareId, Share>, ids: seq<ShareId>): (r: set<MemberId>)
    ensures forall m :: m in r <==> exists i :: i in ids && i in shares && shares[i].member == Some(m)
  {
    set i | i in ids && i in shares && shares[i].member.Some? :: shares[i].member.value
  }

  /** `membersNotInSubscription`: the members, in display order, that hold
      none of the subscription's shares. */
  function MembersNotInSubscription(allMembers: seq<MemberId>, shares: map<ShareId, Share>, sub: Subscription): (r: seq<MemberId>)
    ensures forall m :: m in r <==>
      m in allMembers && forall i :: i in sub.shares && i in shares ==> shares[i].member != Some(m)
    ensures NoDup(allMembers) ==> NoDup(r)
  {
    var inIds := MembersWithShares(shares, sub.shares);
    Filter(allMembers, m => m !in inIds)
  }

  /** The Add button: enabled when a member is chosen and the amount is positive. */
  predicate AddEnabled(e: EditState) {
    e.memberToAdd.Some? && e.newMemberAmount > 0.0
  }

  /** After a member is added the picker is cleared, so Add is disabled again. */
  function AfterAdd(e: EditState): (r: EditState)
    ensures !AddEnabled(r)
    ensures r.(memberToAdd := e.memberToAdd, newMemberAmount := e.newMemberAmount) == e
  {
    e.(memberToAdd := None, newMemberAmount := 0.0)
  }
}
