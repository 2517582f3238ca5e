/** The members directory's swipe-to-delete, as a transition of the stored
    state. It runs in three stages: the member's shares are deleted one after
    another; each subscription that held one of them gets its cost reset to
    the sum of the shares it still has; then the member is deleted, and its
    payments lose their payer (SwiftData's nullify rule). */
module MemberDeletion {
  import opened Common
  import opened Models
  import opened Totals
  import opened Links
  import opened StoreState
  import opened ShareOps
  import opened SubscriptionOps

  /** Every member but `m` has the balance it should have. */
  ghost predicate BalancedExcept(st: LedgerState, m: MemberId) {
    forall k :: k in st.members && k != m ==> st.members[k].totalBalance == Owed(st.members[k], st.shares, st.logs)
  }

  /** No share names `m` as its member. */
  ghost predicate NoShareOf(st: LedgerState, m: MemberId) {
    forall y :: y in st.shares ==> st.shares[y].member != Some(m)
  }

  /** The subscriptions of the member's shares, collected before any deletion. */
  function Affected(st: LedgerState, m: MemberId): set<SubscriptionId>
    requires m in st.members
  {
    set y | y in st.members[m].shares && y in st.shares && st.shares[y].subscription.Some? :: st.shares[y].subscription.value
  }

  // ----- Stage 1: deleting the member's shares -----

  /** The state after the loop has deleted the shares `ids`, one after another. */
  function SharesDeleted(st: LedgerState, ids: seq<ShareId>): LedgerState {
    if ids == [] then st else ShareDeleted(SharesDeleted(st, ids[..|ids| - 1]), ids[|ids| - 1])
  }

  lemma {:induction false} SharesDeletedMemberLinks(st: LedgerState, ids: seq<ShareId>)
    requires Inverse(st.members, st.shares, MemberShares, ShareMember) && Inverse(st.members, st.logs, MemberPayments, LogPayer)
    ensures var r := SharesDeleted(st, ids);
      Inverse(r.members, r.shares, MemberShares, ShareMember) && Inverse(r.members, r.logs, MemberPayments, LogPayer)
  {
    if ids != [] {
      SharesDeletedMemberLinks(st, ids[..|ids| - 1]);
      ShareDeletedMemberLinks(SharesDeleted(st, ids[..|ids| - 1]), ids[|ids| - 1]);
    }
  }

  lemma {:induction false} SharesDeletedSubscriptionLinks(st: LedgerState, ids: seq<ShareId>)
    requires Inverse(st.subscriptions, st.shares, SubscriptionShares, ShareSubscription)
    requires Inverse(st.subscriptions, st.logs, SubscriptionLogs, LogSubscription)
    ensures var r := SharesDeleted(st, ids);
      && Inverse(r.subscriptions, r.shares, SubscriptionShares, ShareSubscription)
      && Inverse(r.subscriptions, r.logs, SubscriptionLogs, LogSubscription)
  {
    if ids != [] {
      SharesDeletedSubscriptionLinks(st, ids[..|ids| - 1]);
      ShareDeletedSubscriptionLinks(SharesDeleted(st, ids[..|ids| - 1]), ids[|ids| - 1]);
    }
  }

  lemma {:induction false} SharesDeletedFresh(st: LedgerState, ids: seq<ShareId>)
    requires SharesAttached(st) && IdsFresh(st)
    ensures var r := SharesDeleted(st, ids); SharesAttached(r) && IdsFresh(r)
  {
    if ids != [] {
      SharesDeletedFresh(st, ids[..|ids| - 1]);
      ShareDeletedFresh(SharesDeleted(st, ids[..|ids| - 1]), ids[|ids| - 1]);
    }
  }

  /** Deleting shares keeps the relationships. */
  lemma SharesDeletedLinked(st: LedgerState, ids: seq<ShareId>)
    requires Linked(st)
    ensures Linked(SharesDeleted(st, ids))
  {
    SharesDeletedMemberLinks(st, ids);
    SharesDeletedSubscriptionLinks(st, ids);
    SharesDeletedFresh(st, ids);
  }

  /** Exactly the listed shares are gone; the others are as they were. */
  lemma {:induction false} SharesDeletedShares(st: LedgerState, ids: seq<ShareId>)
    ensures var r := SharesDeleted(st, ids);
      && (forall y :: y in r.shares <==> y in st.shares && y !in ids)
      && (forall y :: y in r.shares ==> r.shares[y] == st.shares[y])
      && r.logs == st.logs && r.settings == st.settings && r.nextId == st.nextId
  {
    if ids != [] {
      var n := |ids| - 1;
      SharesDeletedShares(st, ids[..n]);
      assert ids == ids[..n] + [ids[n]];
    }
  }

  /** Every member and subscription keeps its fields, except that the deleted
      shares drop out of its share list. */
  lemma {:induction false} SharesDeletedLists(st: LedgerState, ids: seq<ShareId>)
    ensures var r := SharesDeleted(st, ids);
      && r.members.Keys == st.members.Keys
      && (forall k :: k in st.members ==>
            r.members[k] == st.members[k].(shares := WithoutAll(st.members[k].shares, ids)))
      && r.subscriptions.Keys == st.subscriptions.Keys
      && (forall s :: s in st.subscriptions ==>
            r.subscriptions[s] == st.subscriptions[s].(shares := WithoutAll(st.subscriptions[s].shares, ids)))
  {
    if ids != [] {
      SharesDeletedLists(st, ids[..|ids| - 1]);
    }
  }

  /** A member none of whose shares is deleted keeps its record and what it owes. */
  lemma SharesDeletedOtherMember(st: LedgerState, ids: seq<ShareId>, k: MemberId)
    requires k in st.members && forall y :: y in ids ==> y !in st.members[k].shares
    ensures var r := SharesDeleted(st, ids);
      && k in r.members && r.members[k] == st.members[k]
      && Owed(r.members[k], r.shares, r.logs) == Owed(st.members[k], st.shares, st.logs)
  {
    SharesDeletedLists(st, ids);
    SharesDeletedShares(st, ids);
    UntouchedMember(st, SharesDeleted(st, ids), ids, k);
  }

  /** The same, for any state that the deletion of `ids` relates to `st`. */
  lemma UntouchedMember(st: LedgerState, r: LedgerState, ids: seq<ShareId>, k: MemberId)
    requires k in st.members && forall y :: y in ids ==> y !in st.members[k].shares
    requires k in r.members && r.members[k] == st.members[k].(shares := WithoutAll(st.members[k].shares, ids))
    requires forall y :: y in r.shares <==> y in st.shares && y !in ids
    requires forall y :: y in r.shares ==> r.shares[y] == st.shares[y]
    requires r.logs == st.logs
    ensures r.members[k] == st.members[k]
    ensures Owed(r.members[k], r.shares, r.logs) == Owed(st.members[k], st.shares, st.logs)
  {
    var own := st.members[k].shares;
    WithoutAllAbsent(own, ids);
    forall y | y in own ensures AmountAt(r.shares, y, ShareAmount) == AmountAt(st.shares, y, ShareAmount) {
      assert y !in ids;
    }
    TotalAgree(r.shares, st.shares, own, ShareAmount);
  }

  /** A subscription none of whose shares is deleted keeps its record. */
  lemma SharesDeletedOtherSubscription(st: LedgerState, ids: seq<ShareId>, s: SubscriptionId)
    requires s in st.subscriptions && forall y :: y in ids ==> y !in st.subscriptions[s].shares
    ensures var r := SharesDeleted(st, ids); s in r.subscriptions && r.subscriptions[s] == st.subscriptions[s]
  {
    SharesDeletedLists(st, ids);
    WithoutAllAbsent(st.subscriptions[s].shares, ids);
  }

  // ----- What the relationships say about the member's shares -----

  /** No other member lists a share of `m`. */
  lemma OwnSharesNotShared(st: LedgerState, m: MemberId, k: MemberId)
    requires Inverse(st.members, st.shares, MemberShares, ShareMember)
    requires m in st.members && k in st.members && k != m
    ensures forall y :: y in st.members[m].shares ==> y !in st.members[k].shares
  {
    MemberSharesOwned(st.members, st.shares, m);
    MemberSharesOwned(st.members, st.shares, k);
  }

  /** A subscription outside `Affected` lists no share of `m`. */
  lemma UnaffectedHoldsNone(st: LedgerState, m: MemberId, s: SubscriptionId)
    requires Inverse(st.subscriptions, st.shares, SubscriptionShares, ShareSubscription)
    requires m in st.members && s in st.subscriptions && s !in Affected(st, m)
    ensures forall y :: y in st.members[m].shares ==> y !in st.subscriptions[s].shares
  {
    SubscriptionSharesOwned(st.subscriptions, st.shares, s);
  }

  /** The affected subscriptions are live. */
  lemma AffectedLive(st: LedgerState, m: MemberId)
    requires Inverse(st.subscriptions, st.shares, SubscriptionShares, ShareSubscription) && m in st.members
    ensures Affected(st, m) <= st.subscriptions.Keys
  {
    forall s | s in Affected(st, m) ensures s in st.subscriptions {
      var y :| y in st.members[m].shares && y in st.shares && st.shares[y].subscription == Some(s);
      assert ShareSubscription(st.shares[y]).Some?;
    }
  }

  /** Once the member's own shares are deleted, no share names it. */
  lemma OwnSharesGone(st: LedgerState, m: MemberId)
    requires Inverse(st.members, st.shares, MemberShares, ShareMember) && m in st.members
    ensures NoShareOf(SharesDeleted(st, st.members[m].shares), m)
  {
    var r := SharesDeleted(st, st.members[m].shares);
    SharesDeletedShares(st, st.members[m].shares);
    forall y | y in r.shares ensures r.shares[y].member != Some(m) {
      if st.shares[y].member == Some(m) {
        ShareListedByMember(st.members, st.shares, y);
      }
    }
  }

  /** After stage 1 the store is linked, no share names `m`, and everyone
      else's balance is still what it should be. */
  lemma StageOne(st: LedgerState, m: MemberId)
    requires Coherent(st) && m in st.members
    ensures var r := SharesDeleted(st, st.members[m].shares);
      Linked(r) && BalancedExcept(r, m) && NoShareOf(r, m) && m in r.members
  {
    var own := st.members[m].shares;
    var r := SharesDeleted(st, own);
    SharesDeletedLinked(st, own);
    OwnSharesGone(st, m);
    SharesDeletedLists(st, own);
    forall k | k in r.members && k != m ensures r.members[k].totalBalance == Owed(r.members[k], r.shares, r.logs) {
      OwnSharesNotShared(st, m, k);
      SharesDeletedOtherMember(st, own, k);
    }
  }

  // ----- Stage 3: deleting the member -----

  /** `modelContext.delete(member)`: the member is gone, and the shares and
      payments that named it no longer name anyone. */
  function MemberRemoved(st: LedgerState, m: MemberId): LedgerState {
    LedgerState(
      st.members - {m},
      map y | y in st.shares :: if st.shares[y].member == Some(m) then st.shares[y].(member := None) else st.shares[y],
      st.subscriptions,
      map l | l in st.logs :: if st.logs[l].paidBy == Some(m) then st.logs[l].(paidBy := None) else st.logs[l],
      st.settings, st.nextId)
  }

  lemma MemberRemovedMemberLinks(st: LedgerState, m: MemberId)
    requires Inverse(st.members, st.shares, MemberShares, ShareMember) && Inverse(st.members, st.logs, MemberPayments, LogPayer)
    ensures var r := MemberRemoved(st, m);
      Inverse(r.members, r.shares, MemberShares, ShareMember) && Inverse(r.members, r.logs, MemberPayments, LogPayer)
  {
    var r := MemberRemoved(st, m);
    DropOwner(st.members, st.shares, r.members, r.shares, MemberShares, ShareMember, m);
    DropOwner(st.members, st.logs, r.members, r.logs, MemberPayments, LogPayer, m);
  }

  lemma MemberRemovedSubscriptionLinks(st: LedgerState, m: MemberId)
    requires Inverse(st.subscriptions, st.shares, SubscriptionShares, ShareSubscription)
    requires Inverse(st.subscriptions, st.logs, SubscriptionLogs, LogSubscription)
    ensures var r := MemberRemoved(st, m);
      && Inverse(r.subscriptions, r.shares, SubscriptionShares, ShareSubscription)
      && Inverse(r.subscriptions, r.logs, SubscriptionLogs, LogSubscription)
  {
    var r := MemberRemoved(st, m);
    Transfer(st.subscriptions, st.shares, r.subscriptions, r.shares, SubscriptionShares, ShareSubscription);
    Transfer(st.subscriptions, st.logs, r.subscriptions, r.logs, SubscriptionLogs, LogSubscription);
  }

  lemma MemberRemovedFresh(st: LedgerState, m: MemberId)
    requires SharesAttached(st) && IdsFresh(st) && NoShareOf(st, m)
    ensures var r := MemberRemoved(st, m); SharesAttached(r) && IdsFresh(r)
  {
  }

  lemma MemberRemovedBalanced(st: LedgerState, m: MemberId)
    requires BalancedExcept(st, m)
    ensures Balanced(MemberRemoved(st, m))
  {
    var r := MemberRemoved(st, m);
    forall k | k in r.members ensures r.members[k].totalBalance == Owed(r.members[k], r.shares, r.logs) {
      TotalAgree(r.shares, st.shares, st.members[k].shares, ShareAmount);
      TotalAgree(r.logs, st.logs, st.members[k].paymentsMade, LogAmount);
    }
  }

  /** Deleting a member no share names, when everyone else's balance is right,
      leaves a coherent store. */
  lemma MemberRemovedCoherent(st: LedgerState, m: MemberId)
    requires Linked(st) && BalancedExcept(st, m) && NoShareOf(st, m)
    ensures Coherent(MemberRemoved(st, m))
  {
    MemberRemovedMemberLinks(st, m);
    MemberRemovedSubscriptionLinks(st, m);
    MemberRemovedFresh(st, m);
    MemberRemovedBalanced(st, m);
  }

  // ----- The whole action -----

  /** `deleteMember`: the three stages in order. */
  function MemberDeleted(st: LedgerState, m: MemberId): LedgerState
    requires m in st.members
  {
    MemberRemoved(CostsReset(SharesDeleted(st, st.members[m].shares), Affected(st, m)), m)
  }

  /** Deleting a member keeps the store coherent. */
  lemma MemberDeletedCoherent(st: LedgerState, m: MemberId)
    requires Coherent(st) && m in st.members
    ensures Coherent(MemberDeleted(st, m))
  {
    var s1 := SharesDeleted(st, st.members[m].shares);
    var s2 := CostsReset(s1, Affected(st, m));
    StageOne(st, m);
    CostsResetLinked(s1, Affected(st, m));
    CostsResetEffect(s1, Affected(st, m));
    assert BalancedExcept(s2, m) && NoShareOf(s2, m);
    MemberRemovedCoherent(s2, m);
  }

  /** The member is gone and every other member is exactly as it was: no
      balance and no list of another member changes. */
  lemma MemberDeletedMembers(st: LedgerState, m: MemberId)
    requires Inverse(st.members, st.shares, MemberShares, ShareMember) && m in st.members
    ensures var r := MemberDeleted(st, m);
      && r.members.Keys == st.members.Keys - {m}
      && forall k :: k in st.members && k != m ==> r.members[k] == st.members[k]
  {
    var own := st.members[m].shares;
    var s1 := SharesDeleted(st, own);
    SharesDeletedLists(st, own);
    CostsResetEffect(s1, Affected(st, m));
    forall k | k in st.members && k != m ensures s1.members[k] == st.members[k] {
      OwnSharesNotShared(st, m, k);
      SharesDeletedOtherMember(st, own, k);
    }
  }

  /** Every share of the member is deleted, no remaining share names it, and
      the remaining shares are exactly the others, unchanged. */
  lemma MemberDeletedShares(st: LedgerState, m: MemberId)
    requires Inverse(st.members, st.shares, MemberShares, ShareMember) && m in st.members
    ensures var r := MemberDeleted(st, m);
      && (forall y :: y in r.shares <==> y in st.shares && y !in st.members[m].shares)
      && (forall y :: y in r.shares ==> r.shares[y] == st.shares[y] && r.shares[y].member != Some(m))
  {
    var own := st.members[m].shares;
    var s1 := SharesDeleted(st, own);
    SharesDeletedShares(st, own);
    OwnSharesGone(st, m);
    CostsResetEffect(s1, Affected(st, m));
  }

  /** Deleting the member leaves the subscriptions and every share sum as they were. */
  lemma MemberRemovedSums(st: LedgerState, m: MemberId, s: SubscriptionId)
    requires s in st.subscriptions
    ensures var r := MemberRemoved(st, m);
      r.subscriptions == st.subscriptions && ShareTotal(r, s) == ShareTotal(st, s)
  {
    var r := MemberRemoved(st, m);
    TotalAgree(r.shares, st.shares, st.subscriptions[s].shares, ShareAmount);
  }

  /** Each affected subscription's cost becomes the sum of its remaining
      shares (zero when none remain), it lists none of the member's shares,
      and its other fields are unchanged. */
  lemma MemberDeletedAffected(st: LedgerState, m: MemberId, s: SubscriptionId)
    requires Inverse(st.subscriptions, st.shares, SubscriptionShares, ShareSubscription)
    requires m in st.members && s in Affected(st, m)
    ensures var r := MemberDeleted(st, m);
      && s in st.subscriptions && s in r.subscriptions
      && r.subscriptions[s].totalCost == ShareTotal(r, s)
      && (forall y :: y in r.subscriptions[s].shares ==> y !in st.members[m].shares)
      && r.subscriptions[s].(totalCost := st.subscriptions[s].totalCost, shares := st.subscriptions[s].shares)
         == st.subscriptions[s]
  {
    var own := st.members[m].shares;
    var s1 := SharesDeleted(st, own);
    var s2 := CostsReset(s1, Affected(st, m));
    AffectedLive(st, m);
    SharesDeletedLists(st, own);
    var sub := s1.subscriptions[s];
    assert sub == st.subscriptions[s].(shares := WithoutAll(st.subscriptions[s].shares, own));
    CostsResetEffect(s1, Affected(st, m));
    MemberRemovedSums(s2, m, s);
  }

  /** Every subscription outside `Affected` is exactly as it was. */
  lemma MemberDeletedUnaffected(st: LedgerState, m: MemberId, s: SubscriptionId)
    requires Inverse(st.subscriptions, st.shares, SubscriptionShares, ShareSubscription)
    requires m in st.members && s in st.subscriptions && s !in Affected(st, m)
    ensures var r := MemberDeleted(st, m); s in r.subscriptions && r.subscriptions[s] == st.subscriptions[s]
  {
    var own := st.members[m].shares;
    var s1 := SharesDeleted(st, own);
    UnaffectedHoldsNone(st, m, s);
    SharesDeletedOtherSubscription(st, own, s);
    CostsResetEffect(s1, Affected(st, m));
  }

  /** Payments survive the member: those it made lose their payer, the rest
      are unchanged. */
  lemma MemberDeletedPayments(st: LedgerState, m: MemberId)
    requires m in st.members
    ensures var r := MemberDeleted(st, m);
      && r.logs.Keys == st.logs.Keys
      && (forall l :: l in st.logs && st.logs[l].paidBy == Some(m) ==>
            r.logs[l].paidBy.None? && r.logs[l].(paidBy := Some(m)) == st.logs[l])
      && (forall l :: l in st.logs && st.logs[l].paidBy != Some(m) ==> r.logs[l] == st.logs[l])
  {
    var s1 := SharesDeleted(st, st.members[m].shares);
    SharesDeletedShares(st, st.members[m].shares);
    CostsResetEffect(s1, Affected(st, m));
  }
}
