/** The actions that create, change and delete shares, as transitions of the
    stored state: the wizard's save, and the edit screen's amount field,
    remove button, "Add member" button and "Recalculate equal shares" button.
    Each transition comes with a lemma that it keeps the store coherent and
    lemmas stating what it does to balances and share sums. */
module ShareOps {
  import opened Common
  import opened Categories
  import opened Models
  import opened Totals
  import opened Links
  import opened StoreState
  import NewSubscriptionFlow

  // ----- Creating a share -----

  /** A new share `nextId` of `amount` for member `m` in subscription `s`,
      appended to both share lists, with the amount added to the member's
      balance. */
  function ShareAdded(st: LedgerState, m: MemberId, s: SubscriptionId, amount: real, isFixed: bool): LedgerState
    requires m in st.members && s in st.subscriptions
  {
    var n := st.nextId;
    LedgerState(
      st.members[m := st.members[m].(totalBalance := st.members[m].totalBalance + amount,
                                     shares := st.members[m].shares + [n])],
      st.shares[n := NewShare(amount, isFixed, Some(m), Some(s))],
      st.subscriptions[s := st.subscriptions[s].(shares := st.subscriptions[s].shares + [n])],
      st.logs, st.settings, n + 1)
  }

  lemma ShareAddedMemberLinks(st: LedgerState, m: MemberId, s: SubscriptionId, amount: real, isFixed: bool)
    requires Inverse(st.members, st.shares, MemberShares, ShareMember) && Inverse(st.members, st.logs, MemberPayments, LogPayer)
    requires st.nextId !in st.shares && m in st.members && s in st.subscriptions
    ensures var r := ShareAdded(st, m, s, amount, isFixed);
      Inverse(r.members, r.shares, MemberShares, ShareMember) && Inverse(r.members, r.logs, MemberPayments, LogPayer)
  {
    var r := ShareAdded(st, m, s, amount, isFixed);
    AddChild(st.members, st.shares, r.members, r.shares, MemberShares, ShareMember, st.nextId, m);
    Transfer(st.members, st.logs, r.members, r.logs, MemberPayments, LogPayer);
  }

  lemma ShareAddedSubscriptionLinks(st: LedgerState, m: MemberId, s: SubscriptionId, amount: real, isFixed: bool)
    requires Inverse(st.subscriptions, st.shares, SubscriptionShares, ShareSubscription)
    requires Inverse(st.subscriptions, st.logs, SubscriptionLogs, LogSubscription)
    requires st.nextId !in st.shares && m in st.members && s in st.subscriptions
    ensures var r := ShareAdded(st, m, s, amount, isFixed);
      && Inverse(r.subscriptions, r.shares, SubscriptionShares, ShareSubscription)
      && Inverse(r.subscriptions, r.logs, SubscriptionLogs, LogSubscription)
  {
    var r := ShareAdded(st, m, s, amount, isFixed);
    AddChild(st.subscriptions, st.shares, r.subscriptions, r.shares, SubscriptionShares, ShareSubscription, st.nextId, s);
    Transfer(st.subscriptions, st.logs, r.subscriptions, r.logs, SubscriptionLogs, LogSubscription);
  }

  lemma ShareAddedFresh(st: LedgerState, m: MemberId, s: SubscriptionId, amount: real, isFixed: bool)
    requires SharesAttached(st) && IdsFresh(st) && m in st.members && s in st.subscriptions
    ensures var r := ShareAdded(st, m, s, amount, isFixed); SharesAttached(r) && IdsFresh(r)
  {
  }

  lemma ShareAddedLinked(st: LedgerState, m: MemberId, s: SubscriptionId, amount: real, isFixed: bool)
    requires Linked(st) && m in st.members && s in st.subscriptions
    ensures Linked(ShareAdded(st, m, s, amount, isFixed))
  {
    ShareAddedMemberLinks(st, m, s, amount, isFixed);
    ShareAddedSubscriptionLinks(st, m, s, amount, isFixed);
    ShareAddedFresh(st, m, s, amount, isFixed);
  }

  lemma ShareAddedBalanced(st: LedgerState, m: MemberId, s: SubscriptionId, amount: real, isFixed: bool)
    requires Inverse(st.members, st.shares, MemberShares, ShareMember) && Balanced(st)
    requires st.nextId !in st.shares && m in st.members && s in st.subscriptions
    ensures Balanced(ShareAdded(st, m, s, amount, isFixed))
  {
    var r := ShareAdded(st, m, s, amount, isFixed);
    forall k | k in r.members ensures r.members[k].totalBalance == Owed(r.members[k], r.shares, r.logs) {
      var ids := st.members[k].shares;
      MemberSharesOwned(st.members, st.shares, k);
      TotalAgree(r.shares, st.shares, ids, ShareAmount);
      if k == m {
        TotalAppend(r.shares, ids, st.nextId, ShareAmount);
      }
    }
  }

  /** Creating a share keeps the store coherent. */
  lemma ShareAddedCoherent(st: LedgerState, m: MemberId, s: SubscriptionId, amount: real, isFixed: bool)
    requires Coherent(st) && m in st.members && s in st.subscriptions
    ensures Coherent(ShareAdded(st, m, s, amount, isFixed))
  {
    ShareAddedLinked(st, m, s, amount, isFixed);
    ShareAddedBalanced(st, m, s, amount, isFixed);
  }

  /** Creating a share raises the subscription's share sum by the amount and
      leaves every other subscription's sum as it was. */
  lemma ShareAddedSums(st: LedgerState, m: MemberId, s: SubscriptionId, amount: real, isFixed: bool)
    requires Inverse(st.subscriptions, st.shares, SubscriptionShares, ShareSubscription)
    requires st.nextId !in st.shares && m in st.members && s in st.subscriptions
    ensures var r := ShareAdded(st, m, s, amount, isFixed);
      && ShareTotal(r, s) == ShareTotal(st, s) + amount
      && forall s' :: s' in st.subscriptions && s' != s ==> ShareTotal(r, s') == ShareTotal(st, s')
  {
    var r := ShareAdded(st, m, s, amount, isFixed);
    forall s' | s' in st.subscriptions ensures Total(r.shares, st.subscriptions[s'].shares, ShareAmount) == ShareTotal(st, s') {
      SubscriptionSharesOwned(st.subscriptions, st.shares, s');
      TotalAgree(r.shares, st.shares, st.subscriptions[s'].shares, ShareAmount);
    }
    TotalAppend(r.shares, st.subscriptions[s].shares, st.nextId, ShareAmount);
  }

  // ----- Changing a share's amount -----

  /** The amount field's setter: share `sid` gets amount `x` and its member
      `m`'s balance moves by the change. */
  function AmountSet(st: LedgerState, sid: ShareId, m: MemberId, x: real): LedgerState
    requires sid in st.shares && m in st.members
  {
    LedgerState(
      st.members[m := st.members[m].(totalBalance := st.members[m].totalBalance + (x - st.shares[sid].amount))],
      st.shares[sid := st.shares[sid].(amount := x)],
      st.subscriptions, st.logs, st.settings, st.nextId)
  }

  lemma AmountSetMemberLinks(st: LedgerState, sid: ShareId, m: MemberId, x: real)
    requires Inverse(st.members, st.shares, MemberShares, ShareMember) && Inverse(st.members, st.logs, MemberPayments, LogPayer)
    requires sid in st.shares && m in st.members
    ensures var r := AmountSet(st, sid, m, x);
      Inverse(r.members, r.shares, MemberShares, ShareMember) && Inverse(r.members, r.logs, MemberPayments, LogPayer)
  {
    var r := AmountSet(st, sid, m, x);
    Transfer(st.members, st.shares, r.members, r.shares, MemberShares, ShareMember);
    Transfer(st.members, st.logs, r.members, r.logs, MemberPayments, LogPayer);
  }

  lemma AmountSetSubscriptionLinks(st: LedgerState, sid: ShareId, m: MemberId, x: real)
    requires Inverse(st.subscriptions, st.shares, SubscriptionShares, ShareSubscription) && sid in st.shares && m in st.members
    ensures var r := AmountSet(st, sid, m, x); Inverse(r.subscriptions, r.shares, SubscriptionShares, ShareSubscription)
  {
    var r := AmountSet(st, sid, m, x);
    Transfer(st.subscriptions, st.shares, r.subscriptions, r.shares, SubscriptionShares, ShareSubscription);
  }

  lemma AmountSetFresh(st: LedgerState, sid: ShareId, m: MemberId, x: real)
    requires SharesAttached(st) && IdsFresh(st) && sid in st.shares && m in st.members
    ensures var r := AmountSet(st, sid, m, x); SharesAttached(r) && IdsFresh(r)
  {
  }

  lemma AmountSetBalanced(st: LedgerState, sid: ShareId, m: MemberId, x: real)
    requires Inverse(st.members, st.shares, MemberShares, ShareMember) && Balanced(st)
    requires sid in st.shares && st.shares[sid].member == Some(m) && m in st.members
    ensures Balanced(AmountSet(st, sid, m, x))
  {
    var r := AmountSet(st, sid, m, x);
    forall k | k in r.members ensures r.members[k].totalBalance == Owed(r.members[k], r.shares, r.logs) {
      MemberSharesOwned(st.members, st.shares, k);
      if k == m {
        ShareListedByMember(st.members, st.shares, sid);
        TotalUpdate(st.shares, st.members[m].shares, sid, r.shares[sid], ShareAmount);
      } else {
        TotalAgree(r.shares, st.shares, st.members[k].shares, ShareAmount);
      }
    }
  }

  /** Setting the amount of a share through its member keeps the store coherent. */
  lemma AmountSetCoherent(st: LedgerState, sid: ShareId, m: MemberId, x: real)
    requires Coherent(st) && sid in st.shares && st.shares[sid].member == Some(m)
    ensures m in st.members && Coherent(AmountSet(st, sid, m, x))
  {
    AmountSetMemberLinks(st, sid, m, x);
    AmountSetSubscriptionLinks(st, sid, m, x);
    AmountSetFresh(st, sid, m, x);
    AmountSetBalanced(st, sid, m, x);
  }

  /** The member's balance minus the share's amount is the same before and
      after, and the subscription's share sum moves by the change. */
  lemma AmountSetKeepsDifference(st: LedgerState, sid: ShareId, m: MemberId, s: SubscriptionId, x: real)
    requires sid in st.shares && m in st.members && s in st.subscriptions
    requires sid in st.subscriptions[s].shares && NoDup(st.subscriptions[s].shares)
    ensures var r := AmountSet(st, sid, m, x);
      && r.members[m].totalBalance - r.shares[sid].amount == st.members[m].totalBalance - st.shares[sid].amount
      && ShareTotal(r, s) == ShareTotal(st, s) + (x - st.shares[sid].amount)
  {
    var r := AmountSet(st, sid, m, x);
    TotalUpdate(st.shares, st.subscriptions[s].shares, sid, r.shares[sid], ShareAmount);
  }

  // ----- Deleting a share -----

  /** `modelContext.delete(share)`: the share is gone, and SwiftData drops it
      from every member's and subscription's share list. Balances are left as
      they are. */
  function ShareDeleted(st: LedgerState, sid: ShareId): LedgerState {
    LedgerState(
      map k | k in st.members :: st.members[k].(shares := Without(st.members[k].shares, sid)),
      st.shares - {sid},
      map s | s in st.subscriptions :: st.subscriptions[s].(shares := Without(st.subscriptions[s].shares, sid)),
      st.logs, st.settings, st.nextId)
  }

  lemma ShareDeletedMemberLinks(st: LedgerState, sid: ShareId)
    requires Inverse(st.members, st.shares, MemberShares, ShareMember) && Inverse(st.members, st.logs, MemberPayments, LogPayer)
    ensures var r := ShareDeleted(st, sid);
      Inverse(r.members, r.shares, MemberShares, ShareMember) && Inverse(r.members, r.logs, MemberPayments, LogPayer)
  {
    var r := ShareDeleted(st, sid);
    DropChild(st.members, st.shares, r.members, r.shares, MemberShares, ShareMember, sid);
    Transfer(st.members, st.logs, r.members, r.logs, MemberPayments, LogPayer);
  }

  lemma ShareDeletedSubscriptionLinks(st: LedgerState, sid: ShareId)
    requires Inverse(st.subscriptions, st.shares, SubscriptionShares, ShareSubscription)
    requires Inverse(st.subscriptions, st.logs, SubscriptionLogs, LogSubscription)
    ensures var r := ShareDeleted(st, sid);
      && Inverse(r.subscriptions, r.shares, SubscriptionShares, ShareSubscription)
      && Inverse(r.subscriptions, r.logs, SubscriptionLogs, LogSubscription)
  {
    var r := ShareDeleted(st, sid);
    DropChild(st.subscriptions, st.shares, r.subscriptions, r.shares, SubscriptionShares, ShareSubscription, sid);
    Transfer(st.subscriptions, st.logs, r.subscriptions, r.logs, SubscriptionLogs, LogSubscription);
  }

  lemma ShareDeletedFresh(st: LedgerState, sid: ShareId)
    requires SharesAttached(st) && IdsFresh(st)
    ensures var r := ShareDeleted(st, sid); SharesAttached(r) && IdsFresh(r)
  {
  }

  /** Deleting a share keeps the relationships. */
  lemma ShareDeletedLinked(st: LedgerState, sid: ShareId)
    requires Linked(st)
    ensures Linked(ShareDeleted(st, sid))
  {
    ShareDeletedMemberLinks(st, sid);
    ShareDeletedSubscriptionLinks(st, sid);
    ShareDeletedFresh(st, sid);
  }

  /** Deleting a share leaves balances as they are and takes its amount off
      what its member owes; what any other member owes does not change. */
  lemma ShareDeletedOwed(st: LedgerState, sid: ShareId, k: MemberId)
    requires Inverse(st.members, st.shares, MemberShares, ShareMember) && sid in st.shares && k in st.members
    ensures var r := ShareDeleted(st, sid);
      && k in r.members && r.members[k].totalBalance == st.members[k].totalBalance
      && r.members[k].paymentsMade == st.members[k].paymentsMade
      && Owed(r.members[k], r.shares, r.logs) ==
         Owed(st.members[k], st.shares, st.logs) - (if st.shares[sid].member == Some(k) then st.shares[sid].amount else 0.0)
  {
    var r := ShareDeleted(st, sid);
    var ids := st.members[k].shares;
    assert r.members[k].shares == Without(ids, sid);
    MemberSharesOwned(st.members, st.shares, k);
    if st.shares[sid].member == Some(k) {
      ShareListedByMember(st.members, st.shares, sid);
      TotalWithout(st.shares, ids, sid, ShareAmount);
      TotalAgree(r.shares, st.shares, Without(ids, sid), ShareAmount);
    } else {
      WithoutAbsent(ids, sid);
      TotalAgree(r.shares, st.shares, ids, ShareAmount);
    }
  }

  /** `removeShare`: the share's amount comes off its member `m`'s balance,
      then the share is deleted as by `ShareDeleted`. */
  function ShareRemoved(st: LedgerState, sid: ShareId, m: MemberId): LedgerState
    requires sid in st.shares && m in st.members
  {
    var a := st.shares[sid].amount;
    LedgerState(
      map k | k in st.members ::
        st.members[k].(totalBalance := if k == m then st.members[k].totalBalance - a else st.members[k].totalBalance,
                       shares := Without(st.members[k].shares, sid)),
      st.shares - {sid},
      map s | s in st.subscriptions :: st.subscriptions[s].(shares := Without(st.subscriptions[s].shares, sid)),
      st.logs, st.settings, st.nextId)
  }

  lemma ShareRemovedMemberLinks(st: LedgerState, sid: ShareId, m: MemberId)
    requires Inverse(st.members, st.shares, MemberShares, ShareMember) && Inverse(st.members, st.logs, MemberPayments, LogPayer)
    requires sid in st.shares && m in st.members
    ensures var r := ShareRemoved(st, sid, m);
      Inverse(r.members, r.shares, MemberShares, ShareMember) && Inverse(r.members, r.logs, MemberPayments, LogPayer)
  {
    var r := ShareRemoved(st, sid, m);
    DropChild(st.members, st.shares, r.members, r.shares, MemberShares, ShareMember, sid);
    Transfer(st.members, st.logs, r.members, r.logs, MemberPayments, LogPayer);
  }

  lemma ShareRemovedSubscriptionLinks(st: LedgerState, sid: ShareId, m: MemberId)
    requires Inverse(st.subscriptions, st.shares, SubscriptionShares, ShareSubscription)
    requires Inverse(st.subscriptions, st.logs, SubscriptionLogs, LogSubscription)
    requires sid in st.shares && m in st.members
    ensures var r := ShareRemoved(st, sid, m);
      && Inverse(r.subscriptions, r.shares, SubscriptionShares, ShareSubscription)
      && Inverse(r.subscriptions, r.logs, SubscriptionLogs, LogSubscription)
  {
    var r := ShareRemoved(st, sid, m);
    DropChild(st.subscriptions, st.shares, r.subscriptions, r.shares, SubscriptionShares, ShareSubscription, sid);
    Transfer(st.subscriptions, st.logs, r.subscriptions, r.logs, SubscriptionLogs, LogSubscription);
  }

  lemma ShareRemovedFresh(st: LedgerState, sid: ShareId, m: MemberId)
    requires SharesAttached(st) && IdsFresh(st) && sid in st.shares && m in st.members
    ensures var r := ShareRemoved(st, sid, m); SharesAttached(r) && IdsFresh(r)
  {
  }

  lemma ShareRemovedBalanced(st: LedgerState, sid: ShareId, m: MemberId)
    requires Inverse(st.members, st.shares, MemberShares, ShareMember) && Balanced(st)
    requires sid in st.shares && st.shares[sid].member == Some(m) && m in st.members
    ensures Balanced(ShareRemoved(st, sid, m))
  {
    var r := ShareRemoved(st, sid, m);
    forall k | k in r.members ensures r.members[k].totalBalance == Owed(r.members[k], r.shares, r.logs) {
      var ids := st.members[k].shares;
      assert r.members[k].shares == Without(ids, sid);
      MemberSharesOwned(st.members, st.shares, k);
      if k == m {
        ShareListedByMember(st.members, st.shares, sid);
        TotalWithout(st.shares, ids, sid, ShareAmount);
        TotalAgree(r.shares, st.shares, Without(ids, sid), ShareAmount);
      } else {
        WithoutAbsent(ids, sid);
        TotalAgree(r.shares, st.shares, ids, ShareAmount);
      }
    }
  }

  /** Removing a share through its member keeps the store coherent. */
  lemma ShareRemovedCoherent(st: LedgerState, sid: ShareId, m: MemberId)
    requires Coherent(st) && sid in st.shares && st.shares[sid].member == Some(m)
    ensures m in st.members && Coherent(ShareRemoved(st, sid, m))
  {
    ShareRemovedMemberLinks(st, sid, m);
    ShareRemovedSubscriptionLinks(st, sid, m);
    ShareRemovedFresh(st, sid, m);
    ShareRemovedBalanced(st, sid, m);
  }

  /** Removing a share lowers its member's balance by the share's amount,
      takes it out of its subscription's list and share sum, and leaves every
      subscription's `totalCost` untouched. */
  lemma ShareRemovedEffect(st: LedgerState, sid: ShareId, m: MemberId, s: SubscriptionId)
    requires sid in st.shares && m in st.members && s in st.subscriptions
    requires sid in st.subscriptions[s].shares && NoDup(st.subscriptions[s].shares)
    ensures var r := ShareRemoved(st, sid, m);
      && sid !in r.shares
      && r.members[m].totalBalance == st.members[m].totalBalance - st.shares[sid].amount
      && r.subscriptions.Keys == st.subscriptions.Keys
      && (forall s' :: s' in st.subscriptions ==> r.subscriptions[s'].totalCost == st.subscriptions[s'].totalCost)
      && sid !in r.subscriptions[s].shares
      && ShareTotal(r, s) == ShareTotal(st, s) - st.shares[sid].amount
  {
    var r := ShareRemoved(st, sid, m);
    var ids := st.subscriptions[s].shares;
    assert r.subscriptions[s].shares == Without(ids, sid);
    TotalWithout(st.shares, ids, sid, ShareAmount);
    TotalAgree(r.shares, st.shares, Without(ids, sid), ShareAmount);
  }

  // ----- Recalculating equal shares -----

  /** The state after the recalculation loop has visited the shares `ids`:
      each visited share that has a member gets amount `x`, and that member's
      balance moves by the change. */
  function AmountsSet(st: LedgerState, ids: seq<ShareId>, x: real): (r: LedgerState)
    ensures r.members.Keys == st.members.Keys && r.shares.Keys == st.shares.Keys
    ensures r.subscriptions == st.subscriptions && r.logs == st.logs
    ensures r.settings == st.settings && r.nextId == st.nextId
    ensures forall k :: k in st.shares ==> r.shares[k].(amount := st.shares[k].amount) == st.shares[k]
    ensures forall k :: k in st.shares && k !in ids ==> r.shares[k] == st.shares[k]
    ensures forall k :: k in ids && k in st.shares && st.shares[k].member.Some? && st.shares[k].member.value in st.members ==>
      r.shares[k].amount == x
  {
    if ids == [] then st
    else
      var prev := AmountsSet(st, ids[..|ids| - 1], x);
      var k := ids[|ids| - 1];
      assert forall j :: j in ids[..|ids| - 1] ==> j in ids;
      if k in prev.shares && prev.shares[k].member.Some? && prev.shares[k].member.value in prev.members
      then AmountSet(prev, k, prev.shares[k].member.value, x)
      else prev
  }

  /** One more iteration of the recalculation loop. */
  lemma AmountsSetStep(st: LedgerState, ids: seq<ShareId>, i: nat, x: real)
    requires i < |ids|
    ensures var prev := AmountsSet(st, ids[..i], x);
      var k := ids[i];
      AmountsSet(st, ids[..i + 1], x)
      == if k in prev.shares && prev.shares[k].member.Some? && prev.shares[k].member.value in prev.members
         then AmountSet(prev, k, prev.shares[k].member.value, x)
         else prev
  {
    assert ids[..i + 1][..i] == ids[..i];
  }

  /** The recalculation loop keeps the store coherent. */
  lemma {:induction false} AmountsSetCoherent(st: LedgerState, ids: seq<ShareId>, x: real)
    requires Coherent(st)
    ensures Coherent(AmountsSet(st, ids, x))
  {
    if ids != [] {
      var prev := AmountsSet(st, ids[..|ids| - 1], x);
      var k := ids[|ids| - 1];
      AmountsSetCoherent(st, ids[..|ids| - 1], x);
      if k in prev.shares && prev.shares[k].member.Some? && prev.shares[k].member.value in prev.members {
        AmountSetCoherent(prev, k, prev.shares[k].member.value, x);
      }
    }
  }

  /** `recalcEqualShares` with the edited total cost: nothing happens without
      shares; otherwise every share of the subscription that has a member gets
      the total divided by the number of shares. */
  function Recalculated(st: LedgerState, s: SubscriptionId, totalCost: real): LedgerState
    requires s in st.subscriptions
  {
    var ids := st.subscriptions[s].shares;
    if |ids| == 0 then st else AmountsSet(st, ids, totalCost / |ids| as real)
  }

  /** Recalculating keeps the store coherent. */
  lemma RecalculatedCoherent(st: LedgerState, s: SubscriptionId, totalCost: real)
    requires Coherent(st) && s in st.subscriptions
    ensures Coherent(Recalculated(st, s, totalCost))
  {
    var ids := st.subscriptions[s].shares;
    if |ids| > 0 {
      AmountsSetCoherent(st, ids, totalCost / |ids| as real);
    }
  }

  lemma RecalculatedShares(st: LedgerState, s: SubscriptionId, totalCost: real)
    requires s in st.subscriptions && st.subscriptions[s].shares != []
    requires forall k :: k in st.subscriptions[s].shares ==>
      k in st.shares && st.shares[k].member.Some? && st.shares[k].member.value in st.members
    ensures var r := Recalculated(st, s, totalCost);
      var ids := st.subscriptions[s].shares;
      && (forall k :: k in ids ==> r.shares[k].amount == totalCost / |ids| as real)
      && ShareTotal(r, s) == totalCost
  {
    var ids := st.subscriptions[s].shares;
    var x := totalCost / |ids| as real;
    var r := AmountsSet(st, ids, x);
    assert Recalculated(st, s, totalCost) == r;
    forall k | k in ids ensures AmountAt(r.shares, k, ShareAmount) == x {
    }
    TotalConstant(r.shares, ids, x, ShareAmount);
    NewSubscriptionFlow.EqualPartsMakeWhole(totalCost, |ids|);
  }

  /** After recalculating, every share of the subscription holds an equal
      part, their sum is exactly the edited total (so the screen's
      `sharesValid` holds), `isFixed` and every other share are as before, and
      no subscription changes. */
  lemma RecalculatedSplitsEvenly(st: LedgerState, s: SubscriptionId, totalCost: real)
    requires Coherent(st) && s in st.subscriptions && st.subscriptions[s].shares != []
    ensures var r := Recalculated(st, s, totalCost);
      var ids := st.subscriptions[s].shares;
      && (forall k :: k in ids ==> r.shares[k].amount == totalCost / |ids| as real)
      && ShareTotal(r, s) == totalCost
      && (forall k :: k in st.shares ==> r.shares[k].isFixed == st.shares[k].isFixed)
      && (forall k :: k in st.shares && k !in ids ==> r.shares[k] == st.shares[k])
      && r.subscriptions == st.subscriptions
  {
    SubscriptionSharesLive(st, s);
    RecalculatedShares(st, s, totalCost);
  }

  // ----- Saving a new subscription -----

  /** A new subscription record under id `nextId`. */
  function SubscriptionAdded(st: LedgerState, sub: Subscription): LedgerState {
    st.(subscriptions := st.subscriptions[st.nextId := sub], nextId := st.nextId + 1)
  }

  /** Adding a subscription with no shares and no payments keeps the store coherent. */
  lemma SubscriptionAddedCoherent(st: LedgerState, sub: Subscription)
    requires Coherent(st) && sub.shares == [] && sub.paymentLogs == []
    ensures Coherent(SubscriptionAdded(st, sub))
  {
    SubscriptionAddedLinks(st, sub);
  }

  lemma SubscriptionAddedLinks(st: LedgerState, sub: Subscription)
    requires Inverse(st.subscriptions, st.shares, SubscriptionShares, ShareSubscription)
    requires Inverse(st.subscriptions, st.logs, SubscriptionLogs, LogSubscription)
    requires st.nextId !in st.subscriptions && sub.shares == [] && sub.paymentLogs == []
    ensures var r := SubscriptionAdded(st, sub);
      && Inverse(r.subscriptions, r.shares, SubscriptionShares, ShareSubscription)
      && Inverse(r.subscriptions, r.logs, SubscriptionLogs, LogSubscription)
  {
    var r := SubscriptionAdded(st, sub);
    AddOwner(st.subscriptions, st.shares, r.subscriptions, SubscriptionShares, ShareSubscription, st.nextId);
    AddOwner(st.subscriptions, st.logs, r.subscriptions, SubscriptionLogs, LogSubscription, st.nextId);
  }

  /** The state after the save loop has created the shares of the members
      `ids` in subscription `s`, one after another (a member missing from the
      store is skipped; the save only hands over stored members). */
  function SharesPlanned(st: LedgerState, s: SubscriptionId, f: NewSubscriptionFlow.FlowState,
                         ids: seq<MemberId>, count: nat): (r: LedgerState)
    requires s in st.subscriptions
    ensures r.members.Keys == st.members.Keys && r.subscriptions.Keys == st.subscriptions.Keys
    ensures (forall m :: m in ids ==> m in st.members) ==> r.nextId == st.nextId + |ids|
  {
    if ids == [] then st
    else
      var m := ids[|ids| - 1];
      var prev := SharesPlanned(st, s, f, ids[..|ids| - 1], count);
      if m in prev.members then
        ShareAdded(prev, m, s, NewSubscriptionFlow.PlannedAmount(f, count, m), f.splitMode == NewSubscriptionFlow.Custom)
      else prev
  }

  /** One more iteration of the save loop: inserting the next member's share
      into the state planned so far is the plan one member longer. */
  lemma SharesPlannedStep(st: LedgerState, s: SubscriptionId, f: NewSubscriptionFlow.FlowState,
                          ids: seq<MemberId>, count: nat, i: nat, before: LedgerState, after: LedgerState,
                          amount: real, isFixed: bool)
    requires s in st.subscriptions && i < |ids| && ids[i] in st.members
    requires before == SharesPlanned(st, s, f, ids[..i], count)
    requires amount == NewSubscriptionFlow.PlannedAmount(f, count, ids[i])
    requires isFixed == (f.splitMode == NewSubscriptionFlow.Custom)
    requires after == ShareAdded(before, ids[i], s, amount, isFixed)
    ensures after == SharesPlanned(st, s, f, ids[..i + 1], count)
  {
    assert ids[..i + 1][..i] == ids[..i];
  }

  /** The save loop keeps the store coherent. */
  lemma {:induction false} SharesPlannedCoherent(st: LedgerState, s: SubscriptionId, f: NewSubscriptionFlow.FlowState,
                                                 ids: seq<MemberId>, count: nat)
    requires Coherent(st) && s in st.subscriptions && forall m :: m in ids ==> m in st.members
    ensures Coherent(SharesPlanned(st, s, f, ids, count))
  {
    if ids != [] {
      var m := ids[|ids| - 1];
      SharesPlannedCoherent(st, s, f, ids[..|ids| - 1], count);
      var prev := SharesPlanned(st, s, f, ids[..|ids| - 1], count);
      ShareAddedCoherent(prev, m, s, NewSubscriptionFlow.PlannedAmount(f, count, m), f.splitMode == NewSubscriptionFlow.Custom);
    }
  }

  /** The save loop creates exactly one share per member of `ids`: share
      `nextId + i` belongs to the `i`-th member and to `s`, carries the planned
      amount, is fixed exactly for a custom split, and is appended to the
      subscription's list in that order. */
  lemma {:induction false} SharesPlannedList(st: LedgerState, s: SubscriptionId, f: NewSubscriptionFlow.FlowState,
                                              ids: seq<MemberId>, count: nat)
    requires s in st.subscriptions && forall m :: m in ids ==> m in st.members
    ensures SharesPlanned(st, s, f, ids, count).subscriptions[s].shares
            == st.subscriptions[s].shares + seq(|ids|, i => st.nextId + i)
  {
    if ids == [] {
      assert st.subscriptions[s].shares + seq(0, i => st.nextId + i) == st.subscriptions[s].shares;
    } else {
      var n := |ids| - 1;
      SharesPlannedList(st, s, f, ids[..n], count);
      var prev := SharesPlanned(st, s, f, ids[..n], count);
      assert SharesPlanned(st, s, f, ids, count).subscriptions[s].shares == prev.subscriptions[s].shares + [prev.nextId];
      assert seq(n + 1, i => st.nextId + i) == seq(n, i => st.nextId + i) + [st.nextId + n];
    }
  }

  /** The `i`-th selected member gets the `i`-th new share, holding its planned amount. */
  lemma {:induction false} SharesPlannedCreates(st: LedgerState, s: SubscriptionId, f: NewSubscriptionFlow.FlowState,
                                                ids: seq<MemberId>, count: nat, i: nat)
    requires s in st.subscriptions && forall m :: m in ids ==> m in st.members
    requires i < |ids|
    ensures var r := SharesPlanned(st, s, f, ids, count);
      && st.nextId + i in r.shares
      && r.shares[st.nextId + i].amount == NewSubscriptionFlow.PlannedAmount(f, count, ids[i])
      && r.shares[st.nextId + i].isFixed == (f.splitMode == NewSubscriptionFlow.Custom)
      && r.shares[st.nextId + i].member == Some(ids[i])
      && r.shares[st.nextId + i].subscription == Some(s)
  {
    var n := |ids| - 1;
    if i < n {
      SharesPlannedCreates(st, s, f, ids[..n], count, i);
      assert ids[..n][i] == ids[i];
    }
  }


  /** The save loop changes no share or subscription that existed before,
      other than appending to `s`'s list, and touches no payment or setting. */
  lemma {:induction false} SharesPlannedKeeps(st: LedgerState, s: SubscriptionId, f: NewSubscriptionFlow.FlowState,
                                              ids: seq<MemberId>, count: nat)
    requires s in st.subscriptions && forall m :: m in ids ==> m in st.members
    requires forall k :: k in st.shares ==> k < st.nextId
    ensures var r := SharesPlanned(st, s, f, ids, count);
      && (forall k :: k in st.shares ==> k in r.shares && r.shares[k] == st.shares[k])
      && (forall s' :: s' in st.subscriptions && s' != s ==> r.subscriptions[s'] == st.subscriptions[s'])
      && r.subscriptions[s].(shares := st.subscriptions[s].shares) == st.subscriptions[s]
      && r.logs == st.logs && r.settings == st.settings
  {
    if ids != [] {
      SharesPlannedKeeps(st, s, f, ids[..|ids| - 1], count);
    }
  }

  /** The subscription's share sum grows by exactly the planned total. */
  lemma {:induction false} SharesPlannedSum(st: LedgerState, s: SubscriptionId, f: NewSubscriptionFlow.FlowState,
                                            ids: seq<MemberId>, count: nat)
    requires s in st.subscriptions && forall m :: m in ids ==> m in st.members
    requires forall k :: k in st.subscriptions[s].shares ==> k < st.nextId
    ensures var r := SharesPlanned(st, s, f, ids, count);
      && (forall k :: k in r.subscriptions[s].shares ==> k < r.nextId)
      && ShareTotal(r, s) == ShareTotal(st, s) + NewSubscriptionFlow.PlannedTotal(f, ids, count)
  {
    if ids != [] {
      var n := |ids| - 1;
      var prev := SharesPlanned(st, s, f, ids[..n], count);
      var r := SharesPlanned(st, s, f, ids, count);
      SharesPlannedSum(st, s, f, ids[..n], count);
      var before := prev.subscriptions[s].shares;
      assert prev.nextId !in before;
      TotalAgree(r.shares, prev.shares, before, ShareAmount);
      TotalAppend(r.shares, before, prev.nextId, ShareAmount);
    }
  }

  /** Each member's balance rises by its planned amount when it is among `ids`
      (listed once), and is unchanged otherwise. */
  lemma {:induction false} SharesPlannedBalances(st: LedgerState, s: SubscriptionId, f: NewSubscriptionFlow.FlowState,
                                                 ids: seq<MemberId>, count: nat)
    requires s in st.subscriptions && NoDup(ids) && forall m :: m in ids ==> m in st.members
    ensures var r := SharesPlanned(st, s, f, ids, count);
      forall k :: k in st.members ==>
        r.members[k].totalBalance == st.members[k].totalBalance + (if k in ids then NewSubscriptionFlow.PlannedAmount(f, count, k) else 0.0)
  {
    if ids != [] {
      var n := |ids| - 1;
      assert forall j :: j in ids[..n] ==> j in ids;
      assert ids[n] !in ids[..n];
      SharesPlannedBalances(st, s, f, ids[..n], count);
    }
  }
}
