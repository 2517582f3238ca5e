/** The model context: every persisted record, held by one object whose
    fields the screens' actions change in place. Each method is one action of
    a screen, with the record changes the action's handler makes, in its
    order; its contract ties the new state to the transition that specifies
    it (`ShareOps`, `PaymentOps`, `MemberOps`, `MemberDeletion`,
    `SubscriptionOps`) and keeps `Valid()`, the relationships and the balance
    invariant. */
module Store {
  import opened Common
  import opened Text
  import opened Models
  import opened Totals
  import opened StoreState
  import opened ShareOps
  import opened PaymentOps
  import opened MemberOps
  import opened MemberDeletion
  import opened SubscriptionOps
  import opened SubscriptionCreation
  import opened SettingsOps
  import NewSubscriptionFlow
  import EditSubscription
  import PaymentLogList

  class Ledger {
    var members: map<MemberId, Member>
    var shares: map<ShareId, Share>
    var subscriptions: map<SubscriptionId, Subscription>
    var logs: map<LogId, PaymentLog>
    var settings: seq<AppSettings>
    var nextId: nat

    /** The stored records as one value. */
    function State(): LedgerState
      reads this
    {
      LedgerState(members, shares, subscriptions, logs, settings, nextId)
    }

    /** The relationships agree and every balance is what its member owes. */
    ghost predicate Valid()
      reads this
    {
      Coherent(State())
    }

    /** An empty store. */
    constructor ()
      ensures State() == EmptyLedger() && Valid()
    {
      members, shares, subscriptions, logs, settings, nextId := map[], map[], map[], map[], [], 0;
      EmptyLedgerCoherent();
    }

    // ----- The edit-subscription screen -----

    /** The amount field's setter on the row of share `sid`, held by `m`: the
        share takes the new value and the member's balance moves by the change. */
    method SetShareAmount(sid: ShareId, m: MemberId, newVal: real)
      requires Valid() && sid in shares && shares[sid].member == Some(m)
      modifies this
      ensures Valid() && State() == AmountSet(old(State()), sid, m, newVal)
    {
      AmountSetCoherent(State(), sid, m, newVal);
      WriteAmount(sid, m, newVal);
    }

    /** The setter's body: `share.amount = newVal; member.totalBalance += delta`. */
    method WriteAmount(sid: ShareId, m: MemberId, newVal: real)
      requires sid in shares && m in members
      modifies this
      ensures State() == AmountSet(old(State()), sid, m, newVal)
    {
      var delta := newVal - shares[sid].amount;
      shares := shares[sid := shares[sid].(amount := newVal)];
      members := members[m := members[m].(totalBalance := members[m].totalBalance + delta)];
    }

    /** `removeShare`: the share's amount comes off the member's balance and
        the share is deleted, which unlists it everywhere. */
    method RemoveShare(sid: ShareId, m: MemberId)
      requires Valid() && sid in shares && shares[sid].member == Some(m)
      modifies this
      ensures Valid() && State() == ShareRemoved(old(State()), sid, m)
    {
      ShareRemovedCoherent(State(), sid, m);
      DebitAndDelete(sid, m);
    }

    /** `member.totalBalance -= share.amount`, then `modelContext.delete(share)`. */
    method DebitAndDelete(sid: ShareId, m: MemberId)
      requires sid in shares && m in members
      modifies this
      ensures State() == ShareRemoved(old(State()), sid, m)
    {
      var a := shares[sid].amount;
      // the debit of `m`, and the deletion unlisting the share from every member
      var ms := map k | k in members ::
        members[k].(totalBalance := if k == m then members[k].totalBalance - a else members[k].totalBalance,
                    shares := Without(members[k].shares, sid));
      var ss := map s | s in subscriptions :: subscriptions[s].(shares := Without(subscriptions[s].shares, sid));
      members, subscriptions, shares := ms, ss, shares - {sid};
    }

    /** `addSelectedMember`: when the picked member resolves, a fixed share of
        the entered amount is created, linked into both share lists and added
        to the member's balance, and the picker is cleared; otherwise nothing
        happens. */
    method AddSelectedMember(s: SubscriptionId, e: EditSubscription.EditState) returns (e': EditSubscription.EditState)
      requires Valid() && s in subscriptions
      modifies this
      ensures Valid()
      ensures e.memberToAdd.Some? && e.memberToAdd.value in old(members) ==>
        && State() == ShareAdded(old(State()), e.memberToAdd.value, s, e.newMemberAmount, true)
        && e' == EditSubscription.AfterAdd(e)
      ensures !(e.memberToAdd.Some? && e.memberToAdd.value in old(members)) ==> State() == old(State()) && e' == e
    {
      if e.memberToAdd.None? || e.memberToAdd.value !in members {
        return e;
      }
      var m := e.memberToAdd.value;
      ShareAddedCoherent(State(), m, s, e.newMemberAmount, true);
      InsertShare(m, s, e.newMemberAmount, true);
      e' := EditSubscription.AfterAdd(e);
    }

    /** A new share `nextId` of member `m` in subscription `s`: inserted,
        appended to both share lists, and its amount added to the member's
        balance. */
    method InsertShare(m: MemberId, s: SubscriptionId, amount: real, isFixed: bool)
      requires m in members && s in subscriptions
      modifies this
      ensures State() == ShareAdded(old(State()), m, s, amount, isFixed)
    {
      var n := nextId;
      shares := shares[n := NewShare(amount, isFixed, Some(m), Some(s))];
      members := members[m := members[m].(shares := members[m].shares + [n])];
      subscriptions := subscriptions[s := subscriptions[s].(shares := subscriptions[s].shares + [n])];
      members := members[m := members[m].(totalBalance := members[m].totalBalance + amount)];
      nextId := n + 1;
    }

    /** `recalcEqualShares` with the screen's edited total: nothing happens
        without shares; otherwise each share that has a member gets the total
        divided by the number of shares, and its member's balance moves by the
        change. */
    method RecalcEqualShares(s: SubscriptionId, totalCost: real)
      requires Valid() && s in subscriptions
      modifies this
      ensures Valid() && State() == Recalculated(old(State()), s, totalCost)
    {
      RecalculatedCoherent(State(), s, totalCost);
      WriteEqualShares(s, totalCost);
    }

    /** The recalculation's loop over the subscription's share list. */
    method WriteEqualShares(s: SubscriptionId, totalCost: real)
      requires s in subscriptions
      modifies this
      ensures State() == Recalculated(old(State()), s, totalCost)
    {
      ghost var st0 := State();
      var ids := subscriptions[s].shares;
      var count := |ids|;
      if count == 0 {
        return;
      }
      var perPerson := totalCost / count as real;
      var i := 0;
      while i < count
        invariant 0 <= i <= count
        invariant State() == AmountsSet(st0, ids[..i], perPerson)
      {
        AmountsSetStep(st0, ids, i, perPerson);
        var k := ids[i];
        // `share.member` is set on every share of a valid store
        if k in shares && shares[k].member.Some? && shares[k].member.value in members {
          WriteAmount(k, shares[k].member.value, perPerson);
        }
        i := i + 1;
      }
      assert ids[..count] == ids;
    }

    /** The edit screen's Save: the draft's date, cost and currency are written
        back; shares were already saved as they were edited. */
    method SaveEdit(s: SubscriptionId, e: EditSubscription.EditState)
      requires Valid() && s in subscriptions
      modifies this
      ensures Valid() && State() == SubscriptionEdited(old(State()), s, e)
    {
      SubscriptionEditedEffect(State(), s, e);
      WriteEdit(s, e);
    }

    method WriteEdit(s: SubscriptionId, e: EditSubscription.EditState)
      requires s in subscriptions
      modifies this
      ensures State() == SubscriptionEdited(old(State()), s, e)
    {
      subscriptions := subscriptions[s := subscriptions[s].(nextBillingDate := e.nextBillingDate)];
      subscriptions := subscriptions[s := subscriptions[s].(totalCost := e.totalCost)];
      subscriptions := subscriptions[s := subscriptions[s].(currency := e.currency)];
    }

    // ----- The subscription detail screen -----

    /** "Mark inactive". */
    method MarkInactive(s: SubscriptionId)
      requires Valid() && s in subscriptions
      modifies this
      ensures Valid() && State() == Deactivated(old(State()), s)
    {
      DeactivatedEffect(State(), s);
      subscriptions := subscriptions[s := subscriptions[s].(isActive := false)];
    }

    // ----- The new-subscription wizard -----

    /** `saveSubscription`: the subscription built from the wizard is inserted,
        then each selected member of `allMembers` (the members' query) gets a
        share of its planned amount, added to its balance. */
    method SaveSubscription(f: NewSubscriptionFlow.FlowState, allMembers: seq<MemberId>, now: int) returns (s: SubscriptionId)
      requires Valid() && forall m :: m in allMembers ==> m in members
      modifies this
      ensures Valid() && s == old(nextId)
      ensures State() == SubscriptionSaved(old(State()), SavedSubscription(f, now), f, allMembers)
    {
      SubscriptionSavedCoherent(State(), f, allMembers, now);
      var sub := SavedSubscription(f, now);
      s := WriteSubscription(sub, f, allMembers);
    }

    /** The save's body: the insertion, then the shares of the selected members. */
    method WriteSubscription(sub: Subscription, f: NewSubscriptionFlow.FlowState, allMembers: seq<MemberId>) returns (s: SubscriptionId)
      requires forall m :: m in allMembers ==> m in members
      modifies this
      ensures s == old(nextId)
      ensures State() == SubscriptionSaved(old(State()), sub, f, allMembers)
    {
      ghost var st0 := State();
      s := nextId;
      subscriptions := subscriptions[s := sub];
      nextId := s + 1;
      assert State() == SubscriptionAdded(st0, sub);
      var selected := NewSubscriptionFlow.SelectedMembers(f, allMembers);
      WriteShares(s, f, selected);
    }

    /** The loop over the selected members: each gets a share of its planned
        amount (the price over the count for an equal split, else its custom
        amount), added to its balance. */
    method WriteShares(s: SubscriptionId, f: NewSubscriptionFlow.FlowState, selected: seq<MemberId>)
      requires s in subscriptions && forall m :: m in selected ==> m in members
      modifies this
      ensures State() == SharesPlanned(old(State()), s, f, selected, |selected|)
    {
      ghost var st1 := State();
      var count := |selected|;
      var i := 0;
      while i < count
        invariant 0 <= i <= count
        invariant State() == SharesPlanned(st1, s, f, selected[..i], count)
      {
        var m := selected[i];
        var amount := NewSubscriptionFlow.PlannedAmount(f, count, m);
        var isFixed := f.splitMode == NewSubscriptionFlow.Custom;
        ghost var before := State();
        InsertShare(m, s, amount, isFixed);
        SharesPlannedStep(st1, s, f, selected, count, i, before, State(), amount, isFixed);
        i := i + 1;
      }
      assert selected[..count] == selected;
    }

    // ----- The payment sheet and the history -----

    /** The payment sheet's Save: when both pickers resolve to stored records,
        an unsettled log is inserted, appended to both lists, and its amount
        is taken off the payer's balance; otherwise nothing happens. */
    method RecordPayment(subSel: Option<SubscriptionId>, memberSel: Option<MemberId>, amount: real,
                         currency: string, note: string, now: int) returns (lid: Option<LogId>)
      requires Valid()
      modifies this
      ensures Valid()
      ensures subSel.Some? && subSel.value in old(subscriptions) && memberSel.Some? && memberSel.value in old(members) ==>
        && lid == Some(old(nextId))
        && State() == PaymentAdded(old(State()), memberSel.value, subSel.value, amount, currency, note, now)
      ensures !(subSel.Some? && subSel.value in old(subscriptions) && memberSel.Some? && memberSel.value in old(members)) ==>
        lid.None? && State() == old(State())
    {
      if subSel.None? || subSel.value !in subscriptions || memberSel.None? || memberSel.value !in members {
        return None;
      }
      var s, m := subSel.value, memberSel.value;
      PaymentAddedCoherent(State(), m, s, amount, currency, note, now);
      var n := InsertLog(m, s, amount, currency, note, now);
      lid := Some(n);
    }

    /** The save's body, in its order of writes. */
    method InsertLog(m: MemberId, s: SubscriptionId, amount: real, currency: string, note: string, now: int)
      returns (n: LogId)
      requires m in members && s in subscriptions
      modifies this
      ensures n == old(nextId) && State() == PaymentAdded(old(State()), m, s, amount, currency, note, now)
    {
      n := nextId;
      logs := logs[n := RecordedLog(m, s, amount, currency, note, now)];
      subscriptions := subscriptions[s := subscriptions[s].(paymentLogs := subscriptions[s].paymentLogs + [n])];
      members := members[m := members[m].(paymentsMade := members[m].paymentsMade + [n])];
      members := members[m := members[m].(totalBalance := members[m].totalBalance - amount)];
      nextId := n + 1;
    }

    /** `markSettled`. */
    method MarkSettled(lid: LogId)
      requires Valid() && lid in logs
      modifies this
      ensures Valid() && State() == LogSettled(old(State()), lid)
    {
      LogSettledCoherent(State(), lid);
      logs := logs[lid := logs[lid].(isSettled := true)];
    }

    // ----- The member sheet and the members directory -----

    /** The member sheet's Save. */
    method SaveMember(member: Option<MemberId>, name: string, email: string, phone: string, now: int)
      requires Valid() && (member.Some? ==> member.value in members)
      modifies this
      ensures Valid() && State() == MemberSaved(old(State()), member, name, email, phone, now)
    {
      MemberSavedEffect(State(), member, name, email, phone, now);
      var trimmed := Trim(name);
      if trimmed == [] {
        return;
      }
      if member.Some? {
        WriteContact(member.value, trimmed, email, phone);
      } else {
        InsertMember(trimmed, email, phone, now);
      }
    }

    method WriteContact(m: MemberId, name: string, email: string, phone: string)
      requires m in members
      modifies this
      ensures State() == MemberEdited(old(State()), m, name, email, phone)
    {
      members := members[m := members[m].(name := name)];
      members := members[m := members[m].(email := email)];
      members := members[m := members[m].(phone := phone)];
    }

    method InsertMember(name: string, email: string, phone: string, now: int)
      modifies this
      ensures State() == MemberAdded(old(State()), name, email, phone, now)
    {
      members := members[nextId := NewMember(name, email, phone, createdAt := now)];
      nextId := nextId + 1;
    }

    /** `deleteMember`: the subscriptions holding the member's shares are noted,
        the shares are deleted, each noted subscription's cost becomes the sum
        of its remaining shares, and the member is deleted. */
    method DeleteMember(m: MemberId)
      requires Valid() && m in members
      modifies this
      ensures Valid() && State() == MemberDeleted(old(State()), m)
    {
      MemberDeletedCoherent(State(), m);
      AffectedLive(State(), m);
      DeleteMemberRecords(m);
    }

    /** The deletion's three stages. */
    method DeleteMemberRecords(m: MemberId)
      requires m in members && Affected(State(), m) <= subscriptions.Keys
      modifies this
      ensures State() == MemberDeleted(old(State()), m)
    {
      ghost var st0 := State();
      var affected := set y | y in members[m].shares && y in shares && shares[y].subscription.Some? :: shares[y].subscription.value;
      assert affected == Affected(st0, m);
      var own := members[m].shares;
      DeleteShares(own);
      SharesDeletedLists(st0, own);
      ResetCosts(affected);
      RemoveMember(m);
    }

    /** `for share in member.shares { modelContext.delete(share) }`, over the
        list as it was when the loop began. */
    method DeleteShares(own: seq<ShareId>)
      modifies this
      ensures State() == SharesDeleted(old(State()), own)
    {
      ghost var st0 := State();
      var i := 0;
      while i < |own|
        invariant 0 <= i <= |own|
        invariant State() == SharesDeleted(st0, own[..i])
      {
        assert own[..i + 1][..i] == own[..i];
        DeleteShare(own[i]);
        i := i + 1;
      }
      assert own[..|own|] == own;
    }

    /** `for subscription in affectedSubscriptions { ... }`, in any order. */
    method ResetCosts(affected: set<SubscriptionId>)
      requires affected <= subscriptions.Keys
      modifies this
      ensures State() == CostsReset(old(State()), affected)
    {
      ghost var st0 := State();
      var todo := affected;
      CostsResetNone(st0);
      while todo != {}
        invariant todo <= affected
        invariant State() == CostsReset(st0, affected - todo)
        decreases |todo|
      {
        var s :| s in todo;
        CostsResetStep(st0, affected - todo, s);
        ResetCost(s);
        assert affected - todo + {s} == affected - (todo - {s});
        todo := todo - {s};
      }
    }

    /** `modelContext.delete(share)`: the share is gone and unlisted everywhere. */
    method DeleteShare(sid: ShareId)
      modifies this
      ensures State() == ShareDeleted(old(State()), sid)
    {
      var ms := map k | k in members :: members[k].(shares := Without(members[k].shares, sid));
      var ss := map s | s in subscriptions :: subscriptions[s].(shares := Without(subscriptions[s].shares, sid));
      members, subscriptions, shares := ms, ss, shares - {sid};
    }

    /** `subscription.totalCost = sumOfShares`. */
    method ResetCost(s: SubscriptionId)
      requires s in subscriptions
      modifies this
      ensures State() == CostReset(old(State()), s)
    {
      var sumOfShares := Total(shares, subscriptions[s].shares, ShareAmount);
      subscriptions := subscriptions[s := subscriptions[s].(totalCost := sumOfShares)];
    }

    /** `modelContext.delete(member)`: the member is gone, and the records that
        named it no longer name anyone. */
    method RemoveMember(m: MemberId)
      modifies this
      ensures State() == MemberRemoved(old(State()), m)
    {
      var sh := map y | y in shares :: if shares[y].member == Some(m) then shares[y].(member := None) else shares[y];
      var ls := map l | l in logs :: if logs[l].paidBy == Some(m) then logs[l].(paidBy := None) else logs[l];
      members, shares, logs := members - {m}, sh, ls;
    }

    // ----- The settings records -----

    /** `modelContext.insert(AppSettings(...))` with id `nextId`. */
    method InsertSettings(currency: Option<string>, userName: string, now: int)
      requires Valid()
      modifies this
      ensures Valid() && State() == SettingsInserted(old(State()), currency, userName, now)
    {
      SettingsInsertedCoherent(State(), currency, userName, now);
      settings := settings + [NewAppSettings(nextId, currency, userName, now)];
      nextId := nextId + 1;
    }

    /** `modelContext.delete` of a settings record. */
    method DeleteSettings(id: SettingsId)
      requires Valid()
      modifies this
      ensures Valid() && State() == SettingsDeleted(old(State()), id)
    {
      SettingsDeletedEffect(State(), id);
      settings := Filter(settings, (a: AppSettings) => a.id != id);
    }

    /** The form's values written into the first record, stamped `now`. */
    method UpdateFirstSettings(currency: string, userName: string, now: int)
      requires Valid() && settings != []
      modifies this
      ensures Valid() && State() == SettingsUpdated(old(State()), currency, userName, now)
    {
      SettingsSavedEffect(State(), currency, userName, now);
      settings := settings[0 := settings[0].(defaultCurrency := Some(currency), userName := userName, updatedAt := now)];
    }
  }
}
