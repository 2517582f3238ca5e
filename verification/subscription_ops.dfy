/** The actions that overwrite a subscription's own fields without touching its
    shares or payments: the edit screen's Save, the detail screen's "Mark
    inactive", and the cost reset that follows a member's deletion. */
module SubscriptionOps {
  import opened Models
  import opened Totals
  import opened Links
  import opened StoreState
  import EditSubscription

  /** Subscription `s` is replaced by `sub`. */
  function SubscriptionUpdated(st: LedgerState, s: SubscriptionId, sub: Subscription): LedgerState
    requires s in st.subscriptions
  {
    st.(subscriptions := st.subscriptions[s := sub])
  }

  /** Overwriting a subscription's fields, with its share and payment lists as
      they were, keeps the store coherent. */
  lemma SubscriptionUpdatedCoherent(st: LedgerState, s: SubscriptionId, sub: Subscription)
    requires Coherent(st) && s in st.subscriptions
    requires sub.shares == st.subscriptions[s].shares && sub.paymentLogs == st.subscriptions[s].paymentLogs
    ensures Coherent(SubscriptionUpdated(st, s, sub))
  {
    var r := SubscriptionUpdated(st, s, sub);
    Transfer(st.subscriptions, st.shares, r.subscriptions, r.shares, SubscriptionShares, ShareSubscription);
    Transfer(st.subscriptions, st.logs, r.subscriptions, r.logs, SubscriptionLogs, LogSubscription);
  }

  /** Such an overwrite leaves every balance, share and payment as it was, and
      every subscription's share sum too. */
  lemma SubscriptionUpdatedKeeps(st: LedgerState, s: SubscriptionId, sub: Subscription)
    requires s in st.subscriptions && sub.shares == st.subscriptions[s].shares
    ensures var r := SubscriptionUpdated(st, s, sub);
      && r.members == st.members && r.shares == st.shares && r.logs == st.logs
      && r.subscriptions.Keys == st.subscriptions.Keys
      && (forall s' :: s' in st.subscriptions ==> ShareTotal(r, s') == ShareTotal(st, s'))
      && (forall s' :: s' in st.subscriptions && s' != s ==> r.subscriptions[s'] == st.subscriptions[s'])
  {
  }

  /** The edit screen's Save: the draft's date, cost and currency are written
      into subscription `s`. */
  function SubscriptionEdited(st: LedgerState, s: SubscriptionId, e: EditSubscription.EditState): LedgerState
    requires s in st.subscriptions
  {
    SubscriptionUpdated(st, s, EditSubscription.Edited(st.subscriptions[s], e))
  }

  /** Save keeps the store coherent, leaves the shares (and so the balances)
      alone, and writes back exactly the draft's three fields. */
  lemma SubscriptionEditedEffect(st: LedgerState, s: SubscriptionId, e: EditSubscription.EditState)
    requires Coherent(st) && s in st.subscriptions
    ensures var r := SubscriptionEdited(st, s, e);
      && Coherent(r)
      && r.members == st.members && r.shares == st.shares && r.logs == st.logs
      && r.subscriptions[s].totalCost == e.totalCost && r.subscriptions[s].currency == e.currency
      && r.subscriptions[s].nextBillingDate == e.nextBillingDate
      && r.subscriptions[s].(nextBillingDate := st.subscriptions[s].nextBillingDate,
                             totalCost := st.subscriptions[s].totalCost,
                             currency := st.subscriptions[s].currency) == st.subscriptions[s]
      && ShareTotal(r, s) == ShareTotal(st, s)
  {
    var sub := EditSubscription.Edited(st.subscriptions[s], e);
    SubscriptionUpdatedCoherent(st, s, sub);
    SubscriptionUpdatedKeeps(st, s, sub);
  }

  /** "Mark inactive": the subscription stops being active. */
  function Deactivated(st: LedgerState, s: SubscriptionId): LedgerState
    requires s in st.subscriptions
  {
    SubscriptionUpdated(st, s, st.subscriptions[s].(isActive := false))
  }

  /** Marking a subscription inactive keeps the store coherent, keeps its
      shares and payments, and changes no other field. */
  lemma DeactivatedEffect(st: LedgerState, s: SubscriptionId)
    requires Coherent(st) && s in st.subscriptions
    ensures var r := Deactivated(st, s);
      && Coherent(r) && !r.subscriptions[s].isActive
      && r.subscriptions[s].(isActive := st.subscriptions[s].isActive) == st.subscriptions[s]
      && r.members == st.members && r.shares == st.shares && r.logs == st.logs
      && Deactivated(r, s) == r
  {
    SubscriptionUpdatedCoherent(st, s, st.subscriptions[s].(isActive := false));
  }

  /** After a member's shares are gone: subscription `s`'s cost becomes the sum
      of the amounts of the shares it still lists. */
  function CostReset(st: LedgerState, s: SubscriptionId): LedgerState
    requires s in st.subscriptions
  {
    SubscriptionUpdated(st, s, st.subscriptions[s].(totalCost := ShareTotal(st, s)))
  }

  /** The cost reset of every subscription in `affected`, in any order. */
  function CostsReset(st: LedgerState, affected: set<SubscriptionId>): LedgerState {
    st.(subscriptions := map s | s in st.subscriptions ::
          if s in affected then st.subscriptions[s].(totalCost := ShareTotal(st, s)) else st.subscriptions[s])
  }

  /** Resetting one more subscription's cost extends the batch: the order of
      the resets does not matter, as none of them changes a share. */
  lemma CostsResetStep(st: LedgerState, done: set<SubscriptionId>, s: SubscriptionId)
    requires s in st.subscriptions
    ensures s in CostsReset(st, done).subscriptions
    ensures CostReset(CostsReset(st, done), s) == CostsReset(st, done + {s})
  {
    var p := CostsReset(st, done);
    assert ShareTotal(p, s) == ShareTotal(st, s);
    assert p.subscriptions[s := p.subscriptions[s].(totalCost := ShareTotal(p, s))]
        == CostsReset(st, done + {s}).subscriptions;
  }

  /** Resetting no cost changes nothing. */
  lemma CostsResetNone(st: LedgerState)
    ensures CostsReset(st, {}) == st
  {
    assert CostsReset(st, {}).subscriptions == st.subscriptions;
  }

  /** Cost resets keep the relationships, as they change no list. */
  lemma CostsResetLinked(st: LedgerState, affected: set<SubscriptionId>)
    requires Linked(st)
    ensures Linked(CostsReset(st, affected))
  {
    var r := CostsReset(st, affected);
    Transfer(st.subscriptions, st.shares, r.subscriptions, r.shares, SubscriptionShares, ShareSubscription);
    Transfer(st.subscriptions, st.logs, r.subscriptions, r.logs, SubscriptionLogs, LogSubscription);
  }

  /** Cost resets change nothing but the costs of the subscriptions in
      `affected`, each of which becomes its share sum. */
  lemma CostsResetEffect(st: LedgerState, affected: set<SubscriptionId>)
    ensures var r := CostsReset(st, affected);
      && r.members == st.members && r.shares == st.shares && r.logs == st.logs
      && r.settings == st.settings && r.nextId == st.nextId
      && r.subscriptions.Keys == st.subscriptions.Keys
      && (forall s :: s in st.subscriptions && s in affected ==>
            && r.subscriptions[s].totalCost == ShareTotal(r, s)
            && r.subscriptions[s].(totalCost := st.subscriptions[s].totalCost) == st.subscriptions[s])
      && (forall s :: s in st.subscriptions && s !in affected ==> r.subscriptions[s] == st.subscriptions[s])
  {
  }
}
