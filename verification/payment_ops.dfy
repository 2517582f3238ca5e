/** The two actions on payment logs, as transitions of the stored state: the
    "Log payment" sheet's save, which records a payment and debits the payer,
    and the history's "Mark settled" action. */
module PaymentOps {
  import opened Common
  import opened Models
  import opened Totals
  import opened Links
  import opened StoreState
  import PaymentLogList

  // ----- Recording a payment -----

  /** The new unsettled log `nextId`, as the sheet builds it. */
  function RecordedLog(m: MemberId, s: SubscriptionId, amount: real, currency: string, note: string, now: int): PaymentLog {
    NewPaymentLog(amount, currency, now, note, false, Some(m), Some(s))
  }

  /** The log is inserted, appended to the subscription's and the payer's
      lists, and its amount is taken off the payer's balance. */
  function PaymentAdded(st: LedgerState, m: MemberId, s: SubscriptionId, amount: real,
                        currency: string, note: string, now: int): LedgerState
    requires m in st.members && s in st.subscriptions
  {
    var n := st.nextId;
    LedgerState(
      st.members[m := st.members[m].(totalBalance := st.members[m].totalBalance - amount,
                                     paymentsMade := st.members[m].paymentsMade + [n])],
      st.shares,
      st.subscriptions[s := st.subscriptions[s].(paymentLogs := st.subscriptions[s].paymentLogs + [n])],
      st.logs[n := RecordedLog(m, s, amount, currency, note, now)],
      st.settings, n + 1)
  }

  lemma PaymentAddedMemberLinks(st: LedgerState, m: MemberId, s: SubscriptionId, amount: real,
                                currency: string, note: string, now: int)
    requires Inverse(st.members, st.shares, MemberShares, ShareMember) && Inverse(st.members, st.logs, MemberPayments, LogPayer)
    requires st.nextId !in st.logs && m in st.members && s in st.subscriptions
    ensures var r := PaymentAdded(st, m, s, amount, currency, note, now);
      Inverse(r.members, r.shares, MemberShares, ShareMember) && Inverse(r.members, r.logs, MemberPayments, LogPayer)
  {
    var r := PaymentAdded(st, m, s, amount, currency, note, now);
    AddChild(st.members, st.logs, r.members, r.logs, MemberPayments, LogPayer, st.nextId, m);
    Transfer(st.members, st.shares, r.members, r.shares, MemberShares, ShareMember);
  }

  lemma PaymentAddedSubscriptionLinks(st: LedgerState, m: MemberId, s: SubscriptionId, amount: real,
                                      currency: string, note: string, now: int)
    requires Inverse(st.subscriptions, st.shares, SubscriptionShares, ShareSubscription)
    requires Inverse(st.subscriptions, st.logs, SubscriptionLogs, LogSubscription)
    requires st.nextId !in st.logs && m in st.members && s in st.subscriptions
    ensures var r := PaymentAdded(st, m, s, amount, currency, note, now);
      && Inverse(r.subscriptions, r.shares, SubscriptionShares, ShareSubscription)
      && Inverse(r.subscriptions, r.logs, SubscriptionLogs, LogSubscription)
  {
    var r := PaymentAdded(st, m, s, amount, currency, note, now);
    AddChild(st.subscriptions, st.logs, r.subscriptions, r.logs, SubscriptionLogs, LogSubscription, st.nextId, s);
    Transfer(st.subscriptions, st.shares, r.subscriptions, r.shares, SubscriptionShares, ShareSubscription);
  }

  lemma PaymentAddedFresh(st: LedgerState, m: MemberId, s: SubscriptionId, amount: real,
                          currency: string, note: string, now: int)
    requires SharesAttached(st) && IdsFresh(st) && m in st.members && s in st.subscriptions
    ensures var r := PaymentAdded(st, m, s, amount, currency, note, now); SharesAttached(r) && IdsFresh(r)
  {
  }

  /** What the payer owes drops by the amount paid; what anyone else owes
      does not change. */
  lemma PaymentAddedOwed(st: LedgerState, m: MemberId, s: SubscriptionId, amount: real,
                         currency: string, note: string, now: int, k: MemberId)
    requires Inverse(st.members, st.logs, MemberPayments, LogPayer)
    requires st.nextId !in st.logs && m in st.members && s in st.subscriptions && k in st.members
    ensures var r := PaymentAdded(st, m, s, amount, currency, note, now);
      Owed(r.members[k], r.shares, r.logs) == Owed(st.members[k], st.shares, st.logs) - (if k == m then amount else 0.0)
  {
    var r := PaymentAdded(st, m, s, amount, currency, note, now);
    var ids := st.members[k].paymentsMade;
    MemberPaymentsOwned(st.members, st.logs, k);
    TotalAgree(r.logs, st.logs, ids, LogAmount);
    if k == m {
      TotalAppend(r.logs, ids, st.nextId, LogAmount);
    }
  }

  lemma PaymentAddedBalanced(st: LedgerState, m: MemberId, s: SubscriptionId, amount: real,
                             currency: string, note: string, now: int)
    requires Inverse(st.members, st.logs, MemberPayments, LogPayer) && Balanced(st)
    requires st.nextId !in st.logs && m in st.members && s in st.subscriptions
    ensures Balanced(PaymentAdded(st, m, s, amount, currency, note, now))
  {
    var r := PaymentAdded(st, m, s, amount, currency, note, now);
    forall k | k in r.members ensures r.members[k].totalBalance == Owed(r.members[k], r.shares, r.logs) {
      PaymentAddedOwed(st, m, s, amount, currency, note, now, k);
    }
  }

  /** Recording a payment keeps the store coherent. */
  lemma PaymentAddedCoherent(st: LedgerState, m: MemberId, s: SubscriptionId, amount: real,
                             currency: string, note: string, now: int)
    requires Coherent(st) && m in st.members && s in st.subscriptions
    ensures Coherent(PaymentAdded(st, m, s, amount, currency, note, now))
  {
    PaymentAddedMemberLinks(st, m, s, amount, currency, note, now);
    PaymentAddedSubscriptionLinks(st, m, s, amount, currency, note, now);
    PaymentAddedFresh(st, m, s, amount, currency, note, now);
    PaymentAddedBalanced(st, m, s, amount, currency, note, now);
  }

  /** The payer's balance drops by exactly the amount, which may take it below
      zero; the log is new, unsettled, and carries the sheet's values; no
      share, no cost and no other member changes, and the subscription's share
      sum stays as it was. */
  lemma PaymentAddedEffect(st: LedgerState, m: MemberId, s: SubscriptionId, amount: real,
                           currency: string, note: string, now: int)
    requires IdsFresh(st) && m in st.members && s in st.subscriptions
    ensures var r := PaymentAdded(st, m, s, amount, currency, note, now);
      && st.nextId !in st.logs && st.nextId in r.logs
      && r.logs[st.nextId].amount == amount && !r.logs[st.nextId].isSettled
      && r.logs[st.nextId].paidBy == Some(m) && r.logs[st.nextId].subscription == Some(s)
      && r.logs[st.nextId].currency == currency && r.logs[st.nextId].note == note
      && r.members[m].totalBalance == st.members[m].totalBalance - amount
      && (forall k :: k in st.members && k != m ==> r.members[k] == st.members[k])
      && r.shares == st.shares
      && r.subscriptions.Keys == st.subscriptions.Keys
      && (forall s' :: s' in st.subscriptions ==>
            && r.subscriptions[s'].totalCost == st.subscriptions[s'].totalCost
            && ShareTotal(r, s') == ShareTotal(st, s'))
      && (forall l :: l in st.logs ==> l in r.logs && r.logs[l] == st.logs[l])
  {
  }

  // ----- Settling a payment -----

  /** `markSettled`: the log's `isSettled` becomes true. */
  function LogSettled(st: LedgerState, lid: LogId): LedgerState
    requires lid in st.logs
  {
    st.(logs := st.logs[lid := PaymentLogList.Settled(st.logs[lid])])
  }

  lemma LogSettledLinked(st: LedgerState, lid: LogId)
    requires Linked(st) && lid in st.logs
    ensures Linked(LogSettled(st, lid))
  {
    var r := LogSettled(st, lid);
    Transfer(st.members, st.logs, r.members, r.logs, MemberPayments, LogPayer);
    Transfer(st.subscriptions, st.logs, r.subscriptions, r.logs, SubscriptionLogs, LogSubscription);
  }

  /** Settling keeps the store coherent: it moves no amount and no relationship. */
  lemma LogSettledCoherent(st: LedgerState, lid: LogId)
    requires Coherent(st) && lid in st.logs
    ensures Coherent(LogSettled(st, lid))
  {
    LogSettledLinked(st, lid);
    LogSettledEffect(st, lid);
  }

  /** Settling marks the log settled and changes nothing else: no amount, no
      balance, no other log. Settling again changes nothing. */
  lemma LogSettledEffect(st: LedgerState, lid: LogId)
    requires lid in st.logs
    ensures var r := LogSettled(st, lid);
      && r.logs.Keys == st.logs.Keys && r.logs[lid].isSettled
      && r.logs[lid].(isSettled := st.logs[lid].isSettled) == st.logs[lid]
      && (forall l :: l in st.logs && l != lid ==> r.logs[l] == st.logs[l])
      && r.members == st.members && r.shares == st.shares && r.subscriptions == st.subscriptions
      && (forall k :: k in st.members ==> Owed(r.members[k], r.shares, r.logs) == Owed(st.members[k], st.shares, st.logs))
      && LogSettled(r, lid) == r
  {
    var r := LogSettled(st, lid);
    forall k | k in st.members ensures Owed(r.members[k], r.shares, r.logs) == Owed(st.members[k], st.shares, st.logs) {
      TotalAgree(r.logs, st.logs, st.members[k].paymentsMade, LogAmount);
    }
    PaymentLogList.SettledIdempotent(st.logs[lid]);
  }
}
