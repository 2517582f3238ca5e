/** Everything the app persists, as one value, and the two invariants that hold
    between the screens' actions:
    - the four to-many relationships agree with their inverse references
      (`Links.Inverse`), every share belongs to a member and a subscription,
      and every id is below the next id to hand out (`Linked`);
    - every member's running balance equals the sum of the member's share
      amounts minus the sum of the member's payments (`Balanced`).
    The store (`Store.Ledger`) holds the same fields and changes them in place. */
module StoreState {
  import opened Common
  import opened Models
  import opened Totals
  import opened Links

  /** The persisted records by id, the settings records in fetch order, and
      the next id to hand out (new records get fresh ids, as SwiftData's
      object identities are fresh). */
  datatype LedgerState = LedgerState(
    members: map<MemberId, Member>,
    shares: map<ShareId, Share>,
    subscriptions: map<SubscriptionId, Subscription>,
    logs: map<LogId, PaymentLog>,
    settings: seq<AppSettings>,
    nextId: nat)

  /** A store with no records. */
  function EmptyLedger(): LedgerState {
    LedgerState(map[], map[], map[], map[], [], 0)
  }

  /** Every share was created with a member and a subscription, and no action
      takes either away without deleting the share. */
  ghost predicate SharesAttached(st: LedgerState) {
    forall k :: k in st.shares ==> st.shares[k].member.Some? && st.shares[k].subscription.Some?
  }

  /** No two settings records share an id. */
  ghost predicate SettingsDistinct(settings: seq<AppSettings>) {
    forall i, j :: 0 <= i < j < |settings| ==> settings[i].id != settings[j].id
  }

  /** Every id in use is below `nextId`, and the settings records have distinct ids. */
  ghost predicate IdsFresh(st: LedgerState) {
    && (forall k :: k in st.members ==> k < st.nextId)
    && (forall k :: k in st.shares ==> k < st.nextId)
    && (forall k :: k in st.subscriptions ==> k < st.nextId)
    && (forall k :: k in st.logs ==> k < st.nextId)
    && (forall a :: a in st.settings ==> a.id < st.nextId)
    && SettingsDistinct(st.settings)
  }

  /** The relationships agree with their inverses, shares are attached, ids are fresh. */
  ghost predicate Linked(st: LedgerState) {
    && Inverse(st.members, st.shares, MemberShares, ShareMember)
    && Inverse(st.subscriptions, st.shares, SubscriptionShares, ShareSubscription)
    && Inverse(st.members, st.logs, MemberPayments, LogPayer)
    && Inverse(st.subscriptions, st.logs, SubscriptionLogs, LogSubscription)
    && SharesAttached(st)
    && IdsFresh(st)
  }

  /** What a member should owe: its share amounts minus its payments. */
  function Owed(mem: Member, shares: map<ShareId, Share>, logs: map<LogId, PaymentLog>): real {
    Total(shares, mem.shares, ShareAmount) - Total(logs, mem.paymentsMade, LogAmount)
  }

  /** Every member's running balance is what it should owe. */
  ghost predicate Balanced(st: LedgerState) {
    forall m :: m in st.members ==> st.members[m].totalBalance == Owed(st.members[m], st.shares, st.logs)
  }

  /** The invariant kept by every action of the screens. */
  ghost predicate Coherent(st: LedgerState) {
    Linked(st) && Balanced(st)
  }

  /** The empty store is coherent. */
  lemma EmptyLedgerCoherent()
    ensures Coherent(EmptyLedger())
  {
  }

  /** The shares of one subscription, in its list order. */
  function SharesOf(st: LedgerState, s: SubscriptionId): seq<ShareId>
    requires s in st.subscriptions
  {
    st.subscriptions[s].shares
  }

  /** The sum of the amounts of a subscription's shares (`currentSharesSum`). */
  function ShareTotal(st: LedgerState, s: SubscriptionId): real
    requires s in st.subscriptions
  {
    Total(st.shares, st.subscriptions[s].shares, ShareAmount)
  }

  /** A member lists its shares once each, and each of them names it. */
  lemma MemberSharesOwned(members: map<MemberId, Member>, shares: map<ShareId, Share>, k: MemberId)
    requires Inverse(members, shares, MemberShares, ShareMember) && k in members
    ensures NoDup(members[k].shares)
    ensures forall y :: y in members[k].shares ==> y in shares && shares[y].member == Some(k)
  {
    assert NoDup(MemberShares(members[k]));
    forall y | y in members[k].shares ensures y in shares && shares[y].member == Some(k) {
      assert y in MemberShares(members[k]);
    }
  }

  /** A subscription lists its shares once each, and each of them names it. */
  lemma SubscriptionSharesOwned(subscriptions: map<SubscriptionId, Subscription>, shares: map<ShareId, Share>, s: SubscriptionId)
    requires Inverse(subscriptions, shares, SubscriptionShares, ShareSubscription) && s in subscriptions
    ensures NoDup(subscriptions[s].shares)
    ensures forall y :: y in subscriptions[s].shares ==> y in shares && shares[y].subscription == Some(s)
  {
    assert NoDup(SubscriptionShares(subscriptions[s]));
    forall y | y in subscriptions[s].shares ensures y in shares && shares[y].subscription == Some(s) {
      assert y in SubscriptionShares(subscriptions[s]);
    }
  }

  /** A member lists its payments once each, and each of them names it as payer. */
  lemma MemberPaymentsOwned(members: map<MemberId, Member>, logs: map<LogId, PaymentLog>, k: MemberId)
    requires Inverse(members, logs, MemberPayments, LogPayer) && k in members
    ensures NoDup(members[k].paymentsMade)
    ensures forall y :: y in members[k].paymentsMade ==> y in logs && logs[y].paidBy == Some(k)
  {
    assert NoDup(MemberPayments(members[k]));
    forall y | y in members[k].paymentsMade ensures y in logs && logs[y].paidBy == Some(k) {
      assert y in MemberPayments(members[k]);
    }
  }

  /** A share that names a member is listed by that live member. */
  lemma ShareListedByMember(members: map<MemberId, Member>, shares: map<ShareId, Share>, y: ShareId)
    requires Inverse(members, shares, MemberShares, ShareMember) && y in shares && shares[y].member.Some?
    ensures shares[y].member.value in members && y in members[shares[y].member.value].shares
  {
    assert ShareMember(shares[y]).Some?;
  }

  /** In a coherent store a share's member and subscription are live and list it. */
  lemma ShareOwners(st: LedgerState, k: ShareId)
    requires Linked(st) && k in st.shares
    ensures st.shares[k].member.Some? && st.shares[k].member.value in st.members
    ensures k in st.members[st.shares[k].member.value].shares
    ensures st.shares[k].subscription.Some? && st.shares[k].subscription.value in st.subscriptions
    ensures k in st.subscriptions[st.shares[k].subscription.value].shares
  {
    assert ShareMember(st.shares[k]).Some?;
    assert ShareSubscription(st.shares[k]).Some?;
  }

  /** In a coherent store a subscription lists live shares, each once, each
      pointing back at it and held by a live member. */
  lemma SubscriptionSharesLive(st: LedgerState, s: SubscriptionId)
    requires Linked(st) && s in st.subscriptions
    ensures NoDup(st.subscriptions[s].shares)
    ensures forall k :: k in st.subscriptions[s].shares ==>
      && k in st.shares && st.shares[k].subscription == Some(s)
      && st.shares[k].member.Some? && st.shares[k].member.value in st.members
  {
    forall k | k in st.subscriptions[s].shares
      ensures k in st.shares && st.shares[k].member.Some? && st.shares[k].member.value in st.members
    {
      assert k in st.shares;
      assert ShareMember(st.shares[k]).Some?;
    }
  }
}
