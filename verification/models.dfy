/** The persisted records: Member, Share, PaymentLog, Subscription and
    AppSettings. Each record is a value; the store (`Store.Ledger`) keeps them
    in maps keyed by id, and a reference to another record is that record's id.
    Dates are integer timestamps. */
module Models {
  import opened Common
  import opened Text
  import opened Categories

  type MemberId = nat
  type ShareId = nat
  type LogId = nat
  type SubscriptionId = nat
  type SettingsId = nat

  /** A person sharing subscriptions. `totalBalance` is a running balance:
      positive means the member owes, negative that the member is owed.
      `shares` and `paymentsMade` are the inverses of `Share.member` and
      `PaymentLog.paidBy`. */
  datatype Member = Member(
    name: string,
    email: string,
    phone: string,
    totalBalance: real,
    createdAt: int,
    shares: seq<ShareId>,
    paymentsMade: seq<LogId>)

  /** `Member.init`, with its defaults; a new member has no shares and no payments. */
  function NewMember(name: string, email: string := "", phone: string := "",
                     totalBalance: real := 0.0, createdAt: int): Member
  {
    Member(name, email, phone, totalBalance, createdAt, [], [])
  }

  /** A member's portion of one subscription's cost. `isFixed` marks an amount
      entered by hand rather than computed by an equal split. */
  datatype Share = Share(
    amount: real,
    isFixed: bool,
    member: Option<MemberId>,
    subscription: Option<SubscriptionId>)

  /** `Share.init`, with its defaults. */
  function NewShare(amount: real, isFixed: bool := false,
                    member: Option<MemberId> := None, subscription: Option<SubscriptionId> := None): Share
  {
    Share(amount, isFixed, member, subscription)
  }

  /** A payment a member made towards a subscription. */
  datatype PaymentLog = PaymentLog(
    amount: real,
    currency: string,
    paidAt: int,
    note: string,
    isSettled: bool,
    paidBy: Option<MemberId>,
    subscription: Option<SubscriptionId>)

  /** `PaymentLog.init`, with its defaults. */
  function NewPaymentLog(amount: real, currency: string := "USD", paidAt: int, note: string := "",
                         isSettled: bool := false, paidBy: Option<MemberId> := None,
                         subscription: Option<SubscriptionId> := None): PaymentLog
  {
    PaymentLog(amount, currency, paidAt, note, isSettled, paidBy, subscription)
  }

  /** A shared recurring subscription. The billing cycle and the category are
      stored as raw strings; `shares` and `paymentLogs` are the inverses of
      `Share.subscription` and `PaymentLog.subscription`. */
  datatype Subscription = Subscription(
    serviceName: string,
    iconName: string,
    totalCost: real,
    currency: string,
    billingCycleRaw: string,
    categoryRaw: string,
    nextBillingDate: int,
    createdAt: int,
    isActive: bool,
    shares: seq<ShareId>,
    paymentLogs: seq<LogId>)

  /** `Subscription.init`, with its defaults. */
  function NewSubscription(serviceName: string, iconName: string := "creditcard.fill",
                           totalCost: real, currency: string := "USD",
                           billingCycle: BillingCycle := Monthly, category: SubscriptionCategory := Media,
                           nextBillingDate: int, createdAt: int, isActive: bool := true): Subscription
  {
    Subscription(serviceName, iconName, totalCost, currency, BillingCycleRaw(billingCycle),
                 CategoryRaw(category), nextBillingDate, createdAt, isActive, [], [])
  }

  /** The `billingCycle` getter: an unknown raw string reads as monthly. */
  function BillingCycleOf(s: Subscription): BillingCycle {
    BillingCycleFromRaw(s.billingCycleRaw).GetOr(Monthly)
  }

  /** The `billingCycle` setter. */
  function WithBillingCycle(s: Subscription, b: BillingCycle): Subscription {
    s.(billingCycleRaw := BillingCycleRaw(b))
  }

  /** The `category` getter: an unknown raw string reads as `.other`. */
  function CategoryOf(s: Subscription): SubscriptionCategory {
    CategoryFromRaw(s.categoryRaw).GetOr(Other)
  }

  /** The `category` setter. */
  function WithCategory(s: Subscription, c: SubscriptionCategory): Subscription {
    s.(categoryRaw := CategoryRaw(c))
  }

  /** Setting the billing cycle and reading it back gives the value set, and
      nothing but the raw field changes. */
  lemma BillingCycleSetGet(s: Subscription, b: BillingCycle)
    ensures BillingCycleOf(WithBillingCycle(s, b)) == b
    ensures WithBillingCycle(s, b).(billingCycleRaw := s.billingCycleRaw) == s
  {
  }

  /** A raw string that names no billing cycle reads as monthly. */
  lemma UnknownBillingCycleIsMonthly(s: Subscription)
    requires s.billingCycleRaw != "Monthly" && s.billingCycleRaw != "Yearly"
    ensures BillingCycleOf(s) == Monthly
  {
  }

  /** Setting the category and reading it back gives the value set. */
  lemma CategorySetGet(s: Subscription, c: SubscriptionCategory)
    ensures CategoryOf(WithCategory(s, c)) == c
    ensures WithCategory(s, c).(categoryRaw := s.categoryRaw) == s
  {
  }

  /** A raw string that names no category reads as `.other`. */
  lemma UnknownCategoryIsOther(s: Subscription)
    requires forall c :: CategoryRaw(c) != s.categoryRaw
    ensures CategoryOf(s) == Other
  {
  }

  /** A member made with only a name has a zero balance, no email or phone,
      and no shares or payments. */
  lemma NewMemberDefaults(name: string, now: int)
    ensures var m := NewMember(name, createdAt := now);
      && m.name == name && m.totalBalance == 0.0 && m.email == [] && m.phone == []
      && m.shares == [] && m.paymentsMade == [] && m.createdAt == now
  {
  }

  /** A share made with only an amount keeps it, is not fixed, and belongs to
      nobody yet. */
  lemma NewShareDefaults(amount: real)
    ensures var s := NewShare(amount);
      s.amount == amount && !s.isFixed && s.member.None? && s.subscription.None?
  {
  }

  /** A payment made with only an amount keeps it, is unsettled, in dollars,
      and has no note, payer or subscription. */
  lemma NewPaymentLogDefaults(amount: real, now: int)
    ensures var l := NewPaymentLog(amount, paidAt := now);
      && l.amount == amount && l.currency == "USD" && l.note == [] && !l.isSettled
      && l.paidBy.None? && l.subscription.None? && l.paidAt == now
  {
  }

  /** A subscription made with only its required fields: active, in dollars,
      with the generic card icon, billed monthly, in the media category, and
      with no shares and no payments yet. */
  lemma NewSubscriptionDefaults(name: string, cost: real, next: int, now: int)
    ensures var s := NewSubscription(name, totalCost := cost, nextBillingDate := next, createdAt := now);
      && s.isActive && s.currency == "USD" && s.iconName == "creditcard.fill"
      && BillingCycleOf(s) == Monthly && CategoryOf(s) == Media
      && s.shares == [] && s.paymentLogs == [] && s.totalCost == cost
  {
  }

  /** The cost normalised to one month (the "burn rate"): the cost itself for a
      monthly plan, a twelfth of it for a yearly one. For a non-negative cost it
      lies between 0 and the cost. */
  function MonthlyEquivalent(s: Subscription): (r: real)
    ensures BillingCycleOf(s) == Monthly ==> r == s.totalCost
    ensures BillingCycleOf(s) == Yearly ==> 12.0 * r == s.totalCost
    ensures s.totalCost >= 0.0 ==> 0.0 <= r <= s.totalCost
  {
    match BillingCycleOf(s)
    case Monthly => s.totalCost
    case Yearly => s.totalCost / 12.0
  }

  /** `subs.reduce(0) { $0 + $1.monthlyEquivalent }`. */
  function MonthlyTotal(subs: seq<Subscription>): real {
    if subs == [] then 0.0 else MonthlyTotal(subs[..|subs| - 1]) + MonthlyEquivalent(subs[|subs| - 1])
  }

  /** The singleton settings record. `defaultCurrency` is optional because
      records migrated from an older store lack it. */
  datatype AppSettings = AppSettings(
    id: SettingsId,
    defaultCurrency: Option<string>,
    userName: string,
    updatedAt: int)

  /** `AppSettings.init`, with its defaults. */
  function NewAppSettings(id: SettingsId, defaultCurrency: Option<string> := Some("USD"),
                          userName: string := "", updatedAt: int): AppSettings
  {
    AppSettings(id, defaultCurrency, userName, updatedAt)
  }

  /** `resolvedDefaultCurrency`: the stored currency with surrounding whitespace
      removed, or "USD" when it is missing or blank. Never empty. */
  function ResolvedDefaultCurrency(a: AppSettings): (r: string)
    ensures a.defaultCurrency.None? ==> r == "USD"
    ensures a.defaultCurrency.Some? && Trim(a.defaultCurrency.value) == [] ==> r == "USD"
    ensures a.defaultCurrency.Some? && Trim(a.defaultCurrency.value) != [] ==> r == Trim(a.defaultCurrency.value)
  {
    match a.defaultCurrency
    case None => "USD"
    case Some(c) => if Trim(c) == [] then "USD" else Trim(c)
  }

  /** The resolved currency is never empty and is its own trim. */
  lemma ResolvedCurrencyTrimmed(a: AppSettings)
    ensures var r := ResolvedDefaultCurrency(a); r != [] && Trim(r) == r
  {
    var r := ResolvedDefaultCurrency(a);
    if r == "USD" {
      TrimUnpadded(r);
    } else {
      TrimIdempotent(a.defaultCurrency.value);
    }
  }

  // Accessors handed to the generic relationship and total definitions.

  function MemberShares(m: Member): seq<ShareId> { m.shares }
  function MemberPayments(m: Member): seq<LogId> { m.paymentsMade }
  function SubscriptionShares(s: Subscription): seq<ShareId> { s.shares }
  function SubscriptionLogs(s: Subscription): seq<LogId> { s.paymentLogs }
  function ShareMember(s: Share): Option<MemberId> { s.member }
  function ShareSubscription(s: Share): Option<SubscriptionId> { s.subscription }
  function LogPayer(l: PaymentLog): Option<MemberId> { l.paidBy }
  function LogSubscription(l: PaymentLog): Option<SubscriptionId> { l.subscription }
  function ShareAmount(s: Share): real { s.amount }
  function LogAmount(l: PaymentLog): real { l.amount }
}
