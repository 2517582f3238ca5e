/** The two string-backed enums a subscription stores by raw value:
    `SubscriptionCategory` and `BillingCycle`. */
module Categories {
  import opened Common

  /** Category for analytics. The declaration order is `allCases`. */
  datatype SubscriptionCategory = Media | Software | Utilities | Other

  /** `SubscriptionCategory.allCases` */
  function AllCategories(): (r: seq<SubscriptionCategory>)
    ensures |r| == 4 && NoDup(r)
    ensures r[0] == Media && r[1] == Software && r[2] == Utilities && r[3] == Other
  {
    [Media, Software, Utilities, Other]
  }

  /** Every category is one of `allCases`. */
  lemma CategoryListed(c: SubscriptionCategory)
    ensures c in AllCategories()
  {
    var r := AllCategories();
    match c
    case Media => assert r[0] == c;
    case Software => assert r[1] == c;
    case Utilities => assert r[2] == c;
    case Other => assert r[3] == c;
  }

  /** `rawValue` */
  function CategoryRaw(c: SubscriptionCategory): string {
    match c
    case Media => "Media"
    case Software => "Software"
    case Utilities => "Utilities"
    case Other => "Other"
  }

  /** `displayName` is the raw value, so the name shown reads back as the case. */
  function CategoryDisplayName(c: SubscriptionCategory): (r: string)
    ensures r != [] && CategoryFromRaw(r) == Some(c)
  {
    CategoryRaw(c)
  }

  /** `SubscriptionCategory(rawValue:)`: the case whose raw value is `s`, if any. */
  function CategoryFromRaw(s: string): (r: Option<SubscriptionCategory>)
    ensures r.Some? ==> CategoryRaw(r.value) == s
    ensures r.None? ==> forall c :: CategoryRaw(c) != s
  {
    if s == "Media" then Some(Media)
    else if s == "Software" then Some(Software)
    else if s == "Utilities" then Some(Utilities)
    else if s == "Other" then Some(Other)
    else None
  }

  /** Raw values are distinct, so the raw value of a case reads back as that case. */
  lemma CategoryRawRoundTrip(c: SubscriptionCategory)
    ensures CategoryFromRaw(CategoryRaw(c)) == Some(c)
  {
  }

  /** How often a subscription is billed. */
  datatype BillingCycle = Monthly | Yearly

  /** `BillingCycle.allCases` */
  function AllBillingCycles(): (r: seq<BillingCycle>)
    ensures |r| == 2 && NoDup(r)
  {
    [Monthly, Yearly]
  }

  /** `rawValue` (also its `displayName`) */
  function BillingCycleRaw(b: BillingCycle): string {
    match b
    case Monthly => "Monthly"
    case Yearly => "Yearly"
  }

  /** `BillingCycle(rawValue:)` */
  function BillingCycleFromRaw(s: string): (r: Option<BillingCycle>)
    ensures r.Some? ==> BillingCycleRaw(r.value) == s
    ensures r.None? ==> forall b :: BillingCycleRaw(b) != s
  {
    if s == "Monthly" then Some(Monthly)
    else if s == "Yearly" then Some(Yearly)
    else None
  }

  lemma BillingCycleRawRoundTrip(b: BillingCycle)
    ensures BillingCycleFromRaw(BillingCycleRaw(b)) == Some(b)
  {
  }
}
