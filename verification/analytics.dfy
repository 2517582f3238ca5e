/** The analytics screen: monthly spending of the active subscriptions, broken
    down by category, and the "money saved" card, which compares that spending
    with the share of the member who stands for the app's user. */
module Analytics {
  import opened Common
  import opened Text
  import opened Categories
  import opened Models
  import opened Totals

  /** The subscriptions the screen queries: the active ones. */
  function ActiveSubscriptions(subs: seq<Subscription>): (r: seq<Subscription>)
    ensures forall s :: s in r <==> s in subs && s.isActive
  {
    Filter(subs, (s: Subscription) => s.isActive)
  }

  /** `totalMonthlyCost`: the monthly equivalents of the active subscriptions, summed. */
  function TotalMonthlyCost(subs: seq<Subscription>): real {
    MonthlyTotal(ActiveSubscriptions(subs))
  }

  /** Costs that are never negative (the price field enforces this). */
  ghost predicate CostsNonNegative(subs: seq<Subscription>) {
    forall i :: 0 <= i < |subs| ==> subs[i].totalCost >= 0.0
  }

  lemma {:induction false} MonthlyTotalNonNegative(subs: seq<Subscription>)
    requires CostsNonNegative(subs)
    ensures MonthlyTotal(subs) >= 0.0
  {
    if subs != [] {
      MonthlyTotalNonNegative(subs[..|subs| - 1]);
    }
  }

  lemma ActiveCostsNonNegative(subs: seq<Subscription>)
    requires CostsNonNegative(subs)
    ensures CostsNonNegative(ActiveSubscriptions(subs))
  {
    var a := ActiveSubscriptions(subs);
    forall i | 0 <= i < |a| ensures a[i].totalCost >= 0.0 {
      assert a[i] in subs;
    }
  }

  /** One category's monthly spending: the monthly equivalents of the
      subscriptions in that category (the group `grouped[cat]`), summed. */
  function CategoryTotal(subs: seq<Subscription>, c: SubscriptionCategory): real {
    if subs == [] then 0.0
    else
      var last := subs[|subs| - 1];
      CategoryTotal(subs[..|subs| - 1], c) + (if CategoryOf(last) == c then MonthlyEquivalent(last) else 0.0)
  }

  lemma {:induction false} CategoryTotalNonNegative(subs: seq<Subscription>, c: SubscriptionCategory)
    requires CostsNonNegative(subs)
    ensures CategoryTotal(subs, c) >= 0.0
  {
    if subs != [] {
      CategoryTotalNonNegative(subs[..|subs| - 1], c);
    }
  }

  /** Every subscription falls into exactly one category, so the four category
      totals add up to the whole. */
  lemma {:induction false} CategoryTotalsCoverAll(subs: seq<Subscription>)
    ensures CategoryTotal(subs, Media) + CategoryTotal(subs, Software)
          + CategoryTotal(subs, Utilities) + CategoryTotal(subs, Other) == MonthlyTotal(subs)
  {
    if subs != [] {
      CategoryTotalsCoverAll(subs[..|subs| - 1]);
    }
  }

  /** The position of a category in `allCases`. */
  function CategoryIndex(c: SubscriptionCategory): (r: nat)
    ensures r < |AllCategories()| && AllCategories()[r] == c
  {
    match c
    case Media => 0
    case Software => 1
    case Utilities => 2
    case Other => 3
  }

  /** `allCases.compactMap` over a run of categories: each category with a
      positive total, paired with that total, in the order of the run. */
  function SpendingOver(cats: seq<SubscriptionCategory>, subs: seq<Subscription>): seq<(SubscriptionCategory, real)> {
    if cats == [] then []
    else
      var t := CategoryTotal(subs, cats[0]);
      (if t > 0.0 then [(cats[0], t)] else []) + SpendingOver(cats[1..], subs)
  }

  /** Categories listed in strictly increasing `allCases` position. */
  predicate InCaseOrder(cats: seq<SubscriptionCategory>) {
    forall i, j :: 0 <= i < j < |cats| ==> CategoryIndex(cats[i]) < CategoryIndex(cats[j])
  }

  /** Every entry of `SpendingOver` is a category of the run with its positive total. */
  lemma {:induction false} SpendingOverSound(cats: seq<SubscriptionCategory>, subs: seq<Subscription>)
    ensures forall e :: e in SpendingOver(cats, subs) ==> e.0 in cats && e.1 > 0.0 && e.1 == CategoryTotal(subs, e.0)
  {
    if cats != [] {
      SpendingOverSound(cats[1..], subs);
      var t := CategoryTotal(subs, cats[0]);
      var rest := SpendingOver(cats[1..], subs);
      var head := if t > 0.0 then [(cats[0], t)] else [];
      var r := head + rest;
      assert SpendingOver(cats, subs) == r;
      forall e | e in r ensures e.0 in cats && e.1 > 0.0 && e.1 == CategoryTotal(subs, e.0) {
        if e !in head {
          assert e in rest;
          assert e.0 in cats[1..];
        }
      }
    }
  }

  /** Every category of the run with a positive total has an entry. */
  lemma {:induction false} SpendingOverComplete(cats: seq<SubscriptionCategory>, subs: seq<Subscription>)
    ensures forall c :: c in cats && CategoryTotal(subs, c) > 0.0 ==> exists e :: e in SpendingOver(cats, subs) && e.0 == c
  {
    if cats != [] {
      SpendingOverComplete(cats[1..], subs);
      var t := CategoryTotal(subs, cats[0]);
      var rest := SpendingOver(cats[1..], subs);
      var head := if t > 0.0 then [(cats[0], t)] else [];
      var r := head + rest;
      assert SpendingOver(cats, subs) == r;
      forall c | c in cats && CategoryTotal(subs, c) > 0.0 ensures exists e :: e in r && e.0 == c {
        if c == cats[0] {
          assert r[0] in r && r[0].0 == c;
        } else {
          assert c in cats[1..];
          var e :| e in rest && e.0 == c;
          assert e in r;
        }
      }
    }
  }

  /** Chart entries whose categories are in strictly increasing `allCases` position. */
  predicate EntriesInCaseOrder(r: seq<(SubscriptionCategory, real)>) {
    forall i, j :: 0 <= i < j < |r| ==> CategoryIndex(r[i].0) < CategoryIndex(r[j].0)
  }

  /** The entries keep the order of the run. */
  lemma {:induction false} SpendingOverOrdered(cats: seq<SubscriptionCategory>, subs: seq<Subscription>)
    requires InCaseOrder(cats)
    ensures EntriesInCaseOrder(SpendingOver(cats, subs))
  {
    if cats != [] {
      assert InCaseOrder(cats[1..]);
      SpendingOverOrdered(cats[1..], subs);
      SpendingOverSound(cats[1..], subs);
      var t := CategoryTotal(subs, cats[0]);
      var rest := SpendingOver(cats[1..], subs);
      if t > 0.0 {
        forall x | x in rest ensures CategoryIndex(cats[0]) < CategoryIndex(x.0) {
          var k :| 0 <= k < |cats[1..]| && cats[1..][k] == x.0;
          assert cats[k + 1] == x.0;
        }
        EntryBeforeOrdered((cats[0], t), rest);
      }
    }
  }

  /** An entry whose category comes before every category of an ordered list
      can be put in front of it. */
  lemma EntryBeforeOrdered(e: (SubscriptionCategory, real), rest: seq<(SubscriptionCategory, real)>)
    requires EntriesInCaseOrder(rest)
    requires forall x :: x in rest ==> CategoryIndex(e.0) < CategoryIndex(x.0)
    ensures EntriesInCaseOrder([e] + rest)
  {
    var r := [e] + rest;
    forall i, j | 0 <= i < j < |r| ensures CategoryIndex(r[i].0) < CategoryIndex(r[j].0) {
      assert r[j] == rest[j - 1] && rest[j - 1] in rest;
      if i > 0 {
        assert r[i] == rest[i - 1];
      }
    }
  }

  /** `spendingByCategory`: each category whose active subscriptions cost
      something per month, with that monthly total, in `allCases` order. */
  function SpendingByCategory(subs: seq<Subscription>): (r: seq<(SubscriptionCategory, real)>)
    ensures forall e :: e in r ==> e.1 > 0.0 && e.1 == CategoryTotal(ActiveSubscriptions(subs), e.0)
    ensures forall c :: CategoryTotal(ActiveSubscriptions(subs), c) > 0.0 ==> exists e :: e in r && e.0 == c
    ensures EntriesInCaseOrder(r)
  {
    var cats := AllCategories();
    assert InCaseOrder(cats);
    assert forall c :: c in cats by {
      forall c { CategoryListed(c); }
    }
    SpendingOverSound(cats, ActiveSubscriptions(subs));
    SpendingOverComplete(cats, ActiveSubscriptions(subs));
    SpendingOverOrdered(cats, ActiveSubscriptions(subs));
    SpendingOver(cats, ActiveSubscriptions(subs))
  }

  /** The totals shown in the chart, summed. */
  function ChartTotal(entries: seq<(SubscriptionCategory, real)>): real {
    if entries == [] then 0.0 else entries[0].1 + ChartTotal(entries[1..])
  }

  function SumOverCategories(cats: seq<SubscriptionCategory>, subs: seq<Subscription>): real {
    if cats == [] then 0.0 else CategoryTotal(subs, cats[0]) + SumOverCategories(cats[1..], subs)
  }

  /** Leaving out a category whose total is not positive loses nothing when
      no total is negative. */
  lemma {:induction false} ChartTotalOver(cats: seq<SubscriptionCategory>, subs: seq<Subscription>)
    requires CostsNonNegative(subs)
    ensures ChartTotal(SpendingOver(cats, subs)) == SumOverCategories(cats, subs)
  {
    if cats != [] {
      ChartTotalOver(cats[1..], subs);
      CategoryTotalNonNegative(subs, cats[0]);
      var t := CategoryTotal(subs, cats[0]);
      var rest := SpendingOver(cats[1..], subs);
      if t > 0.0 {
        assert SpendingOver(cats, subs) == [(cats[0], t)] + rest;
        assert ([(cats[0], t)] + rest)[1..] == rest;
      } else {
        assert SpendingOver(cats, subs) == rest;
      }
    }
  }

  /** Summing over `allCases` is summing the four category totals. */
  lemma SumOverAllCategories(subs: seq<Subscription>)
    ensures SumOverCategories(AllCategories(), subs) == CategoryTotal(subs, Media) + CategoryTotal(subs, Software)
          + CategoryTotal(subs, Utilities) + CategoryTotal(subs, Other)
  {
    var cats := AllCategories();
    assert cats[1..] == [Software, Utilities, Other];
    assert cats[1..][1..] == [Utilities, Other];
    assert cats[1..][1..][1..] == [Other];
    assert SumOverCategories([Other], subs) == CategoryTotal(subs, Other);
    assert SumOverCategories([Utilities, Other], subs) == CategoryTotal(subs, Utilities) + CategoryTotal(subs, Other);
    assert SumOverCategories([Software, Utilities, Other], subs)
        == CategoryTotal(subs, Software) + CategoryTotal(subs, Utilities) + CategoryTotal(subs, Other);
  }

  /** With no negative cost, the chart accounts for the whole monthly cost. */
  lemma {:induction false} SpendingCoversMonthlyCost(subs: seq<Subscription>)
    requires CostsNonNegative(subs)
    ensures ChartTotal(SpendingByCategory(subs)) == TotalMonthlyCost(subs)
  {
    var active := ActiveSubscriptions(subs);
    ActiveCostsNonNegative(subs);
    calc {
      ChartTotal(SpendingByCategory(subs));
      ChartTotal(SpendingOver(AllCategories(), active));
      { ChartTotalOver(AllCategories(), active); }
      SumOverCategories(AllCategories(), active);
      { SumOverAllCategories(active); }
      CategoryTotal(active, Media) + CategoryTotal(active, Software) + CategoryTotal(active, Utilities) + CategoryTotal(active, Other);
      { CategoryTotalsCoverAll(active); }
      MonthlyTotal(active);
    }
  }

  /** The user's name as the screen matches it: the first settings record's
      `userName` with surrounding whitespace removed, or empty without a record. */
  function MatchedUserName(settings: seq<AppSettings>): string {
    if settings == [] then "" else Trim(settings[0].userName)
  }

  /** `currentUserMember`: nothing when the user's name is blank; otherwise the
      first member, in the order given (by name), whose name matches it ignoring case. */
  function CurrentUserMember(settings: seq<AppSettings>, roster: seq<MemberId>, members: map<MemberId, Member>): (r: Option<MemberId>)
    ensures MatchedUserName(settings) == [] ==> r.None?
    ensures r.Some? ==>
      && r.value in roster && r.value in members
      && SameIgnoringCase(members[r.value].name, MatchedUserName(settings))
    ensures r.Some? ==> exists k ::
      && 0 <= k < |roster| && roster[k] == r.value
      && forall j :: 0 <= j < k && roster[j] in members ==> !SameIgnoringCase(members[roster[j]].name, MatchedUserName(settings))
    ensures r.None? && MatchedUserName(settings) != [] ==>
      forall m :: m in roster && m in members ==> !SameIgnoringCase(members[m].name, MatchedUserName(settings))
  {
    var name := MatchedUserName(settings);
    if name == [] then None
    else
      match FirstIndex(roster, (m: MemberId) => m in members && SameIgnoringCase(members[m].name, name))
      case Some(k) => Some(roster[k])
      case None => None
  }

  /** `userShareTotal`: the amounts of the current user's shares, summed, or 0
      without a current user. */
  function UserShareTotal(settings: seq<AppSettings>, roster: seq<MemberId>, members: map<MemberId, Member>,
                          shares: map<ShareId, Share>): (r: real)
    ensures CurrentUserMember(settings, roster, members).None? ==> r == 0.0
    ensures CurrentUserMember(settings, roster, members).Some? ==>
      r == Total(shares, members[CurrentUserMember(settings, roster, members).value].shares, ShareAmount)
  {
    match CurrentUserMember(settings, roster, members)
    case None => 0.0
    case Some(m) => Total(shares, members[m].shares, ShareAmount)
  }

  /** `moneySaved`: how much less than the whole the user's shares come to,
      never below zero. */
  function MoneySaved(totalMonthlyCost: real, userShareTotal: real): (r: real)
    ensures r >= 0.0 && r >= totalMonthlyCost - userShareTotal
    ensures r == 0.0 || r == totalMonthlyCost - userShareTotal
  {
    if totalMonthlyCost - userShareTotal > 0.0 then totalMonthlyCost - userShareTotal else 0.0
  }

  /** Without a current user, and with no negative cost, the card shows the
      whole monthly cost as saved. */
  lemma NoUserSavesEverything(subs: seq<Subscription>, settings: seq<AppSettings>, roster: seq<MemberId>,
                              members: map<MemberId, Member>, shares: map<ShareId, Share>)
    requires CostsNonNegative(subs)
    requires CurrentUserMember(settings, roster, members).None?
    ensures MoneySaved(TotalMonthlyCost(subs), UserShareTotal(settings, roster, members, shares)) == TotalMonthlyCost(subs)
  {
    ActiveCostsNonNegative(subs);
    MonthlyTotalNonNegative(ActiveSubscriptions(subs));
  }
}
