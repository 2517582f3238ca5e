/** The subscriptions tab: the active subscriptions, soonest bill first, their
    combined monthly burn, and each row's countdown to the next bill. */
module SubscriptionsHub {
  import opened Common
  import opened Text
  import opened Models
  import opened Ordering
  import Analytics

  /** The sort key of the list: the next billing date. */
  function BillingDateKey(s: Subscription): int {
    s.nextBillingDate
  }

  /** The listed subscriptions: exactly the active ones, soonest bill first. */
  function ActiveByBillingDate(subs: seq<Subscription>): (r: seq<Subscription>)
    ensures multiset(r) == multiset(Analytics.ActiveSubscriptions(subs))
    ensures forall s :: s in r <==> s in subs && s.isActive
    ensures forall i, j :: 0 <= i < j < |r| ==> r[i].nextBillingDate <= r[j].nextBillingDate
  {
    var active := Analytics.ActiveSubscriptions(subs);
    var r := SortBy(active, BillingDateKey);
    PermutationMembers(active, r);
    assert forall i, j :: 0 <= i < j < |r| ==> BillingDateKey(r[i]) <= BillingDateKey(r[j]);
    r
  }

  lemma {:induction false} MonthlyTotalAppend(a: seq<Subscription>, b: seq<Subscription>)
    ensures MonthlyTotal(a + b) == MonthlyTotal(a) + MonthlyTotal(b)
  {
    if b != [] {
      assert (a + b)[..|a + b| - 1] == a + b[..|b| - 1];
      MonthlyTotalAppend(a, b[..|b| - 1]);
    } else {
      assert a + b == a;
    }
  }

  /** The monthly total does not depend on the order of the subscriptions. */
  lemma {:induction false} MonthlyTotalPermutation(a: seq<Subscription>, b: seq<Subscription>)
    requires multiset(a) == multiset(b)
    ensures MonthlyTotal(a) == MonthlyTotal(b)
    decreases |a|
  {
    if a != [] {
      var x := a[|a| - 1];
      assert x in multiset(b);
      var i :| 0 <= i < |b| && b[i] == x;
      var b' := b[..i] + b[i + 1..];
      assert b == b[..i] + [x] + b[i + 1..];
      assert a == a[..|a| - 1] + [x];
      assert multiset(b) == multiset(b[..i]) + multiset{x} + multiset(b[i + 1..]);
      assert multiset(a) == multiset(a[..|a| - 1]) + multiset{x};
      assert multiset(b') == multiset(b[..i]) + multiset(b[i + 1..]);
      assert multiset(a[..|a| - 1]) == multiset(a) - multiset{x};
      assert multiset(b') == multiset(b) - multiset{x};
      MonthlyTotalPermutation(a[..|a| - 1], b');
      MonthlyTotalAppend(b[..i] + [x], b[i + 1..]);
      MonthlyTotalAppend(b[..i], b[i + 1..]);
      assert MonthlyTotal(b[..i] + [x]) == MonthlyTotal(b[..i]) + MonthlyEquivalent(x) by {
        assert (b[..i] + [x])[..i] == b[..i];
      }
    } else {
      assert b == [];
    }
  }

  /** `totalMonthlyBurn`: the listed subscriptions' monthly equivalents, summed. */
  function TotalMonthlyBurn(subs: seq<Subscription>): (r: real)
    ensures Analytics.ActiveSubscriptions(subs) == [] ==> r == 0.0
  {
    var listed := ActiveByBillingDate(subs);
    assert Analytics.ActiveSubscriptions(subs) == [] ==> listed == [] by {
      if Analytics.ActiveSubscriptions(subs) == [] {
        assert |listed| == |multiset(listed)|;
      }
    }
    MonthlyTotal(listed)
  }

  /** The hub's monthly burn and the analytics screen's total monthly cost are
      the same amount, summed in a different order. */
  lemma BurnMatchesAnalytics(subs: seq<Subscription>)
    ensures TotalMonthlyBurn(subs) == Analytics.TotalMonthlyCost(subs)
  {
    MonthlyTotalPermutation(ActiveByBillingDate(subs), Analytics.ActiveSubscriptions(subs));
  }

  /** With no negative cost the burn is never negative. */
  lemma BurnNonNegative(subs: seq<Subscription>)
    requires Analytics.CostsNonNegative(subs)
    ensures TotalMonthlyBurn(subs) >= 0.0
  {
    BurnMatchesAnalytics(subs);
    Analytics.ActiveCostsNonNegative(subs);
    Analytics.MonthlyTotalNonNegative(Analytics.ActiveSubscriptions(subs));
  }

  /** The countdown label for a bill `days` days away (`Formatters.daysUntil`). */
  function CountdownLabel(days: int): (r: string)
    ensures days < 0 <==> r == "Overdue"
    ensures days >= 0 ==> r == DecimalString(days) + " days"
  {
    if days >= 0 then
      var r := DecimalString(days) + " days";
      assert r[|r| - 1] == 's';
      r
    else "Overdue"
  }

  /** A countdown is shown in red when the bill is at most three days away. */
  predicate CountdownUrgent(days: int) {
    days <= 3
  }

  /** An overdue bill is always urgent, and a label that is not "Overdue" reads
      back as the day count it shows. */
  lemma CountdownReadsBack(days: int)
    ensures CountdownLabel(days) == "Overdue" ==> CountdownUrgent(days)
    ensures days >= 0 ==> var r := CountdownLabel(days);
      |r| > 5 && r[|r| - 5..] == " days" && DecimalValue(r[..|r| - 5]) == days
  {
    if days >= 0 {
      var r := CountdownLabel(days);
      assert r[..|r| - 5] == DecimalString(days);
      DecimalRoundTrip(days);
    }
  }
}
