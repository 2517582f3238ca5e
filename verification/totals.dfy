/** Sums of amounts over a list of record ids, as Swift's
    `list.reduce(0) { $0 + $1.amount }` computes them, and removal of an id
    from such a list (what deleting a record does to the to-many relationships
    that mention it). */
module Totals {
  import opened Common

  /** The amount of record `k`, or 0 when no such record exists. */
  function AmountAt<T>(m: map<nat, T>, k: nat, amount: T -> real): real {
    if k in m then amount(m[k]) else 0.0
  }

  /** Left fold of the amounts of the records listed in `ids`. */
  function Total<T>(m: map<nat, T>, ids: seq<nat>, amount: T -> real): real {
    if ids == [] then 0.0
    else Total(m, ids[..|ids| - 1], amount) + AmountAt(m, ids[|ids| - 1], amount)
  }

  /** The list with every occurrence of `k` removed, order kept. */
  function Without(ids: seq<nat>, k: nat): (r: seq<nat>)
    ensures forall x :: x in r <==> x in ids && x != k
    ensures NoDup(ids) ==> NoDup(r)
    ensures |r| <= |ids|
  {
    if ids == [] then []
    else
      var init := ids[..|ids| - 1];
      var last := ids[|ids| - 1];
      assert forall x :: x in init ==> x in ids;
      assert NoDup(ids) ==> last !in init;
      Without(init, k) + (if last == k then [] else [last])
  }

  /** The list with every id of `ks` removed, one after another. */
  function WithoutAll(ids: seq<nat>, ks: seq<nat>): (r: seq<nat>)
    ensures forall x :: x in r <==> x in ids && x !in ks
    ensures NoDup(ids) ==> NoDup(r)
  {
    if ks == [] then ids else Without(WithoutAll(ids, ks[..|ks| - 1]), ks[|ks| - 1])
  }

  /** Removing an id that is not listed changes nothing. */
  lemma {:induction false} WithoutAbsent(ids: seq<nat>, k: nat)
    requires k !in ids
    ensures Without(ids, k) == ids
  {
    if ids != [] {
      var init := ids[..|ids| - 1];
      assert forall x :: x in init ==> x in ids;
      WithoutAbsent(init, k);
      assert ids == init + [ids[|ids| - 1]];
    }
  }

  /** Appending one id adds its amount. */
  lemma TotalAppend<T>(m: map<nat, T>, ids: seq<nat>, k: nat, amount: T -> real)
    ensures Total(m, ids + [k], amount) == Total(m, ids, amount) + AmountAt(m, k, amount)
  {
    assert (ids + [k])[..|ids|] == ids;
  }

  /** Two stores that agree on the amounts of the listed records give the same total. */
  lemma {:induction false} TotalAgree<T>(m1: map<nat, T>, m2: map<nat, T>, ids: seq<nat>, amount: T -> real)
    requires forall k :: k in ids ==> AmountAt(m1, k, amount) == AmountAt(m2, k, amount)
    ensures Total(m1, ids, amount) == Total(m2, ids, amount)
  {
    if ids != [] {
      var init := ids[..|ids| - 1];
      assert forall x :: x in init ==> x in ids;
      TotalAgree(m1, m2, init, amount);
    }
  }

  /** Changing one record that the list holds once moves the total by the change
      of that record's amount. */
  lemma {:induction false} TotalUpdate<T>(m: map<nat, T>, ids: seq<nat>, k: nat, v: T, amount: T -> real)
    requires NoDup(ids) && k in ids
    ensures Total(m[k := v], ids, amount) == Total(m, ids, amount) + amount(v) - AmountAt(m, k, amount)
  {
    var init := ids[..|ids| - 1];
    assert forall x :: x in init ==> x in ids;
    if ids[|ids| - 1] == k {
      assert k !in init;
      TotalAgree(m[k := v], m, init, amount);
    } else {
      assert k in init;
      TotalUpdate(m, init, k, v, amount);
    }
  }

  /** Unlisting a record that the list holds once removes its amount. */
  lemma {:induction false} TotalWithout<T>(m: map<nat, T>, ids: seq<nat>, k: nat, amount: T -> real)
    requires NoDup(ids) && k in ids
    ensures Total(m, Without(ids, k), amount) == Total(m, ids, amount) - AmountAt(m, k, amount)
  {
    var init := ids[..|ids| - 1];
    var last := ids[|ids| - 1];
    assert forall x :: x in init ==> x in ids;
    if last == k {
      assert k !in init;
      WithoutAbsent(init, k);
      assert Without(ids, k) == init;
      assert Total(m, ids, amount) == Total(m, init, amount) + AmountAt(m, k, amount);
    } else {
      assert k in init;
      TotalWithout(m, init, k, amount);
      TotalAppend(m, Without(init, k), last, amount);
    }
  }

  /** A list whose records all have amount `v` totals `|ids| * v`. */
  lemma {:induction false} TotalConstant<T>(m: map<nat, T>, ids: seq<nat>, v: real, amount: T -> real)
    requires forall k :: k in ids ==> AmountAt(m, k, amount) == v
    ensures Total(m, ids, amount) == |ids| as real * v
  {
    if ids != [] {
      var init := ids[..|ids| - 1];
      assert forall x :: x in init ==> x in ids;
      TotalConstant(m, init, v, amount);
    }
  }

  /** Removing the first id of a list without duplicates leaves the rest of it. */
  lemma {:induction false} WithoutHead(ids: seq<nat>)
    requires NoDup(ids) && ids != []
    ensures Without(ids, ids[0]) == ids[1..]
  {
    var init := ids[..|ids| - 1];
    var last := ids[|ids| - 1];
    if |ids| == 1 {
      assert Without(ids, ids[0]) == Without(init, ids[0]) + [];
    } else {
      assert forall x :: x in init ==> x in ids;
      assert last != ids[0];
      WithoutHead(init);
      assert init[0] == ids[0];
      assert ids[1..] == init[1..] + [last];
    }
  }

  /** Removing ids none of which is listed changes nothing. */
  lemma {:induction false} WithoutAllAbsent(ids: seq<nat>, ks: seq<nat>)
    requires forall k :: k in ks ==> k !in ids
    ensures WithoutAll(ids, ks) == ids
  {
    if ks != [] {
      var init := ks[..|ks| - 1];
      assert forall k :: k in init ==> k in ks;
      WithoutAllAbsent(ids, init);
      WithoutAbsent(ids, ks[|ks| - 1]);
    }
  }

  /** Removing one more id after a batch of them is removing the longer batch. */
  lemma WithoutAllSnoc(ids: seq<nat>, ks: seq<nat>, k: nat)
    ensures WithoutAll(ids, ks + [k]) == Without(WithoutAll(ids, ks), k)
  {
    assert (ks + [k])[..|ks|] == ks;
  }
}
