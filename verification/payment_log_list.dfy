/** The payment history: newest payments first, and the swipe action that
    marks a payment settled. Marking is `Store.Ledger.MarkSettled`. */
module PaymentLogList {
  import opened Common
  import opened Models
  import opened Ordering

  /** The sort key that puts later payments first. */
  function NewestFirstKey(l: PaymentLog): int {
    -l.paidAt
  }

  /** `@Query(sort: \PaymentLog.paidAt, order: .reverse)`: every payment, the
      latest first. */
  function History(logs: seq<PaymentLog>): (r: seq<PaymentLog>)
    ensures multiset(r) == multiset(logs)
    ensures forall i, j :: 0 <= i < j < |r| ==> r[i].paidAt >= r[j].paidAt
  {
    var r := SortBy(logs, NewestFirstKey);
    assert forall i, j :: 0 <= i < j < |r| ==> NewestFirstKey(r[i]) <= NewestFirstKey(r[j]);
    r
  }

  /** The "Settled" swipe action is offered only for a log not yet settled. */
  predicate SettleOffered(l: PaymentLog) {
    !l.isSettled
  }

  /** `markSettled` on one log: it becomes settled and nothing else about it changes. */
  function Settled(l: PaymentLog): (r: PaymentLog)
    ensures r.isSettled && !SettleOffered(r)
    ensures r.(isSettled := l.isSettled) == l
  {
    l.(isSettled := true)
  }

  /** Settling twice is settling once; settling a settled log changes nothing. */
  lemma SettledIdempotent(l: PaymentLog)
    ensures Settled(Settled(l)) == Settled(l)
    ensures l.isSettled ==> Settled(l) == l
  {
  }
}
