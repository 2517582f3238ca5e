/** The read-only side of the "add payment" form: resolving the two pickers,
    the Save gate and the currency the form proposes. Recording the payment is
    `Store.Ledger.RecordPayment`. */
module AddPaymentLog {
  import opened Common
  import opened Models

  /** `list.first { $0.id == selection }`: the selected id when it names a
      record in the list, else nothing. */
  function Resolve(selection: Option<nat>, listed: seq<nat>): (r: Option<nat>)
    ensures r.Some? <==> selection.Some? && selection.value in listed
    ensures r.Some? ==> r == selection
  {
    if selection.Some? && selection.value in listed then selection else None
  }

  /** The subscriptions the service picker offers: the active ones, in the
      order given (by service name). */
  function PickableSubscriptions(subs: map<SubscriptionId, Subscription>, listed: seq<SubscriptionId>): (r: seq<SubscriptionId>)
    ensures forall s :: s in r <==> s in listed && s in subs && subs[s].isActive
  {
    Filter(listed, s => s in subs && subs[s].isActive)
  }

  /** `canSave`: both pickers resolve and the amount is positive. */
  function CanSave(subSel: Option<SubscriptionId>, memberSel: Option<MemberId>, amount: real,
                   subsListed: seq<SubscriptionId>, membersListed: seq<MemberId>): (r: bool)
    ensures r <==>
      && (exists s :: subSel == Some(s) && s in subsListed)
      && (exists m :: memberSel == Some(m) && m in membersListed)
      && amount > 0.0
  {
    Resolve(subSel, subsListed).Some? && Resolve(memberSel, membersListed).Some? && amount > 0.0
  }

  /** Choosing a subscription proposes its currency; a selection that does not
      resolve leaves the currency field as it was. */
  function CurrencyOnSelect(current: string, newSel: Option<SubscriptionId>,
                            subs: map<SubscriptionId, Subscription>, listed: seq<SubscriptionId>): (r: string)
    requires forall s :: s in listed ==> s in subs
    ensures newSel.Some? && newSel.value in listed ==> r == subs[newSel.value].currency
    ensures !(newSel.Some? && newSel.value in listed) ==> r == current
  {
    match Resolve(newSel, listed)
    case Some(s) => subs[s].currency
    case None => current
  }
}
