/** The members list's colour coding of a balance, by the sign convention of
    `Member.totalBalance`. */
module MembersDirectory {

  /** Red for a member who owes, green for one who is owed, neutral when square. */
  datatype BalanceTone = Owes | Owed | Neutral

  /** `balanceColor`: a total three-way classification by sign. */
  function BalanceColor(totalBalance: real): (r: BalanceTone)
    ensures r == Owes <==> totalBalance > 0.0
    ensures r == Owed <==> totalBalance < 0.0
    ensures r == Neutral <==> totalBalance == 0.0
  {
    if totalBalance > 0.0 then Owes
    else if totalBalance < 0.0 then Owed
    else Neutral
  }

  /** Opposite balances get opposite tones. */
  lemma BalanceColorAntisymmetric(b: real)
    ensures BalanceColor(b) == Owes <==> BalanceColor(-b) == Owed
  {
  }
}
