/** The two amounts the payment workflow derives. Money and the deposit
    percentage are exact reals here; the source computes them in IEEE-754
    doubles. */
module Fees {

  /** The bill: every guest pays the charge per head. */
  function TotalAmount(guestsCount: int, chargePerHead: real): (total: real)
    ensures guestsCount >= 0 && chargePerHead >= 0.0 ==> total >= 0.0
    ensures guestsCount == 0 ==> total == 0.0
  {
    guestsCount as real * chargePerHead
  }

  /** The "deposit fee": the bill less its depositPercentage share, a share
      written as a fraction (0.2 for twenty percent). */
  function DepositFee(totalAmount: real, depositPercentage: real): (fee: real)
    ensures fee == totalAmount * (1.0 - depositPercentage)
  {
    var computationA := totalAmount * depositPercentage;
    totalAmount - computationA
  }

  /** For a non-negative bill and a fraction between 0 and 1 the fee lies
      between nothing and the whole bill. */
  lemma DepositFeeBounds(totalAmount: real, depositPercentage: real)
    requires totalAmount >= 0.0 && 0.0 <= depositPercentage <= 1.0
    ensures 0.0 <= DepositFee(totalAmount, depositPercentage) <= totalAmount
  {
    assert 0.0 <= totalAmount * depositPercentage <= totalAmount * 1.0;
  }

  /** Four guests at 25 per head with twenty percent: a bill of 100 and a
      fee of 80. */
  lemma FourGuestsExample()
    ensures TotalAmount(4, 25.0) == 100.0
    ensures DepositFee(TotalAmount(4, 25.0), 0.2) == 80.0
  {
  }
}
