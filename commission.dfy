/** The commission split of a deposit (src/utils/deductCommission.ts). */
module Commission {
  import opened Models
  import opened BtcDigits

  const DefaultCommissionPercentage: real := 2.5

  datatype CommissionSplit = CommissionSplit(commission: Satoshi, newAmount: Satoshi)

  /**
   * Splits `amount` into the commission (`commissionPercentage` percent of
   * it) and what remains, both rounded to eight decimals, i.e. to whole
   * satoshis. Reads and writes no state.
   */
  function DeductCommission(amount: Satoshi, commissionPercentage: real := DefaultCommissionPercentage)
    : (r: CommissionSplit)
    ensures r.commission == RoundHalfUp(amount as real * commissionPercentage / 100.0)
    ensures r.commission + r.newAmount == amount
    ensures 0 <= amount && 0.0 <= commissionPercentage <= 100.0 ==>
              0 <= r.commission <= amount && 0 <= r.newAmount <= amount
  {
    var share := amount as real * commissionPercentage / 100.0;
    var commission := RoundHalfUp(share);
    var newAmount := RoundHalfUp((amount - commission) as real);
    RoundHalfUpOfInt(amount - commission);
    assert 0 <= amount && 0.0 <= commissionPercentage <= 100.0 ==> 0 <= commission <= amount by {
      if 0 <= amount && 0.0 <= commissionPercentage <= 100.0 {
        CommissionWithinAmount(amount, commissionPercentage, share);
        RoundHalfUpBetween(share, 0, amount);
      }
    }
    CommissionSplit(commission, newAmount)
  }

  /** A percentage in [0, 100] of a non-negative amount lies in [0, amount]. */
  lemma CommissionWithinAmount(amount: Satoshi, pct: real, share: real)
    requires 0 <= amount && 0.0 <= pct <= 100.0
    requires share == amount as real * pct / 100.0
    ensures 0.0 <= share <= amount as real
  {
    var a := amount as real;
    assert 0.0 <= a * pct;
    assert a * (100.0 - pct) >= 0.0;
    assert a * pct <= a * 100.0;
  }

  /** The default rate is 2.5 percent: 25 satoshis of every 1000. */
  lemma DefaultRateExample()
    ensures DeductCommission(1000) == CommissionSplit(25, 975)
    ensures DeductCommission(50101010) == CommissionSplit(1252525, 48848485)
  {
  }
}
