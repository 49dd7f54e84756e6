/**
 * The pool's profit ratio over the transaction history
 * (calculateTotalProfit; specified in
 * src/functions/onCreateTransaction/calculateTotalProfit.test.ts).
 *
 * The ratio is the amount of the latest trade over that amount plus the
 * capital at risk when it was made: deposits (counted positive) and
 * withdrawals (counted negative) dated no later than that trade.
 */
module Profit {
  import opened Wrappers
  import opened Models
  import opened BtcDigits

  /**
   * The trade with the greatest date; of several trades on that date, the
   * one that comes last in the history. None when there is no trade.
   */
  function LatestTrade(txs: seq<TransactionData>): (r: Option<TransactionData>)
    ensures r.None? <==> forall i :: 0 <= i < |txs| ==> !txs[i].TradeTx?
    ensures r.Some? ==> r.value in txs && r.value.TradeTx?
    ensures r.Some? ==> forall i :: 0 <= i < |txs| && txs[i].TradeTx? ==> txs[i].date <= r.value.date
  {
    if txs == [] then None
    else
      var previous := LatestTrade(txs[..|txs| - 1]);
      var last := txs[|txs| - 1];
      if last.TradeTx? && (previous.None? || previous.value.date <= last.date) then Some(last)
      else previous
  }

  /** What one record adds to the capital at risk at `cutoff`. */
  function Contribution(t: TransactionData, cutoff: Date): int
  {
    if t.date > cutoff then 0
    else match t
      case DepositTx(_, amount, _, _, _, _) => amount
      case WithdrawalTx(_, amount, _, _, _, _, _, _) => -amount
      case _ => 0
  }

  /** The capital at risk at `cutoff`: the records dated no later than it. */
  function Principal(txs: seq<TransactionData>, cutoff: Date): int
  {
    if txs == [] then 0
    else Principal(txs[..|txs| - 1], cutoff) + Contribution(txs[|txs| - 1], cutoff)
  }

  /** The denominator of the ratio is non-zero whenever there is a trade. */
  predicate ProfitDefined(txs: seq<TransactionData>)
  {
    match LatestTrade(txs)
    case None => true
    case Some(trade) => trade.amount + Principal(txs, trade.date) != 0
  }

  /**
   * The profit ratio, rounded to eight decimals; zero when the history
   * holds no trade.
   */
  function CalculateTotalProfit(txs: seq<TransactionData>): (r: real)
    requires ProfitDefined(txs)
    ensures (forall i :: 0 <= i < |txs| ==> !txs[i].TradeTx?) ==> r == 0.0
    ensures IsBtcDigits(r)
  {
    match LatestTrade(txs)
    case None => 0.0
    case Some(trade) =>
      ToBtcDigits(trade.amount as real / (trade.amount + Principal(txs, trade.date)) as real)
  }

  lemma {:induction false} PrincipalAppend(a: seq<TransactionData>, b: seq<TransactionData>, cutoff: Date)
    ensures Principal(a + b, cutoff) == Principal(a, cutoff) + Principal(b, cutoff)
    decreases |b|
  {
    if b == [] {
      assert a + b == a;
    } else {
      var b' := b[..|b| - 1];
      assert (a + b)[..|a + b| - 1] == a + b';
      PrincipalAppend(a, b', cutoff);
    }
  }

  /** A record that is not a trade never changes which trade is the latest. */
  lemma {:induction false} LatestTradeIgnoresNonTrade(a: seq<TransactionData>, x: TransactionData, b: seq<TransactionData>)
    requires !x.TradeTx?
    ensures LatestTrade(a + [x] + b) == LatestTrade(a + b)
    decreases |b|
  {
    if b == [] {
      assert a + [x] + b == a + [x];
      assert (a + [x])[..|a|] == a;
      assert a + b == a;
    } else {
      var b' := b[..|b| - 1];
      assert (a + [x] + b)[..|a + [x] + b| - 1] == a + [x] + b';
      assert (a + b)[..|a + b| - 1] == a + b';
      LatestTradeIgnoresNonTrade(a, x, b');
    }
  }

  /**
   * A deposit, withdrawal or commission dated after the latest trade does
   * not change the ratio, wherever it stands in the history.
   */
  lemma LaterRecordIgnored(a: seq<TransactionData>, x: TransactionData, b: seq<TransactionData>)
    requires !x.TradeTx?
    requires LatestTrade(a + b).Some? && x.date > LatestTrade(a + b).value.date
    requires ProfitDefined(a + b)
    ensures ProfitDefined(a + [x] + b)
    ensures CalculateTotalProfit(a + [x] + b) == CalculateTotalProfit(a + b)
  {
    LatestTradeIgnoresNonTrade(a, x, b);
    var cutoff := LatestTrade(a + b).value.date;
    PrincipalAppend(a + [x], b, cutoff);
    PrincipalAppend(a, [x], cutoff);
    PrincipalAppend(a, b, cutoff);
    assert Principal([x], cutoff) == Contribution(x, cutoff) == 0 by {
      assert [x][..0] == [];
    }
  }

  /** One deposit followed by one trade no earlier than it. */
  lemma DepositThenTrade(d: TransactionData, t: TransactionData)
    requires d.DepositTx? && t.TradeTx? && d.date <= t.date
    requires t.amount + d.amount != 0
    ensures ProfitDefined([d, t])
    ensures CalculateTotalProfit([d, t]) == ToBtcDigits(t.amount as real / (t.amount + d.amount) as real)
  {
    assert [d, t][..1] == [d];
    assert [d][..0] == [];
    assert LatestTrade([d]) == None;
    assert LatestTrade([d, t]) == Some(t);
    assert Principal([d], t.date) == d.amount;
    assert Principal([d, t], t.date) == d.amount;
  }

  /**
   * A deposit dated the same as the trade counts and a deposit dated after
   * it does not.
   */
  lemma SameDayCountsLaterDoesNot(d: TransactionData, t: TransactionData, later: TransactionData)
    requires d.DepositTx? && t.TradeTx? && later.DepositTx?
    requires d.date == t.date < later.date
    requires t.amount + d.amount != 0
    ensures ProfitDefined([d, t, later])
    ensures CalculateTotalProfit([d, t, later]) == ToBtcDigits(t.amount as real / (t.amount + d.amount) as real)
  {
    DepositThenTrade(d, t);
    assert [d, t] + [later] + [] == [d, t, later];
    assert [d, t] + [] == [d, t];
    LaterRecordIgnored([d, t], later, []);
  }
}
