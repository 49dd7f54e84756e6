/**
 * The transaction ledger processor: the handler run once for every new
 * transaction document (src/functions/onCreateTransaction/index.ts), the
 * deposit handler (specified in processDeposit.test.ts) and the
 * withdrawal handler (processWithdrawal.ts).
 *
 * The Firestore collections the handlers write are fields of `Ledger`;
 * `processTrade` is not part of this model and is recorded as a call.
 */
module Ledger {
  import opened Wrappers
  import opened Models
  import opened Commission

  /** The balance stored for `uid`; a user without a document reads as zero. */
  function BalanceIn(users: map<string, UserData>, uid: string): Satoshi
  {
    if uid in users then users[uid].balance else 0
  }

  /**
   * Saving a user document: the fields given replace the stored ones; an
   * optional field left out keeps its stored value.
   */
  function WriteUser(users: map<string, UserData>, uid: string, update: UserData): (r: map<string, UserData>)
    ensures r.Keys == users.Keys + {uid}
    ensures r[uid].balance == update.balance && r[uid].balanceLastUpdated == update.balanceLastUpdated
    ensures r[uid].id == if update.id.Some? then update.id else if uid in users then users[uid].id else None
    ensures r[uid].isAdmin ==
              if update.isAdmin.Some? then update.isAdmin else if uid in users then users[uid].isAdmin else None
    ensures forall other | other in users && other != uid :: r[other] == users[other]
  {
    var stored := if uid in users then users[uid] else update;
    users[uid := update.(
      id := if update.id.Some? then update.id else stored.id,
      isAdmin := if update.isAdmin.Some? then update.isAdmin else stored.isAdmin)]
  }

  function TransactionsOf(byUser: map<string, seq<TransactionData>>, uid: string): seq<TransactionData>
  {
    if uid in byUser then byUser[uid] else []
  }

  /** What a processed record adds to the balance of `uid`. */
  function BalanceChange(uid: string, t: TransactionData): int
  {
    match t
    case DepositTx(_, amount, owner, _, _, _) => if owner == uid then DeductCommission(amount).newAmount else 0
    case WithdrawalTx(_, amount, owner, _, _, _, _, _) => if owner == uid then -amount else 0
    case _ => 0
  }

  /** What a processed record adds to the pool commission. */
  function CommissionChange(t: TransactionData): int
  {
    if t.DepositTx? then DeductCommission(t.amount).commission else 0
  }

  /** The balance of `uid` rebuilt by replaying processed records. */
  function ReplayBalance(uid: string, txs: seq<TransactionData>): int
  {
    if txs == [] then 0 else ReplayBalance(uid, txs[..|txs| - 1]) + BalanceChange(uid, txs[|txs| - 1])
  }

  /** The pool commission rebuilt by replaying processed records. */
  function ReplayCommission(txs: seq<TransactionData>): int
  {
    if txs == [] then 0 else ReplayCommission(txs[..|txs| - 1]) + CommissionChange(txs[|txs| - 1])
  }

  /**
   * A deposit moves its whole amount into the ledger: what its owner is
   * credited plus what the pool takes is the deposit, and no other user's
   * balance changes.
   */
  lemma DepositConserved(d: TransactionData)
    requires d.DepositTx?
    ensures BalanceChange(d.uid, d) + CommissionChange(d) == d.amount
    ensures forall uid :: uid != d.uid ==> BalanceChange(uid, d) == 0
  {
  }

  /** Replaying a history in two parts adds up. */
  lemma {:induction false} ReplayAppend(uid: string, a: seq<TransactionData>, b: seq<TransactionData>)
    ensures ReplayBalance(uid, a + b) == ReplayBalance(uid, a) + ReplayBalance(uid, b)
    ensures ReplayCommission(a + b) == ReplayCommission(a) + ReplayCommission(b)
    decreases |b|
  {
    if b == [] {
      assert a + b == a;
    } else {
      var b' := b[..|b| - 1];
      assert (a + b)[..|a + b| - 1] == a + b';
      ReplayAppend(uid, a, b');
    }
  }

  class Ledger {
    /** The global `transactions` collection. */
    var transactions: seq<TransactionData>
    /** Each user's own `transactions` sub-collection. */
    var userTransactions: map<string, seq<TransactionData>>
    /** The `users` collection: balances. */
    var users: map<string, UserData>
    /** The pool's commission document. */
    var poolCommission: PoolCommissionData
    /** The calls made to `processTrade`, with the transaction id. */
    var tradesProcessed: seq<(string, TransactionData)>

    /** The records handled so far, and the stores before the first. */
    ghost var processed: seq<TransactionData>
    ghost var openingUsers: map<string, UserData>
    ghost var openingCommission: Satoshi

    function BalanceOf(uid: string): Satoshi
      reads this
    {
      BalanceIn(users, uid)
    }

    /**
     * The balances and the pool commission are what replaying the handled
     * records on the opening stores gives.
     */
    ghost predicate Valid()
      reads this
    {
      && (forall uid :: BalanceOf(uid) == BalanceIn(openingUsers, uid) + ReplayBalance(uid, processed))
      && poolCommission.amount == openingCommission + ReplayCommission(processed)
    }

    constructor (users0: map<string, UserData>, pool0: PoolCommissionData)
      ensures Valid()
      ensures users == users0 && poolCommission == pool0
      ensures transactions == [] && userTransactions == map[] && tradesProcessed == []
      ensures processed == []
    {
      transactions := [];
      userTransactions := map[];
      users := users0;
      poolCommission := pool0;
      tradesProcessed := [];
      processed := [];
      openingUsers := users0;
      openingCommission := pool0.amount;
    }

    /**
     * handleDeposit: split the deposit, save the commission record globally
     * and under the depositor, save the deposit under the depositor, then
     * write the depositor's balance and the pool commission, all dated `now`.
     */
    method HandleDeposit(data: TransactionData, transactionId: string,
                         currentUserBalance: Satoshi, currentPoolCommission: Satoshi, now: Date)
      requires data.DepositTx?
      modifies this
      ensures var split := DeductCommission(data.amount);
              var record := CommissionTx(now, split.commission, transactionId, data.uid);
              && transactions == old(transactions) + [record]
              && userTransactions == old(userTransactions)[data.uid :=
                   TransactionsOf(old(userTransactions), data.uid) + [record, data]]
              && users == WriteUser(old(users), data.uid,
                   UserData(currentUserBalance + split.newAmount, now, None, None))
              && poolCommission == PoolCommissionData(currentPoolCommission + split.commission, now)
      ensures BalanceOf(data.uid) - currentUserBalance + poolCommission.amount - currentPoolCommission == data.amount
      ensures tradesProcessed == old(tradesProcessed)
      ensures processed == old(processed) && openingUsers == old(openingUsers)
      ensures openingCommission == old(openingCommission)
    {
      var split := DeductCommission(data.amount);
      var record := CommissionTx(now, split.commission, transactionId, data.uid);
      transactions := transactions + [record];
      ghost var earlier := TransactionsOf(userTransactions, data.uid);
      userTransactions := userTransactions[data.uid := TransactionsOf(userTransactions, data.uid) + [record]];
      userTransactions := userTransactions[data.uid := TransactionsOf(userTransactions, data.uid) + [data]];
      assert earlier + [record] + [data] == earlier + [record, data];
      users := WriteUser(users, data.uid, UserData(currentUserBalance + split.newAmount, now, None, None));
      poolCommission := PoolCommissionData(currentPoolCommission + split.commission, now);
    }

    /** processDeposit: reads the current balance and pool commission, then handles the deposit. */
    method ProcessDeposit(transactionId: string, data: TransactionData, now: Date)
      requires data.DepositTx?
      modifies this
      ensures var split := DeductCommission(data.amount);
              && transactions == old(transactions) + [CommissionTx(now, split.commission, transactionId, data.uid)]
              && users == WriteUser(old(users), data.uid,
                   UserData(old(BalanceOf(data.uid)) + split.newAmount, now, None, None))
              && poolCommission == PoolCommissionData(old(poolCommission.amount) + split.commission, now)
      ensures userTransactions == old(userTransactions)[data.uid :=
                TransactionsOf(old(userTransactions), data.uid)
                + [CommissionTx(now, DeductCommission(data.amount).commission, transactionId, data.uid), data]]
      ensures tradesProcessed == old(tradesProcessed)
      ensures processed == old(processed) && openingUsers == old(openingUsers)
      ensures openingCommission == old(openingCommission)
    {
      HandleDeposit(data, transactionId, BalanceOf(data.uid), poolCommission.amount, now);
    }

    /**
     * handleUpdateUserBalance: one read and one write of the withdrawer's
     * balance, lowered by the gross amount; no funds check, so the balance
     * may become negative; nothing else is touched.
     */
    method HandleUpdateUserBalance(data: TransactionData, now: Date)
      requires data.WithdrawalTx?
      modifies this
      ensures users == WriteUser(old(users), data.uid,
                UserData(old(BalanceOf(data.uid)) - data.amount, now, Some(data.uid), None))
      ensures transactions == old(transactions) && userTransactions == old(userTransactions)
      ensures poolCommission == old(poolCommission) && tradesProcessed == old(tradesProcessed)
      ensures processed == old(processed) && openingUsers == old(openingUsers)
      ensures openingCommission == old(openingCommission)
    {
      var userBalance := BalanceOf(data.uid);
      var newUserBalance := userBalance - data.amount;
      users := WriteUser(users, data.uid, UserData(newUserBalance, now, Some(data.uid), None));
    }

    /** handleWithdrawal: runs the balance update once, with the record as received. */
    method HandleWithdrawal(data: TransactionData, now: Date)
      requires data.WithdrawalTx?
      modifies this
      ensures users == WriteUser(old(users), data.uid,
                UserData(old(BalanceOf(data.uid)) - data.amount, now, Some(data.uid), None))
      ensures transactions == old(transactions) && userTransactions == old(userTransactions)
      ensures poolCommission == old(poolCommission) && tradesProcessed == old(tradesProcessed)
      ensures processed == old(processed) && openingUsers == old(openingUsers)
      ensures openingCommission == old(openingCommission)
    {
      HandleUpdateUserBalance(data, now);
    }

    method ProcessWithdrawal(data: TransactionData, now: Date)
      requires data.WithdrawalTx?
      modifies this
      ensures users == WriteUser(old(users), data.uid,
                UserData(old(BalanceOf(data.uid)) - data.amount, now, Some(data.uid), None))
      ensures transactions == old(transactions) && userTransactions == old(userTransactions)
      ensures poolCommission == old(poolCommission) && tradesProcessed == old(tradesProcessed)
      ensures processed == old(processed) && openingUsers == old(openingUsers)
      ensures openingCommission == old(openingCommission)
    {
      HandleWithdrawal(data, now);
    }

    /** processTrade, whose code is not part of this model: the call is recorded. */
    method ProcessTrade(transactionId: string, data: TransactionData)
      requires data.TradeTx?
      modifies this
      ensures tradesProcessed == old(tradesProcessed) + [(transactionId, data)]
      ensures transactions == old(transactions) && userTransactions == old(userTransactions)
      ensures users == old(users) && poolCommission == old(poolCommission)
      ensures processed == old(processed) && openingUsers == old(openingUsers)
      ensures openingCommission == old(openingCommission)
    {
      tradesProcessed := tradesProcessed + [(transactionId, data)];
    }

    /**
     * onCreateTransaction: the record's type tag picks exactly one handler
     * (none for a commission). The stores stay equal to the replay of the
     * handled records.
     */
    method OnCreateTransaction(transactionId: string, data: TransactionData, now: Date)
      requires Valid()
      modifies this
      ensures Valid()
      ensures processed == old(processed) + [data]
      ensures data.DepositTx? ==>
                var split := DeductCommission(data.amount);
                var record := CommissionTx(now, split.commission, transactionId, data.uid);
                && transactions == old(transactions) + [record]
                && userTransactions == old(userTransactions)[data.uid :=
                     TransactionsOf(old(userTransactions), data.uid) + [record, data]]
                && users == WriteUser(old(users), data.uid,
                     UserData(old(BalanceOf(data.uid)) + split.newAmount, now, None, None))
                && poolCommission == PoolCommissionData(old(poolCommission.amount) + split.commission, now)
                && tradesProcessed == old(tradesProcessed)
      ensures data.WithdrawalTx? ==>
                && users == WriteUser(old(users), data.uid,
                     UserData(old(BalanceOf(data.uid)) - data.amount, now, Some(data.uid), None))
                && transactions == old(transactions) && userTransactions == old(userTransactions)
                && poolCommission == old(poolCommission) && tradesProcessed == old(tradesProcessed)
      ensures data.TradeTx? ==>
                && tradesProcessed == old(tradesProcessed) + [(transactionId, data)]
                && transactions == old(transactions) && userTransactions == old(userTransactions)
                && users == old(users) && poolCommission == old(poolCommission)
      ensures data.CommissionTx? ==>
                && tradesProcessed == old(tradesProcessed)
                && transactions == old(transactions) && userTransactions == old(userTransactions)
                && users == old(users) && poolCommission == old(poolCommission)
    {
      ghost var before := processed;
      if data.TypeTag() == Deposit {
        ProcessDeposit(transactionId, data, now);
      }
      if data.TypeTag() == Trade {
        ProcessTrade(transactionId, data);
      }
      if data.TypeTag() == Withdrawal {
        ProcessWithdrawal(data, now);
      }
      processed := processed + [data];
      assert (before + [data])[..|before|] == before;
      forall uid
        ensures BalanceOf(uid) == BalanceIn(openingUsers, uid) + ReplayBalance(uid, processed)
      {
      }
    }
  }
}
