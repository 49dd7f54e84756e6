/**
 * The Firestore documents of the fund (src/services/firebase/models.ts).
 *
 * Amounts are whole satoshis (1 BTC = 100000000 satoshis), so the
 * eight-decimal BTC amounts of the source are exact integers here.
 * Dates are instants ordered chronologically; the source stores them as
 * ISO-8601 strings, whose only use in the core is to be compared.
 */
module Models {
  import opened Wrappers

  type Satoshi = int
  type Date = int

  /** The status of a deposit call; stored as one of three strings. */
  datatype DepositStatus = Pending | Success | Error

  function DepositStatusName(s: DepositStatus): string
  {
    match s
    case Pending => "PENDING"
    case Success => "SUCCESS"
    case Error => "ERROR"
  }

  /** Reads a stored status string; only the three names are statuses. */
  function ParseDepositStatus(name: string): (r: Option<DepositStatus>)
    ensures r.Some? ==> DepositStatusName(r.value) == name
    ensures r.None? ==> forall s: DepositStatus :: DepositStatusName(s) != name
  {
    if name == "PENDING" then Some(Pending)
    else if name == "SUCCESS" then Some(Success)
    else if name == "ERROR" then Some(Error)
    else None
  }

  lemma DepositStatusNameRoundTrip(s: DepositStatus)
    ensures ParseDepositStatus(DepositStatusName(s)) == Some(s)
  {
  }

  /**
   * A user's request to deposit from `walletAddress`. `txId` is added once
   * the deposit has been seen in the exchange's history, `resolvedDate`
   * once the call has resolved with SUCCESS, `message` for errors.
   */
  datatype DepositCall = DepositCall(
    id: string,
    uid: string,
    date: Date,
    walletAddress: string,
    status: DepositStatus,
    txId: Option<string>,
    resolvedDate: Option<Date>,
    message: Option<string>)

  /** The field comments of the deposit call, as an invariant of one document. */
  predicate ValidDepositCall(c: DepositCall)
  {
    && (c.status != Pending ==> c.txId.Some?)
    && (c.resolvedDate.Some? ==> c.status == Success)
    && (c.message.Some? ==> c.status == Error)
  }

  datatype WithdrawalStatus =
    | WithdrawalPending | EmailSent | Cancelled | AwaitingApproval
    | Rejected | Processing | Failure | Completed

  datatype WithdrawalCall = WithdrawalCall(
    id: string,
    uid: string,
    date: Date,
    walletAddress: string,
    amount: Satoshi,
    status: WithdrawalStatus,
    txId: Option<string>,
    resolvedDate: Option<Date>,
    message: Option<string>)

  /** `resolvedDate` is added once the withdrawal has resolved (COMPLETED). */
  predicate ValidWithdrawalCall(w: WithdrawalCall)
  {
    w.resolvedDate.Some? ==> w.status == Completed
  }

  /** The type tag stored on every transaction document. */
  datatype TransactionType = Deposit | Withdrawal | Commission | Trade

  function TransactionTypeName(t: TransactionType): string
  {
    match t
    case Deposit => "DEPOSIT"
    case Withdrawal => "WITHDRAWAL"
    case Commission => "COMMISSION"
    case Trade => "TRADE"
  }

  function ParseTransactionType(name: string): (r: Option<TransactionType>)
    ensures r.Some? ==> TransactionTypeName(r.value) == name
    ensures r.None? ==> forall t: TransactionType :: TransactionTypeName(t) != name
  {
    if name == "DEPOSIT" then Some(Deposit)
    else if name == "WITHDRAWAL" then Some(Withdrawal)
    else if name == "COMMISSION" then Some(Commission)
    else if name == "TRADE" then Some(Trade)
    else None
  }

  /**
   * A transaction document: one of four variants over the common
   * `date`, `amount` and type tag.
   */
  datatype TransactionData =
    | DepositTx(date: Date, amount: Satoshi, uid: string, walletAddress: string,
                depositCallId: string, txId: string)
    | CommissionTx(date: Date, amount: Satoshi, depositId: string, uid: string)
    | TradeTx(date: Date, amount: Satoshi, tradeId: string, profitRatio: real)
    | WithdrawalTx(date: Date, amount: Satoshi, uid: string, walletAddress: string,
                   withdrawalCallId: string, txId: string,
                   transactionFee: Satoshi, resolvedAmount: Satoshi)
  {
    /** The `type` field: it names the variant, and only that one. */
    function TypeTag(): (t: TransactionType)
      ensures t == Deposit <==> DepositTx?
      ensures t == Withdrawal <==> WithdrawalTx?
      ensures t == Commission <==> CommissionTx?
      ensures t == Trade <==> TradeTx?
    {
      match this
      case DepositTx(_, _, _, _, _, _) => Deposit
      case CommissionTx(_, _, _, _) => Commission
      case TradeTx(_, _, _, _) => Trade
      case WithdrawalTx(_, _, _, _, _, _, _, _) => Withdrawal
    }
  }

  /** The user document; `id` and `isAdmin` are optional fields. */
  datatype UserData = UserData(
    balance: Satoshi,
    balanceLastUpdated: Date,
    id: Option<string>,
    isAdmin: Option<bool>)

  datatype PoolCommissionData = PoolCommissionData(amount: Satoshi, lastUpdated: Date)

  datatype MessagingTopic = OpenedTrades | ClosedTrades | DepositSuccess
}
