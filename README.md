# Fat Buck ledger core, modelled in Dafny

Fat Buck is a pooled Bitcoin trading fund. Users ask to deposit from a
wallet (a *deposit call*). A reconciliation job matches the exchange's
deposit history against the PENDING calls: it resolves each call to
SUCCESS, ERROR (asset other than BTC) or leaves it PENDING, and on SUCCESS
saves a deposit transaction and sends a `depositSuccess` notification.

Every new transaction document goes to one handler, chosen by its type:

- A deposit pays the 2.5% pool commission. The rest is credited to the
  user.
- A withdrawal is debited from the user.
- A trade is passed on.

The pool's profit ratio is the latest trade's amount over that amount plus
the capital deposited (less the capital withdrawn) up to that trade.

Modules:

- `Models` (`models.dfy`): the Firestore documents.
- `BtcDigits` (`digits.dfy`): rounding to eight decimals.
- `Commission` (`commission.dfy`): `deductCommission`.
- `Profit` (`profit.dfy`): `calculateTotalProfit`.
- `Ledger` (`ledger.dfy`): the transaction handler. It is a class over the
  stores it writes, with a replay invariant.
- `HandleDeposits` (`handle_deposits.dfy`): the reconciliation. It is a
  class over the `depositCalls` store and its effect logs.
- `Sequences` (`sequences.dfy`) and `Wrappers` (`wrappers.dfy`): generic
  helpers.

Amounts are whole satoshis (`int`), so an eight-decimal BTC amount is
exact. Dates are chronologically ordered integers. Nothing in the model
reads a clock: the handlers take `now` as a parameter.

The reconciliation's own code is not part of this model, so how it
matches is read from its tests. The model's reading is that it matches
against the list of calls fetched at the start of the run, and that this
list is not updated during the run. The test at
src/heroku/handleDeposits/handleDeposits.test.ts:310-363 fits this
reading: five entries match one call there, and the test expects five
saves and two transactions. The consequences below follow from this
reading and not from code the model has seen:

- `HandleDeposits.StaleSnapshotCreditsAgain`: a completed and a pending
  entry from one wallet can leave the call PENDING, so the next run
  credits again.
- `HandleDeposits.StoreDependsOnHistoryOrder`: which of those two entries
  comes last decides the stored document.

When several PENDING calls share a wallet, the model matches an entry to
the first of them in list order. This too is the model's reading: the tests
never have two PENDING calls from one wallet.
`HandleDeposits.CallOrderDecidesCredit` shows that the order of the calls
then decides which user is credited.

`HandleDeposits.SecondRunCreditsNothing` and
`HandleDeposits.SecondRunKeepsStore` prove that a second run credits
nothing and leaves every stored deposit call as the first run left it. They
need four hypotheses:

- the calls the first run fetched are the stored documents;
- no two PENDING calls among them share a wallet;
- no two entries resolve to the same wallet;
- the calls fetched again are the stored documents the first run left.

When the fetched calls are the stored documents and no two entries resolve
to the same wallet, `HandleDeposits.HistoryOrderKeepsStore` proves that the
order of the history does not change the stored documents.

## Model

| member | source | states |
|---|---|---|
| Models.ParseDepositStatus | src/services/firebase/models.ts:16-20 | only the three stored names parse, each to the status it names |
| Models.DepositStatusNameRoundTrip | src/services/firebase/models.ts:16-20 | every status's stored name parses back to it |
| Models.ParseTransactionType | src/services/firebase/models.ts:62-67 | only the four type names parse, each to the type it names |
| Models.TransactionData.TypeTag | src/services/firebase/models.ts:69-109 | the `type` field names a document's variant, and only that variant |
| BtcDigits.RoundHalfUp | src/utils/deductCommission.ts:11-12 | the result is the integer within half a unit of the input, halves upward |
| BtcDigits.ToBtcDigits | src/functions/onCreateTransaction/calculateTotalProfit.test.ts:41-44 | the result has at most eight decimals and is within half a satoshi of the input |
| BtcDigits.ToBtcDigitsIdempotent | src/functions/onCreateTransaction/calculateTotalProfit.test.ts:41-44 | rounding a rounded value changes nothing |
| Commission.DeductCommission | src/utils/deductCommission.ts:4-18 | the commission is the percentage of the amount rounded to the satoshi; commission plus new amount is the amount; for a non-negative amount and a rate in [0, 100] both parts lie in [0, amount] |
| Commission.DefaultRateExample | src/utils/deductCommission.ts:6-12 | at the default 2.5%, 1000 satoshis split 25/975, and 0.5010101 BTC splits 0.01252525/0.48848485 |
| Profit.LatestTrade | src/functions/onCreateTransaction/calculateTotalProfit.test.ts:27-47 | none exactly when there is no trade; otherwise a trade of the history, dated no earlier than any other trade |
| Profit.CalculateTotalProfit | src/functions/onCreateTransaction/calculateTotalProfit.test.ts:9-25 | zero when the history holds no trade; always eight decimals at most |
| Profit.PrincipalAppend | src/functions/onCreateTransaction/calculateTotalProfit.test.ts:49-72 | the capital at risk of two parts of a history adds up |
| Profit.LatestTradeIgnoresNonTrade | src/functions/onCreateTransaction/calculateTotalProfit.test.ts:49-72 | a non-trade record anywhere in the history never changes the latest trade |
| Profit.LaterRecordIgnored | src/functions/onCreateTransaction/calculateTotalProfit.test.ts:49-72 | a deposit, withdrawal or commission dated after the latest trade leaves the ratio unchanged, wherever it stands |
| Profit.DepositThenTrade | src/functions/onCreateTransaction/calculateTotalProfit.test.ts:27-47 | for a deposit then a later trade the ratio is trade / (trade + deposit), rounded |
| Profit.SameDayCountsLaterDoesNot | src/functions/onCreateTransaction/calculateTotalProfit.test.ts:49-72 | a deposit on the trade's date counts, and one dated after it does not |
| Ledger.WriteUser | src/functions/onCreateTransaction/processWithdrawal.ts:26-31 | saving a user document sets its balance and date; its `id` and `isAdmin` are the ones written, or the stored ones when omitted; every other user is left alone |
| Ledger.DepositConserved | src/functions/onCreateTransaction/processDeposit.test.ts:46-64 | a deposit's credit to its owner plus the pool's commission is the whole deposit; no other balance changes |
| Ledger.ReplayAppend | src/functions/onCreateTransaction/index.ts:14-31 | replaying two parts of the processed records adds up, for balances and the commission |
| Ledger.Ledger.constructor | src/functions/onCreateTransaction/index.ts:14-17 | the stores start as given, with nothing processed, and the replay invariant holds |
| Ledger.Ledger.HandleDeposit | src/functions/onCreateTransaction/processDeposit.test.ts:34-80 | five writes: the commission record globally and under the user; the deposit under the user; the balance plus the new amount; the pool commission plus the commission; all dated now; the two increments add up to the deposit |
| Ledger.Ledger.ProcessDeposit | src/functions/onCreateTransaction/index.ts:20-22 | handles the deposit on the user's current balance and the current pool commission |
| Ledger.Ledger.HandleUpdateUserBalance | src/functions/onCreateTransaction/processWithdrawal.ts:9-35 | the withdrawer's balance becomes the old balance minus the gross amount, with no funds check; the document carries the uid and the date; nothing else changes |
| Ledger.Ledger.HandleWithdrawal | src/functions/onCreateTransaction/processWithdrawal.ts:37-52 | updates the user's balance, as above, once |
| Ledger.Ledger.ProcessWithdrawal | src/functions/onCreateTransaction/processWithdrawal.ts:54-63 | runs the withdrawal handler, as above |
| Ledger.Ledger.ProcessTrade | src/functions/onCreateTransaction/index.ts:24-26 | the trade is passed on with its id; no store changes |
| Ledger.Ledger.OnCreateTransaction | src/functions/onCreateTransaction/index.ts:14-31 | exactly the handler of the record's type runs, and none for a commission; a deposit makes the five writes of `ProcessDeposit`, stated in full; balances and the pool commission stay equal to the opening stores plus the replay of every processed record |
| HandleDeposits.FindPendingCall | src/heroku/handleDeposits/handleDeposits.test.ts:90-132 | a call found is PENDING from the wallet |
| HandleDeposits.FindPendingCallNone | src/heroku/handleDeposits/handleDeposits.test.ts:455-502 | no call is found exactly when no call is PENDING from the wallet |
| HandleDeposits.FindPendingCallIsFirst | src/heroku/handleDeposits/handleDeposits.test.ts:134-182 | the model's choice among several PENDING calls from one wallet: the call found is the first in list order; the cited test has one PENDING call per wallet and does not decide this |
| HandleDeposits.AdvanceOutcome | src/heroku/handleDeposits/handleDeposits.test.ts:239-308 | an asset other than BTC gives ERROR with the return message; a completed BTC deposit gives SUCCESS, the resolved date and a deposit transaction for the call's user; otherwise the call stays PENDING; the tx id is recorded in every case; a valid call stays valid |
| HandleDeposits.MatchedCall | src/heroku/handleDeposits/handleDeposits.test.ts:413-453 | a matched call is PENDING |
| HandleDeposits.MergeOfExtension | src/services/firebase/saveDepositCall.ts:4-13 | a merged save that carries every stored optional field overwrites the document |
| HandleDeposits.DepositReconciler.constructor | src/services/firebase/saveDepositCall.ts:4-13 | the store starts as given and the logs empty |
| HandleDeposits.DepositReconciler.GetTxInputWalletAddress | src/heroku/handleDeposits/handleDeposits.test.ts:90-132 | the lookup is logged and answers the wallet of the transaction, if known |
| HandleDeposits.DepositReconciler.SaveDepositCall | src/services/firebase/saveDepositCall.ts:4-13 | the document is merged into the one with its id, and the save is logged |
| HandleDeposits.DepositReconciler.ReconcileEntry | src/heroku/handleDeposits/handleDeposits.test.ts:239-308 | one history entry: one lookup; the matched call advanced and saved; on SUCCESS one transaction and one notification carrying it |
| HandleDeposits.DepositReconciler.ProcessDeposits | src/heroku/handleDeposits/handleDeposits.test.ts:28-363 | the lookups, saves, store, transactions and notifications are exactly the run functions of the history, in history order |
| HandleDeposits.EntryByEntryIsRun | src/heroku/handleDeposits/handleDeposits.test.ts:310-363 | handling the entries one at a time gives the whole-run effects |
| HandleDeposits.SavesAdvancePendingCalls | src/heroku/handleDeposits/handleDeposits.test.ts:90-237 | every save is a matched PENDING call advanced by its entry, and every matching entry saves |
| HandleDeposits.CreditsAreCompletedBtcDeposits | src/heroku/handleDeposits/handleDeposits.test.ts:239-308 | every transaction is a completed BTC entry credited to the matched call's user, and every such entry yields one |
| HandleDeposits.NoPendingMatchNoEffects | src/heroku/handleDeposits/handleDeposits.test.ts:28-88 | with no entry resolving to a PENDING call's wallet, nothing is saved, credited or notified |
| HandleDeposits.HistoryOrderIrrelevant | src/heroku/handleDeposits/handleDeposits.test.ts:139-145 | reordering the history only reorders the logged lookups, saves, transactions and notifications, as multisets; the stored documents are covered by `HistoryOrderKeepsStore` |
| HandleDeposits.FindPendingCallPermutation | src/heroku/handleDeposits/handleDeposits.test.ts:148-154 | with unique PENDING wallets, any order of the calls finds the same call |
| HandleDeposits.CallOrderIrrelevant | src/heroku/handleDeposits/handleDeposits.test.ts:148-154 | with unique PENDING wallets, reordering the calls changes neither the saves nor the transactions |
| HandleDeposits.AllMatchedCounts | src/heroku/handleDeposits/handleDeposits.test.ts:310-363 | when every entry matches, there is one save per entry and one transaction per completed BTC entry |
| HandleDeposits.ApplySavesKeepsWallet | src/services/firebase/saveDepositCall.ts:12 | merged saves that share a document's wallet keep it |
| HandleDeposits.ApplySavesUntouched | src/services/firebase/saveDepositCall.ts:12 | a document no save touches is unchanged |
| HandleDeposits.ApplySavesSameDocument | src/services/firebase/saveDepositCall.ts:12 | when every save under an id is one document, the stored document is that one merged once into the stored version, so it has its status |
| HandleDeposits.ApplySavesKeys | src/services/firebase/saveDepositCall.ts:12 | after merged saves the store holds the ids it held and every saved id, and no other |
| HandleDeposits.ApplySavesReordered | src/services/firebase/saveDepositCall.ts:12 | merged saves that never disagree under one id leave the same store in any order |
| HandleDeposits.HistoryOrderKeepsStore | src/heroku/handleDeposits/handleDeposits.test.ts:139-145 | when the fetched calls are the stored documents and no two entries resolve to one wallet, every order of the history leaves the same store |
| HandleDeposits.SavedUnderId | src/heroku/handleDeposits/handleDeposits.test.ts:239-308 | a save under a fetched call's id is that call advanced by an entry that matched it |
| HandleDeposits.ResolvedCallNotSaved | src/heroku/handleDeposits/handleDeposits.test.ts:365-411 | a call fetched as SUCCESS or ERROR is never saved |
| HandleDeposits.WalletKept | src/heroku/handleDeposits/handleDeposits.test.ts:239-308 | a run keeps the wallet of every call it fetched |
| HandleDeposits.PendingCallStored | src/heroku/handleDeposits/handleDeposits.test.ts:239-308 | a PENDING call whose wallet a single entry resolves to is matched by it, and is stored as that entry's advance of it merged into the fetched call |
| HandleDeposits.PendingCallResolved | src/heroku/handleDeposits/handleDeposits.test.ts:239-308 | a PENDING call whose wallet a single completed BTC entry resolves to is stored as SUCCESS after the run |
| HandleDeposits.CompletedCallResolved | src/heroku/handleDeposits/handleDeposits.test.ts:365-411 | after the run, a call matched by a completed BTC entry is no longer PENDING |
| HandleDeposits.NotCreditedAgain | src/heroku/handleDeposits/handleDeposits.test.ts:365-411 | an entry run again over the refetched calls credits nothing |
| HandleDeposits.SecondRunCreditsNothing | src/heroku/handleDeposits/handleDeposits.test.ts:365-411 | under the four hypotheses above, a second run over the same history credits and notifies nothing |
| HandleDeposits.SecondRunKeepsStore | src/heroku/handleDeposits/handleDeposits.test.ts:365-411 | under the four hypotheses above, a second run over the same history leaves every stored deposit call unchanged, so the statuses are those of the first run |
| HandleDeposits.StaleSnapshotCreditsAgain | src/heroku/handleDeposits/handleDeposits.test.ts:310-363 | without one entry per wallet, a second run can credit a completed entry again |
| HandleDeposits.CallOrderDecidesCredit | src/heroku/handleDeposits/handleDeposits.test.ts:134-182 | with two PENDING calls from one wallet, a completed entry credits the first call's user in one order of the calls and the other call's user in the other order |
| HandleDeposits.StoreDependsOnHistoryOrder | src/heroku/handleDeposits/handleDeposits.test.ts:310-363 | without one entry per wallet, one order of a completed and a pending entry stores the call as SUCCESS, and the other stores it as PENDING with a resolved date, which is not a valid deposit call |

## Left out

- I/O is not modelled. The Firestore reads and writes, the exchange API
  and the blockchain lookup are parameters or fields. Examples are the
  `walletOf` map, the history and calls given to `ProcessDeposits`, and
  `now`.
- The reconciliation's own source and `processDeposit.ts` are not part of
  this model. Their behaviour follows the tests cited above.
- `processTrade`, `toBTCDigits`, `getUserBalance` and `saveUserData` are not
  part of this model either. `processTrade` is recorded as a call.
- `ToBtcDigits` rounds half a satoshi upward. Floating-point error in the
  division and multiplication is not modelled.
- `BalanceIn` reads a user without a document as zero.
- `WriteUser` is a merge that keeps the optional fields it omits.
- `Profit.CalculateTotalProfit` takes a non-zero denominator as a
  precondition. The source's behaviour on division by zero is not
  modelled.
- `Profit.LatestTrade` breaks a tie of dates in favour of the later record.
  Commissions and trades add nothing to the principal. The tests do not
  decide either case.
- Commission: there is no guard against a negative or non-numeric amount,
  because the code has none.
- `Ledger.Ledger.HandleUpdateUserBalance` subtracts the gross amount only.
  The transaction fee and resolved amount are ignored, as in the code.
- UserData's `id` is optional here, because the deposit handler writes a
  user document without it.
- Concurrency is not modelled. This covers overlapping reconciliation runs
  and concurrent handler invocations, since their reads and writes are not
  atomic.
- The mailer, the `onWriteBotIsAlive` trigger and withdrawal calls'
  life cycle are not modelled. Neither are `PoolBalanceData`,
  `PoolProfitData`, `BotData` or `CallResponse`.
- Saving a deposit call without an id creates a new document. The model
  always saves with the call's id.
- `HandleDeposits.SecondRunCreditsNothing` and `SecondRunKeepsStore` hold
  only under their four hypotheses. `StaleSnapshotCreditsAgain` shows that one of them is
  needed.
- `HandleDeposits.HistoryOrderIrrelevant` covers the logs only. The stored
  documents are independent of history order when the fetched calls are
  the stored documents and no two entries resolve to one wallet
  (`HistoryOrderKeepsStore`). Otherwise they can differ, and a stored call can stop satisfying `ValidDepositCall`
  (`StoreDependsOnHistoryOrder`).
- `HandleDeposits.StaleSnapshotCreditsAgain` follows only from reading the
  run as matching against the calls fetched at its start. The code could
  instead update the matched call in place. It would pick among the calls
  that were PENDING when fetched, without checking their status again. A
  pending entry after a completed one would then save the call as SUCCESS,
  and no second credit would follow. The tests fit both readings.
  `StoreDependsOnHistoryOrder` rests on the same reading.
- `HandleDeposits.CallOrderIrrelevant` holds only when no two PENDING calls
  share a wallet. With two PENDING calls from one wallet the model matches
  the first in list order, so the order of the calls decides which call is
  saved and credited (`CallOrderDecidesCredit`). Matching each such call by
  the transaction id it has recorded, so that list order does not matter,
  is not modelled.
