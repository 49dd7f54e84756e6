/**
 * Deposit reconciliation (processDeposits; specified in
 * src/heroku/handleDeposits/handleDeposits.test.ts).
 *
 * Every entry of the exchange's deposit history is looked up by its
 * transaction id to find the wallet it was sent from; the first PENDING
 * deposit call with that wallet, in the list of calls fetched at the start
 * of the run, is advanced and saved. The fetched list is not updated while
 * the run goes on, so a call matched by several entries is saved once per
 * entry. A deposit transaction and a notification follow only a SUCCESS.
 */
module HandleDeposits {
  import opened Wrappers
  import opened Models
  import opened Sequences

  /** The only asset the fund accepts. */
  const SupportedAsset: string := "BTC"

  /** Where the exchange says a deposit stands. */
  datatype ExchangeStatus = ExchangePending | ExchangeVerifying | ExchangeSuccess

  /** One entry of the exchange's deposit history. */
  datatype ExchangeDeposit = ExchangeDeposit(
    address: string,
    txId: string,
    amount: Satoshi,
    asset: string,
    status: ExchangeStatus)

  datatype Notification = Notification(topic: MessagingTopic, data: TransactionData)

  /** What one run reads besides the history: the calls, the tx-to-wallet lookup, the clock. */
  datatype RunInputs = RunInputs(calls: seq<DepositCall>, walletOf: map<string, string>, now: Date)

  /** A matched call's new document and, on success, the deposit transaction. */
  datatype Resolution = Resolution(saved: DepositCall, credit: Option<TransactionData>)

  predicate IsPendingFor(c: DepositCall, wallet: string)
  {
    c.status == Pending && c.walletAddress == wallet
  }

  /** The first PENDING call from `wallet`. */
  function FindPendingCall(calls: seq<DepositCall>, wallet: string): (r: Option<DepositCall>)
    ensures r.Some? ==> IsPendingFor(r.value, wallet)
  {
    if calls == [] then None
    else if IsPendingFor(calls[0], wallet) then Some(calls[0])
    else FindPendingCall(calls[1..], wallet)
  }

  /** No call is found exactly when no call is PENDING from `wallet`. */
  lemma {:induction false} FindPendingCallNone(calls: seq<DepositCall>, wallet: string)
    ensures FindPendingCall(calls, wallet).None? <==> forall c | c in calls :: !IsPendingFor(c, wallet)
  {
    if calls != [] && !IsPendingFor(calls[0], wallet) {
      FindPendingCallNone(calls[1..], wallet);
      assert calls == [calls[0]] + calls[1..];
    }
  }

  /** The call found is the first of the calls that is PENDING from `wallet`. */
  lemma {:induction false} FindPendingCallIsFirst(calls: seq<DepositCall>, wallet: string)
    ensures FindPendingCall(calls, wallet).Some? ==>
              exists k :: 0 <= k < |calls| && calls[k] == FindPendingCall(calls, wallet).value
                          && forall j :: 0 <= j < k ==> !IsPendingFor(calls[j], wallet)
  {
    if calls != [] && !IsPendingFor(calls[0], wallet) {
      FindPendingCallIsFirst(calls[1..], wallet);
      var r := FindPendingCall(calls[1..], wallet);
      if r.Some? {
        var k :| 0 <= k < |calls[1..]| && calls[1..][k] == r.value
                 && forall j :: 0 <= j < k ==> !IsPendingFor(calls[1..][j], wallet);
        assert calls[k + 1] == r.value;
        assert forall j :: 1 <= j < k + 1 ==> calls[j] == calls[1..][j - 1];
      }
    } else if calls != [] {
      assert calls[0] == calls[0];
    }
  }

  /** The error message for a deposit of an asset other than BTC. */
  function UnsupportedAssetMessage(asset: string, wallet: string): string
  {
    "We do not support " + asset + " deposits. Your deposit will be returned to your wallet address, "
    + wallet + "."
  }

  /** The step of a PENDING call matched by a history entry. */
  function Advance(call: DepositCall, deposit: ExchangeDeposit, now: Date): Resolution
    requires call.status == Pending
  {
    if deposit.asset != SupportedAsset then
      Resolution(call.(status := Error, txId := Some(deposit.txId),
                       message := Some(UnsupportedAssetMessage(deposit.asset, call.walletAddress))),
                 None)
    else if deposit.status == ExchangeSuccess then
      Resolution(call.(status := Success, txId := Some(deposit.txId), resolvedDate := Some(now)),
                 Some(DepositTx(now, deposit.amount, call.uid, call.walletAddress, call.id, deposit.txId)))
    else
      Resolution(call.(txId := Some(deposit.txId)), None)
  }

  /**
   * ERROR for another asset, SUCCESS (with a deposit transaction for the
   * call's user) for a BTC deposit the exchange has completed, otherwise
   * still PENDING; the entry's transaction id is recorded in every case,
   * the call's identity is kept and a valid call stays valid.
   */
  lemma AdvanceOutcome(call: DepositCall, deposit: ExchangeDeposit, now: Date)
    requires call.status == Pending
    ensures var r := Advance(call, deposit, now);
      && r.saved.id == call.id && r.saved.uid == call.uid && r.saved.date == call.date
      && r.saved.walletAddress == call.walletAddress
      && r.saved.txId == Some(deposit.txId)
      && (r.saved.status == Error <==> deposit.asset != SupportedAsset)
      && (r.saved.status == Success <==> deposit.asset == SupportedAsset && deposit.status == ExchangeSuccess)
      && r.saved.resolvedDate == (if r.saved.status == Success then Some(now) else call.resolvedDate)
      && r.saved.message ==
           (if r.saved.status == Error then Some(UnsupportedAssetMessage(deposit.asset, call.walletAddress))
            else call.message)
      && (r.credit.Some? <==> r.saved.status == Success)
      && (r.credit.Some? ==>
            r.credit.value == DepositTx(now, deposit.amount, call.uid, call.walletAddress, call.id, deposit.txId))
      && (ValidDepositCall(call) ==> ValidDepositCall(r.saved))
  {
  }

  /** The PENDING call a history entry matches, through the wallet its transaction came from. */
  function MatchedCall(deposit: ExchangeDeposit, run: RunInputs): (r: Option<DepositCall>)
    ensures r.Some? ==> r.value.status == Pending
  {
    if deposit.txId in run.walletOf then FindPendingCall(run.calls, run.walletOf[deposit.txId]) else None
  }

  function Resolve(deposit: ExchangeDeposit, run: RunInputs): Option<Resolution>
  {
    match MatchedCall(deposit, run)
    case Some(call) => Some(Advance(call, deposit, run.now))
    case None => None
  }

  function Saver(run: RunInputs): ExchangeDeposit -> Option<DepositCall>
  {
    deposit => match Resolve(deposit, run) case Some(r) => Some(r.saved) case None => None
  }

  function Crediter(run: RunInputs): ExchangeDeposit -> Option<TransactionData>
  {
    deposit => match Resolve(deposit, run) case Some(r) => r.credit case None => None
  }

  function LookupKey(deposit: ExchangeDeposit): Option<string>
  {
    Some(deposit.txId)
  }

  function NoticeOf(t: TransactionData): Option<Notification>
  {
    Some(Notification(DepositSuccess, t))
  }

  /** The wallet lookups of a run: one per history entry, in order. */
  function Lookups(history: seq<ExchangeDeposit>): seq<string>
  {
    FilterMap(LookupKey, history)
  }

  /** The call documents a run saves: one per history entry that matches a call. */
  function Saves(history: seq<ExchangeDeposit>, run: RunInputs): seq<DepositCall>
  {
    FilterMap(Saver(run), history)
  }

  /** The deposit transactions a run saves: one per matched BTC entry the exchange completed. */
  function Credits(history: seq<ExchangeDeposit>, run: RunInputs): seq<TransactionData>
  {
    FilterMap(Crediter(run), history)
  }

  /** One `depositSuccess` notification per transaction, carrying it. */
  function Notices(credits: seq<TransactionData>): seq<Notification>
  {
    FilterMap(NoticeOf, credits)
  }

  /**
   * Saving a document under an id that exists merges it into the stored
   * one: fields it has replace the stored ones, optional fields it lacks
   * keep their stored value.
   */
  function Merge(stored: DepositCall, data: DepositCall): DepositCall
  {
    data.(txId := if data.txId.Some? then data.txId else stored.txId,
          resolvedDate := if data.resolvedDate.Some? then data.resolvedDate else stored.resolvedDate,
          message := if data.message.Some? then data.message else stored.message)
  }

  /** A document that carries every field of the stored one overwrites it. */
  lemma MergeOfExtension(stored: DepositCall, data: DepositCall)
    requires stored.txId.Some? ==> data.txId.Some?
    requires stored.resolvedDate.Some? ==> data.resolvedDate.Some?
    requires stored.message.Some? ==> data.message.Some?
    ensures Merge(stored, data) == data
  {
  }

  function StoreSave(store: map<string, DepositCall>, data: DepositCall): map<string, DepositCall>
  {
    store[data.id := if data.id in store then Merge(store[data.id], data) else data]
  }

  function ApplySaves(store: map<string, DepositCall>, saves: seq<DepositCall>): map<string, DepositCall>
  {
    if saves == [] then store else StoreSave(ApplySaves(store, saves[..|saves| - 1]), saves[|saves| - 1])
  }

  class DepositReconciler {
    /** The `depositCalls` collection, by document id. */
    var depositCalls: map<string, DepositCall>
    /** Every call of `saveDepositCall`, in order. */
    var callSaves: seq<DepositCall>
    /** Every transaction id given to the wallet lookup, in order. */
    var lookups: seq<string>
    /** Every transaction saved, in order. */
    var transactions: seq<TransactionData>
    /** Every notification sent, in order. */
    var notifications: seq<Notification>

    constructor (store: map<string, DepositCall>)
      ensures depositCalls == store
      ensures callSaves == [] && lookups == [] && transactions == [] && notifications == []
    {
      depositCalls := store;
      callSaves := [];
      lookups := [];
      transactions := [];
      notifications := [];
    }

    /** The wallet the transaction `txId` was sent from, if the lookup knows it. */
    method GetTxInputWalletAddress(txId: string, walletOf: map<string, string>) returns (wallet: Option<string>)
      modifies this
      ensures wallet == if txId in walletOf then Some(walletOf[txId]) else None
      ensures lookups == old(lookups) + [txId]
      ensures depositCalls == old(depositCalls) && callSaves == old(callSaves)
      ensures transactions == old(transactions) && notifications == old(notifications)
    {
      lookups := lookups + [txId];
      wallet := if txId in walletOf then Some(walletOf[txId]) else None;
    }

    /** saveDepositCall(data, data.id): a merge into the document with that id. */
    method SaveDepositCall(data: DepositCall)
      modifies this
      ensures depositCalls == StoreSave(old(depositCalls), data)
      ensures callSaves == old(callSaves) + [data]
      ensures lookups == old(lookups)
      ensures transactions == old(transactions) && notifications == old(notifications)
    {
      depositCalls := StoreSave(depositCalls, data);
      callSaves := callSaves + [data];
    }

    /** Everything a run reads back or leaves behind. */
    function Snapshot(): Effects
      reads this
    {
      Effects(lookups, callSaves, depositCalls, transactions, notifications)
    }

    /**
     * The handling of one history entry: look up the wallet, find the
     * PENDING call from it, advance and save the call, and on SUCCESS save
     * the deposit transaction and send the notification.
     */
    method ReconcileEntry(deposit: ExchangeDeposit, run: RunInputs)
      modifies this
      ensures Snapshot() == Entry(old(Snapshot()), deposit, run)
    {
      var wallet := GetTxInputWalletAddress(deposit.txId, run.walletOf);
      var call := if wallet.Some? then FindPendingCall(run.calls, wallet.value) else None;
      var outcome := if call.Some? then Some(Advance(call.value, deposit, run.now)) else None;
      assert outcome == Resolve(deposit, run);
      if outcome.None? {
        ResolvedUnmatched(old(Snapshot()), deposit.txId);
      } else {
        SaveDepositCall(outcome.value.saved);
        if outcome.value.credit.None? {
          ResolvedSaved(old(Snapshot()), deposit.txId, outcome.value);
        } else {
          ResolvedCredited(old(Snapshot()), deposit.txId, outcome.value);
          var transaction := outcome.value.credit.value;
          transactions := transactions + [transaction];
          notifications := notifications + [Notification(DepositSuccess, transaction)];
        }
      }
    }

    /**
     * processDeposits over the fetched `history` and `calls`: the effects
     * are the ones the specification functions give, in history order.
     */
    method ProcessDeposits(history: seq<ExchangeDeposit>, calls: seq<DepositCall>,
                           walletOf: map<string, string>, now: Date)
      modifies this
      ensures var run := RunInputs(calls, walletOf, now);
              && lookups == old(lookups) + Lookups(history)
              && callSaves == old(callSaves) + Saves(history, run)
              && depositCalls == ApplySaves(old(depositCalls), Saves(history, run))
              && transactions == old(transactions) + Credits(history, run)
              && notifications == old(notifications) + Notices(Credits(history, run))
    {
      var run := RunInputs(calls, walletOf, now);
      ghost var start := Snapshot();
      var i := 0;
      while i < |history|
        invariant 0 <= i <= |history|
        invariant Snapshot() == EntryByEntry(start, history[..i], run)
      {
        assert history[..i + 1][..i] == history[..i];
        ReconcileEntry(history[i], run);
        i := i + 1;
      }
      assert history[..i] == history;
      EntryByEntryIsRun(start, history, run);
    }
  }

  /** The fields of a reconciler. */
  datatype Effects = Effects(
    lookups: seq<string>,
    callSaves: seq<DepositCall>,
    depositCalls: map<string, DepositCall>,
    transactions: seq<TransactionData>,
    notifications: seq<Notification>)

  /** The save one entry's resolution makes, if any. */
  function SavedBy(r: Option<Resolution>): seq<DepositCall>
  {
    match r case Some(res) => [res.saved] case None => []
  }

  /** The transaction one entry's resolution saves, if any. */
  function CreditedBy(r: Option<Resolution>): seq<TransactionData>
  {
    match r case Some(res) => (match res.credit case Some(t) => [t] case None => []) case None => []
  }

  /** The effects after handling one more history entry. */
  function Entry(e: Effects, deposit: ExchangeDeposit, run: RunInputs): Effects
  {
    Resolved(e, deposit.txId, Resolve(deposit, run))
  }

  /** The effects of one entry with transaction id `txId` that resolved to `r`. */
  function Resolved(e: Effects, txId: string, r: Option<Resolution>): Effects
  {
    Effects(e.lookups + [txId], e.callSaves + SavedBy(r), ApplySaves(e.depositCalls, SavedBy(r)),
            e.transactions + CreditedBy(r), e.notifications + Notices(CreditedBy(r)))
  }

  /** The effects after handling the entries one at a time, in order. */
  function EntryByEntry(e: Effects, history: seq<ExchangeDeposit>, run: RunInputs): Effects
  {
    if history == [] then e
    else Entry(EntryByEntry(e, history[..|history| - 1], run), history[|history| - 1], run)
  }

  /**
   * Handling the entries one at a time adds, to each log and to the store,
   * exactly what the whole-run functions give.
   */
  lemma EntryByEntryIsRun(e: Effects, history: seq<ExchangeDeposit>, run: RunInputs)
    ensures EntryByEntry(e, history, run) ==
            Effects(e.lookups + Lookups(history), e.callSaves + Saves(history, run),
                    ApplySaves(e.depositCalls, Saves(history, run)),
                    e.transactions + Credits(history, run), e.notifications + Notices(Credits(history, run)))
  {
    LookupsByEntry(e, history, run);
    SavesByEntry(e, history, run);
    StoreByEntry(e, history, run);
    CreditsByEntry(e, history, run);
    NoticesByEntry(e, history, run);
    assert EntryByEntry(e, history, run).transactions[|e.transactions|..] == Credits(history, run);
  }

  lemma {:induction false} LookupsByEntry(e: Effects, history: seq<ExchangeDeposit>, run: RunInputs)
    ensures EntryByEntry(e, history, run).lookups == e.lookups + Lookups(history)
  {
    if history != [] {
      var i := |history| - 1;
      assert history[..i + 1] == history;
      LookupsByEntry(e, history[..i], run);
      FilterMapAppend(LookupKey, history[..i], [history[i]]);
    }
  }

  lemma {:induction false} SavesByEntry(e: Effects, history: seq<ExchangeDeposit>, run: RunInputs)
    ensures EntryByEntry(e, history, run).callSaves == e.callSaves + Saves(history, run)
  {
    if history != [] {
      var i := |history| - 1;
      assert history[..i + 1] == history;
      SavesByEntry(e, history[..i], run);
      StepSaves(history, i, run);
    }
  }

  lemma {:induction false} StoreByEntry(e: Effects, history: seq<ExchangeDeposit>, run: RunInputs)
    ensures EntryByEntry(e, history, run).depositCalls == ApplySaves(e.depositCalls, Saves(history, run))
  {
    if history != [] {
      var i := |history| - 1;
      assert history[..i + 1] == history;
      StoreByEntry(e, history[..i], run);
      StepSaves(history, i, run);
      ApplySavesConcat(e.depositCalls, Saves(history[..i], run), SavedBy(Resolve(history[i], run)));
    }
  }

  lemma {:induction false} CreditsByEntry(e: Effects, history: seq<ExchangeDeposit>, run: RunInputs)
    ensures EntryByEntry(e, history, run).transactions == e.transactions + Credits(history, run)
  {
    if history != [] {
      var i := |history| - 1;
      assert history[..i + 1] == history;
      CreditsByEntry(e, history[..i], run);
      StepCredits(history, i, run);
    }
  }

  /** The effects of an entry that matched no call: one lookup. */
  lemma ResolvedUnmatched(e: Effects, txId: string)
    ensures Resolved(e, txId, None) == e.(lookups := e.lookups + [txId])
  {
    assert e.transactions + [] == e.transactions && e.notifications + [] == e.notifications;
    assert e.callSaves + [] == e.callSaves;
  }

  /** The effects of an entry that advanced a call: one lookup and one save. */
  lemma ResolvedSaved(e: Effects, txId: string, r: Resolution)
    requires r.credit.None?
    ensures Resolved(e, txId, Some(r)) ==
            e.(lookups := e.lookups + [txId], callSaves := e.callSaves + [r.saved],
               depositCalls := StoreSave(e.depositCalls, r.saved))
  {
    assert e.transactions + [] == e.transactions && e.notifications + [] == e.notifications;
    ApplySavesAppend(e.depositCalls, [], r.saved);
    assert [] + [r.saved] == [r.saved];
  }

  /** The effects of an entry that credited a deposit: a lookup, a save, a transaction and a notification. */
  lemma ResolvedCredited(e: Effects, txId: string, r: Resolution)
    requires r.credit.Some?
    ensures Resolved(e, txId, Some(r)) ==
            e.(lookups := e.lookups + [txId], callSaves := e.callSaves + [r.saved],
               depositCalls := StoreSave(e.depositCalls, r.saved),
               transactions := e.transactions + [r.credit.value],
               notifications := e.notifications + [Notification(DepositSuccess, r.credit.value)])
  {
    ApplySavesAppend(e.depositCalls, [], r.saved);
    assert [] + [r.saved] == [r.saved];
    NoticesAppend([], r.credit.value);
    assert [] + [r.credit.value] == [r.credit.value];
  }

  /** Since `e0`, each transaction added has been followed by its notification. */
  predicate NoticesFollow(e0: Effects, e: Effects)
  {
    && |e0.transactions| <= |e.transactions|
    && e.notifications == e0.notifications + Notices(e.transactions[|e0.transactions|..])
  }

  lemma ResolvedKeepsNotices(e0: Effects, e: Effects, txId: string, r: Option<Resolution>)
    requires NoticesFollow(e0, e)
    ensures NoticesFollow(e0, Resolved(e, txId, r))
  {
    var n, credited := |e0.transactions|, CreditedBy(r);
    assert (e.transactions + credited)[n..] == e.transactions[n..] + credited;
    FilterMapAppend(NoticeOf, e.transactions[n..], credited);
  }

  /** Each transaction added is followed by its notification. */
  lemma {:induction false} NoticesByEntry(e: Effects, history: seq<ExchangeDeposit>, run: RunInputs)
    ensures NoticesFollow(e, EntryByEntry(e, history, run))
  {
    if history == [] {
      assert e.transactions[|e.transactions|..] == [];
    } else {
      var last := history[|history| - 1];
      NoticesByEntry(e, history[..|history| - 1], run);
      ResolvedKeepsNotices(e, EntryByEntry(e, history[..|history| - 1], run), last.txId, Resolve(last, run));
    }
  }

  lemma StepSaves(history: seq<ExchangeDeposit>, i: int, run: RunInputs)
    requires 0 <= i < |history|
    ensures Saves(history[..i + 1], run) == Saves(history[..i], run) + SavedBy(Resolve(history[i], run))
  {
    assert history[..i + 1] == history[..i] + [history[i]];
    FilterMapAppend(Saver(run), history[..i], [history[i]]);
    FilterMapSingle(Saver(run), history[i]);
  }

  lemma StepCredits(history: seq<ExchangeDeposit>, i: int, run: RunInputs)
    requires 0 <= i < |history|
    ensures Credits(history[..i + 1], run) == Credits(history[..i], run) + CreditedBy(Resolve(history[i], run))
  {
    assert history[..i + 1] == history[..i] + [history[i]];
    FilterMapAppend(Crediter(run), history[..i], [history[i]]);
    FilterMapSingle(Crediter(run), history[i]);
  }

  lemma {:induction false} ApplySavesConcat(store: map<string, DepositCall>, saves: seq<DepositCall>, more: seq<DepositCall>)
    ensures ApplySaves(store, saves + more) == ApplySaves(ApplySaves(store, saves), more)
    decreases |more|
  {
    if more == [] {
      assert saves + more == saves;
    } else {
      var more' := more[..|more| - 1];
      assert (saves + more)[..|saves + more| - 1] == saves + more';
      ApplySavesConcat(store, saves, more');
    }
  }

  lemma NoticesAppend(credits: seq<TransactionData>, t: TransactionData)
    ensures Notices(credits + [t]) == Notices(credits) + [Notification(DepositSuccess, t)]
  {
    FilterMapAppend(NoticeOf, credits, [t]);
    FilterMapSingle(NoticeOf, t);
  }

  lemma ApplySavesAppend(store: map<string, DepositCall>, saves: seq<DepositCall>, s: DepositCall)
    ensures ApplySaves(store, saves + [s]) == StoreSave(ApplySaves(store, saves), s)
  {
    assert (saves + [s])[..|saves|] == saves;
  }

  // ---------------------------------------------------------------------
  // Properties of a run

  /**
   * Every saved document is a PENDING call of the run advanced by a history
   * entry that resolved to that call's wallet, and every matching entry's
   * document is saved.
   */
  lemma SavesAdvancePendingCalls(history: seq<ExchangeDeposit>, run: RunInputs)
    ensures forall s | s in Saves(history, run) ::
              exists d | d in history :: MatchedCall(d, run).Some? && s == Advance(MatchedCall(d, run).value, d, run.now).saved
    ensures forall d | d in history && MatchedCall(d, run).Some? ::
              Advance(MatchedCall(d, run).value, d, run.now).saved in Saves(history, run)
  {
    FilterMapMembers(Saver(run), history);
  }

  /**
   * Every transaction is a completed BTC deposit of the history credited to
   * the matched call's user, and every such entry yields its transaction.
   */
  lemma CreditsAreCompletedBtcDeposits(history: seq<ExchangeDeposit>, run: RunInputs)
    ensures forall t | t in Credits(history, run) ::
              exists d | d in history ::
                && d.asset == SupportedAsset && d.status == ExchangeSuccess
                && MatchedCall(d, run).Some?
                && t == DepositTx(run.now, d.amount, MatchedCall(d, run).value.uid,
                                  MatchedCall(d, run).value.walletAddress, MatchedCall(d, run).value.id, d.txId)
    ensures forall d | d in history && MatchedCall(d, run).Some? && d.asset == SupportedAsset
                       && d.status == ExchangeSuccess ::
              DepositTx(run.now, d.amount, MatchedCall(d, run).value.uid, MatchedCall(d, run).value.walletAddress,
                        MatchedCall(d, run).value.id, d.txId) in Credits(history, run)
  {
    FilterMapMembers(Crediter(run), history);
  }

  /**
   * A run in which no entry resolves to the wallet of a PENDING call saves,
   * credits and notifies nothing: an empty history, no calls, calls
   * already resolved, wallets that do not match.
   */
  lemma NoPendingMatchNoEffects(history: seq<ExchangeDeposit>, run: RunInputs)
    requires forall d, c | d in history && c in run.calls && d.txId in run.walletOf ::
               !IsPendingFor(c, run.walletOf[d.txId])
    ensures Saves(history, run) == [] && Credits(history, run) == []
    ensures Notices(Credits(history, run)) == []
  {
    forall d | d in history && d.txId in run.walletOf {
      FindPendingCallNone(run.calls, run.walletOf[d.txId]);
    }
    FilterMapNone(Saver(run), history);
    FilterMapNone(Crediter(run), history);
  }

  /** Shuffling the history only reorders what a run looks up, saves, credits and notifies. */
  lemma HistoryOrderIrrelevant(history: seq<ExchangeDeposit>, shuffled: seq<ExchangeDeposit>, run: RunInputs)
    requires multiset(history) == multiset(shuffled)
    ensures multiset(Lookups(history)) == multiset(Lookups(shuffled))
    ensures multiset(Saves(history, run)) == multiset(Saves(shuffled, run))
    ensures multiset(Credits(history, run)) == multiset(Credits(shuffled, run))
    ensures multiset(Notices(Credits(history, run))) == multiset(Notices(Credits(shuffled, run)))
  {
    FilterMapPermutation(LookupKey, history, shuffled);
    FilterMapPermutation(Saver(run), history, shuffled);
    FilterMapPermutation(Crediter(run), history, shuffled);
    FilterMapPermutation(NoticeOf, Credits(history, run), Credits(shuffled, run));
  }

  /** How many entries are completed BTC deposits. */
  function CompletedBtcCount(history: seq<ExchangeDeposit>): nat
  {
    if history == [] then 0
    else CompletedBtcCount(history[..|history| - 1])
         + (var d := history[|history| - 1]; if d.asset == SupportedAsset && d.status == ExchangeSuccess then 1 else 0)
  }

  /**
   * When every entry matches a PENDING call, every entry saves a document,
   * and there are as many transactions as completed BTC entries, even when
   * all of them match the same call.
   */
  lemma {:induction false} AllMatchedCounts(history: seq<ExchangeDeposit>, run: RunInputs)
    requires forall d | d in history :: MatchedCall(d, run).Some?
    ensures |Saves(history, run)| == |history|
    ensures |Credits(history, run)| == CompletedBtcCount(history)
  {
    if history != [] {
      var i := |history| - 1;
      assert forall d | d in history[..i] :: d in history;
      AllMatchedCounts(history[..i], run);
      AdvanceOutcome(MatchedCall(history[i], run).value, history[i], run.now);
    }
  }

  /** No two PENDING calls share a wallet. */
  predicate UniquePendingWallets(calls: seq<DepositCall>)
  {
    forall c1, c2 | c1 in calls && c2 in calls && c1.status == Pending && c2.status == Pending
                    && c1.walletAddress == c2.walletAddress :: c1 == c2
  }

  lemma FindPendingCallPermutation(calls: seq<DepositCall>, shuffled: seq<DepositCall>, wallet: string)
    requires multiset(calls) == multiset(shuffled)
    requires UniquePendingWallets(calls)
    ensures FindPendingCall(calls, wallet) == FindPendingCall(shuffled, wallet)
  {
    forall c ensures c in calls <==> c in shuffled {
      assert c in calls <==> c in multiset(calls);
      assert c in shuffled <==> c in multiset(shuffled);
    }
    FindPendingCallNone(calls, wallet);
    FindPendingCallNone(shuffled, wallet);
    FindPendingCallIsFirst(calls, wallet);
    FindPendingCallIsFirst(shuffled, wallet);
  }

  /**
   * When no two PENDING calls share a wallet, shuffling the calls changes
   * nothing at all: the same documents, transactions and notifications in
   * the same order.
   */
  lemma CallOrderIrrelevant(history: seq<ExchangeDeposit>, run: RunInputs, shuffled: seq<DepositCall>)
    requires multiset(run.calls) == multiset(shuffled)
    requires UniquePendingWallets(run.calls)
    ensures Saves(history, run) == Saves(history, run.(calls := shuffled))
    ensures Credits(history, run) == Credits(history, run.(calls := shuffled))
  {
    var run' := run.(calls := shuffled);
    forall d | d in history ensures Resolve(d, run) == Resolve(d, run') {
      if d.txId in run.walletOf {
        FindPendingCallPermutation(run.calls, shuffled, run.walletOf[d.txId]);
      }
    }
    FilterMapAgree(Saver(run), Saver(run'), history);
    FilterMapAgree(Crediter(run), Crediter(run'), history);
  }

  // ---------------------------------------------------------------------
  // A second run over the same history

  /** The calls a run fetched are the stored documents with their ids. */
  predicate SnapshotOf(store: map<string, DepositCall>, calls: seq<DepositCall>)
  {
    forall c | c in calls :: c.id in store && store[c.id] == c
  }

  /** No two history entries resolve to the same wallet. */
  predicate OneEntryPerWallet(history: seq<ExchangeDeposit>, walletOf: map<string, string>)
  {
    forall d1, d2 | d1 in history && d2 in history && d1.txId in walletOf && d2.txId in walletOf
                    && walletOf[d1.txId] == walletOf[d2.txId] :: d1 == d2
  }

  /** Every call fetched now is the stored document of a call fetched before. */
  predicate RefetchedFrom(calls: seq<DepositCall>, store: map<string, DepositCall>, earlier: seq<DepositCall>)
  {
    forall c | c in calls :: exists e | e in earlier :: e.id in store && c == store[e.id]
  }

  /** Saves under one id leave a stored document's wallet alone when they share it. */
  lemma {:induction false} ApplySavesKeepsWallet(store: map<string, DepositCall>, saves: seq<DepositCall>,
                                                 id: string, wallet: string)
    requires id in store && store[id].walletAddress == wallet
    requires forall s | s in saves && s.id == id :: s.walletAddress == wallet
    ensures id in ApplySaves(store, saves) && ApplySaves(store, saves)[id].walletAddress == wallet
    decreases |saves|
  {
    if saves != [] {
      var saves' := saves[..|saves| - 1];
      assert forall s | s in saves' :: s in saves;
      ApplySavesKeepsWallet(store, saves', id, wallet);
    }
  }

  /** A document no save touches stays as it was. */
  lemma {:induction false} ApplySavesUntouched(store: map<string, DepositCall>, saves: seq<DepositCall>, id: string)
    requires id in store
    requires forall s | s in saves :: s.id != id
    ensures id in ApplySaves(store, saves) && ApplySaves(store, saves)[id] == store[id]
    decreases |saves|
  {
    if saves != [] {
      var saves' := saves[..|saves| - 1];
      assert forall s | s in saves' :: s in saves;
      ApplySavesUntouched(store, saves', id);
    }
  }

  /**
   * When every save under an id is the same document, the stored document
   * is that one merged into what was stored, so it has its status.
   */
  lemma {:induction false} ApplySavesSameDocument(store: map<string, DepositCall>, saves: seq<DepositCall>,
                                                  v: DepositCall)
    requires v in saves
    requires forall s | s in saves && s.id == v.id :: s == v
    ensures v.id in ApplySaves(store, saves)
    ensures ApplySaves(store, saves)[v.id] == if v.id in store then Merge(store[v.id], v) else v
    ensures ApplySaves(store, saves)[v.id].status == v.status
    decreases |saves|
  {
    var saves' := saves[..|saves| - 1];
    assert saves == saves' + [saves[|saves| - 1]];
    assert forall s | s in saves' :: s in saves;
    if saves[|saves| - 1].id != v.id {
      ApplySavesSameDocument(store, saves', v);
    } else if v in saves' {
      ApplySavesSameDocument(store, saves', v);
      MergeAgain(if v.id in store then store[v.id] else v, v);
    } else {
      ApplySavesKeys(store, saves');
      if v.id in store {
        ApplySavesUntouched(store, saves', v.id);
      }
    }
  }

  /** The ids a sequence of saves writes. */
  function SavedIds(saves: seq<DepositCall>): set<string>
  {
    set s | s in saves :: s.id
  }

  /** The store after a sequence of saves holds the documents it held and every saved id. */
  lemma {:induction false} ApplySavesKeys(store: map<string, DepositCall>, saves: seq<DepositCall>)
    ensures ApplySaves(store, saves).Keys == store.Keys + SavedIds(saves)
    decreases |saves|
  {
    if saves != [] {
      var saves' := saves[..|saves| - 1];
      assert saves == saves' + [saves[|saves| - 1]];
      ApplySavesKeys(store, saves');
      assert SavedIds(saves) == SavedIds(saves') + {saves[|saves| - 1].id};
    }
  }

  /** Merging the same document twice is merging it once. */
  lemma MergeAgain(stored: DepositCall, data: DepositCall)
    ensures Merge(Merge(stored, data), data) == Merge(stored, data)
    ensures Merge(data, data) == data
  {
  }

  /** Saves that never disagree under one id leave the same store in any order. */
  lemma ApplySavesReordered(store: map<string, DepositCall>, saves: seq<DepositCall>, shuffled: seq<DepositCall>)
    requires multiset(saves) == multiset(shuffled)
    requires forall a, b | a in saves && b in saves && a.id == b.id :: a == b
    ensures ApplySaves(store, saves) == ApplySaves(store, shuffled)
  {
    forall s ensures s in saves <==> s in shuffled {
      assert s in saves <==> s in multiset(saves);
    }
    ApplySavesKeys(store, saves);
    ApplySavesKeys(store, shuffled);
    forall id | id in ApplySaves(store, saves)
      ensures ApplySaves(store, saves)[id] == ApplySaves(store, shuffled)[id]
    {
      StoredAlike(store, saves, shuffled, id);
    }
  }

  /** One stored document after two orders of the same consistent saves. */
  lemma StoredAlike(store: map<string, DepositCall>, saves: seq<DepositCall>, shuffled: seq<DepositCall>, id: string)
    requires forall s :: s in saves <==> s in shuffled
    requires forall a, b | a in saves && b in saves && a.id == b.id :: a == b
    requires id in store || id in SavedIds(saves)
    ensures id in SavedIds(saves) <==> id in SavedIds(shuffled)
    ensures id in ApplySaves(store, saves) && id in ApplySaves(store, shuffled)
    ensures ApplySaves(store, saves)[id] == ApplySaves(store, shuffled)[id]
  {
    if id in SavedIds(saves) {
      var v :| v in saves && v.id == id;
      ApplySavesSameDocument(store, saves, v);
      ApplySavesSameDocument(store, shuffled, v);
    } else {
      assert id !in SavedIds(shuffled);
      ApplySavesUntouched(store, saves, id);
      ApplySavesUntouched(store, shuffled, id);
    }
  }

  /** The save an entry makes is of the fetched call it matched. */
  lemma SaveOfMatchedCall(run: RunInputs, store: map<string, DepositCall>, d: ExchangeDeposit, s: DepositCall)
    requires SnapshotOf(store, run.calls)
    requires Saver(run)(d) == Some(s)
    ensures s.id in store && MatchedCall(d, run) == Some(store[s.id])
    ensures s == Advance(store[s.id], d, run.now).saved
  {
    var m := MatchedCall(d, run).value;
    AdvanceOutcome(m, d, run.now);
    FindPendingCallIsFirst(run.calls, run.walletOf[d.txId]);
    assert m in run.calls;
  }

  /**
   * With one entry per wallet the documents a run leaves in the store do
   * not depend on the order of the history.
   */
  lemma HistoryOrderKeepsStore(history: seq<ExchangeDeposit>, shuffled: seq<ExchangeDeposit>, run: RunInputs,
                               store: map<string, DepositCall>)
    requires multiset(history) == multiset(shuffled)
    requires SnapshotOf(store, run.calls) && OneEntryPerWallet(history, run.walletOf)
    ensures ApplySaves(store, Saves(history, run)) == ApplySaves(store, Saves(shuffled, run))
  {
    FilterMapPermutation(Saver(run), history, shuffled);
    FilterMapMembers(Saver(run), history);
    forall a, b | a in Saves(history, run) && b in Saves(history, run) && a.id == b.id
      ensures a == b
    {
      var da :| da in history && Saver(run)(da) == Some(a);
      var db :| db in history && Saver(run)(db) == Some(b);
      SaveOfMatchedCall(run, store, da, a);
      SaveOfMatchedCall(run, store, db, b);
      assert run.walletOf[da.txId] == store[a.id].walletAddress == run.walletOf[db.txId];
    }
    ApplySavesReordered(store, Saves(history, run), Saves(shuffled, run));
  }

  /** A saved document is a fetched call advanced by an entry that matched it. */
  lemma SavedUnderId(history: seq<ExchangeDeposit>, run: RunInputs, store: map<string, DepositCall>,
                     c: DepositCall)
    requires SnapshotOf(store, run.calls)
    requires c in run.calls
    ensures forall s | s in Saves(history, run) && s.id == c.id ::
              exists d | d in history :: MatchedCall(d, run) == Some(c) && s == Advance(c, d, run.now).saved
  {
    FilterMapMembers(Saver(run), history);
    forall s | s in Saves(history, run) && s.id == c.id
      ensures exists d | d in history :: MatchedCall(d, run) == Some(c) && s == Advance(c, d, run.now).saved
    {
      var d :| d in history && Saver(run)(d) == Some(s);
      SaveOfMatchedCall(run, store, d, s);
    }
  }

  /** A call that was not PENDING when fetched is not saved. */
  lemma ResolvedCallNotSaved(history: seq<ExchangeDeposit>, run: RunInputs, store: map<string, DepositCall>,
                             c: DepositCall)
    requires SnapshotOf(store, run.calls)
    requires c in run.calls && c.status != Pending
    ensures forall s | s in Saves(history, run) :: s.id != c.id
  {
    FilterMapMembers(Saver(run), history);
    forall s | s in Saves(history, run) ensures s.id != c.id {
      var d :| d in history && Saver(run)(d) == Some(s);
      SaveOfMatchedCall(run, store, d, s);
    }
  }

  /** A run keeps the wallet of every call it fetched. */
  lemma WalletKept(history: seq<ExchangeDeposit>, run: RunInputs, store: map<string, DepositCall>, c: DepositCall)
    requires SnapshotOf(store, run.calls)
    requires c in run.calls
    ensures c.id in ApplySaves(store, Saves(history, run))
    ensures ApplySaves(store, Saves(history, run))[c.id].walletAddress == c.walletAddress
  {
    SavedUnderId(history, run, store, c);
    forall s | s in Saves(history, run) && s.id == c.id ensures s.walletAddress == c.walletAddress {
      var d :| d in history && MatchedCall(d, run) == Some(c) && s == Advance(c, d, run.now).saved;
      AdvanceOutcome(c, d, run.now);
    }
    ApplySavesKeepsWallet(store, Saves(history, run), c.id, c.walletAddress);
  }

  /**
   * After a run, a fetched call that a completed BTC entry's wallet matches
   * is no longer PENDING from that wallet: it was never PENDING, or the
   * entry resolved it to SUCCESS.
   */
  lemma CompletedCallResolved(history: seq<ExchangeDeposit>, run: RunInputs, store: map<string, DepositCall>,
                              d: ExchangeDeposit, c: DepositCall)
    requires SnapshotOf(store, run.calls) && UniquePendingWallets(run.calls)
    requires OneEntryPerWallet(history, run.walletOf)
    requires d in history && d.txId in run.walletOf && d.asset == SupportedAsset && d.status == ExchangeSuccess
    requires c in run.calls && c.walletAddress == run.walletOf[d.txId]
    ensures c.id in ApplySaves(store, Saves(history, run))
    ensures ApplySaves(store, Saves(history, run))[c.id].status != Pending
  {
    var saves := Saves(history, run);
    if c.status != Pending {
      ResolvedCallNotSaved(history, run, store, c);
      ApplySavesUntouched(store, saves, c.id);
    } else {
      PendingCallResolved(history, run, store, d, c);
    }
  }

  /**
   * A PENDING call whose wallet one history entry resolves to is stored as
   * that entry's advance of it, merged once.
   */
  lemma PendingCallStored(history: seq<ExchangeDeposit>, run: RunInputs, store: map<string, DepositCall>,
                          d: ExchangeDeposit, c: DepositCall)
    requires SnapshotOf(store, run.calls) && UniquePendingWallets(run.calls)
    requires OneEntryPerWallet(history, run.walletOf)
    requires d in history && d.txId in run.walletOf
    requires c in run.calls && c.walletAddress == run.walletOf[d.txId] && c.status == Pending
    ensures MatchedCall(d, run) == Some(c)
    ensures c.id in ApplySaves(store, Saves(history, run))
    ensures ApplySaves(store, Saves(history, run))[c.id] == Merge(c, Advance(c, d, run.now).saved)
  {
    var saves := Saves(history, run);
    FindPendingCallNone(run.calls, c.walletAddress);
    FindPendingCallIsFirst(run.calls, c.walletAddress);
    assert MatchedCall(d, run) == Some(c);
    var v := Advance(c, d, run.now).saved;
    AdvanceOutcome(c, d, run.now);
    FilterMapMembers(Saver(run), history);
    assert Saver(run)(d) == Some(v);
    SavedUnderId(history, run, store, c);
    forall s | s in saves && s.id == v.id ensures s == v {
      var d' :| d' in history && MatchedCall(d', run) == Some(c) && s == Advance(c, d', run.now).saved;
      assert d' == d;
    }
    ApplySavesSameDocument(store, saves, v);
  }

  /** A PENDING call whose wallet a single completed BTC entry resolves to is stored as SUCCESS. */
  lemma PendingCallResolved(history: seq<ExchangeDeposit>, run: RunInputs, store: map<string, DepositCall>,
                            d: ExchangeDeposit, c: DepositCall)
    requires SnapshotOf(store, run.calls) && UniquePendingWallets(run.calls)
    requires OneEntryPerWallet(history, run.walletOf)
    requires d in history && d.txId in run.walletOf && d.asset == SupportedAsset && d.status == ExchangeSuccess
    requires c in run.calls && c.walletAddress == run.walletOf[d.txId] && c.status == Pending
    ensures c.id in ApplySaves(store, Saves(history, run))
    ensures ApplySaves(store, Saves(history, run))[c.id].status == Success
  {
    PendingCallStored(history, run, store, d, c);
    AdvanceOutcome(c, d, run.now);
  }

  /** One entry of the history, run again over the refetched calls, credits nothing. */
  lemma NotCreditedAgain(history: seq<ExchangeDeposit>, run: RunInputs, store: map<string, DepositCall>,
                         calls: seq<DepositCall>, now: Date, d: ExchangeDeposit)
    requires SnapshotOf(store, run.calls) && UniquePendingWallets(run.calls)
    requires OneEntryPerWallet(history, run.walletOf)
    requires RefetchedFrom(calls, ApplySaves(store, Saves(history, run)), run.calls)
    requires d in history
    ensures Crediter(RunInputs(calls, run.walletOf, now))(d).None?
  {
    var after := ApplySaves(store, Saves(history, run));
    var m := MatchedCall(d, RunInputs(calls, run.walletOf, now));
    if m.Some? {
      if d.asset == SupportedAsset && d.status == ExchangeSuccess {
        FindPendingCallIsFirst(calls, run.walletOf[d.txId]);
        assert m.value in calls;
        var c :| c in run.calls && c.id in after && m.value == after[c.id];
        WalletKept(history, run, store, c);
        CompletedCallResolved(history, run, store, d, c);
        assert false;
      }
      AdvanceOutcome(m.value, d, now);
    }
  }

  /**
   * Run again over the same history, with the calls refetched from the
   * store the first run left, no entry credits a second time, provided
   * the first run's calls were the stored documents, no two of them were
   * PENDING from one wallet, and no two entries came from one wallet.
   */
  lemma SecondRunCreditsNothing(history: seq<ExchangeDeposit>, run: RunInputs, store: map<string, DepositCall>,
                                calls: seq<DepositCall>, now: Date)
    requires SnapshotOf(store, run.calls) && UniquePendingWallets(run.calls)
    requires OneEntryPerWallet(history, run.walletOf)
    requires RefetchedFrom(calls, ApplySaves(store, Saves(history, run)), run.calls)
    ensures Credits(history, RunInputs(calls, run.walletOf, now)) == []
    ensures Notices(Credits(history, RunInputs(calls, run.walletOf, now))) == []
  {
    var run2 := RunInputs(calls, run.walletOf, now);
    forall d | d in history ensures Crediter(run2)(d).None? {
      NotCreditedAgain(history, run, store, calls, now, d);
    }
    FilterMapNone(Crediter(run2), history);
  }

  /** Saves of exactly the stored documents leave the store as it is. */
  lemma {:induction false} ApplySavesFixed(store: map<string, DepositCall>, saves: seq<DepositCall>)
    requires forall s | s in saves :: s.id in store && store[s.id] == s
    ensures ApplySaves(store, saves) == store
    decreases |saves|
  {
    if saves != [] {
      var saves' := saves[..|saves| - 1];
      assert forall s | s in saves' :: s in saves;
      ApplySavesFixed(store, saves');
      MergeAgain(saves[|saves| - 1], saves[|saves| - 1]);
    }
  }

  /** Under the hypotheses of a second run, what it saves for an entry is already stored. */
  lemma SecondRunSaveStored(history: seq<ExchangeDeposit>, run: RunInputs, store: map<string, DepositCall>,
                            calls: seq<DepositCall>, now: Date, d: ExchangeDeposit, s: DepositCall)
    requires SnapshotOf(store, run.calls) && UniquePendingWallets(run.calls)
    requires OneEntryPerWallet(history, run.walletOf)
    requires RefetchedFrom(calls, ApplySaves(store, Saves(history, run)), run.calls)
    requires d in history && Saver(RunInputs(calls, run.walletOf, now))(d) == Some(s)
    ensures s.id in ApplySaves(store, Saves(history, run))
    ensures ApplySaves(store, Saves(history, run))[s.id] == s
  {
    var after := ApplySaves(store, Saves(history, run));
    var m := MatchedCall(d, RunInputs(calls, run.walletOf, now)).value;
    FindPendingCallIsFirst(calls, run.walletOf[d.txId]);
    assert m in calls;
    var c :| c in run.calls && c.id in after && m == after[c.id];
    WalletKept(history, run, store, c);
    if c.status != Pending {
      ResolvedCallNotSaved(history, run, store, c);
      ApplySavesUntouched(store, Saves(history, run), c.id);
      assert false;
    }
    PendingCallStored(history, run, store, d, c);
    var first := Advance(c, d, run.now).saved;
    AdvanceOutcome(c, d, run.now);
    MergeOfExtension(c, first);
    AdvanceOutcome(m, d, now);
  }

  /**
   * Under the same hypotheses a second run leaves every stored deposit call
   * as the first run left it.
   */
  lemma SecondRunKeepsStore(history: seq<ExchangeDeposit>, run: RunInputs, store: map<string, DepositCall>,
                            calls: seq<DepositCall>, now: Date)
    requires SnapshotOf(store, run.calls) && UniquePendingWallets(run.calls)
    requires OneEntryPerWallet(history, run.walletOf)
    requires RefetchedFrom(calls, ApplySaves(store, Saves(history, run)), run.calls)
    ensures var after := ApplySaves(store, Saves(history, run));
            ApplySaves(after, Saves(history, RunInputs(calls, run.walletOf, now))) == after
  {
    var after := ApplySaves(store, Saves(history, run));
    var run2 := RunInputs(calls, run.walletOf, now);
    FilterMapMembers(Saver(run2), history);
    forall s | s in Saves(history, run2) ensures s.id in after && after[s.id] == s {
      var d :| d in history && Saver(run2)(d) == Some(s);
      SecondRunSaveStored(history, run, store, calls, now, d, s);
    }
    ApplySavesFixed(after, Saves(history, run2));
  }

  /** A run over two entries: the first entry's effects, then the second's. */
  lemma TwoEntryRun(first: ExchangeDeposit, second: ExchangeDeposit, run: RunInputs)
    ensures Saves([first, second], run) == SavedBy(Resolve(first, run)) + SavedBy(Resolve(second, run))
    ensures Credits([first, second], run) == CreditedBy(Resolve(first, run)) + CreditedBy(Resolve(second, run))
  {
    assert [first, second] == [first] + [second];
    FilterMapAppend(Saver(run), [first], [second]);
    FilterMapSingle(Saver(run), first);
    FilterMapSingle(Saver(run), second);
    FilterMapAppend(Crediter(run), [first], [second]);
    FilterMapSingle(Crediter(run), first);
    FilterMapSingle(Crediter(run), second);
  }

  /** Two saves of one stored call: the second merged over the first. */
  lemma TwoSavesOfOneCall(c: DepositCall, first: DepositCall, second: DepositCall)
    requires first.id == c.id && second.id == c.id
    ensures ApplySaves(map[c.id := c], [first, second]) == map[c.id := Merge(Merge(c, first), second)]
  {
    ApplySavesAppend(map[c.id := c], [first], second);
    ApplySavesAppend(map[c.id := c], [], first);
    assert [first] + [second] == [first, second] && [] + [first] == [first];
  }

  /**
   * Without one entry per wallet a second run can credit again: a
   * completed and a still pending entry from one wallet both match the
   * fetched call, the later save puts it back to PENDING, and the next run
   * matches the completed entry once more.
   */
  lemma StaleSnapshotCreditsAgain(now: Date, later: Date)
    ensures var c := DepositCall("call", "user", 0, "wallet", Pending, None, None, None);
            var done := ExchangeDeposit("wallet", "tx1", 100, SupportedAsset, ExchangeSuccess);
            var waiting := ExchangeDeposit("wallet", "tx2", 50, SupportedAsset, ExchangePending);
            var run := RunInputs([c], map["tx1" := "wallet", "tx2" := "wallet"], now);
            var after := ApplySaves(map["call" := c], Saves([done, waiting], run));
            && SnapshotOf(map["call" := c], [c]) && UniquePendingWallets([c])
            && "call" in after
            && Credits([done, waiting], run) == [DepositTx(now, 100, "user", "wallet", "call", "tx1")]
            && Credits([done, waiting], RunInputs([after["call"]], run.walletOf, later))
               == [DepositTx(later, 100, "user", "wallet", "call", "tx1")]
  {
    var c := DepositCall("call", "user", 0, "wallet", Pending, None, None, None);
    var done := ExchangeDeposit("wallet", "tx1", 100, SupportedAsset, ExchangeSuccess);
    var waiting := ExchangeDeposit("wallet", "tx2", 50, SupportedAsset, ExchangePending);
    var run := RunInputs([c], map["tx1" := "wallet", "tx2" := "wallet"], now);
    var completed := c.(status := Success, txId := Some("tx1"), resolvedDate := Some(now));
    var stillPending := c.(txId := Some("tx2"));
    assert MatchedCall(done, run) == Some(c);
    assert MatchedCall(waiting, run) == Some(c);
    TwoEntryRun(done, waiting, run);
    assert Saves([done, waiting], run) == [completed, stillPending];
    TwoSavesOfOneCall(c, completed, stillPending);
    var after := ApplySaves(map["call" := c], [completed, stillPending]);
    assert after["call"] == Merge(Merge(c, completed), stillPending);
    var run2 := RunInputs([after["call"]], run.walletOf, later);
    assert MatchedCall(done, run2) == Some(after["call"]);
    assert MatchedCall(waiting, run2) == Some(after["call"]);
    TwoEntryRun(done, waiting, run2);
  }

  /**
   * Without one entry per wallet the stored document depends on the order
   * of the history: a completed and a still pending entry from one wallet
   * leave the call PENDING with a resolution date in one order and
   * SUCCESS in the other.
   */
  lemma StoreDependsOnHistoryOrder(now: Date)
    ensures var c := DepositCall("call", "user", 0, "wallet", Pending, None, None, None);
            var done := ExchangeDeposit("wallet", "tx1", 100, SupportedAsset, ExchangeSuccess);
            var waiting := ExchangeDeposit("wallet", "tx2", 50, SupportedAsset, ExchangePending);
            var run := RunInputs([c], map["tx1" := "wallet", "tx2" := "wallet"], now);
            var doneFirst := ApplySaves(map["call" := c], Saves([done, waiting], run));
            var waitingFirst := ApplySaves(map["call" := c], Saves([waiting, done], run));
            && SnapshotOf(map["call" := c], [c]) && ValidDepositCall(c)
            && "call" in doneFirst && "call" in waitingFirst
            && doneFirst["call"].status == Pending && !ValidDepositCall(doneFirst["call"])
            && waitingFirst["call"].status == Success && ValidDepositCall(waitingFirst["call"])
  {
    var c := DepositCall("call", "user", 0, "wallet", Pending, None, None, None);
    var done := ExchangeDeposit("wallet", "tx1", 100, SupportedAsset, ExchangeSuccess);
    var waiting := ExchangeDeposit("wallet", "tx2", 50, SupportedAsset, ExchangePending);
    var run := RunInputs([c], map["tx1" := "wallet", "tx2" := "wallet"], now);
    var completed := c.(status := Success, txId := Some("tx1"), resolvedDate := Some(now));
    var stillPending := c.(txId := Some("tx2"));
    assert MatchedCall(done, run) == Some(c);
    assert MatchedCall(waiting, run) == Some(c);
    TwoEntryRun(done, waiting, run);
    TwoEntryRun(waiting, done, run);
    assert Saves([done, waiting], run) == [completed, stillPending];
    assert Saves([waiting, done], run) == [stillPending, completed];
    TwoSavesOfOneCall(c, completed, stillPending);
    TwoSavesOfOneCall(c, stillPending, completed);
  }

  /**
   * With two PENDING calls from one wallet the call found first in list
   * order is the one saved and credited, so the order of the calls decides
   * which user is credited.
   */
  lemma CallOrderDecidesCredit(now: Date)
    ensures var a := DepositCall("a", "u1", 0, "w", Pending, None, None, None);
            var b := DepositCall("b", "u2", 0, "w", Pending, None, None, None);
            var d := ExchangeDeposit("w", "tx", 100, SupportedAsset, ExchangeSuccess);
            && !UniquePendingWallets([a, b])
            && Credits([d], RunInputs([a, b], map["tx" := "w"], now)) == [DepositTx(now, 100, "u1", "w", "a", "tx")]
            && Credits([d], RunInputs([b, a], map["tx" := "w"], now)) == [DepositTx(now, 100, "u2", "w", "b", "tx")]
  {
    var a := DepositCall("a", "u1", 0, "w", Pending, None, None, None);
    var b := DepositCall("b", "u2", 0, "w", Pending, None, None, None);
    var d := ExchangeDeposit("w", "tx", 100, SupportedAsset, ExchangeSuccess);
    var ab := RunInputs([a, b], map["tx" := "w"], now);
    var ba := RunInputs([b, a], map["tx" := "w"], now);
    assert MatchedCall(d, ab) == Some(a);
    assert MatchedCall(d, ba) == Some(b);
    FilterMapSingle(Crediter(ab), d);
    FilterMapSingle(Crediter(ba), d);
  }
}
