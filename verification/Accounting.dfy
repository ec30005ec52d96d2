/** What every record the engine can store satisfies: the receipts reproduce the totals, a journal
    fits the state it was written in, and settled jobs are complete. */
module Accounting {
  import opened Basics
  import opened Keys
  import opened Calls
  import opened State
  import opened Engine

  // ---------------------------------------------------------------- reading the receipts

  /** A job's history as its receipts tell it, in the order Fund? Sweep* Move* Dust? Buy? Destroy?. */
  datatype Ledger = Ledger(
    funded: Option<nat>, sweeps: seq<nat>, moves: nat, dust: bool, spent: Option<nat>, destroyed: Option<(CallName, nat)>)

  const EMPTY := Ledger(None, [], 0, false, None, None)

  /** Files one receipt, or rejects it when it is out of order. */
  function Post(l: Ledger, tx: TxRef): Option<Ledger> {
    match tx.action
    case TransferKeepAliveName => if l == EMPTY && tx.amount > 0 then Some(l.(funded := Some(tx.amount))) else None
    case TransferStakeName =>
      if l.moves == 0 && !l.dust && l.spent.None? then Some(l.(sweeps := l.sweeps + [tx.amount])) else None
    case MoveStakeName =>
      if l.moves < |l.sweeps| && !l.dust && l.spent.None? then Some(l.(moves := l.moves + 1)) else None
    case TransferAllName => if !l.dust && l.spent.None? then Some(l.(dust := true)) else None
    case AddStakeLimitName => if l.spent.None? then Some(l.(spent := Some(tx.amount))) else None
    case BurnAlphaName =>
      if l.spent.Some? && l.destroyed.None? then Some(l.(destroyed := Some((tx.action, tx.amount)))) else None
    case RecycleAlphaName =>
      if l.spent.Some? && l.destroyed.None? then Some(l.(destroyed := Some((tx.action, tx.amount)))) else None
    case TryAssociateHotkeyName => None
    case OtherName(_) => None
  }

  function LedgerOf(txs: seq<TxRef>): Option<Ledger> {
    if txs == [] then Some(EMPTY)
    else
      match LedgerOf(txs[..|txs| - 1])
      case None => None
      case Some(l) => Post(l, txs[|txs| - 1])
  }

  // ---------------------------------------------------------------- the record invariant

  predicate BooksMatch(r: Record, l: Ledger) {
    && r.fundedTao == (match l.funded case Some(n) => n case None => 0)
    && (l.funded.Some? ==> l.funded.value > 0)
    && |l.sweeps| == |r.positions|
    && (forall k :: 0 <= k < |l.sweeps| ==> l.sweeps[k] == r.positions[k].1)
    && r.sweptAlpha == Sum(l.sweeps)
    && l.moves <= r.consolidated
    && (l.dust ==> r.dustReturned)
    && (l.spent.Some? <==> r.buyback.Some?)
    && (r.buyback.Some? ==> l.spent == Some(r.buyback.value.taoSpent))
    && (l.destroyed.Some? <==> r.buyback.Some? && r.buyback.value.destroyTx.Some?)
    && (l.destroyed.Some? ==> l.destroyed == Some((r.buyback.value.destroyTx.value.action, r.buyback.value.alphaDestroyed)))
  }

  /** Receipts of applied actions; a quarantined job's last receipt was never applied. */
  function AppliedTxs(r: Record): seq<TxRef> {
    if r.quarantined.Some? && r.txs != [] then r.txs[..|r.txs| - 1] else r.txs
  }

  predicate Books(r: Record) {
    && LedgerOf(AppliedTxs(r)).Some?
    && BooksMatch(r, LedgerOf(AppliedTxs(r)).value)
  }

  predicate PositionsFit(r: Record) {
    && r.consolidated <= |r.positions|
    && (forall k :: 0 <= k < |r.positions| ==> Canonical(r.positions[k].0))
    && (forall k, m :: 0 <= k < m < |r.positions| ==> r.positions[k].0 != r.positions[m].0)
  }

  function DestroyName(policy: DestroyPolicy): CallName {
    if policy == Recycle then RecycleAlphaName else BurnAlphaName
  }

  /** The purchase on file is the budgeted one, and what was destroyed is what was bought. */
  predicate PurchaseFits(r: Record) {
    && (r.buyback.Some? ==>
          && r.autoRequired == Some(true) && r.budget.Some?
          && r.buyback.value.taoSpent == r.budget.value.amountRao
          && r.buyback.value.netuid == r.budget.value.netuid
          && r.buyback.value.alphaBought > 0
          && (r.buyback.value.destroyTx.Some? ==>
                && r.budget.value.destroy != Keep
                && r.buyback.value.alphaDestroyed == r.buyback.value.alphaBought
                && r.buyback.value.destroyTx.value.action == DestroyName(r.budget.value.destroy)))
    && (r.buybackDone ==>
          r.buyback.Some? && (r.budget.value.destroy == Keep || r.buyback.value.destroyTx.Some?))
  }

  /** Nothing is done ahead of its state. */
  predicate StageFits(r: Record) {
    && (Rank(r) <= 1 ==> AppliedTxs(r) == [] && r.positions == [])
    && (Rank(r) <= 2 ==> r.consolidated == 0 && !r.dustReturned && r.buyback.None?)
    && (r.dustReturned || r.buyback.Some? ==> ConsolidationDone(r))
    && (r.buyback.Some? ==> DustDone(r))
  }

  predicate PolicyFits(r: Record) {
    && r.identity.Some? && r.identity.value.treasury.Ss58?
    && r.autoRequired == Some(r.budget.Some?)
  }

  /** A journaled action is one the record's state is waiting for. */
  predicate PendingFits(r: Record) {
    r.pending.Some? ==>
      && r.quarantined.None? && r.pending.value.reservation.Some? && r.identity.Some?
      && var p := r.pending.value;
         match p.action
         case Fund => r.state == Detected && p.amount > 0
         case Sweep(hotkey) => r.state == Funded && Canonical(hotkey) && !AlreadySwept(r, hotkey)
         case Consolidate(hotkey) =>
           && r.state == Swept && r.consolidated < |r.positions| && hotkey == r.positions[r.consolidated].0
           && r.identity.value.consolidate && !r.dustReturned && r.buyback.None?
         case ReturnDust => r.state == Swept && ConsolidationDone(r) && !r.dustReturned && r.buyback.None?
         case BuyStake(netuid, _) =>
           && r.state == Swept && ConsolidationDone(r) && DustDone(r) && r.buyback.None?
           && r.autoRequired == Some(true) && r.budget.Some?
           && netuid == r.budget.value.netuid && p.amount == r.budget.value.amountRao
         case Destroy(netuid, recycle) =>
           && r.state == Swept && r.budget.Some? && r.budget.value.destroy != Keep
           && netuid == r.budget.value.netuid && recycle == (r.budget.value.destroy == Recycle)
           && r.buyback.Some? && r.buyback.value.destroyTx.None? && p.amount == r.buyback.value.alphaBought
  }

  predicate FailureFits(r: Record) {
    && (r.failedFrom.Some? ==> r.failedFrom.value.IsActive() && RankOf(r.failedFrom.value) <= Rank(r))
    && (r.state == Failed ==> r.failedFrom.Some? && r.pending.None?)
    && (r.quarantined.Some? ==>
          && r.state == Failed && Rank(r) >= 2 && r.txs != []
          && r.txs[|r.txs| - 1].txHash == r.quarantined.value.txHash)
  }

  /** Everything a settled job promises. */
  predicate Complete(r: Record) {
    && r.pending.None? && r.quarantined.None?
    && ConsolidationDone(r) && DustDone(r)
    && (r.autoRequired == Some(false) ==> r.buyback.None?)
    && (r.autoRequired == Some(true) ==> ValidateCompleted(r).Ok?)
  }

  predicate SettledFits(r: Record) {
    r.state == Settled ==> Complete(r)
  }

  predicate RecordOk(r: Record) {
    && PolicyFits(r) && PositionsFit(r) && PurchaseFits(r) && StageFits(r)
    && PendingFits(r) && FailureFits(r) && SettledFits(r) && Books(r)
  }

  // ---------------------------------------------------------------- progress

  /** What an action may happen at most once for. */
  datatype Slot = FundSlot | SweepSlot(hotkey: Address) | ConsolidateSlot(hotkey: Address) | DustSlot | BuySlot | DestroySlot

  function SlotOf(a: Action): Slot {
    match a
    case Fund => FundSlot
    case Sweep(hotkey) => SweepSlot(hotkey)
    case Consolidate(hotkey) => ConsolidateSlot(hotkey)
    case ReturnDust => DustSlot
    case BuyStake(_, _) => BuySlot
    case Destroy(_, _) => DestroySlot
  }

  /** What a call may happen at most once for; `try_associate_hotkey` is never journaled. */
  function CallSlot(call: ChainCall): Option<Slot> {
    match call
    case TransferTao(_, _) => Some(FundSlot)
    case TransferStake(_, hotkey, _, _) => Some(SweepSlot(Ss58Of(hotkey)))
    case MoveStake(from, _, _, _) => Some(ConsolidateSlot(Ss58Of(from)))
    case TransferAll(_) => Some(DustSlot)
    case AddStakeLimit(_, _, _, _, _) => Some(BuySlot)
    case BurnAlpha(_, _, _) => Some(DestroySlot)
    case RecycleAlpha(_, _, _) => Some(DestroySlot)
    case AssociateHotkey(_) => None
  }

  /** The record already accounts for a success of this slot. */
  predicate Used(r: Record, slot: Slot) {
    match slot
    case FundSlot => Rank(r) >= 2
    case SweepSlot(hotkey) => AlreadySwept(r, hotkey)
    case ConsolidateSlot(hotkey) => exists k :: 0 <= k < r.consolidated && k < |r.positions| && r.positions[k].0 == hotkey
    case DustSlot => r.dustReturned
    case BuySlot => r.buyback.Some?
    case DestroySlot => r.buyback.Some? && r.buyback.value.destroyTx.Some?
  }

  /** One stored version follows another: policy frozen, nothing undone, receipts only appended. */
  predicate Follows(prev: Record, next: Record) {
    && next.id == prev.id && next.identity == prev.identity
    && next.budget == prev.budget && next.autoRequired == prev.autoRequired
    && Rank(prev) <= Rank(next) && (Rank(prev) >= 1 ==> next.detectedTao == prev.detectedTao)
    && prev.positions <= next.positions && prev.consolidated <= next.consolidated
    && (prev.dustReturned ==> next.dustReturned) && (prev.buybackDone ==> next.buybackDone)
    && (prev.buyback.Some? ==>
          && next.buyback.Some?
          && next.buyback.value.taoSpent == prev.buyback.value.taoSpent
          && (prev.buyback.value.destroyTx.Some? ==> next.buyback == prev.buyback))
    && prev.txs <= next.txs
    && (prev.quarantined.Some? ==> next.quarantined == prev.quarantined && next.txs == prev.txs && next.pending.None?)
  }

  lemma FollowsTransitive(a: Record, b: Record, c: Record)
    requires Follows(a, b) && Follows(b, c)
    ensures Follows(a, c)
  {
  }

  /** A used slot stays used. */
  lemma UsedForever(prev: Record, next: Record, slot: Slot)
    requires Follows(prev, next) && Used(prev, slot)
    ensures Used(next, slot)
  {
  }

  /** A journal's slot is still free. */
  lemma PendingSlotIsFree(r: Record)
    requires RecordOk(r) && r.pending.Some?
    ensures !Used(r, SlotOf(r.pending.value.action))
  {
  }

  // ---------------------------------------------------------------- every write keeps the invariant

  /** The invariant does not look at the version or at retry bookkeeping. */
  lemma BookkeepingIsFree(r: Record, r': Record)
    requires RecordOk(r)
    requires r' == r.(version := r'.version, attempts := r'.attempts, nextAttemptAt := r'.nextAttemptAt,
                      lastError := r'.lastError, notified := r'.notified)
    ensures RecordOk(r') && Follows(r, r')
  {
    assert AppliedTxs(r') == AppliedTxs(r);
    assert BooksMatch(r', LedgerOf(AppliedTxs(r)).value);
    SettledStays(r, r');
  }

  lemma SettledStays(r: Record, r': Record)
    requires SettledFits(r)
    requires r' == r.(version := r'.version, attempts := r'.attempts, nextAttemptAt := r'.nextAttemptAt,
                      lastError := r'.lastError, notified := r'.notified)
    ensures SettledFits(r')
  {
  }

  lemma NewRecordOk(cfg: EngineConfig, id: string, address: Address, minAlpha: nat, minTao: Option<nat>,
                    expiresAt: nat, state: PaymentState)
    requires state == Pending || state == Detected
    ensures RecordOk(NewRecord(cfg, id, address, minAlpha, minTao, expiresAt, state))
  {
  }

  /** An accepted transition other than settling, of a record without a journal. */
  lemma TransitionKeeps(r: Record, to: PaymentState)
    requires RecordOk(r) && r.pending.None? && r.quarantined.None?
    requires Transition(r, to).Ok?
    requires to == Settled ==> Complete(Transition(r, to).value)
    ensures RecordOk(Transition(r, to).value) && Follows(r, Transition(r, to).value)
  {
    var t := Transition(r, to).value;
    TransitionNeverGoesBack(r, to);
    assert AppliedTxs(t) == AppliedTxs(r);
    assert BooksMatch(t, LedgerOf(AppliedTxs(r)).value);
  }

  lemma FailureKeeps(r: Record, err: string, maxAttempts: nat, now: nat)
    requires RecordOk(r) && r.pending.None?
    ensures RecordOk(RecordFailure(r, err, maxAttempts, now)) && Follows(r, RecordFailure(r, err, maxAttempts, now))
  {
    var f := RecordFailure(r, err, maxAttempts, now);
    FailureKeepsProgress(r, err, maxAttempts, now);
    assert AppliedTxs(f) == AppliedTxs(r);
    assert BooksMatch(f, LedgerOf(AppliedTxs(r)).value);
    if r.state == Settled {
      SettledStays(r, f.(failedFrom := r.failedFrom));
    }
  }

  /** Dropping a dead or failed journal. */
  lemma DropKeeps(r: Record)
    requires RecordOk(r)
    ensures RecordOk(r.(pending := None)) && Follows(r, r.(pending := None))
  {
  }

  lemma RetryKeeps(r: Record)
    requires RecordOk(r)
    ensures Retry(r).Ok? ==> RecordOk(Retry(r).value) && Follows(r, Retry(r).value) && Retry(r).value.pending.None? && r.pending.None?
  {
    if Retry(r).Ok? {
      assert r.pending.None?;
      TransitionKeeps(r, Retry(r).value.state);
    }
  }

  lemma ForceSweepKeeps(r: Record)
    requires RecordOk(r)
    ensures ForceSweep(r).Ok? ==> RecordOk(ForceSweep(r).value) && Follows(r, ForceSweep(r).value) && ForceSweep(r).value.pending.None? && r.pending.None?
  {
    if ForceSweep(r).Ok? {
      assert r.pending.None? && r.quarantined.None?;
      TransitionKeeps(r, Detected);
    }
  }

  /** Writing the journal of a permitted send. */
  lemma JournalKeeps(base: Record, r: Record, action: Action, call: ChainCall, signer: Address, token: Token, prepared: PreparedTx)
    requires RecordOk(base) && SendOk(base, r, action, call, signer)
    ensures var j := r.(pending := Some(JournalEntry(action, token, prepared, call)));
      RecordOk(j) && Follows(base, j)
  {
  }

  // ---------------------------------------------------------------- applying a result

  lemma NewPositionFits(r: Record, hotkey: Address, amount: nat, a: Record)
    requires PositionsFit(r) && Canonical(hotkey) && !AlreadySwept(r, hotkey)
    requires a.positions == r.positions + [(hotkey, amount)] && a.consolidated == r.consolidated
    ensures PositionsFit(a)
  {
  }

  lemma BooksAppend(r: Record, tx: TxRef, r': Record, l': Ledger)
    requires Books(r) && r.quarantined.None?
    requires r'.quarantined.None? && r'.txs == r.txs + [tx]
    requires Post(LedgerOf(r.txs).value, tx) == Some(l') && BooksMatch(r', l')
    ensures Books(r')
  {
  }

  /** `a` is a sound successor of `r` with the receipt filed and the journal's slot used up. */
  predicate Booked(r: Record, tx: TxRef, a: Record)
    requires r.pending.Some?
  {
    && RecordOk(a) && Follows(r, a)
    && a.pending.None? && a.quarantined.None? && a.txs == r.txs + [tx]
    && Used(a, SlotOf(r.pending.value.action))
  }

  lemma EmptyLedger()
    ensures LedgerOf([]) == Some(EMPTY)
  {
  }

  lemma FundKeeps(r: Record, tx: TxRef, s: EventSummary)
    requires RecordOk(r) && r.pending.Some? && r.pending.value.action.Fund?
    requires tx.action == TransferKeepAliveName && tx.amount == r.pending.value.amount
    ensures ApplyTx(r, tx, s).Ok? && Booked(r, tx, ApplyTx(r, tx, s).value)
  {
    hide LedgerOf, Sum, ValidateCompleted;
    EmptyLedger();
    var a := ApplyTx(r, tx, s).value;
    assert r.txs == [];
    BooksAppend(r, tx, a, EMPTY.(funded := Some(tx.amount)));
  }

  lemma SweepKeeps(r: Record, tx: TxRef, s: EventSummary)
    requires RecordOk(r) && r.pending.Some? && r.pending.value.action.Sweep?
    requires tx.action == TransferStakeName && ApplyTx(r, tx, s).Ok?
    ensures Booked(r, tx, ApplyTx(r, tx, s).value)
  {
    hide LedgerOf, Sum, ValidateCompleted, PositionsFit;
    var a := ApplyTx(r, tx, s).value;
    var l := LedgerOf(r.txs).value;
    NewPositionFits(r, r.pending.value.action.hotkey, tx.amount, a);
    assert a.positions[|r.positions|].0 == r.pending.value.action.hotkey;
    SumAppend(l.sweeps, tx.amount);
    BooksAppend(r, tx, a, l.(sweeps := l.sweeps + [tx.amount]));
  }

  lemma ConsolidateKeeps(r: Record, tx: TxRef, s: EventSummary)
    requires RecordOk(r) && r.pending.Some? && r.pending.value.action.Consolidate?
    requires tx.action == MoveStakeName
    ensures ApplyTx(r, tx, s).Ok? && Booked(r, tx, ApplyTx(r, tx, s).value)
  {
    hide LedgerOf, Sum, ValidateCompleted, AlreadySwept;
    var a := ApplyTx(r, tx, s).value;
    var l := LedgerOf(r.txs).value;
    assert a.positions[r.consolidated].0 == r.pending.value.action.hotkey;
    BooksAppend(r, tx, a, l.(moves := l.moves + 1));
  }

  lemma DustKeeps(r: Record, tx: TxRef, s: EventSummary)
    requires RecordOk(r) && r.pending.Some? && r.pending.value.action.ReturnDust?
    requires tx.action == TransferAllName
    ensures ApplyTx(r, tx, s).Ok? && Booked(r, tx, ApplyTx(r, tx, s).value)
  {
    hide LedgerOf, Sum, ValidateCompleted, AlreadySwept;
    var a := ApplyTx(r, tx, s).value;
    var l := LedgerOf(r.txs).value;
    BooksAppend(r, tx, a, l.(dust := true));
  }

  lemma BuyKeeps(r: Record, tx: TxRef, s: EventSummary)
    requires RecordOk(r) && r.pending.Some? && r.pending.value.action.BuyStake?
    requires tx.action == AddStakeLimitName && tx.amount == r.pending.value.amount && ApplyTx(r, tx, s).Ok?
    ensures Booked(r, tx, ApplyTx(r, tx, s).value)
  {
    hide LedgerOf, Sum, ValidateCompleted, AlreadySwept;
    var a := ApplyTx(r, tx, s).value;
    var l := LedgerOf(r.txs).value;
    BooksAppend(r, tx, a, l.(spent := Some(tx.amount)));
  }

  lemma DestroyKeeps(r: Record, tx: TxRef, s: EventSummary)
    requires RecordOk(r) && r.pending.Some? && r.pending.value.action.Destroy?
    requires tx.action == ActionName(r.pending.value.action) && tx.amount == r.pending.value.amount && ApplyTx(r, tx, s).Ok?
    ensures Booked(r, tx, ApplyTx(r, tx, s).value)
  {
    hide LedgerOf, Sum, ValidateCompleted, AlreadySwept;
    var a := ApplyTx(r, tx, s).value;
    var l := LedgerOf(r.txs).value;
    assert s.alphaDestroyed == Some(tx.amount);
    BooksAppend(r, tx, a, l.(destroyed := Some((tx.action, tx.amount))));
  }

  /** Applying a finalized result keeps the invariant and uses up the journal's slot. */
  lemma ApplyKeeps(r: Record, tx: TxRef, s: EventSummary)
    requires RecordOk(r) && r.pending.Some?
    requires tx.action == ActionName(r.pending.value.action) && tx.amount == r.pending.value.amount
    requires ApplyTx(r, tx, s).Ok?
    ensures Booked(r, tx, ApplyTx(r, tx, s).value)
  {
    hide RecordOk, ApplyTx, Booked;
    match r.pending.value.action
    case Fund => FundKeeps(r, tx, s);
    case Sweep(_) => SweepKeeps(r, tx, s);
    case Consolidate(_) => ConsolidateKeeps(r, tx, s);
    case ReturnDust => DustKeeps(r, tx, s);
    case BuyStake(_, _) => BuyKeeps(r, tx, s);
    case Destroy(_, _) => DestroyKeeps(r, tx, s);
  }

  /** A result that cannot be applied freezes the job: failed, quarantined, its receipt on file. */
  lemma QuarantineKeeps(r: Record, tx: TxRef, s: EventSummary, now: nat)
    requires RecordOk(r) && r.pending.Some?
    requires tx == ReceiptOf(r.pending.value, tx.blockHash)
    requires ApplyTx(r, tx, s).Err?
    ensures var z := Quarantine(r, r.pending.value, tx, ApplyTx(r, tx, s).error.text, now);
      && RecordOk(z) && Follows(r, z)
      && z.state == Failed && z.pending.None? && z.quarantined == r.pending && z.txs == r.txs + [tx]
  {
    hide RecordOk, ApplyTx, Quarantine, Follows, Booked;
    if r.pending.value.action.Fund? {
      FundKeeps(r, tx, s);
    }
    FrozenOk(r, tx, ApplyTx(r, tx, s).error.text, now);
  }

  lemma FrozenOk(r: Record, tx: TxRef, why: string, now: nat)
    requires RecordOk(r) && r.pending.Some? && !r.pending.value.action.Fund?
    requires tx == ReceiptOf(r.pending.value, tx.blockHash)
    ensures var z := Quarantine(r, r.pending.value, tx, why, now);
      && RecordOk(z) && Follows(r, z)
      && z.state == Failed && z.pending.None? && z.quarantined == r.pending && z.txs == r.txs + [tx]
  {
    hide LedgerOf, Sum, ValidateCompleted, AlreadySwept, Take500, Backoff;
    var z := Quarantine(r, r.pending.value, tx, why, now);
    assert AppliedTxs(z) == r.txs == AppliedTxs(r);
    assert BooksMatch(z, LedgerOf(r.txs).value);
  }

  /** The record written by reconciliation. */
  lemma ResolvedKeeps(r: Record, p: PendingTx, outcome: PendingOutcome, maxAttempts: nat, now: nat)
    requires RecordOk(r) && r.pending == Some(p) && !outcome.Wait?
    ensures var z := Resolved(r, p, outcome, maxAttempts, now); RecordOk(z) && Follows(r, z) && z.pending.None?
  {
    DropKeeps(r);
    match outcome
    case Dead =>
    case Included(blockHash, summary) =>
      if summary.failed {
        FailureKeeps(r.(pending := None), FAILED_ON_CHAIN, maxAttempts, now);
        FollowsTransitive(r, r.(pending := None), Resolved(r, p, outcome, maxAttempts, now));
      } else if ApplyTx(r, ReceiptOf(p, blockHash), summary).Ok? {
        ApplyKeeps(r, ReceiptOf(p, blockHash), summary);
      } else {
        QuarantineKeeps(r, ReceiptOf(p, blockHash), summary, now);
      }
  }

  // ---------------------------------------------------------------- silent writes

  lemma SkipConsolidationKeeps(r: Record)
    requires RecordOk(r) && r.pending.None? && r.quarantined.None? && r.state == Swept
    requires r.consolidated < |r.positions| && r.identity.value.consolidate
    ensures var c := r.(consolidated := r.consolidated + 1); RecordOk(c) && Follows(r, c)
  {
  }

  lemma SkipDustKeeps(r: Record)
    requires RecordOk(r) && r.pending.None? && r.quarantined.None? && r.state == Swept && ConsolidationDone(r)
    ensures var c := r.(dustReturned := true); RecordOk(c) && Follows(r, c)
  {
  }

  lemma DetectionKeeps(r: Record, alpha: nat, tao: nat)
    requires RecordOk(r) && Rank(r) <= 2 && r.pending.None? && (Rank(r) >= 1 ==> tao == r.detectedTao)
    ensures var c := r.(detectedAlpha := alpha, detectedTao := tao); RecordOk(c) && Follows(r, c)
  {
  }

  lemma BuybackDoneKeeps(r: Record)
    requires RecordOk(r) && r.pending.None? && r.state == Swept && r.buyback.Some?
    requires r.budget.Some? && (r.budget.value.destroy == Keep || r.buyback.value.destroyTx.Some?)
    ensures var c := r.(buybackDone := true); RecordOk(c) && Follows(r, c)
  {
  }

  lemma BuybackSaveKeeps(cfg: EngineConfig, r: Record, q: Reads)
    requires RecordOk(r) && r.pending.None? && r.quarantined.None? && r.state == Swept
    requires ConsolidationDone(r) && DustDone(r)
    requires DecideBuyback(cfg, r, q).Save?
    ensures var c := DecideBuyback(cfg, r, q).rec; RecordOk(c) && Follows(r, c)
  {
    if r.autoRequired == Some(true) && !r.buybackDone {
      BuybackDoneKeeps(r);
    } else {
      TransitionKeeps(r, Settled);
    }
  }

  lemma SweptSaveKeeps(cfg: EngineConfig, r: Record, q: Reads)
    requires RecordOk(r) && r.pending.None? && r.quarantined.None? && r.state == Swept
    requires r.identity == Some(Identity(cfg))
    requires DecideSwept(cfg, r, q).Save?
    ensures var c := DecideSwept(cfg, r, q).rec; RecordOk(c) && Follows(r, c)
  {
    if cfg.consolidate && r.consolidated < |r.positions| {
      SkipConsolidationKeeps(r);
    } else if !r.dustReturned && (cfg.returnDust || r.detectedTao > 0) {
      SkipDustKeeps(r);
      var c := r.(dustReturned := true);
      BuybackSaveKeeps(cfg, c, q);
      FollowsTransitive(r, c, DecideSwept(cfg, r, q).rec);
    } else {
      BuybackSaveKeeps(cfg, r, q);
    }
  }

  lemma PendingSaveKeeps(r: Record, q: Reads)
    requires RecordOk(r) && r.pending.None? && r.quarantined.None? && r.state == Pending
    requires DecidePending(r, q).Save?
    ensures var c := DecidePending(r, q).rec; RecordOk(c) && Follows(r, c)
  {
    hide RecordOk, Follows, ParseSs58, AlphaTotal, Holdings;
    var c := DecidePending(r, q).rec;
    DetectionKeeps(r, c.detectedAlpha, c.detectedTao);
    var d := r.(detectedAlpha := c.detectedAlpha, detectedTao := c.detectedTao);
    TransitionKeeps(d, c.state);
    FollowsTransitive(r, d, c);
  }

  lemma DetectedSaveKeeps(cfg: EngineConfig, r: Record, q: Reads)
    requires RecordOk(r) && r.pending.None? && r.quarantined.None? && r.state == Detected
    requires DecideDetected(cfg, r, q).Save?
    ensures var c := DecideDetected(cfg, r, q).rec; RecordOk(c) && Follows(r, c)
  {
  }

  /** Neither the journal nor the receipts are touched. */
  predicate NothingSigned(r: Record, c: Record) {
    && c.pending == r.pending && c.quarantined == r.quarantined && c.txs == r.txs
    && c.id == r.id && c.version == r.version
  }

  lemma TransitionUnsigned(r: Record, to: PaymentState)
    ensures Transition(r, to).Ok? ==> NothingSigned(r, Transition(r, to).value)
  {
  }

  lemma PendingUnsigned(r: Record, q: Reads)
    ensures DecidePending(r, q).Save? ==> NothingSigned(r, DecidePending(r, q).rec)
  {
  }

  lemma SweptUnsigned(cfg: EngineConfig, r: Record, q: Reads)
    ensures DecideSwept(cfg, r, q).Save? ==> NothingSigned(r, DecideSwept(cfg, r, q).rec)
  {
    BuybackUnsigned(cfg, r, q);
    BuybackUnsigned(cfg, r.(dustReturned := true), q);
  }

  lemma BuybackUnsigned(cfg: EngineConfig, r: Record, q: Reads)
    ensures DecideBuyback(cfg, r, q).Save? ==> NothingSigned(r, DecideBuyback(cfg, r, q).rec)
  {
    TransitionUnsigned(r, Settled);
  }

  lemma SaveShape(cfg: EngineConfig, r: Record, q: Reads)
    requires Decide(cfg, r, q).Save?
    ensures r.pending.None? && r.quarantined.None? && NothingSigned(r, Decide(cfg, r, q).rec)
  {
    match r.state
    case Pending => PendingUnsigned(r, q);
    case Detected => TransitionUnsigned(r.(detectedAlpha := Max(r.detectedAlpha, AlphaTotal(Holdings(q.stakes, r.netuid)))), Funded);
    case Funded => TransitionUnsigned(r, Swept);
    case Swept => SweptUnsigned(cfg, r, q);
    case Settled =>
    case _ =>
  }

  /** Whatever a step decides to write without signing keeps the invariant. */
  lemma SaveKeeps(cfg: EngineConfig, r: Record, q: Reads)
    requires RecordOk(r) && Decide(cfg, r, q).Save?
    ensures var c := Decide(cfg, r, q).rec; RecordOk(c) && Follows(r, c)
  {
    hide RecordOk, Follows, DecidePending, DecideDetected, DecideSwept;
    SaveShape(cfg, r, q);
    match r.state
    case Pending => PendingSaveKeeps(r, q);
    case Detected => DetectedSaveKeeps(cfg, r, q);
    case Funded => TransitionKeeps(r, Swept);
    case Swept => SweptSaveKeeps(cfg, r, q);
    case Settled => BookkeepingIsFree(r, Decide(cfg, r, q).rec);
    case _ =>
  }

  // ---------------------------------------------------------------- consequences

  /** A job over `n` hotkeys files at most `2n + 4` applied receipts, one more if quarantined. */
  lemma ReceiptBound(r: Record)
    requires RecordOk(r)
    ensures |AppliedTxs(r)| <= 2 * |r.positions| + 4
    ensures |r.txs| <= 2 * |r.positions| + 5
  {
    LedgerSize(AppliedTxs(r));
  }

  lemma {:induction false} LedgerSize(txs: seq<TxRef>)
    requires LedgerOf(txs).Some?
    ensures var l := LedgerOf(txs).value;
      && |txs| == (if l.funded.Some? then 1 else 0) + |l.sweeps| + l.moves + (if l.dust then 1 else 0)
                  + (if l.spent.Some? then 1 else 0) + (if l.destroyed.Some? then 1 else 0)
      && l.moves <= |l.sweeps|
  {
    if txs != [] {
      LedgerSize(txs[..|txs| - 1]);
    }
  }

  function CountName(txs: seq<TxRef>, name: CallName): nat {
    if txs == [] then 0 else CountName(txs[..|txs| - 1], name) + (if txs[|txs| - 1].action == name then 1 else 0)
  }

  lemma {:induction false} LedgerCounts(txs: seq<TxRef>)
    requires LedgerOf(txs).Some?
    ensures var l := LedgerOf(txs).value;
      && CountName(txs, TransferKeepAliveName) == (if l.funded.Some? then 1 else 0)
      && CountName(txs, TransferStakeName) == |l.sweeps|
      && CountName(txs, MoveStakeName) == l.moves
      && CountName(txs, TransferAllName) == (if l.dust then 1 else 0)
      && CountName(txs, AddStakeLimitName) == (if l.spent.Some? then 1 else 0)
      && CountName(txs, BurnAlphaName) + CountName(txs, RecycleAlphaName) == (if l.destroyed.Some? then 1 else 0)
  {
    if txs != [] {
      LedgerCounts(txs[..|txs| - 1]);
    }
  }

  /** Receipt counts agree with the flags of the record. */
  lemma ReceiptsMatchFlags(r: Record)
    requires RecordOk(r)
    ensures var txs := AppliedTxs(r);
      && (CountName(txs, TransferKeepAliveName) == 1 <==> r.fundedTao > 0)
      && CountName(txs, TransferKeepAliveName) <= 1
      && CountName(txs, TransferStakeName) == |r.positions|
      && CountName(txs, MoveStakeName) <= r.consolidated <= |r.positions|
      && CountName(txs, TransferAllName) <= (if r.dustReturned then 1 else 0)
      && CountName(txs, AddStakeLimitName) == (if r.buyback.Some? then 1 else 0)
      && CountName(txs, BurnAlphaName) + CountName(txs, RecycleAlphaName)
         == (if r.buyback.Some? && r.buyback.value.destroyTx.Some? then 1 else 0)
      && r.sweptAlpha == Sum(Amounts(r.positions))
  {
    hide LedgerOf, CountName, PolicyFits, PurchaseFits, StageFits, PendingFits, FailureFits, SettledFits;
    LedgerCounts(AppliedTxs(r));
    var l := LedgerOf(AppliedTxs(r)).value;
    assert l.sweeps == Amounts(r.positions);
  }

  /** Settled means finished: every position consolidated when asked for, the wallet emptied when
      asked for or when TAO was paid, and the required buyback spent its exact budget, bought
      something and, unless kept, destroyed exactly that by the budgeted call. */
  lemma SettledIsComplete(r: Record)
    requires RecordOk(r) && r.state == Settled
    ensures r.pending.None? && r.quarantined.None?
    ensures r.identity.value.consolidate ==> r.consolidated == |r.positions|
    ensures r.identity.value.returnDust || r.detectedTao > 0 ==> r.dustReturned
    ensures r.autoRequired == Some(false) ==> r.buyback.None? && CountName(r.txs, AddStakeLimitName) == 0
    ensures r.autoRequired == Some(true) ==>
      && r.buyback.Some? && r.budget.Some? && CountName(r.txs, AddStakeLimitName) == 1
      && r.buyback.value.taoSpent == r.budget.value.amountRao
      && r.buyback.value.alphaBought > 0
      && (r.budget.value.destroy != Keep ==>
            && r.buyback.value.destroyTx.Some?
            && r.buyback.value.alphaDestroyed == r.buyback.value.alphaBought
            && r.buyback.value.destroyTx.value.action == (if r.budget.value.destroy == Burn then BurnAlphaName else RecycleAlphaName)
            && CountName(r.txs, BurnAlphaName) + CountName(r.txs, RecycleAlphaName) == 1)
  {
    ReceiptsMatchFlags(r);
  }
}
