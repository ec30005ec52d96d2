/** What each call leaves behind: jobs created, resumed, reopened, failed, applied, resolved and sent. */
module Outcomes {
  import opened Basics
  import opened Keys
  import opened Calls
  import opened State
  import opened ChainScan
  import opened Store
  import opened Engine
  import opened EngineCalls

  // ---------------------------------------------------------------- new jobs

  predicate BudgetAccepted(cfg: EngineConfig) {
    && (cfg.autoOn ==> cfg.budget.Some?)
    && (cfg.budget.Some? ==> cfg.budget.value.Validate().Ok?)
  }

  /** A job nothing has happened to, under the engine's identity and budget, which are frozen in it. */
  predicate Newborn(cfg: EngineConfig, r: Record) {
    && r.identity == Some(JobIdentity(cfg.genesisHash, Ss58(cfg.treasury, 42), Ss58(cfg.treasuryHotkey, 42), cfg.consolidate, cfg.returnDust))
    && r.budget == cfg.budget && r.autoRequired == Some(cfg.budget.Some?)
    && r.netuid == cfg.netuid && r.version == 0
    && r.detectedAlpha == 0 && r.detectedTao == 0 && r.fundedTao == 0 && r.sweptAlpha == 0
    && r.txs == [] && r.buyback.None? && r.positions == [] && r.consolidated == 0
    && r.attempts == 0 && r.nextAttemptAt == 0 && r.lastError.None? && r.failedFrom.None?
    && r.pending.None? && r.quarantined.None? && !r.dustReturned && !r.buybackDone && !r.notified
  }

  /** A payment is created if and only if its budget is accepted. It waits for the least alpha asked for,
      or else the configured one, or for the configured TAO, until it expires. */
  lemma PaymentCreatedExactly(cfg: EngineConfig, id: string, account: AccountId, minAlpha: Option<nat>, expiresAt: nat)
    ensures var made := NewPayment(cfg, id, account, minAlpha, expiresAt);
      && (made.Ok? <==> BudgetAccepted(cfg))
      && (made.Ok? ==>
            && var r := made.value;
               && Newborn(cfg, r) && r.state == Pending && r.id == id && r.address == Ss58(account, 42)
               && (minAlpha == Some(r.minAlpha) || (minAlpha.None? && r.minAlpha == cfg.minAlpha))
               && r.minTao == cfg.minTao && r.expiresAt == expiresAt)
  {
  }

  /** A sweep job is created under the same condition, already detected, never to expire. */
  lemma SweepJobCreatedExactly(cfg: EngineConfig, id: string, account: AccountId)
    ensures var made := NewSweepJob(cfg, id, account);
      && (made.Ok? <==> BudgetAccepted(cfg))
      && (made.Ok? ==>
            && var r := made.value;
               && Newborn(cfg, r) && r.state == Detected && r.id == id && r.address == Ss58(account, 42)
               && r.minAlpha == 0 && r.minTao.None? && r.expiresAt == U64_MAX)
  {
  }

  // ---------------------------------------------------------------- operators

  /** Resumed or reopened: the attempts start again, the error is cleared, nothing else changes. */
  predicate Restarted(r: Record, next: Record, to: PaymentState) {
    next == r.(state := to, attempts := 0, nextAttemptAt := 0, lastError := None)
  }

  /** A failed job is resumed if and only if it is not quarantined and `failed_from` names a step, and
      then in that step, in detection when it failed waiting. */
  lemma RetriedExactly(r: Record)
    requires r.state == Failed
    ensures Retry(r).Ok? <==> r.quarantined.None? && Resumes(r.failedFrom).Some?
    ensures r.quarantined.None? && r.failedFrom.Some? && r.failedFrom.value.IsActive() ==>
      Retry(r).Ok? && Restarted(r, Retry(r).value, if r.failedFrom == Some(Pending) then Detected else r.failedFrom.value)
    ensures Retry(r).Err? && r.quarantined.None? ==> Retry(r).error.InvalidTransition?
  {
    TransitionExactly(r, match r.failedFrom case None => Detected case Some(s) => if s == Pending then Detected else s);
  }

  /** A retry is not limited to failed jobs. With `failed_from` as the state machine leaves it, it also
      detects an unpaid or expired job, and it is refused everywhere else. */
  lemma RetriedElsewhereExactly(r: Record)
    requires r.state != Failed
    requires r.failedFrom.Some? ==> r.failedFrom.value.IsActive() && RankOf(r.failedFrom.value) <= Rank(r)
    ensures Retry(r).Ok? <==> r.quarantined.None? && (r.state == Pending || r.state == Expired)
    ensures Retry(r).Ok? ==> Restarted(r, Retry(r).value, Detected)
  {
  }

  /** So a payment nobody paid, fresh from its creation, becomes detected by a retry. */
  lemma RetryDetectsUnpaid(cfg: EngineConfig, id: string, account: AccountId, minAlpha: Option<nat>, expiresAt: nat)
    requires NewPayment(cfg, id, account, minAlpha, expiresAt).Ok?
    ensures var r := NewPayment(cfg, id, account, minAlpha, expiresAt).value;
      Retry(r).Ok? && Retry(r).value.state == Detected && Retry(r).value.detectedAlpha == 0
  {
    PaymentCreatedExactly(cfg, id, account, minAlpha, expiresAt);
    RetriedElsewhereExactly(NewPayment(cfg, id, account, minAlpha, expiresAt).value);
  }

  /** A forced sweep reopens a job if and only if it expired, waits, or failed before it was funded. */
  lemma ForcedExactly(r: Record)
    ensures ForceSweep(r).Ok? <==>
      || r.state == Expired || r.state == Pending
      || (r.state == Failed && (r.failedFrom == Some(Pending) || r.failedFrom == Some(Detected)))
    ensures ForceSweep(r).Ok? ==> Restarted(r, ForceSweep(r).value, Detected)
    ensures ForceSweep(r).Err? ==> ForceSweep(r).error.InvalidTransition?
  {
    TransitionExactly(r, Detected);
  }

  /** Operator calls store the changed job at its next version, or change nothing. */
  lemma OperatorStoresExactly(db: Db, id: string, change: Record -> Result<Record>)
    requires Fenced(db)
    requires id in db.payments && change(db.payments[id]).Ok? ==>
      var r, c := db.payments[id], change(db.payments[id]).value;
      && c == r.(state := c.state, attempts := c.attempts, nextAttemptAt := c.nextAttemptAt, lastError := c.lastError)
      && r.id == id
    ensures var (res, next) := OperatorCall(db, id, change);
      && (res.Ok? <==> id in db.payments && change(db.payments[id]).Ok? && db.payments[id].version < U64_MAX)
      && (res.Ok? ==>
            && res.value == change(db.payments[id]).value.(version := db.payments[id].version + 1)
            && next == db.(payments := db.payments[id := res.value]))
      && (res.Err? ==>
            && next == db
            && (res.error.NotFound? <==>
                  id !in db.payments || (change(db.payments[id]).Err? && change(db.payments[id]).error.NotFound?)))
  {
    if id in db.payments && change(db.payments[id]).Ok? {
      if HasPending(db, id) { assert Owned(db, id, db.payments[id].pending.value); }
      UpdateSucceedsExactly(db, change(db.payments[id]).value);
    }
  }

  // ---------------------------------------------------------------- applying a result

  /** The events a journaled action needs: a sweep that moved stake, a purchase of exactly the amount
      journaled that bought something, a destruction of exactly what was bought. */
  predicate Delivers(r: Record, action: Action, amount: nat, s: EventSummary) {
    match action
    case Fund => MayMove(r, Funded)
    case Sweep(_) => StakeTransferred in s.names
    case Consolidate(_) => true
    case ReturnDust => true
    case BuyStake(_, _) => s.stakeAdded.Some? && s.stakeAdded.value.0 == amount && s.stakeAdded.value.1 > 0
    case Destroy(_, _) => r.buyback.Some? && s.alphaDestroyed == Some(r.buyback.value.alphaBought) && r.buyback.value.alphaBought > 0
  }

  /** The job's accounts after an action, from those before it. */
  function Booking(r: Record, action: Action, tx: TxRef, s: EventSummary): Record {
    match action
    case Fund => r.(fundedTao := r.fundedTao + tx.amount, state := Funded)
    case Sweep(hotkey) => r.(sweptAlpha := r.sweptAlpha + tx.amount, positions := r.positions + [(hotkey, tx.amount)])
    case Consolidate(_) => r.(consolidated := r.consolidated + 1)
    case ReturnDust => r.(dustReturned := true)
    case BuyStake(netuid, limit) =>
      if s.stakeAdded.None? then r
      else r.(buyback := Some(BuybackReceipt(netuid, tx.amount, s.stakeAdded.value.1, limit, tx, None, 0)))
    case Destroy(_, _) =>
      if r.buyback.None? then r
      else r.(buybackDone := true,
              buyback := Some(r.buyback.value.(destroyTx := Some(tx), alphaDestroyed := r.buyback.value.alphaBought)))
  }

  /** A result is applied if and only if there is a journal and the events deliver what it is for. Then
      the accounts are booked, the receipt filed, the journal cleared, and the attempts start again. */
  lemma AppliedExactly(r: Record, tx: TxRef, s: EventSummary)
    ensures ApplyTx(r, tx, s).Ok? <==> r.pending.Some? && Delivers(r, r.pending.value.action, tx.amount, s)
    ensures ApplyTx(r, tx, s).Ok? ==>
      ApplyTx(r, tx, s).value == Booking(r.(pending := None), r.pending.value.action, tx, s).(
        txs := r.txs + [tx], attempts := 0, nextAttemptAt := 0, lastError := None)
  {
    hide Effect, Delivers, Booking;
    if r.pending.Some? {
      EffectExactly(r.(pending := None), r.pending.value.action, tx, s);
      DeliversAnyway(r, r.(pending := None), r.pending.value.action, tx.amount, s);
      BookingKeepsReceipts(r.(pending := None), r.pending.value.action, tx, s);
    }
  }

  /** The accounting part alone. */
  lemma EffectExactly(r: Record, action: Action, tx: TxRef, s: EventSummary)
    ensures Effect(r, action, tx, s).Ok? <==> Delivers(r, action, tx.amount, s)
    ensures Effect(r, action, tx, s).Ok? ==>
      var e := Effect(r, action, tx, s).value;
      e == Booking(r, action, tx, s).(attempts := e.attempts, nextAttemptAt := e.nextAttemptAt, lastError := e.lastError)
  {
    hide MayMove, Transition;
    if action.Fund? { FundExactly(r, tx, s); }
  }

  lemma FundExactly(r: Record, tx: TxRef, s: EventSummary)
    ensures Effect(r, Fund, tx, s).Ok? <==> MayMove(r, Funded)
    ensures Effect(r, Fund, tx, s).Ok? ==>
      var e := Effect(r, Fund, tx, s).value;
      e == Booking(r, Fund, tx, s).(attempts := e.attempts, nextAttemptAt := e.nextAttemptAt, lastError := e.lastError)
  {
    hide Transition;
    TransitionExactly(r.(fundedTao := r.fundedTao + tx.amount), Funded);
  }

  /** What a result must deliver does not depend on the journal. */
  lemma DeliversAnyway(r: Record, bare: Record, action: Action, amount: nat, s: EventSummary)
    requires bare.state == r.state && bare.failedFrom == r.failedFrom && bare.buyback == r.buyback
    ensures Delivers(bare, action, amount, s) <==> Delivers(r, action, amount, s)
  {
  }

  lemma BookingKeepsReceipts(r: Record, action: Action, tx: TxRef, s: EventSummary)
    ensures Booking(r, action, tx, s).txs == r.txs
  {
  }

  /** Booking never touches what a job is. */
  lemma BookingFrame(r: Record, action: Action, tx: TxRef, s: EventSummary)
    ensures var b := Booking(r, action, tx, s);
      && b.id == r.id && b.version == r.version && b.pending == r.pending
      && b.budget == r.budget && b.autoRequired == r.autoRequired && b.identity == r.identity
  {
  }

  // ---------------------------------------------------------------- replies

  /** The event by which a call shows what it did; associating a hotkey shows nothing but success. */
  predicate Shows(call: ChainCall, e: Event) {
    match call
    case TransferTao(_, _) => e.TransferredTao?
    case TransferAll(_) => e.TransferredTao?
    case TransferStake(_, _, _, _) => e.TransferredStake?
    case MoveStake(_, _, _, _) => e.MovedStake?
    case AddStakeLimit(_, _, _, _, _) => e.AddedStake?
    case AssociateHotkey(_) => e.Success?
    case BurnAlpha(_, _, _) => e.Burned?
    case RecycleAlpha(_, _, _) => e.Recycled?
  }

  /** A summary holds a call's expected event if and only if some event shows the call. */
  lemma ExpectedExactly(call: ChainCall, evs: seq<Event>, s: EventSummary)
    requires Summarises(evs, s)
    ensures s.Has(call.ExpectedEvent()) <==> exists k :: 0 <= k < |evs| && Shows(call, evs[k])
  {
    forall k | 0 <= k < |evs| ensures s.names[k] == call.ExpectedEvent() <==> Shows(call, evs[k]) {
      NamesShow(call, evs[k]);
    }
    if s.Has(call.ExpectedEvent()) {
      var k :| 0 <= k < |s.names| && s.names[k] == call.ExpectedEvent();
      assert Shows(call, evs[k]);
    }
    if exists k :: 0 <= k < |evs| && Shows(call, evs[k]) {
      var k :| 0 <= k < |evs| && Shows(call, evs[k]);
      assert s.names[k] == call.ExpectedEvent();
    }
  }

  lemma NamesShow(call: ChainCall, e: Event)
    requires !e.Undecodable?
    ensures NameOf(e) == call.ExpectedEvent() <==> Shows(call, e)
  {
  }

  /** A broadcast reports success if and only if the extrinsic did not fail, all its events decode and
      one shows the call; it then reports the call, the extrinsic, its block and all its events. */
  lemma RepliedExactly(tx: PreparedTx, blockHash: Hash, evs: seq<Event>)
    ensures var reply := BroadcastReply(tx, blockHash, evs);
      && (reply.Ok? <==> Failure !in evs && Undecodable !in evs && exists k :: 0 <= k < |evs| && Shows(tx.call, evs[k]))
      && (reply.Ok? ==>
            && reply.value.tx == TxRef(tx.call.Name(), tx.txHash, blockHash, tx.call.Amount())
            && Summarises(evs, reply.value.summary))
  {
    SummaryIsFaithful(evs);
    if SummaryOf(evs).Ok? { ExpectedExactly(tx.call, evs, SummaryOf(evs).value); }
  }

  /** A journal entry records the signed extrinsic, why it was sent, how much it moves, and the reservation. */
  lemma JournaledExactly(action: Action, token: Token, tx: PreparedTx, call: ChainCall)
    ensures var p := JournalEntry(action, token, tx, call);
      && p.action == action && p.reservation == Some(token)
      && PreparedTx(call, p.signer, p.nonce, p.txHash, p.birthBlock) == tx.(call := call) && p.amount == call.Amount()
  {
  }

  // ---------------------------------------------------------------- resolving a journal

  /** A failed extrinsic costs one attempt and the journal, nothing more: the job is tried again later in
      the same step, unless its attempts are used up in a state that can fail. No receipt is filed and
      nothing is quarantined. */
  lemma FailedOnChainExactly(r: Record, p: PendingTx, blockHash: Hash, s: EventSummary, maxAttempts: nat, now: nat)
    requires r.pending == Some(p) && s.failed
    ensures var z := Resolved(r, p, Included(blockHash, s), maxAttempts, now);
      && z.pending.None? && z.txs == r.txs && z.quarantined == r.quarantined
      && z.lastError == Some("journaled transaction failed on finalized chain")
      && z.attempts == r.attempts + 1 && z.nextAttemptAt == now + Backoff(r.attempts + 1) > now
      && (z.state == Failed <==> r.state == Failed || (r.state.IsActive() && r.attempts + 1 >= maxAttempts))
      && (z.state == Failed && r.state != Failed ==> z.failedFrom == Some(r.state))
      && (z.state != Failed ==> z.state == r.state && z.failedFrom == r.failedFrom)
      && z == r.(pending := None, attempts := z.attempts, nextAttemptAt := z.nextAttemptAt, lastError := z.lastError,
                 state := z.state, failedFrom := z.failedFrom)
  {
    FailureKeepsProgress(r.(pending := None), FAILED_ON_CHAIN, maxAttempts, now);
  }

  /** A dead journal is dropped; nothing else changes, so the step is tried again at once. */
  lemma DeadExactly(r: Record, p: PendingTx, maxAttempts: nat, now: nat)
    ensures Resolved(r, p, Dead, maxAttempts, now) == r.(pending := None)
  {
  }

  /** A successful extrinsic is applied if its events deliver what it is for. Otherwise the job is
      quarantined with its journal and receipt, and fails at once, remembering its step. */
  lemma SucceededExactly(r: Record, p: PendingTx, blockHash: Hash, s: EventSummary, maxAttempts: nat, now: nat)
    requires r.pending == Some(p) && !s.failed
    ensures var z := Resolved(r, p, Included(blockHash, s), maxAttempts, now);
      var tx := TxRef(ActionName(p.action), p.txHash, blockHash, p.amount);
      if Delivers(r, p.action, p.amount, s) then Ok(z) == ApplyTx(r, tx, s)
      else
        && z.pending.None? && z.quarantined == Some(p) && z.txs == r.txs + [tx] && z.attempts == r.attempts + 1
        && z.nextAttemptAt == now + Backoff(r.attempts + 1)
        && z.lastError.Some? && "finalized receipt mismatch: " <= z.lastError.value
        && z.state == (if r.state.IsActive() then Failed else r.state)
        && z.failedFrom == (if r.state.IsActive() then Some(r.state) else r.failedFrom)
        && z == r.(pending := None, quarantined := z.quarantined, txs := z.txs, attempts := z.attempts,
                   nextAttemptAt := z.nextAttemptAt, lastError := z.lastError, state := z.state, failedFrom := z.failedFrom)
  {
    var tx := ReceiptOf(p, blockHash);
    AppliedExactly(r, tx, s);
    if ApplyTx(r, tx, s).Err? {
      FailureKeepsProgress(r.(pending := None, quarantined := Some(p), txs := r.txs + [tx]),
                           RECEIPT_MISMATCH + ApplyTx(r, tx, s).error.text, 1, now);
    }
  }

  /** Reconciling changes something if and only if the lookup settles the journal and the store accepts
      the write; then the resolved record is stored, and a lookup that waits changes nothing. */
  lemma ReconciledExactly(db: Db, r: Record, p: PendingTx, maxAttempts: nat, now: nat, rpc: Rpc)
    requires r.pending == Some(p)
    ensures var (res, rec, next) := ReconcileJournaled(db, r, p, maxAttempts, now, rpc);
      && (res == Ok(false) <==> rpc.find == Ok(Wait))
      && (res == Ok(true) <==>
            rpc.find.Ok? && !rpc.find.value.Wait? && Update(db, Resolved(r, p, rpc.find.value, maxAttempts, now)).0.Ok?)
      && (res == Ok(true) ==> (Ok(rec), next) == Update(db, Resolved(r, p, rpc.find.value, maxAttempts, now)))
      && (res != Ok(true) ==> rec == r && next == db)
  {
    hide Update, Resolved;
  }

  // ---------------------------------------------------------------- failed steps

  /** A failed step is counted against the stored job if and only if it was not a lost race, the job
      exists without a journal, and its version can rise. The step's own error is reported then. */
  lemma CountedExactly(db: Db, id: string, e: Error, maxAttempts: nat, now: nat)
    requires Fenced(db) && Keyed(db)
    ensures var (res, next) := CountFailure(db, id, e, maxAttempts, now);
      var counted := !e.Conflict? && id in db.payments && db.payments[id].pending.None? && db.payments[id].version < U64_MAX;
      && res.Err?
      && (counted ==>
            && res == Err(e)
            && next == db.(payments := db.payments[id :=
                 RecordFailure(db.payments[id], e.text, maxAttempts, now).(version := db.payments[id].version + 1)]))
      && (!counted ==> next == db)
      && (e.Conflict? || (id in db.payments && db.payments[id].pending.Some?) ==> res == Err(e))
  {
    if id in db.payments {
      FailureKeepsProgress(db.payments[id], e.text, maxAttempts, now);
      UpdateSucceedsExactly(db, RecordFailure(db.payments[id], e.text, maxAttempts, now));
    }
  }

  // ---------------------------------------------------------------- what a send leaves behind

  /** A job whose stored version a worker holds, without a journal and with versions to spare. */
  predicate ReadyToSend(db: Db, r: Record) {
    Fenced(db) && Keyed(db) && r.pending.None? && r.id in db.payments && db.payments[r.id] == r && r.version + 1 < I64_MAX
  }

  /** The signer can be reserved and prepares the extrinsic itself. */
  predicate Prepares(db: Db, signer: Address, token: Token, rpc: Rpc) {
    signer !in db.rows && !TokenTaken(db, token) && rpc.prepare.Ok? && rpc.prepare.value.signer == signer
  }

  /** A held signer is a lost race; a preparation error is passed on; bytes of another signer are refused. */
  predicate RefusedWith(db: Db, signer: Address, token: Token, rpc: Rpc, res: Result<bool>) {
    && res.Err?
    && (if signer in db.rows || TokenTaken(db, token) then res.error.Conflict?
        else if rpc.prepare.Err? then res == Err(rpc.prepare.error)
        else res.error.Store?)
  }

  /** The tables with the journal stored and its signer reserved. */
  function JournaledDb(db: Db, r: Record, action: Action, call: ChainCall, signer: Address, token: Token, tx: PreparedTx): Db {
    Db(db.payments[r.id := JournaledRecord(r, action, call, token, tx)], db.rows[signer := Row(r.id, token)])
  }

  function JournaledRecord(r: Record, action: Action, call: ChainCall, token: Token, tx: PreparedTx): Record {
    r.(pending := Some(JournalEntry(action, token, tx, call)), version := r.version + 1)
  }

  /** A send that cannot be prepared leaves everything as it was; a prepared one stores its journal
      under its reservation before anything is broadcast, and delivers from there. */
  lemma PreparedExactly(db: Db, r: Record, action: Action, call: ChainCall, signer: Address, token: Token, rpc: Rpc)
    requires ReadyToSend(db, r)
    ensures var done := SendJournaled(db, r, action, call, signer, token, rpc);
      if Prepares(db, signer, token, rpc) then
        var tx := rpc.prepare.value;
        var from := Deliver(JournaledDb(db, r, action, call, signer, token, tx), JournaledRecord(r, action, call, token, tx), rpc.broadcast);
        done.0 == from.0 && done.1 == from.1 && done.2 == from.2
      else RefusedWith(db, signer, token, rpc, done.0) && done.1 == r && done.2 == db
  {
    hide SendJournaled, Deliver, TokenTaken, JournalEntry;
    ReserveSucceedsExactly(db, signer, r.id, Some(r.version), token);
    if Prepares(db, signer, token, rpc) {
      PreparedJournals(db, r, action, call, signer, token, rpc);
      JournalsThenDelivers(db, r, action, call, signer, token, rpc);
    } else {
      UnpreparedLeaves(db, r, action, call, signer, token, rpc);
    }
  }

  lemma UnpreparedLeaves(db: Db, r: Record, action: Action, call: ChainCall, signer: Address, token: Token, rpc: Rpc)
    requires ReadyToSend(db, r) && !Prepares(db, signer, token, rpc)
    ensures var done := SendJournaled(db, r, action, call, signer, token, rpc);
      RefusedWith(db, signer, token, rpc, done.0) && done.1 == r && done.2 == db
  {
    hide TokenTaken, Reserve, CancelPreparation, JournalPrepared;
    ReserveSucceedsExactly(db, signer, r.id, Some(r.version), token);
    if Reserve(db, signer, r.id, Some(r.version), token).0.Ok? { CancelUndoesReserve(db, signer, r.id, Some(r.version), token); }
  }

  /** The tables under a fresh reservation. */
  function ReservedDb(db: Db, job: string, signer: Address, token: Token): Db {
    db.(rows := db.rows[signer := Row(job, token)])
  }

  lemma PreparedJournals(db: Db, r: Record, action: Action, call: ChainCall, signer: Address, token: Token, rpc: Rpc)
    requires ReadyToSend(db, r) && Prepares(db, signer, token, rpc)
    ensures SendJournaled(db, r, action, call, signer, token, rpc)
         == JournalPrepared(ReservedDb(db, r.id, signer, token), r, action, call, token, rpc.prepare.value, rpc)
  {
    hide TokenTaken, Reserve, CancelPreparation, JournalPrepared;
    ReserveSucceedsExactly(db, signer, r.id, Some(r.version), token);
  }

  lemma JournalsThenDelivers(db: Db, r: Record, action: Action, call: ChainCall, signer: Address, token: Token, rpc: Rpc)
    requires ReadyToSend(db, r) && Prepares(db, signer, token, rpc)
    ensures var tx := rpc.prepare.value;
      var done := JournalPrepared(ReservedDb(db, r.id, signer, token), r, action, call, token, tx, rpc);
      var from := Deliver(JournaledDb(db, r, action, call, signer, token, tx), JournaledRecord(r, action, call, token, tx), rpc.broadcast);
      done.0 == from.0 && done.1 == from.1 && done.2 == from.2
  {
    hide TokenTaken, Update, Deliver, JournalEntry, Fenced, Keyed;
    JournalStoredExactly(ReservedDb(db, r.id, signer, token), r, action, call, signer, token, rpc.prepare.value);
  }

  /** A send succeeds if and only if every part of it does: the signer is reserved, the extrinsic
      prepared by that signer, the broadcast answered, and the result delivers what the action is for.
      Then the record is stored applied and the signer is free again. After a failure the tables are
      as before, or hold the journal under its reservation. */
  lemma SentExactly(db: Db, r: Record, action: Action, call: ChainCall, signer: Address, token: Token, rpc: Rpc)
    requires ReadyToSend(db, r)
    ensures var done := SendJournaled(db, r, action, call, signer, token, rpc);
      && (done.0.Ok? <==>
            Prepares(db, signer, token, rpc) && rpc.broadcast.Ok?
            && Delivers(r, action, rpc.broadcast.value.tx.amount, rpc.broadcast.value.summary))
      && (done.0.Ok? ==> done.0 == Ok(true) && done.1.version == r.version + 2 && done.1.pending.None?
                         && done.2 == Db(db.payments[r.id := done.1], db.rows))
      && (Prepares(db, signer, token, rpc) && rpc.broadcast.Err? ==> done.0 == Err(rpc.broadcast.error))
      && (done.0.Err? ==>
            done.2 == if Prepares(db, signer, token, rpc) then JournaledDb(db, r, action, call, signer, token, rpc.prepare.value) else db)
  {
    hide SendJournaled, Deliver, Delivers, TokenTaken;
    PreparedExactly(db, r, action, call, signer, token, rpc);
    if Prepares(db, signer, token, rpc) && rpc.broadcast.Ok? {
      DeliveredExactly(db, r, action, call, signer, token, rpc.prepare.value, rpc.broadcast.value,
                       JournaledDb(db, r, action, call, signer, token, rpc.prepare.value));
    }
  }

  lemma JournalStoredExactly(db1: Db, r: Record, action: Action, call: ChainCall, signer: Address, token: Token, tx: PreparedTx)
    requires r.pending.None? && r.id in db1.payments && db1.payments[r.id] == r && r.version < U64_MAX
    requires signer in db1.rows && db1.rows[signer] == Row(r.id, token) && tx.signer == signer
    ensures var journal := r.(pending := Some(JournalEntry(action, token, tx, call)));
      Update(db1, journal) == (Ok(journal.(version := r.version + 1)),
                               db1.(payments := db1.payments[r.id := journal.(version := r.version + 1)]))
  {
  }

  /** Delivering a stored journal applies the result, stores it and frees the signer. */
  lemma DeliveredExactly(db: Db, r: Record, action: Action, call: ChainCall, signer: Address, token: Token,
                         tx: PreparedTx, f: FinalizedTx, db2: Db)
    requires r.pending.None? && r.id in db.payments && signer !in db.rows && tx.signer == signer && r.version + 1 < U64_MAX
    requires var journaled := r.(pending := Some(JournalEntry(action, token, tx, call)), version := r.version + 1);
      db2 == Db(db.payments[r.id := journaled], db.rows[signer := Row(r.id, token)])
    ensures var journaled := r.(pending := Some(JournalEntry(action, token, tx, call)), version := r.version + 1);
      var done := Deliver(db2, journaled, Ok(f));
      && (done.0.Ok? <==> Delivers(r, action, f.tx.amount, f.summary))
      && (done.0.Ok? ==> done.0 == Ok(true) && done.1.version == r.version + 2 && done.1.pending.None?
                         && done.2 == Db(db.payments[r.id := done.1], db.rows))
      && (done.0.Err? ==> done.2 == db2 && done.1 == journaled)
  {
    hide ApplyTx, Delivers, Booking;
    var journaled := r.(pending := Some(JournalEntry(action, token, tx, call)), version := r.version + 1);
    AppliedExactly(journaled, f.tx, f.summary);
    DeliversAnyway(journaled, r, action, f.tx.amount, f.summary);
    if ApplyTx(journaled, f.tx, f.summary).Ok? {
      AppliedFrame(journaled, f.tx, f.summary);
      var a := ApplyTx(journaled, f.tx, f.summary).value;
      assert db2.rows - {signer} == db.rows;
      assert db2.payments[r.id := a.(version := a.version + 1)] == db.payments[r.id := a.(version := a.version + 1)];
    }
  }

  lemma AppliedFrame(r: Record, tx: TxRef, s: EventSummary)
    requires ApplyTx(r, tx, s).Ok?
    ensures var a := ApplyTx(r, tx, s).value;
      && a.id == r.id && a.version == r.version && a.pending.None?
      && a.budget == r.budget && a.autoRequired == r.autoRequired && a.identity == r.identity
  {
    hide ApplyTx, Delivers, Booking;
    AppliedExactly(r, tx, s);
    BookingFrame(r.(pending := None), r.pending.value.action, tx, s);
  }

  // ---------------------------------------------------------------- what a step reports

  /** The job has a later version than before. */
  predicate Newer(db: Db, next: Db, id: string) {
    id in db.payments && id in next.payments && db.payments[id].version < next.payments[id].version
  }

  lemma UpdateIsNewer(db: Db, rec: Record)
    ensures Update(db, rec).0.Ok? ==> Newer(db, Update(db, rec).1, rec.id)
  {
  }

  lemma DeliveryIsNewer(db: Db, r: Record, broadcast: Result<FinalizedTx>)
    ensures var done := Deliver(db, r, broadcast); done.0.Ok? ==> done.0.value && Newer(db, done.2, r.id)
  {
    hide Update, ApplyTx;
    if broadcast.Ok? && ApplyTx(r, broadcast.value.tx, broadcast.value.summary).Ok? {
      hide Newer;
      var a := ApplyTx(r, broadcast.value.tx, broadcast.value.summary).value;
      AppliedFrame(r, broadcast.value.tx, broadcast.value.summary);
      UpdateIsNewer(db, a);
    }
  }

  lemma JournalIsNewer(db: Db, r: Record, action: Action, call: ChainCall, token: Token, tx: PreparedTx, rpc: Rpc)
    ensures var done := JournalPrepared(db, r, action, call, token, tx, rpc); done.0.Ok? ==> done.0.value && Newer(db, done.2, r.id)
  {
    hide Update, Deliver, JournalEntry;
    var journal := r.(pending := Some(JournalEntry(action, token, tx, call)));
    UpdateIsNewer(db, journal);
    var done := Update(db, journal);
    if done.0.Ok? { DeliveryIsNewer(done.1, done.0.value, rpc.broadcast); }
  }

  lemma SendIsNewer(db: Db, r: Record, action: Action, call: ChainCall, signer: Address, token: Token, rpc: Rpc)
    ensures var done := SendJournaled(db, r, action, call, signer, token, rpc); done.0.Ok? ==> done.0.value && Newer(db, done.2, r.id)
  {
    hide JournalPrepared, CancelPreparation, Reserve;
    var db1 := Reserve(db, signer, r.id, Some(r.version), token).1;
    ReserveKeepsPayments(db, signer, r.id, Some(r.version), token);
    if rpc.prepare.Ok? { JournalIsNewer(db1, r, action, call, token, rpc.prepare.value, rpc); }
  }

  lemma ReserveKeepsPayments(db: Db, signer: Address, job: string, version: Option<nat>, token: Token)
    ensures Reserve(db, signer, job, version, token).1.payments == db.payments
  {
  }

  lemma CarryIsNewer(db: Db, d: Decision, token: Token, rpc: Rpc)
    requires d.Save? || d.Send? || d.Stop?
    ensures var done := Carry(db, d, token, rpc);
      done.0.Ok? ==> !d.Stop? && done.0.value && Newer(db, done.1, d.rec.id)
  {
    hide Update, SendJournaled, Newer;
    match d
    case Save(rec, _) => UpdateIsNewer(db, rec);
    case Send(rec, action, call, signer) => SendIsNewer(db, rec, action, call, signer, token, rpc);
    case _ =>
  }

  lemma BuybackKeepsId(cfg: EngineConfig, r: Record, q: Reads)
    ensures var d := DecideBuyback(cfg, r, q); (d.Save? || d.Send? ==> d.rec.id == r.id) && (d.Save? || d.Send? || d.Stop?)
  {
  }

  lemma KeepsId(cfg: EngineConfig, r: Record, q: Reads)
    ensures var d := DecideSwept(cfg, r, q); (d.Save? || d.Send? ==> d.rec.id == r.id) && (d.Save? || d.Send? || d.Stop?)
  {
    hide DecideBuyback;
    BuybackKeepsId(cfg, r, q);
    BuybackKeepsId(cfg, r.(dustReturned := true), q);
  }

  lemma FinishIsNewer(db: Db, d: Decision, q: Reads, token: Token, rpc: Rpc)
    requires d.Save? || d.Send? || d.Stop?
    ensures var done := Finish(db, d, q, token, rpc); done.0.Ok? ==> !d.Stop? && done.0.value && Newer(db, done.1, d.rec.id)
  {
    hide Update, Carry;
    CarryIsNewer(db, d, token, rpc);
    if d.Save? {
      UpdateIsNewer(db, d.rec);
      var done := Update(db, d.rec);
      if done.0.Ok? {
        UpdateIsNewer(done.1, if q.webhookFails then done.0.value.(nextAttemptAt := q.now + 30) else done.0.value.(notified := true));
      }
    }
  }

  lemma {:induction false} SweptIsNewer(db: Db, cfg: EngineConfig, r: Record, q: Reads, token: Token, rpc: Rpc)
    ensures var done := SweptStep(db, cfg, r, q, token, rpc); done.0.Ok? ==> done.0.value && Newer(db, done.1, r.id)
    decreases |r.positions| - r.consolidated
  {
    hide Update, DecideBuyback, Finish;
    KeepsId(cfg, r, q);
    var d := DecideSwept(cfg, r, q);
    if cfg.consolidate && r.consolidated < |r.positions| && d.Save? {
      UpdateIsNewer(db, d.rec);
      var done := Update(db, d.rec);
      if done.0.Ok? { SweptIsNewer(done.1, cfg, done.0.value, q, token, rpc); }
    } else {
      FinishIsNewer(db, d, q, token, rpc);
    }
  }

  /** A step that returns without an error says whether it changed anything: `true` if and only if the
      job has a later version, and otherwise the tables are as they were. */
  lemma ReportedExactly(db: Db, cfg: EngineConfig, r: Record, q: Reads, token: Token, rpc: Rpc)
    ensures var done := StepCall(db, cfg, r, q, token, rpc);
      && (done.0 == Ok(true) ==> Newer(db, done.1, r.id))
      && (done.0 == Ok(false) ==> done.1 == db)
  {
    hide SweptStep, Carry, CountFailure, ReconcileJournaled, Decide, Newer;
    DispatchedShape(cfg, r, q);
    if r.pending.Some? {
      ReconciledIsNewer(db, r, r.pending.value, cfg.maxAttempts, q.now, rpc);
    }
    if r.state == Swept { SweptIsNewer(db, cfg, r, q, token, rpc); }
    var d := Decide(cfg, r, q);
    if d.Save? || d.Send? || d.Stop? { CarryIsNewer(db, d, token, rpc); }
    if d.Nothing? || d.Resolve? { assert Carry(db, d, token, rpc) == (Ok(false), db) by { CarryNothing(db, d, token, rpc); } }
    CountFailsAlways(db, cfg, r, q, token, rpc);
  }

  lemma CarryNothing(db: Db, d: Decision, token: Token, rpc: Rpc)
    requires d.Nothing? || d.Resolve?
    ensures Carry(db, d, token, rpc) == (Ok(false), db)
  {
  }

  lemma CountFailsAlways(db: Db, cfg: EngineConfig, r: Record, q: Reads, token: Token, rpc: Rpc)
    ensures forall db', e :: CountFailure(db', r.id, e, cfg.maxAttempts, q.now).0.Err?
  {
    hide Update;
  }

  lemma DispatchedShape(cfg: EngineConfig, r: Record, q: Reads)
    ensures var d := Decide(cfg, r, q); d.Save? || d.Send? ==> d.rec.id == r.id
  {
    if r.state == Swept { KeepsId(cfg, r, q); }
  }

  lemma ReconciledIsNewer(db: Db, r: Record, p: PendingTx, maxAttempts: nat, now: nat, rpc: Rpc)
    ensures var done := ReconcileJournaled(db, r, p, maxAttempts, now, rpc);
      (done.0 == Ok(true) ==> Newer(db, done.2, r.id)) && (done.0 == Ok(false) ==> done.2 == db)
  {
    hide Update, Newer;
    if r.pending == Some(p) && rpc.find.Ok? && !rpc.find.value.Wait? {
      ResolvedKeepsId(r, p, rpc.find.value, maxAttempts, now);
      UpdateIsNewer(db, Resolved(r, p, rpc.find.value, maxAttempts, now));
    }
  }

  lemma ResolvedKeepsId(r: Record, p: PendingTx, outcome: PendingOutcome, maxAttempts: nat, now: nat)
    requires r.pending == Some(p)
    ensures Resolved(r, p, outcome, maxAttempts, now).id == r.id
  {
    hide ApplyTx;
    match outcome
    case Included(blockHash, summary) =>
      if !summary.failed && ApplyTx(r, ReceiptOf(p, blockHash), summary).Ok? { AppliedFrame(r, ReceiptOf(p, blockHash), summary); }
    case _ =>
  }
}
