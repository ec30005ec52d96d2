/** The engine's calls as the source writes them: records changed field by field, the store written
    transaction by transaction (src/engine.rs). Each is proved against the functions of `Engine`. */
module EngineCalls {
  import opened Basics
  import opened Keys
  import opened Calls
  import opened State
  import opened Units
  import opened Store
  import opened Engine

  // ---------------------------------------------------------------- whole steps, uninterrupted

  /** Carrying out one decision: result and tables. */
  function Carry(db: Db, d: Decision, token: Token, rpc: Rpc): (Result<bool>, Db) {
    match d
    case Nothing => (Ok(false), db)
    case Resolve(_) => (Ok(false), db)
    case Stop(e, _) => (Err(e), db)
    case Save(rec, _) =>
      (match Update(db, rec)
       case (Err(e), _) => (Err(e), db)
       case (Ok(_), db1) => (Ok(true), db1))
    case Send(rec, action, call, signer) =>
      var sent := SendJournaled(db, rec, action, call, signer, token, rpc);
      (sent.0, sent.2)
  }

  /** `notify`: the delivery flag or the next attempt is stored. */
  function Notify(db: Db, r: Record, q: Reads): (Result<bool>, Db) {
    match Update(db, if q.webhookFails then r.(nextAttemptAt := q.now + 30) else r.(notified := true))
    case (Err(e), _) => (Err(e), db)
    case (Ok(_), db1) => (Ok(true), db1)
  }

  /** Carrying out the decision that may settle the job, which is then announced. */
  function Finish(db: Db, d: Decision, q: Reads, token: Token, rpc: Rpc): (Result<bool>, Db) {
    if !(d.Save? && d.goOn) then Carry(db, d, token, rpc)
    else
      match Update(db, d.rec)
      case (Err(e), _) => (Err(e), db)
      case (Ok(stored), db1) => Notify(db1, stored, q)
  }

  /** `step_swept`: positions with nothing to move are skipped and stored one by one, then the rest of
      the step is carried out. */
  function SweptStep(db: Db, cfg: EngineConfig, r: Record, q: Reads, token: Token, rpc: Rpc): (Result<bool>, Db)
    decreases |r.positions| - r.consolidated
  {
    var d := DecideSwept(cfg, r, q);
    if cfg.consolidate && r.consolidated < |r.positions| && d.Save? then
      match Update(db, d.rec)
      case (Err(e), _) => (Err(e), db)
      case (Ok(stored), db1) => SweptStep(db1, cfg, stored, q, token, rpc)
    else Finish(db, d, q, token, rpc)
  }

  /** How a failed step is counted against the job. */
  function CountFailure(db: Db, id: string, e: Error, maxAttempts: nat, now: nat): (Result<bool>, Db) {
    if e.Conflict? then (Err(e), db)
    else if id !in db.payments then (Err(NotFound(id)), db)
    else if db.payments[id].pending.Some? then (Err(e), db)
    else
      match Update(db, RecordFailure(db.payments[id], e.text, maxAttempts, now))
      case (Err(e2), _) => (Err(e2), db)
      case (Ok(_), db1) => (Err(e), db1)
  }

  predicate Counted(s: PaymentState) {
    s == Detected || s == Funded || s == Swept
  }

  /** `Engine::step`. */
  function StepCall(db: Db, cfg: EngineConfig, r: Record, q: Reads, token: Token, rpc: Rpc): (Result<bool>, Db) {
    if r.identity != Some(Identity(cfg)) || r.quarantined.Some?
      || (r.pending.None? && (r.autoRequired.None? || (r.autoRequired == Some(true) && r.budget.None?)))
    then Carry(db, Decide(cfg, r, q), token, rpc)
    else if r.pending.Some? then
      var done := ReconcileJournaled(db, r, r.pending.value, cfg.maxAttempts, q.now, rpc);
      (done.0, done.2)
    else
      var tried := if r.state == Swept then SweptStep(db, cfg, r, q, token, rpc)
                   else Carry(db, Decide(cfg, r, q), token, rpc);
      if tried.0.Err? && Counted(r.state) then CountFailure(tried.1, r.id, tried.0.error, cfg.maxAttempts, q.now) else tried
  }

  /** An operator's change of one stored job. */
  function OperatorCall(db: Db, id: string, change: Record -> Result<Record>): (Result<Record>, Db) {
    if id !in db.payments then (Err(NotFound(id)), db)
    else
      match change(db.payments[id])
      case Err(e) => (Err(e), db)
      case Ok(rec) => Update(db, rec)
  }

  function RetryCall(db: Db, id: string): (Result<Record>, Db) {
    OperatorCall(db, id, Retry)
  }

  function ForceSweepCall(db: Db, id: string): (Result<Record>, Db) {
    OperatorCall(db, id, ForceSweep)
  }

  // ---------------------------------------------------------------- the calls

  /** `Engine::apply`. On an error the caller drops the record it passed. */
  method Apply(r: PaymentRecord, tx: TxRef, s: EventSummary) returns (res: Result<()>)
    modifies r
    ensures match ApplyTx(old(r.value), tx, s)
      case Ok(applied) => res == Ok(()) && r.value == applied
      case Err(e) => res == Err(e)
  {
    var pending := r.value.pending;
    r.value := r.value.(pending := None);
    if pending.None? {
      return Err(Store("apply without pending"));
    }
    var done := Account(r, pending.value.action, tx, s);
    if done.Err? {
      return done;
    }
    r.value := r.value.(attempts := 0);
    r.value := r.value.(nextAttemptAt := 0);
    r.value := r.value.(lastError := None);
    r.value := r.value.(txs := r.value.txs + [tx]);
    return Ok(());
  }

  /** The accounting part of `apply`. */
  method Account(r: PaymentRecord, action: Action, tx: TxRef, s: EventSummary) returns (res: Result<()>)
    modifies r
    ensures match Effect(old(r.value), action, tx, s)
      case Ok(booked) => res == Ok(()) && r.value == booked
      case Err(e) => res == Err(e)
  {
    match action {
      case Fund =>
        r.value := r.value.(fundedTao := r.value.fundedTao + tx.amount);
        res := r.MoveTo(Funded);
      case Sweep(hotkey) =>
        if !s.Has(StakeTransferred) {
          return Err(EventMissing("StakeTransferred"));
        }
        r.value := r.value.(sweptAlpha := r.value.sweptAlpha + tx.amount);
        r.value := r.value.(positions := r.value.positions + [(hotkey, tx.amount)]);
        return Ok(());
      case Consolidate(_) =>
        r.value := r.value.(consolidated := r.value.consolidated + 1);
        return Ok(());
      case ReturnDust =>
        r.value := r.value.(dustReturned := true);
        return Ok(());
      case BuyStake(netuid, limitPrice) =>
        if s.stakeAdded.None? {
          return Err(EventMissing("StakeAdded"));
        }
        var (tao, alpha) := s.stakeAdded.value;
        if tao != tx.amount || alpha == 0 {
          return Err(Store("purchase does not match full requested budget"));
        }
        r.value := r.value.(buyback := Some(BuybackReceipt(netuid, tao, alpha, limitPrice, tx, None, 0)));
        return Ok(());
      case Destroy(_, _) =>
        if s.alphaDestroyed.None? {
          return Err(EventMissing("AlphaBurned/AlphaRecycled"));
        }
        if r.value.buyback.None? {
          return Err(Store("burn without purchase receipt"));
        }
        var b := r.value.buyback.value;
        if s.alphaDestroyed.value != b.alphaBought || s.alphaDestroyed.value == 0 {
          return Err(Store("burn amount does not match purchased alpha"));
        }
        b := b.(destroyTx := Some(tx));
        b := b.(alphaDestroyed := s.alphaDestroyed.value);
        r.value := r.value.(buyback := Some(b));
        r.value := r.value.(buybackDone := true);
        return Ok(());
    }
  }

  /** Preparation must not broadcast; an error known before sending gives the reservation back. */
  method PrepareOrCancel(store: SqliteStore, id: string, signer: Address, reservation: Token, rpc: Rpc)
    returns (res: Result<PreparedTx>)
    modifies store
    ensures (res, store.Tables()) == PrepareOwned(old(store.Tables()), id, signer, reservation, rpc)
  {
    if rpc.prepare.Err? {
      var _ :- store.Cancel(signer, id, reservation);
      return Err(rpc.prepare.error);
    }
    if rpc.prepare.value.signer != signer {
      var _ :- store.Cancel(signer, id, reservation);
      return Err(Store("prepared signer mismatch"));
    }
    return rpc.prepare;
  }

  method BroadcastAndApply(store: SqliteStore, r: PaymentRecord, rpc: Rpc) returns (res: Result<bool>)
    modifies store, r
    ensures (res, r.value, store.Tables()) == Deliver(old(store.Tables()), old(r.value), rpc.broadcast)
  {
    var finalized :- rpc.broadcast;
    var applied := new PaymentRecord(r.value);
    var _ :- Apply(applied, finalized.tx, finalized.summary);
    var stored :- store.Write(applied.value);
    r.value := stored;
    return Ok(true);
  }

  /** `send_journaled`: reserve, prepare, journal, broadcast, apply, each stored before the next. */
  method SendJournaledCall(store: SqliteStore, r: PaymentRecord, action: Action, call: ChainCall, signer: Address,
                           token: Token, rpc: Rpc) returns (res: Result<bool>)
    modifies store, r
    ensures var done := SendJournaled(old(store.Tables()), old(r.value), action, call, signer, token, rpc);
      res == done.0 && r.value == done.1 && store.Tables() == done.2
  {
    hide Reserve, PrepareOwned, JournalPrepared;
    if r.value.pending.Some? {
      return Err(Store("reconcile pending transaction before preparing another"));
    }
    var reservation :- store.ReserveSigner(signer, r.value.id, Some(r.value.version), token);
    var prepared :- PrepareOrCancel(store, r.value.id, signer, reservation, rpc);
    res := JournalAndSend(store, r, action, call, reservation, prepared, rpc);
  }

  /** Once the journal is stored the transaction may be sent. */
  method JournalAndSend(store: SqliteStore, r: PaymentRecord, action: Action, call: ChainCall, reservation: Token,
                        prepared: PreparedTx, rpc: Rpc) returns (res: Result<bool>)
    modifies store, r
    ensures (res, r.value, store.Tables()) == JournalPrepared(old(store.Tables()), old(r.value), action, call, reservation, prepared, rpc)
  {
    hide Update, Deliver;
    var journal := r.value.(pending := Some(PendingTx(
      action, Some(reservation), prepared.signer, prepared.nonce, prepared.txHash, prepared.birthBlock, call.Amount())));
    var journaled :- store.Write(journal);
    r.value := journaled;
    res := BroadcastAndApply(store, r, rpc);
  }

  /** `reconcile_journaled`: the journal is resolved against the finalized chain and cleared. */
  method ReconcileJournaledCall(store: SqliteStore, r: PaymentRecord, p: PendingTx, maxAttempts: nat, now: nat, rpc: Rpc)
    returns (res: Result<bool>)
    modifies store, r
    ensures (res, r.value, store.Tables()) == ReconcileJournaled(old(store.Tables()), old(r.value), p, maxAttempts, now, rpc)
  {
    if r.value.pending != Some(p) {
      return Err(Store("pending journal mismatch"));
    }
    var outcome :- rpc.find;
    if outcome.Wait? {
      return Ok(false);
    }
    var applied := new PaymentRecord(r.value);
    Resolve(applied, p, outcome, maxAttempts, now);
    var stored :- store.Write(applied.value);
    r.value := stored;
    return Ok(true);
  }

  /** The record `reconcile_journaled` builds for a settled lookup. */
  method Resolve(applied: PaymentRecord, p: PendingTx, outcome: PendingOutcome, maxAttempts: nat, now: nat)
    requires applied.value.pending == Some(p) && !outcome.Wait?
    modifies applied
    ensures applied.value == Resolved(old(applied.value), p, outcome, maxAttempts, now)
  {
    var before := applied.value;
    if outcome.Dead? {
      applied.value := before.(pending := None);
      return;
    }
    var tx := TxRef(ActionName(p.action), p.txHash, outcome.blockHash, p.amount);
    if outcome.summary.failed {
      applied.value := before.(pending := None);
      applied.NoteFailure("journaled transaction failed on finalized chain", maxAttempts, now);
      return;
    }
    var done := Apply(applied, tx, outcome.summary);
    if done.Err? {
      applied.value := before;
      applied.value := applied.value.(pending := None);
      applied.value := applied.value.(quarantined := Some(p));
      applied.value := applied.value.(txs := applied.value.txs + [tx]);
      applied.NoteFailure("finalized receipt mismatch: " + done.error.text, 1, now);
    }
  }

  // ---------------------------------------------------------------- the engine

  class PaymentEngine {
    const cfg: EngineConfig
    const store: SqliteStore

    constructor (cfg: EngineConfig, store: SqliteStore)
      ensures this.cfg == cfg && this.store == store
    {
      this.cfg, this.store := cfg, store;
    }

    /** A transition that is stored at once. */
    method MoveAndStore(r: PaymentRecord, to: PaymentState) returns (res: Result<Record>)
      modifies store, r
      ensures var moved := Transition(old(r.value), to);
        if moved.Err? then res == Err(moved.error) && store.Tables() == old(store.Tables())
        else res == Update(old(store.Tables()), moved.value).0 && store.Tables() == Update(old(store.Tables()), moved.value).1
      ensures r.value.id == old(r.value.id)
    {
      hide Update;
      var _ :- r.MoveTo(to);
      res := store.Write(r.value);
    }

    method StepPending(r: PaymentRecord, q: Reads, token: Token, rpc: Rpc) returns (res: Result<bool>)
      modifies store, r
      ensures var done := Carry(old(store.Tables()), DecidePending(old(r.value), q), token, rpc);
        res == done.0 && store.Tables() == done.1
    {
      hide SendJournaled, Update, Holdings, AlphaTotal, Transition;
      var who :- ParseSs58(r.value.address);
      var alpha := AlphaTotal(Holdings(q.stakes, r.value.netuid));
      var tao := if r.value.minTao.Some? then q.free else 0;
      var taoOk := r.value.minTao.Some? && tao >= r.value.minTao.value;
      if alpha >= r.value.minAlpha || taoOk {
        r.value := r.value.(detectedAlpha := alpha);
        r.value := r.value.(detectedTao := if taoOk then tao else 0);
        var _ :- MoveAndStore(r, Detected);
        return Ok(true);
      }
      if q.now > r.value.expiresAt {
        r.value := r.value.(detectedAlpha := alpha);
        var _ :- MoveAndStore(r, Expired);
        return Ok(true);
      }
      return Ok(false);
    }

    /** The fees of sweeping every position worth it, added up one by one. */
    method EstimateFees(pos: seq<StakePosition>, floor: nat, fee: StakePosition -> u64) returns (fees: u64)
      ensures fees == FeeTotal(pos, floor, fee)
    {
      fees := 0;
      for i := 0 to |pos|
        invariant fees == FeeTotal(pos[..i], floor, fee)
      {
        assert pos[..i + 1][..i] == pos[..i];
        if pos[i].alpha >= floor {
          fees := SaturatingAdd(fees, fee(pos[i]));
        }
      }
      assert pos[..|pos|] == pos;
    }

    method StepDetected(r: PaymentRecord, q: Reads, token: Token, rpc: Rpc) returns (res: Result<bool>)
      modifies store, r
      ensures var done := Carry(old(store.Tables()), DecideDetected(cfg, old(r.value), q), token, rpc);
        res == done.0 && store.Tables() == done.1
      ensures r.value.id == old(r.value.id)
    {
      hide SendJournaled, Update, FundingNeeded, SweepFloor, FeeTotal, AlphaTotal, Holdings;
      if !Canonical(r.value.address) {
        return Err(WRONG_WALLET);
      }
      var pos := Holdings(q.stakes, r.value.netuid);
      r.value := r.value.(detectedAlpha := Max(r.value.detectedAlpha, AlphaTotal(pos)));
      var fees := EstimateFees(pos, SweepFloor(q.price, cfg.sweepDust), q.fee);
      var need := 0;
      if pos != [] {
        need := FundingNeeded(fees, cfg.feeMarginBps, q.existentialDeposit, q.free);
      }
      if need == 0 {
        var stored :- MoveAndStore(r, Funded);
        r.value := stored;
        return Ok(true);
      }
      res := SendJournaledCall(store, r, Fund, TransferTao(r.value.address.account, need), Ss58Of(cfg.treasury), token, rpc);
    }

    /** The first position worth sweeping whose hotkey is not swept yet. */
    method FindPosition(done: Record, pos: seq<StakePosition>, floor: nat) returns (k: nat)
      ensures k == NextSweep(done, pos, floor, 0)
    {
      k := 0;
      while k < |pos| && (pos[k].alpha < floor || AlreadySwept(done, Ss58Of(pos[k].hotkey)))
        invariant k <= |pos| && NextSweep(done, pos, floor, 0) == NextSweep(done, pos, floor, k)
      {
        k := k + 1;
      }
    }

    method StepFunded(r: PaymentRecord, q: Reads, token: Token, rpc: Rpc) returns (res: Result<bool>)
      modifies store, r
      ensures var done := Carry(old(store.Tables()), DecideFunded(cfg, old(r.value), q), token, rpc);
        res == done.0 && store.Tables() == done.1
      ensures r.value.id == old(r.value.id)
    {
      hide SendJournaled, Update, SweepFloor, Holdings, NextSweep;
      if !Canonical(r.value.address) {
        return Err(WRONG_WALLET);
      }
      var pos := Holdings(q.stakes, r.value.netuid);
      var k := FindPosition(r.value, pos, SweepFloor(q.price, cfg.sweepDust));
      if k == |pos| {
        var stored :- MoveAndStore(r, Swept);
        r.value := stored;
        return Ok(true);
      }
      var call := TransferStake(cfg.treasury, pos[k].hotkey, r.value.netuid, pos[k].alpha);
      res := SendJournaledCall(store, r, Sweep(Ss58Of(pos[k].hotkey)), call, r.value.address, token, rpc);
    }

    /** Announces a settled job and stores the outcome. */
    method NotifyJob(rec: Record, q: Reads) returns (res: Result<bool>)
      modifies store
      ensures var done := Notify(old(store.Tables()), rec, q); res == done.0 && store.Tables() == done.1
    {
      if q.webhookFails {
        var _ :- store.Write(rec.(nextAttemptAt := q.now + 30));
        return Ok(true);
      }
      var _ :- store.Write(rec.(notified := true));
      return Ok(true);
    }

    /** `step_auto_buyback`: buy the whole budget once, then destroy exactly what was bought. */
    method StepAutoBuyback(r: PaymentRecord, q: Reads, token: Token, rpc: Rpc) returns (res: Result<bool>)
      modifies store, r
      ensures var done := Carry(old(store.Tables()), DecideAutoBuyback(cfg, old(r.value), q), token, rpc);
        res == done.0 && store.Tables() == done.1
      ensures r.value.id == old(r.value.id)
    {
      hide SendJournaled, Update, Spendable, BuyLimitPrice;
      if r.value.budget.None? {
        return Err(Config("job has no explicit buyback budget; blocked"));
      }
      var budget := r.value.budget.value;
      var _ :- budget.Validate();
      if r.value.buyback.Some? {
        var b := r.value.buyback.value;
        if b.taoSpent != budget.amountRao || b.netuid != budget.netuid {
          return Err(Store("purchase receipt disagrees with job budget"));
        }
        if b.alphaBought == 0 {
          return Err(Insufficient("buyback produced no alpha; completion blocked"));
        }
        if b.destroyTx.Some? && b.alphaDestroyed != b.alphaBought {
          return Err(Store("incomplete burn receipt; completion blocked"));
        }
        if budget.destroy == Keep || b.destroyTx.Some? {
          r.value := r.value.(buybackDone := true);
          var stored :- store.Write(r.value);
          r.value := stored;
          return Ok(true);
        }
        var call := DestroyCall(budget.destroy, budget.hotkey.account, budget.netuid, b.alphaBought);
        res := SendJournaledCall(store, r, Destroy(budget.netuid, budget.destroy == Recycle), call, Ss58Of(cfg.treasury), token, rpc);
        return;
      }
      var tao :- StrictBuybackAmount(budget.amountRao, Spendable(q.treasuryFree, cfg.feeReserve, q.existentialDeposit));
      var limit := BuyLimitPrice(q.buyPrice, cfg.slippageBps);
      var call := AddStakeLimit(budget.hotkey.account, budget.netuid, tao, limit, false);
      res := SendJournaledCall(store, r, BuyStake(budget.netuid, limit), call, Ss58Of(cfg.treasury), token, rpc);
    }

    /** The last part of `step_swept`: the buyback if one is required, then settling. */
    method SettleOrBuy(r: PaymentRecord, q: Reads, token: Token, rpc: Rpc) returns (res: Result<bool>)
      modifies store, r
      ensures var done := Finish(old(store.Tables()), DecideBuyback(cfg, old(r.value), q), q, token, rpc);
        res == done.0 && store.Tables() == done.1
      ensures r.value.id == old(r.value.id)
    {
      hide SendJournaled, Update, DecideAutoBuyback, ValidateCompleted, Notify;
      if r.value.autoRequired.None? {
        return Err(Config("legacy job policy requires explicit migration"));
      }
      var required := r.value.autoRequired.value;
      if required && r.value.budget.None? {
        return Err(Config("required job budget missing"));
      }
      if required && r.value.buybackDone {
        var _ :- ValidateCompleted(r.value);
      }
      if required && !r.value.buybackDone {
        res := StepAutoBuyback(r, q, token, rpc);
        return;
      }
      var _ :- r.MoveTo(Settled);
      var stored :- store.Write(r.value);
      r.value := stored;
      res := NotifyJob(r.value, q);
    }

    /** `step_swept`: consolidate, return the dust, buy back, settle. */
    method StepSwept(r: PaymentRecord, q: Reads, token: Token, rpc: Rpc) returns (res: Result<bool>)
      modifies store, r
      ensures var done := SweptStep(old(store.Tables()), cfg, old(r.value), q, token, rpc);
        res == done.0 && store.Tables() == done.1
      ensures r.value.id == old(r.value.id)
    {
      hide SendJournaled, Update, DecideBuyback, Notify;
      ghost var db0, r0 := store.Tables(), r.value;
      while cfg.consolidate && r.value.consolidated < |r.value.positions|
        invariant r.value.id == r0.id
        invariant SweptStep(db0, cfg, r0, q, token, rpc) == SweptStep(store.Tables(), cfg, r.value, q, token, rpc)
        decreases |r.value.positions| - r.value.consolidated
      {
        var hk :- ParseSs58(r.value.positions[r.value.consolidated].0);
        var live := if hk == cfg.treasuryHotkey then 0 else q.treasuryAlpha(hk);
        if live != 0 {
          var call := MoveStake(hk, cfg.treasuryHotkey, r.value.netuid, live);
          res := SendJournaledCall(store, r, Consolidate(Ss58Of(hk)), call, Ss58Of(cfg.treasury), token, rpc);
          return;
        }
        r.value := r.value.(consolidated := r.value.consolidated + 1);
        var stored :- store.Write(r.value);
        r.value := stored;
      }
      if !r.value.dustReturned && (cfg.returnDust || r.value.detectedTao > 0) {
        if !Canonical(r.value.address) {
          return Err(WRONG_WALLET);
        }
        if q.free > 0 {
          res := SendJournaledCall(store, r, ReturnDust, TransferAll(cfg.treasury), r.value.address, token, rpc);
          return;
        }
        r.value := r.value.(dustReturned := true);
      }
      res := SettleOrBuy(r, q, token, rpc);
    }

    /** Counts a failed step against the job, unless its journal is unresolved. */
    method NoteStepFailure(id: string, e: Error, now: nat) returns (res: Result<bool>)
      modifies store
      ensures var done := CountFailure(old(store.Tables()), id, e, cfg.maxAttempts, now);
        res == done.0 && store.Tables() == done.1
    {
      hide Update, RecordFailure;
      if e.Conflict? {
        return Err(e);
      }
      var current := store.Get(id);
      if current.None? {
        return Err(NotFound(id));
      }
      if current.value.pending.Some? {
        return Err(e);
      }
      var cur := new PaymentRecord(current.value);
      cur.NoteFailure(e.text, cfg.maxAttempts, now);
      var _ :- store.Write(cur.value);
      return Err(e);
    }

    /** `Engine::step`: at most one chain action for one record. */
    method Step(r: PaymentRecord, q: Reads, token: Token, rpc: Rpc) returns (res: Result<bool>)
      modifies store, r
      ensures var done := StepCall(old(store.Tables()), cfg, old(r.value), q, token, rpc);
        res == done.0 && store.Tables() == done.1
    {
      hide Update, SweptStep, ReconcileJournaled, SendJournaled, DecidePending, DecideDetected, DecideFunded, DecideSwept, CountFailure;
      if r.value.identity != Some(Identity(cfg)) {
        return Err(Config("job execution identity missing or mismatched"));
      }
      if r.value.quarantined.Some? {
        return Ok(false);
      }
      if r.value.pending.None?
        && (r.value.autoRequired.None? || (r.value.autoRequired == Some(true) && r.value.budget.None?))
      {
        return Err(Config("job policy migration required before processing"));
      }
      if r.value.pending.Some? {
        res := ReconcileJournaledCall(store, r, r.value.pending.value, cfg.maxAttempts, q.now, rpc);
        return;
      }
      var id := r.value.id;
      match r.value.state {
        case Pending =>
          res := StepPending(r, q, token, rpc);
          return;
        case Detected => res := StepDetected(r, q, token, rpc);
        case Funded => res := StepFunded(r, q, token, rpc);
        case Swept => res := StepSwept(r, q, token, rpc);
        case Settled =>
          res := NotifyJob(r.value, q);
          return;
        case _ =>
          return Ok(false);
      }
      if res.Err? {
        res := NoteStepFailure(id, res.error, q.now);
      }
    }

    /** `retry`: resumes a failed job from the step it failed in, never a quarantined one. */
    method RetryJob(id: string) returns (res: Result<Record>)
      modifies store
      ensures var done := RetryCall(old(store.Tables()), id); res == done.0 && store.Tables() == done.1
    {
      hide Update;
      var found := store.Get(id);
      if found.None? {
        return Err(NotFound(id));
      }
      var r := new PaymentRecord(found.value);
      if r.value.quarantined.Some? {
        return Err(Store("finalized receipt mismatch requires explicit repair"));
      }
      var to := Detected;
      if r.value.failedFrom.Some? && r.value.failedFrom.value != Pending {
        to := r.value.failedFrom.value;
      }
      var _ :- r.MoveTo(to);
      res := store.Write(r.value);
    }

    /** `force_sweep`: reopens an expired job, or one that failed before it was funded. */
    method ForceSweepJob(id: string) returns (res: Result<Record>)
      modifies store
      ensures var done := ForceSweepCall(old(store.Tables()), id); res == done.0 && store.Tables() == done.1
    {
      hide Update;
      var found := store.Get(id);
      if found.None? {
        return Err(NotFound(id));
      }
      var r := new PaymentRecord(found.value);
      var _ :- r.MoveTo(Detected);
      res := store.Write(r.value);
    }
  }
}
