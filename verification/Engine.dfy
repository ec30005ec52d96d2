/** What the payment engine computes between two store operations (src/engine.rs). */
module Engine {
  import opened Basics
  import opened Keys
  import opened Calls
  import opened State
  import opened Units
  import opened ChainScan
  import opened Store

  datatype EngineConfig = EngineConfig(
    genesisHash: Hash, treasury: AccountId, treasuryHotkey: AccountId, consolidate: bool, returnDust: bool,
    netuid: nat, minAlpha: nat, minTao: Option<nat>, autoOn: bool, budget: Option<BuybackBudget>,
    sweepDust: u64, feeMarginBps: Margin, slippageBps: Margin, feeReserve: u64, maxAttempts: nat)

  datatype StakePosition = StakePosition(hotkey: AccountId, netuid: nat, alpha: nat)

  /** Chain reads and clock values one step may see; every value is possible. */
  datatype Reads = Reads(
    stakes: seq<StakePosition>, free: u64, fee: StakePosition -> u64, existentialDeposit: u64, price: u64,
    treasuryAlpha: AccountId -> nat, treasuryFree: u64, buyPrice: u64, now: nat, webhookFails: bool)

  function Identity(cfg: EngineConfig): JobIdentity {
    JobIdentity(cfg.genesisHash, Ss58Of(cfg.treasury), Ss58Of(cfg.treasuryHotkey), cfg.consolidate, cfg.returnDust)
  }

  // ---------------------------------------------------------------- new jobs

  function NewRecord(cfg: EngineConfig, id: string, address: Address, minAlpha: nat, minTao: Option<nat>,
                     expiresAt: nat, state: PaymentState): Record
  {
    Record(id, address, cfg.netuid, minAlpha, minTao, expiresAt, state, 0, 0, 0, 0, 0, [], None,
           cfg.budget, Some(cfg.budget.Some?), Some(Identity(cfg)), 0, 0, None, None, None, None,
           [], 0, false, false, false)
  }

  function CheckedBudget(cfg: EngineConfig): Result<()> {
    if cfg.autoOn && cfg.budget.None? then Err(Config("explicit job buyback budget required"))
    else if cfg.budget.Some? then cfg.budget.value.Validate()
    else Ok(())
  }

  /** `create_payment`: a job waiting for its deposit. */
  function NewPayment(cfg: EngineConfig, id: string, account: AccountId, minAlpha: Option<nat>, expiresAt: nat): Result<Record> {
    var _ :- CheckedBudget(cfg);
    Ok(NewRecord(cfg, id, Ss58Of(account), if minAlpha.Some? then minAlpha.value else cfg.minAlpha, cfg.minTao, expiresAt, Pending))
  }

  /** `create_sweep_job`: a job that starts detected. */
  function NewSweepJob(cfg: EngineConfig, id: string, account: AccountId): Result<Record> {
    var _ :- CheckedBudget(cfg);
    Ok(NewRecord(cfg, id, Ss58Of(account), 0, None, U64_MAX, Detected))
  }

  // ---------------------------------------------------------------- deciding the next action

  datatype Decision =
    | Nothing
    | Resolve(p: PendingTx)
      // write the record; `goOn` when the same step continues with the written record
    | Save(rec: Record, goOn: bool)
    | Send(rec: Record, action: Action, call: ChainCall, signer: Address)
      // `counted` errors go through `record_failure`
    | Stop(error: Error, counted: bool)

  /** `alpha_on`: the wallet's nonzero positions on a subnet. */
  function Holdings(stakes: seq<StakePosition>, netuid: nat): seq<StakePosition> {
    if stakes == [] then []
    else
      var rest := Holdings(stakes[..|stakes| - 1], netuid);
      var p := stakes[|stakes| - 1];
      if p.alpha > 0 && p.netuid == netuid then rest + [p] else rest
  }

  function AlphaTotal(ps: seq<StakePosition>): nat {
    if ps == [] then 0 else AlphaTotal(ps[..|ps| - 1]) + ps[|ps| - 1].alpha
  }

  /** Saturating sum of the sweep fees of the positions worth sweeping. */
  function FeeTotal(ps: seq<StakePosition>, floor: nat, fee: StakePosition -> u64): u64 {
    if ps == [] then 0
    else
      var rest := FeeTotal(ps[..|ps| - 1], floor, fee);
      var p := ps[|ps| - 1];
      if p.alpha >= floor then SaturatingAdd(rest, fee(p)) else rest
  }

  predicate AlreadySwept(r: Record, a: Address) {
    HasHotkey(r.positions, a)
  }

  /** First position worth sweeping whose hotkey has not been swept, or the number of positions. */
  function NextSweep(r: Record, ps: seq<StakePosition>, floor: nat, i: nat): (k: nat)
    requires i <= |ps|
    ensures i <= k <= |ps|
    ensures k < |ps| ==> ps[k].alpha >= floor && !AlreadySwept(r, Ss58Of(ps[k].hotkey))
    decreases |ps| - i
  {
    if i == |ps| || (ps[i].alpha >= floor && !AlreadySwept(r, Ss58Of(ps[i].hotkey))) then i
    else NextSweep(r, ps, floor, i + 1)
  }

  function SaveAs(res: Result<Record>): Decision {
    match res
    case Ok(rec) => Save(rec, false)
    case Err(e) => Stop(e, true)
  }

  function DecidePending(r: Record, q: Reads): Decision {
    match ParseSs58(r.address)
    case Err(e) => Stop(e, false)
    case Ok(_) =>
      var alpha := AlphaTotal(Holdings(q.stakes, r.netuid));
      var tao := if r.minTao.Some? then q.free else 0;
      var taoOk := r.minTao.Some? && tao >= r.minTao.value;
      if alpha >= r.minAlpha || taoOk then
        (match Transition(r.(detectedAlpha := alpha, detectedTao := if taoOk then tao else 0), Detected)
         case Ok(rec) => Save(rec, false)
         case Err(e) => Stop(e, false))
      else if q.now > r.expiresAt then
        (match Transition(r.(detectedAlpha := alpha), Expired)
         case Ok(rec) => Save(rec, false)
         case Err(e) => Stop(e, false))
      else Nothing
  }

  const WRONG_WALLET := Crypto("sealed wallet does not match address")

  function DecideDetected(cfg: EngineConfig, r: Record, q: Reads): Decision {
    if !Canonical(r.address) then Stop(WRONG_WALLET, true)
    else
      var pos := Holdings(q.stakes, r.netuid);
      var r1 := r.(detectedAlpha := Max(r.detectedAlpha, AlphaTotal(pos)));
      var fees := FeeTotal(pos, SweepFloor(q.price, cfg.sweepDust), q.fee);
      var need := if pos == [] then 0 else FundingNeeded(fees, cfg.feeMarginBps, q.existentialDeposit, q.free);
      if need == 0 then SaveAs(Transition(r1, Funded))
      else Send(r1, Fund, TransferTao(r.address.account, need), Ss58Of(cfg.treasury))
  }

  function DecideFunded(cfg: EngineConfig, r: Record, q: Reads): Decision {
    if !Canonical(r.address) then Stop(WRONG_WALLET, true)
    else
      var pos := Holdings(q.stakes, r.netuid);
      var k := NextSweep(r, pos, SweepFloor(q.price, cfg.sweepDust), 0);
      if k == |pos| then SaveAs(Transition(r, Swept))
      else Send(r, Sweep(Ss58Of(pos[k].hotkey)),
                TransferStake(cfg.treasury, pos[k].hotkey, r.netuid, pos[k].alpha), r.address)
  }

  /** One turn of the consolidation loop, or the rest of `step_swept` when the loop is over. */
  function DecideSwept(cfg: EngineConfig, r: Record, q: Reads): Decision {
    if cfg.consolidate && r.consolidated < |r.positions| then
      match ParseSs58(r.positions[r.consolidated].0)
      case Err(e) => Stop(e, true)
      case Ok(hk) =>
        var live := if hk == cfg.treasuryHotkey then 0 else q.treasuryAlpha(hk);
        if live == 0 then Save(r.(consolidated := r.consolidated + 1), true)
        else Send(r, Consolidate(Ss58Of(hk)), MoveStake(hk, cfg.treasuryHotkey, r.netuid, live), Ss58Of(cfg.treasury))
    else if !r.dustReturned && (cfg.returnDust || r.detectedTao > 0) then
      if !Canonical(r.address) then Stop(WRONG_WALLET, true)
      else if q.free > 0 then Send(r, ReturnDust, TransferAll(cfg.treasury), r.address)
      else DecideBuyback(cfg, r.(dustReturned := true), q)
    else DecideBuyback(cfg, r, q)
  }

  function DecideBuyback(cfg: EngineConfig, r: Record, q: Reads): Decision {
    if r.autoRequired.None? then Stop(Config("legacy job policy requires explicit migration"), true)
    else if r.autoRequired == Some(true) && r.budget.None? then Stop(Config("required job budget missing"), true)
    else if r.autoRequired == Some(true) && !r.buybackDone then DecideAutoBuyback(cfg, r, q)
    else
      match (if r.autoRequired == Some(true) then ValidateCompleted(r) else Ok(()))
      case Err(e) => Stop(e, true)
      case Ok(_) =>
        match Transition(r, Settled)
        case Err(e) => Stop(e, true)
        case Ok(rec) => Save(rec, true)
  }

  function DestroyCall(policy: DestroyPolicy, hotkey: AccountId, netuid: nat, alpha: nat): ChainCall {
    if policy == Recycle then RecycleAlpha(hotkey, netuid, alpha) else BurnAlpha(hotkey, netuid, alpha)
  }

  /** `strict_buyback_amount`: the whole budget or nothing. */
  function StrictBuybackAmount(requested: nat, spendable: nat): Result<nat> {
    if requested < MIN_STAKE_RAO then Err(Insufficient("buyback budget below minimum; blocked, not skipped"))
    else if requested > spendable then Err(Insufficient("full buyback budget unavailable; no partial spend"))
    else Ok(requested)
  }

  function DecideAutoBuyback(cfg: EngineConfig, r: Record, q: Reads): (d: Decision)
    ensures d.Save? ==> !d.goOn
  {
    if r.budget.None? then Stop(Config("job has no explicit buyback budget; blocked"), true)
    else
      var budget := r.budget.value;
      match budget.Validate()
      case Err(e) => Stop(e, true)
      case Ok(_) =>
        if r.buyback.Some? then
          var b := r.buyback.value;
          if b.taoSpent != budget.amountRao || b.netuid != budget.netuid then
            Stop(Store("purchase receipt disagrees with job budget"), true)
          else if b.alphaBought == 0 then Stop(Insufficient("buyback produced no alpha; completion blocked"), true)
          else if b.destroyTx.Some? && b.alphaDestroyed != b.alphaBought then
            Stop(Store("incomplete burn receipt; completion blocked"), true)
          else if budget.destroy == Keep || b.destroyTx.Some? then Save(r.(buybackDone := true), false)
          else
            Send(r, Destroy(budget.netuid, budget.destroy == Recycle),
                 DestroyCall(budget.destroy, budget.hotkey.account, budget.netuid, b.alphaBought), Ss58Of(cfg.treasury))
        else
          match StrictBuybackAmount(budget.amountRao, Spendable(q.treasuryFree, cfg.feeReserve, q.existentialDeposit))
          case Err(e) => Stop(e, true)
          case Ok(tao) =>
            var limit := BuyLimitPrice(q.buyPrice, cfg.slippageBps);
            Send(r, BuyStake(budget.netuid, limit),
                 AddStakeLimit(budget.hotkey.account, budget.netuid, tao, limit, false), Ss58Of(cfg.treasury))
  }

  /** `validate_completed_buyback`. */
  function ValidateCompleted(r: Record): Result<()> {
    if r.budget.None? then Err(Store("missing job budget"))
    else
      var budget := r.budget.value;
      var _ :- budget.Validate();
      if r.buyback.None? then Err(Store("missing purchase receipt"))
      else
        var b := r.buyback.value;
        if b.taoSpent != budget.amountRao
          || b.netuid != budget.netuid
          || b.alphaBought == 0
          || b.stakeTx.blockHash == ""
          || (budget.destroy != Keep
              && (b.alphaDestroyed != b.alphaBought
                  || b.destroyTx.None?
                  || b.destroyTx.value.blockHash == ""
                  || b.destroyTx.value.action != (if budget.destroy == Burn then BurnAlphaName else RecycleAlphaName)))
        then Err(Store("incomplete job buyback receipt"))
        else Ok(())
  }

  const WRONG_IDENTITY := Stop(Config("job execution identity missing or mismatched"), false)

  /** `Engine::step` up to its first store write, signature or journal lookup. */
  function Decide(cfg: EngineConfig, r: Record, q: Reads): Decision {
    if r.identity != Some(Identity(cfg)) then WRONG_IDENTITY
    else if r.quarantined.Some? then Nothing
    else if r.pending.None? && (r.autoRequired.None? || (r.autoRequired == Some(true) && r.budget.None?)) then
      Stop(Config("job policy migration required before processing"), false)
    else if r.pending.Some? then Resolve(r.pending.value)
    else
      match r.state
      case Pending => DecidePending(r, q)
      case Detected => DecideDetected(cfg, r, q)
      case Funded => DecideFunded(cfg, r, q)
      case Swept => DecideSwept(cfg, r, q)
      case Settled => Save(if q.webhookFails then r.(nextAttemptAt := q.now + 30) else r.(notified := true), false)
      case Failed => Nothing
      case Expired => Nothing
  }

  function Retry(r: Record): Result<Record> {
    if r.quarantined.Some? then Err(Store("finalized receipt mismatch requires explicit repair"))
    else
      Transition(r, match r.failedFrom
                    case None => Detected
                    case Some(s) => if s == Pending then Detected else s)
  }

  function ForceSweep(r: Record): Result<Record> {
    Transition(r, Detected)
  }

  // ---------------------------------------------------------------- applying a finalized result

  /** The accounting effect of one action, before the receipt is filed. */
  function Effect(r: Record, action: Action, tx: TxRef, s: EventSummary): Result<Record> {
    match action
    case Fund => Transition(r.(fundedTao := r.fundedTao + tx.amount), Funded)
    case Sweep(hotkey) =>
      if !s.Has(StakeTransferred) then Err(EventMissing("StakeTransferred"))
      else Ok(r.(sweptAlpha := r.sweptAlpha + tx.amount, positions := r.positions + [(hotkey, tx.amount)]))
    case Consolidate(_) => Ok(r.(consolidated := r.consolidated + 1))
    case ReturnDust => Ok(r.(dustReturned := true))
    case BuyStake(netuid, limitPrice) =>
      if s.stakeAdded.None? then Err(EventMissing("StakeAdded"))
      else
        var (tao, alpha) := s.stakeAdded.value;
        if tao != tx.amount || alpha == 0 then Err(Store("purchase does not match full requested budget"))
        else Ok(r.(buyback := Some(BuybackReceipt(netuid, tao, alpha, limitPrice, tx, None, 0))))
    case Destroy(_, _) =>
      if s.alphaDestroyed.None? then Err(EventMissing("AlphaBurned/AlphaRecycled"))
      else if r.buyback.None? then Err(Store("burn without purchase receipt"))
      else
        var b := r.buyback.value;
        if s.alphaDestroyed.value != b.alphaBought || s.alphaDestroyed.value == 0 then
          Err(Store("burn amount does not match purchased alpha"))
        else
          Ok(r.(buyback := Some(b.(destroyTx := Some(tx), alphaDestroyed := s.alphaDestroyed.value)), buybackDone := true))
  }

  /** `Engine::apply`. */
  function ApplyTx(r: Record, tx: TxRef, s: EventSummary): Result<Record> {
    if r.pending.None? then Err(Store("apply without pending"))
    else
      var done :- Effect(r.(pending := None), r.pending.value.action, tx, s);
      Ok(done.(attempts := 0, nextAttemptAt := 0, lastError := None, txs := done.txs + [tx]))
  }

  function JournalEntry(action: Action, token: Token, prepared: PreparedTx, call: ChainCall): PendingTx {
    PendingTx(action, Some(token), prepared.signer, prepared.nonce, prepared.txHash, prepared.birthBlock, call.Amount())
  }

  /** What `broadcast` returns for an extrinsic found finalized: an error unless it succeeded and
      emitted the expected event. */
  function BroadcastReply(prepared: PreparedTx, blockHash: Hash, events: seq<Event>): Result<FinalizedTx> {
    if Failure in events then Err(Chain("extrinsic failed"))
    else
      var summary :- SummaryOf(events);
      if !summary.Has(prepared.call.ExpectedEvent()) then Err(EventMissing("expected event"))
      else Ok(FinalizedTx(TxRef(prepared.call.Name(), prepared.txHash, blockHash, prepared.call.Amount()), summary))
  }

  const FAILED_ON_CHAIN := "journaled transaction failed on finalized chain"
  const RECEIPT_MISMATCH := "finalized receipt mismatch: "

  function ReceiptOf(p: PendingTx, blockHash: Hash): TxRef {
    TxRef(ActionName(p.action), p.txHash, blockHash, p.amount)
  }

  function Quarantine(r: Record, p: PendingTx, tx: TxRef, why: string, now: nat): Record {
    RecordFailure(r.(pending := None, quarantined := Some(p), txs := r.txs + [tx]), RECEIPT_MISMATCH + why, 1, now)
  }

  /** The record `reconcile_journaled` writes for a settled lookup. */
  function Resolved(r: Record, p: PendingTx, outcome: PendingOutcome, maxAttempts: nat, now: nat): Record {
    match outcome
    case Wait => r
    case Dead => r.(pending := None)
    case Included(blockHash, summary) =>
      if summary.failed then RecordFailure(r.(pending := None), FAILED_ON_CHAIN, maxAttempts, now)
      else
        match ApplyTx(r, ReceiptOf(p, blockHash), summary)
        case Ok(applied) => applied
        case Err(e) => Quarantine(r, p, ReceiptOf(p, blockHash), e.text, now)
  }

  // ---------------------------------------------------------------- whole calls, uninterrupted

  /** Answers of the node during one call. */
  datatype Rpc = Rpc(prepare: Result<PreparedTx>, broadcast: Result<FinalizedTx>, find: Result<PendingOutcome>)

  /** Preparing under a reservation: an error gives the reservation back. */
  function PrepareOwned(db: Db, id: string, signer: Address, token: Token, rpc: Rpc): (done: (Result<PreparedTx>, Db))
    ensures done.0.Ok? ==> done == (rpc.prepare, db) && done.0.value.signer == signer
  {
    if rpc.prepare.Ok? && rpc.prepare.value.signer == signer then (rpc.prepare, db)
    else
      match CancelPreparation(db, signer, id, token)
      case (Err(e), _) => (Err(e), db)
      case (Ok(_), db1) => (Err(if rpc.prepare.Err? then rpc.prepare.error else Store("prepared signer mismatch")), db1)
  }

  /** Broadcasting a stored journal and storing its result. */
  function Deliver(db: Db, journaled: Record, broadcast: Result<FinalizedTx>): (done: (Result<bool>, Record, Db))
    ensures done.1.id == journaled.id
    ensures broadcast.Err? ==> done == (Err(broadcast.error), journaled, db)
  {
    if broadcast.Err? then (Err(broadcast.error), journaled, db)
    else
      match ApplyTx(journaled, broadcast.value.tx, broadcast.value.summary)
      case Err(e) => (Err(e), journaled, db)
      case Ok(applied) =>
        match Update(db, applied)
        case (Err(e), _) => (Err(e), journaled, db)
        case (Ok(stored), db1) => (Ok(true), stored, db1)
  }

  /** Storing the journal of a prepared transaction, then delivering it. */
  function JournalPrepared(db: Db, r: Record, action: Action, call: ChainCall, token: Token, prepared: PreparedTx, rpc: Rpc):
    (done: (Result<bool>, Record, Db))
    ensures done.1.id == r.id
  {
    match Update(db, r.(pending := Some(JournalEntry(action, token, prepared, call))))
    case (Err(e), _) => (Err(e), r, db)
    case (Ok(journaled), db1) => Deliver(db1, journaled, rpc.broadcast)
  }

  /** `send_journaled` run without interference: result, the caller's record, the tables. */
  function SendJournaled(db: Db, r: Record, action: Action, call: ChainCall, signer: Address, token: Token, rpc: Rpc):
    (done: (Result<bool>, Record, Db))
    ensures done.1.id == r.id
  {
    if r.pending.Some? then (Err(Store("reconcile pending transaction before preparing another")), r, db)
    else
      match Reserve(db, signer, r.id, Some(r.version), token)
      case (Err(e), _) => (Err(e), r, db)
      case (Ok(_), db1) =>
        match PrepareOwned(db1, r.id, signer, token, rpc)
        case (Err(e), db2) => (Err(e), r, db2)
        case (Ok(prepared), _) => JournalPrepared(db1, r, action, call, token, prepared, rpc)
  }

  /** `reconcile_journaled` run without interference. */
  function ReconcileJournaled(db: Db, r: Record, p: PendingTx, maxAttempts: nat, now: nat, rpc: Rpc): (Result<bool>, Record, Db) {
    if r.pending != Some(p) then (Err(Store("pending journal mismatch")), r, db)
    else if rpc.find.Err? then (Err(rpc.find.error), r, db)
    else if rpc.find.value.Wait? then (Ok(false), r, db)
    else
      match Update(db, Resolved(r, p, rpc.find.value, maxAttempts, now))
      case (Err(e), _) => (Err(e), r, db)
      case (Ok(stored), db1) => (Ok(true), stored, db1)
  }

  // ---------------------------------------------------------------- what every send satisfies

  predicate ConsolidationDone(r: Record) {
    r.identity.Some? && (r.identity.value.consolidate ==> r.consolidated >= |r.positions|)
  }

  predicate DustDone(r: Record) {
    r.identity.Some? && (r.identity.value.returnDust || r.detectedTao > 0 ==> r.dustReturned)
  }

  /** The call, signer and record a step may hand to `send_journaled`, starting from `base`. */
  predicate SendOk(base: Record, r: Record, action: Action, call: ChainCall, signer: Address) {
    && base.pending.None? && base.quarantined.None?
    && base.identity.Some? && base.identity.value.treasury.Ss58?
    && r == base.(detectedAlpha := r.detectedAlpha, dustReturned := r.dustReturned)
    && (base.dustReturned ==> r.dustReturned)
    && (r.dustReturned != base.dustReturned ==> action.BuyStake? || action.Destroy?)
    && var me := base.identity.value;
       match action
       case Fund =>
         && base.state == Detected && base.address.Ss58?
         && call == TransferTao(base.address.account, call.Amount()) && call.Amount() > 0
         && signer == me.treasury
       case Sweep(hotkey) =>
         && base.state == Funded && !AlreadySwept(base, hotkey)
         && call.TransferStake? && call.alpha > 0
         && call == TransferStake(me.treasury.account, call.hotkey, base.netuid, call.alpha)
         && hotkey == Ss58Of(call.hotkey)
         && signer == base.address
       case Consolidate(hotkey) =>
         && base.state == Swept && me.consolidate && base.consolidated < |base.positions|
         && call.MoveStake? && call.alpha > 0
         && ParseSs58(base.positions[base.consolidated].0) == Ok(call.fromHotkey)
         && hotkey == Ss58Of(call.fromHotkey)
         && me.treasuryHotkey == Ss58Of(call.toHotkey) && call.fromHotkey != call.toHotkey
         && call.netuid == base.netuid
         && signer == me.treasury
       case ReturnDust =>
         && base.state == Swept && ConsolidationDone(base) && !base.dustReturned
         && (me.returnDust || base.detectedTao > 0)
         && call == TransferAll(me.treasury.account)
         && signer == base.address
       case BuyStake(netuid, limitPrice) =>
         && base.state == Swept && ConsolidationDone(base) && DustDone(r)
         && base.autoRequired == Some(true) && base.budget.Some? && base.buyback.None? && !base.buybackDone
         && base.budget.value.hotkey.Ss58?
         && netuid == base.budget.value.netuid
         && call == AddStakeLimit(base.budget.value.hotkey.account, netuid, base.budget.value.amountRao, limitPrice, false)
         && signer == me.treasury
       case Destroy(netuid, recycle) =>
         && base.state == Swept && ConsolidationDone(base) && DustDone(r)
         && base.autoRequired == Some(true) && base.budget.Some? && base.buyback.Some? && !base.buybackDone
         && base.budget.value.hotkey.Ss58? && base.budget.value.destroy != Keep
         && netuid == base.budget.value.netuid && recycle == (base.budget.value.destroy == Recycle)
         && base.buyback.value.destroyTx.None? && base.buyback.value.alphaBought > 0
         && base.buyback.value.taoSpent == base.budget.value.amountRao
         && call == DestroyCall(base.budget.value.destroy, base.budget.value.hotkey.account, netuid, base.buyback.value.alphaBought)
         && signer == me.treasury
  }

  lemma {:induction false} HoldingsNonzero(stakes: seq<StakePosition>, netuid: nat, k: nat)
    requires k < |Holdings(stakes, netuid)|
    ensures Holdings(stakes, netuid)[k].alpha > 0 && Holdings(stakes, netuid)[k].netuid == netuid
  {
    var rest := Holdings(stakes[..|stakes| - 1], netuid);
    if k < |rest| {
      HoldingsNonzero(stakes[..|stakes| - 1], netuid, k);
    }
  }

  /** A record a step may send from: its identity is the engine's and nothing is outstanding. */
  predicate MayStep(cfg: EngineConfig, r: Record) {
    r.identity == Some(Identity(cfg)) && r.pending.None? && r.quarantined.None?
  }

  lemma FundSendIsOk(cfg: EngineConfig, r: Record, q: Reads)
    requires MayStep(cfg, r) && r.state == Detected && DecideDetected(cfg, r, q).Send?
    ensures var d := DecideDetected(cfg, r, q); SendOk(r, d.rec, d.action, d.call, d.signer)
  {
  }

  lemma SweepSendIsOk(cfg: EngineConfig, r: Record, q: Reads)
    requires MayStep(cfg, r) && r.state == Funded && DecideFunded(cfg, r, q).Send?
    ensures var d := DecideFunded(cfg, r, q); SendOk(r, d.rec, d.action, d.call, d.signer)
  {
    var pos := Holdings(q.stakes, r.netuid);
    var k := NextSweep(r, pos, SweepFloor(q.price, cfg.sweepDust), 0);
    HoldingsNonzero(q.stakes, r.netuid, k);
  }

  lemma BuybackSendIsOk(cfg: EngineConfig, base: Record, r: Record, q: Reads)
    requires MayStep(cfg, base) && base.state == Swept && ConsolidationDone(base) && DustDone(r)
    requires r == base || (!base.dustReturned && r == base.(dustReturned := true))
    requires DecideBuyback(cfg, r, q).Send?
    ensures var d := DecideBuyback(cfg, r, q); SendOk(base, d.rec, d.action, d.call, d.signer)
  {
  }

  lemma SweptSendIsOk(cfg: EngineConfig, r: Record, q: Reads)
    requires MayStep(cfg, r) && r.state == Swept && DecideSwept(cfg, r, q).Send?
    ensures var d := DecideSwept(cfg, r, q); SendOk(r, d.rec, d.action, d.call, d.signer)
  {
    if !(cfg.consolidate && r.consolidated < |r.positions|) {
      assert ConsolidationDone(r);
      if r.dustReturned || !(cfg.returnDust || r.detectedTao > 0) {
        BuybackSendIsOk(cfg, r, r, q);
      } else if q.free == 0 {
        BuybackSendIsOk(cfg, r, r.(dustReturned := true), q);
      }
    }
  }

  /** Whatever the chain answers, the engine only ever signs a call that fits the record's state,
      its frozen identity and its frozen budget. */
  lemma DecidedSendIsOk(cfg: EngineConfig, r: Record, q: Reads)
    requires Decide(cfg, r, q).Send?
    ensures var d := Decide(cfg, r, q); SendOk(r, d.rec, d.action, d.call, d.signer)
  {
    match r.state
    case Detected => FundSendIsOk(cfg, r, q);
    case Funded => SweepSendIsOk(cfg, r, q);
    case Swept => SweptSendIsOk(cfg, r, q);
    case _ =>
  }

  /** The journaled action describes the signed call, hotkey and subnet included, so the name on an
      inline receipt is the name reconciliation rebuilds from the journal. */
  lemma ActionNamesItsCall(base: Record, r: Record, action: Action, call: ChainCall, signer: Address)
    requires SendOk(base, r, action, call, signer)
    ensures ActionName(action) == call.Name() && ActionOf(call) == Some(action)
  {
  }

  // ---------------------------------------------------------------- lost replies

  /** Losing the reply of a finalized, successful broadcast and reconciling later leaves the same
      record (version included) and the same tables as receiving it inline. */
  lemma LostReplyEquivalence(
    db: Db, base: Record, r: Record, action: Action, call: ChainCall, signer: Address, token: Token,
    prepared: PreparedTx, blockHash: Hash, events: seq<Event>, lost: Error, maxAttempts: nat, now: nat)
    requires SendOk(base, r, action, call, signer) && prepared.call == call
    requires BroadcastReply(prepared, blockHash, events).Ok?
    requires SendJournaled(db, r, action, call, signer, token,
                           Rpc(Ok(prepared), BroadcastReply(prepared, blockHash, events), Err(lost))).0 == Ok(true)
    ensures
      var inline := SendJournaled(db, r, action, call, signer, token,
                                  Rpc(Ok(prepared), BroadcastReply(prepared, blockHash, events), Err(lost)));
      var crashed := SendJournaled(db, r, action, call, signer, token, Rpc(Ok(prepared), Err(lost), Err(lost)));
      var found := Rpc(Err(lost), Err(lost), Ok(Included(blockHash, SummaryOf(events).value)));
      && crashed.0 == Err(lost) && crashed.1.pending == Some(JournalEntry(action, token, prepared, call))
      && ReconcileJournaled(crashed.2, crashed.1, crashed.1.pending.value, maxAttempts, now, found)
         == (Ok(true), inline.1, inline.2)
  {
    hide Reserve, SendOk, Summarises;
    ActionNamesItsCall(base, r, action, call, signer);
    SummaryIsFaithful(events);
    var crashed := SendJournaled(db, r, action, call, signer, token, Rpc(Ok(prepared), Err(lost), Err(lost)));
    var p := JournalEntry(action, token, prepared, call);
    assert crashed.1.pending == Some(p);
    assert ReceiptOf(p, blockHash) == TxRef(call.Name(), prepared.txHash, blockHash, call.Amount());
  }
}
