/** When a step takes each of its decisions, in terms of what the chain showed it. */
module Decisions {
  import opened Basics
  import opened Keys
  import opened Calls
  import opened State
  import opened Units
  import opened Engine

  /** Holdings are exactly the nonzero positions on the subnet. */
  lemma {:induction false} HoldingsAreAll(stakes: seq<StakePosition>, netuid: nat, p: StakePosition)
    ensures p in Holdings(stakes, netuid) <==> p in stakes && p.alpha > 0 && p.netuid == netuid
  {
    if stakes != [] {
      var front, last := stakes[..|stakes| - 1], stakes[|stakes| - 1];
      HoldingsAreAll(front, netuid, p);
      assert stakes == front + [last];
    }
  }

  /** A position on the job's subnet worth sweeping whose hotkey has no receipt yet. */
  predicate StillToSweep(cfg: EngineConfig, r: Record, q: Reads, p: StakePosition) {
    && p in q.stakes && p.netuid == r.netuid && p.alpha > 0
    && p.alpha >= SweepFloor(q.price, cfg.sweepDust)
    && !AlreadySwept(r, Ss58Of(p.hotkey))
  }

  lemma {:induction false} NextSweepSkipsNone(r: Record, ps: seq<StakePosition>, floor: nat, i: nat, m: nat)
    requires i <= |ps| && i <= m < NextSweep(r, ps, floor, i)
    ensures ps[m].alpha < floor || AlreadySwept(r, Ss58Of(ps[m].hotkey))
    decreases |ps| - i
  {
    if m > i { NextSweepSkipsNone(r, ps, floor, i + 1, m); }
  }

  /** The first holding worth sweeping is the first such position the chain lists. */
  lemma {:induction false} FirstHolding(r: Record, stakes: seq<StakePosition>, netuid: nat, floor: nat, k: nat) returns (m: nat)
    requires k < |Holdings(stakes, netuid)|
    requires var h := Holdings(stakes, netuid);
      h[k].alpha >= floor && !AlreadySwept(r, Ss58Of(h[k].hotkey))
      && forall l :: 0 <= l < k ==> h[l].alpha < floor || AlreadySwept(r, Ss58Of(h[l].hotkey))
    ensures m < |stakes| && stakes[m] == Holdings(stakes, netuid)[k]
    ensures forall l :: 0 <= l < m && stakes[l].netuid == netuid && stakes[l].alpha > 0 ==>
      stakes[l].alpha < floor || AlreadySwept(r, Ss58Of(stakes[l].hotkey))
  {
    var front := stakes[..|stakes| - 1];
    var rest := Holdings(front, netuid);
    if k < |rest| {
      forall l | 0 <= l <= k ensures Holdings(stakes, netuid)[l] == rest[l] {}
      m := FirstHolding(r, front, netuid, floor, k);
    } else {
      m := |front|;
      forall l | 0 <= l < m && stakes[l].netuid == netuid && stakes[l].alpha > 0
        ensures stakes[l].alpha < floor || AlreadySwept(r, Ss58Of(stakes[l].hotkey))
      {
        assert front[l] == stakes[l];
        HoldingsAreAll(front, netuid, stakes[l]);
        var n :| 0 <= n < |rest| && rest[n] == stakes[l];
        assert Holdings(stakes, netuid)[n] == rest[n];
      }
    }
  }

  /** A funded job leaves its stage if and only if nothing is left to sweep; otherwise it sweeps the
      first position that is, all of it, from its own wallet to the treasury, and keeps the record. */
  lemma SweptExactly(cfg: EngineConfig, r: Record, q: Reads)
    requires r.state == Funded && Canonical(r.address)
    ensures var d := DecideFunded(cfg, r, q);
      && (d.Save? <==> forall p :: !StillToSweep(cfg, r, q, p))
      && (d.Save? ==> d == Save(Advanced(r, Swept), false))
      && (!d.Save? ==>
            exists m :: 0 <= m < |q.stakes| && FirstToSweep(cfg, r, q, m)
              && var p := q.stakes[m];
                 d == Send(r, Sweep(Ss58Of(p.hotkey)), TransferStake(cfg.treasury, p.hotkey, r.netuid, p.alpha), r.address))
  {
    var pos, floor := Holdings(q.stakes, r.netuid), SweepFloor(q.price, cfg.sweepDust);
    var k := NextSweep(r, pos, floor, 0);
    if k < |pos| {
      HoldingsAreAll(q.stakes, r.netuid, pos[k]);
      assert StillToSweep(cfg, r, q, pos[k]);
      forall l | 0 <= l < k ensures pos[l].alpha < floor || AlreadySwept(r, Ss58Of(pos[l].hotkey)) {
        NextSweepSkipsNone(r, pos, floor, 0, l);
      }
      var m := FirstHolding(r, q.stakes, r.netuid, floor, k);
      assert FirstToSweep(cfg, r, q, m);
    } else {
      forall p ensures !StillToSweep(cfg, r, q, p) {
        HoldingsAreAll(q.stakes, r.netuid, p);
        if p in pos {
          var m :| 0 <= m < |pos| && pos[m] == p;
          NextSweepSkipsNone(r, pos, floor, 0, m);
        }
      }
    }
  }

  predicate FirstToSweep(cfg: EngineConfig, r: Record, q: Reads, m: int)
    requires 0 <= m < |q.stakes|
  {
    StillToSweep(cfg, r, q, q.stakes[m]) && forall l :: 0 <= l < m ==> !StillToSweep(cfg, r, q, q.stakes[l])
  }

  /** The record after a plain move to another stage. */
  function Advanced(r: Record, to: PaymentState): Record {
    r.(state := to, attempts := 0, nextAttemptAt := 0, lastError := None)
  }

  /** Fees of the positions worth sweeping, unsaturated. */
  function FeesDue(ps: seq<StakePosition>, floor: nat, fee: StakePosition -> u64): nat {
    if ps == [] then 0
    else FeesDue(ps[..|ps| - 1], floor, fee) + (if ps[|ps| - 1].alpha >= floor then fee(ps[|ps| - 1]) else 0)
  }

  lemma {:induction false} FeeTotalIsCapped(ps: seq<StakePosition>, floor: nat, fee: StakePosition -> u64)
    ensures FeeTotal(ps, floor, fee) == Min(FeesDue(ps, floor, fee), U64_MAX)
  {
    if ps != [] { FeeTotalIsCapped(ps[..|ps| - 1], floor, fee); }
  }

  /** A detected job goes on unfunded if and only if it holds nothing to sweep, can already pay for
      every sweep, or holds the largest u64 balance. Otherwise the treasury sends it the least amount
      that lets it pay, which exists if and only if some u64 balance pays. Either way the most alpha
      ever seen in the wallet is noted. */
  lemma FundedExactly(cfg: EngineConfig, r: Record, q: Reads)
    requires r.state == Detected && Canonical(r.address)
    ensures var pos := Holdings(q.stakes, r.netuid); var d := DecideDetected(cfg, r, q);
      var due := FeesDue(pos, SweepFloor(q.price, cfg.sweepDust), q.fee); var ed := q.existentialDeposit;
      var seen := r.(detectedAlpha := Max(r.detectedAlpha, AlphaOn(q.stakes, r.netuid)));
      && (d.Save? <==> pos == [] || q.free == U64_MAX || Covers(q.free, due, cfg.feeMarginBps, ed))
      && (d.Save? ==> d == Save(Advanced(seen, Funded), false))
      && (!d.Save? ==>
            && d.Send? && d == Send(seen, Fund, TransferTao(r.address.account, d.call.Amount()), Ss58Of(cfg.treasury))
            && (Covers(q.free + d.call.Amount(), due, cfg.feeMarginBps, ed) <==> Covers(U64_MAX, due, cfg.feeMarginBps, ed))
            && !Covers(q.free + d.call.Amount() - 1, due, cfg.feeMarginBps, ed))
  {
    var pos, floor := Holdings(q.stakes, r.netuid), SweepFloor(q.price, cfg.sweepDust);
    var due, fees := FeesDue(pos, floor, q.fee), FeeTotal(pos, floor, q.fee);
    AlphaTotalIsAlphaOn(q.stakes, r.netuid);
    FeeTotalIsCapped(pos, floor, q.fee);
    FundingIsEnoughAndLeast(fees, cfg.feeMarginBps, q.existentialDeposit, q.free);
    if due > U64_MAX {
      TooMuchDue(U64_MAX, due, cfg.feeMarginBps, q.existentialDeposit);
      if Covers(q.free, fees, cfg.feeMarginBps, q.existentialDeposit) { CapNeedsAll(q.free, cfg.feeMarginBps, q.existentialDeposit); }
    }
  }

  /** Fees at the u64 cap take the largest balance; fees above it are never covered. */
  lemma CapNeedsAll(free: nat, marginBps: nat, ed: nat)
    requires free <= U64_MAX && Covers(free, U64_MAX, marginBps, ed)
    ensures free == U64_MAX
  {
    MarginGrows(U64_MAX, marginBps);
  }

  lemma MarginGrows(due: nat, marginBps: nat)
    ensures due * (BPS + marginBps) >= due * BPS
  {
  }

  lemma TooMuchDue(free: nat, due: nat, marginBps: nat, ed: nat)
    requires free <= U64_MAX < due
    ensures forall less: int :: less <= free ==> !Covers(less, due, marginBps, ed)
  {
    MarginGrows(due, marginBps);
  }

  /** Alpha the wallet holds on the subnet. */
  function AlphaOn(stakes: seq<StakePosition>, netuid: nat): nat {
    if stakes == [] then 0
    else
      var p := stakes[|stakes| - 1];
      AlphaOn(stakes[..|stakes| - 1], netuid) + (if p.netuid == netuid then p.alpha else 0)
  }

  lemma AlphaTotalAppend(ps: seq<StakePosition>, p: StakePosition)
    ensures AlphaTotal(ps + [p]) == AlphaTotal(ps) + p.alpha
  {
    assert (ps + [p])[..|ps|] == ps;
  }

  lemma {:induction false} AlphaTotalIsAlphaOn(stakes: seq<StakePosition>, netuid: nat)
    ensures AlphaTotal(Holdings(stakes, netuid)) == AlphaOn(stakes, netuid)
  {
    if stakes != [] {
      var front, p := stakes[..|stakes| - 1], stakes[|stakes| - 1];
      AlphaTotalIsAlphaOn(front, netuid);
      AlphaTotalAppend(Holdings(front, netuid), p);
    }
  }

  /** The wallet holds enough TAO, on a job that may be paid in TAO. */
  predicate PaidInTao(r: Record, q: Reads) {
    r.minTao.Some? && q.free >= r.minTao.value
  }

  predicate Paid(r: Record, q: Reads) {
    AlphaOn(q.stakes, r.netuid) >= r.minAlpha || PaidInTao(r, q)
  }

  /** A waiting job is detected if and only if its wallet holds enough alpha or enough TAO, and
      expires if and only if it was not paid by the deadline. Detection notes the alpha held and, if
      the TAO suffices, all TAO held; expiry notes the alpha only. */
  lemma DetectedExactly(r: Record, q: Reads)
    requires r.state == Pending && r.address.Ss58?
    ensures var alpha := AlphaOn(q.stakes, r.netuid);
      DecidePending(r, q) ==
        if Paid(r, q) then
          Save(Advanced(r.(detectedAlpha := alpha, detectedTao := if PaidInTao(r, q) then q.free else 0), Detected), false)
        else if q.now > r.expiresAt then Save(Advanced(r.(detectedAlpha := alpha), Expired), false)
        else Nothing
  {
    AlphaTotalIsAlphaOn(q.stakes, r.netuid);
  }

  // ---------------------------------------------------------------- consolidation and dust

  /** The next position is consolidated if and only if the treasury holds stake under its hotkey and it
      is not the treasury hotkey: all that stake moves there. Otherwise the position is skipped and
      nothing else changes. */
  lemma ConsolidatedExactly(cfg: EngineConfig, r: Record, q: Reads, hk: AccountId)
    requires r.state == Swept && cfg.consolidate && r.consolidated < |r.positions|
    requires ParseSs58(r.positions[r.consolidated].0) == Ok(hk)
    ensures DecideSwept(cfg, r, q).Send? <==> hk != cfg.treasuryHotkey && q.treasuryAlpha(hk) > 0
    ensures DecideSwept(cfg, r, q).Send? ==>
      && DecideSwept(cfg, r, q)
         == Send(r, Consolidate(Ss58Of(hk)), MoveStake(hk, cfg.treasuryHotkey, r.netuid, q.treasuryAlpha(hk)), Ss58Of(cfg.treasury))
      && DecideSwept(cfg, r, q).call.Amount() == q.treasuryAlpha(hk)
    ensures !DecideSwept(cfg, r, q).Send? ==> DecideSwept(cfg, r, q) == Save(r.(consolidated := r.consolidated + 1), true)
  {
  }

  /** A position that does not parse stops the step, counted against the job. */
  lemma BadPositionStops(cfg: EngineConfig, r: Record, q: Reads)
    requires r.state == Swept && cfg.consolidate && r.consolidated < |r.positions|
    requires ParseSs58(r.positions[r.consolidated].0).Err?
    ensures DecideSwept(cfg, r, q).Stop? && DecideSwept(cfg, r, q).counted
  {
  }

  /** After consolidation the wallet is emptied into the treasury if and only if the engine returns dust
      or the job was paid in TAO, it has not been emptied before, and it holds anything. */
  lemma DustReturnedExactly(cfg: EngineConfig, r: Record, q: Reads)
    requires r.state == Swept && Canonical(r.address) && !(cfg.consolidate && r.consolidated < |r.positions|)
    ensures var d := DecideSwept(cfg, r, q); var due := !r.dustReturned && (cfg.returnDust || r.detectedTao > 0);
      if due && q.free > 0 then d == Send(r, ReturnDust, TransferAll(cfg.treasury), r.address)
      else d == DecideBuyback(cfg, if due then r.(dustReturned := true) else r, q)
  {
  }

  // ---------------------------------------------------------------- buyback

  /** A purchase is signed if and only if the whole budget can be spent with both reserves left, and
      then for the whole budget; nothing smaller is ever signed. Its limit price is the least that allows
      the slippage on the price shown. Otherwise the step stops, counted against the job. */
  lemma BoughtExactly(cfg: EngineConfig, r: Record, q: Reads)
    requires r.budget.Some? && r.budget.value.Validate().Ok? && r.buyback.None?
    ensures var d := DecideAutoBuyback(cfg, r, q); var b := r.budget.value;
      && (d.Send? <==> b.amountRao + cfg.feeReserve + q.existentialDeposit <= q.treasuryFree)
      && (!d.Send? ==> d.Stop? && d.counted && d.error.Insufficient?)
      && (d.Send? ==>
            && d.call.AddStakeLimit?
            && var limit := d.call.limitPrice;
               && d == Send(r, BuyStake(b.netuid, limit), AddStakeLimit(b.hotkey.account, b.netuid, b.amountRao, limit, false),
                            Ss58Of(cfg.treasury))
               && IsLimit(limit, q.buyPrice, cfg.slippageBps))
  {
    SpendableLeavesReserves(q.treasuryFree, cfg.feeReserve, q.existentialDeposit, r.budget.value.amountRao);
    BuyLimitIsLeast(q.buyPrice, cfg.slippageBps);
  }

  /** The least limit price of at least one rao that allows the slippage, or the largest u64. */
  predicate IsLimit(limit: nat, price: nat, slippageBps: nat) {
    && 1 <= limit <= U64_MAX
    && (if Allows(U64_MAX, price, slippageBps) then Allows(limit, price, slippageBps) else limit == U64_MAX)
    && forall w: nat :: 1 <= w < limit ==> !Allows(w, price, slippageBps)
  }

  /** The purchase on file is the budgeted one and bought something. */
  predicate SoundPurchase(b: BuybackBudget, p: BuybackReceipt) {
    p.taoSpent == b.amountRao && p.netuid == b.netuid && p.alphaBought > 0
  }

  /** With a purchase on file the buyback completes if and only if the purchase is sound and what must
      be destroyed was, and destroys exactly what was bought, by the budgeted call, if and only if the
      purchase is sound and nothing was destroyed yet. Otherwise the step stops, counted. */
  lemma DestroyedExactly(cfg: EngineConfig, r: Record, q: Reads)
    requires r.budget.Some? && r.budget.value.Validate().Ok? && r.buyback.Some?
    ensures var d := DecideAutoBuyback(cfg, r, q); var b, p := r.budget.value, r.buyback.value;
      var destroyed := p.destroyTx.Some? && p.alphaDestroyed == p.alphaBought;
      && (d.Save? <==> SoundPurchase(b, p) && (destroyed || (p.destroyTx.None? && b.destroy == Keep)))
      && (d.Save? ==> d == Save(r.(buybackDone := true), false))
      && (d.Send? <==> SoundPurchase(b, p) && p.destroyTx.None? && b.destroy != Keep)
      && (d.Send? ==> d.signer == Ss58Of(cfg.treasury) && d.rec == r)
      && (d.Send? && b.destroy == Burn ==>
            d.action == Destroy(b.netuid, false) && d.call == BurnAlpha(b.hotkey.account, b.netuid, p.alphaBought))
      && (d.Send? && b.destroy == Recycle ==>
            d.action == Destroy(b.netuid, true) && d.call == RecycleAlpha(b.hotkey.account, b.netuid, p.alphaBought))
      && (!d.Save? && !d.Send? ==> d.Stop? && d.counted)
  {
  }

  /** A budget that is missing or invalid stops the buyback, counted. */
  lemma BadBudgetStops(cfg: EngineConfig, r: Record, q: Reads)
    requires r.budget.None? || r.budget.value.Validate().Err?
    ensures DecideAutoBuyback(cfg, r, q).Stop? && DecideAutoBuyback(cfg, r, q).counted
  {
  }

  /** A completed buyback passes validation if and only if its purchase is sound and in a block, and, unless
      kept, all of it was destroyed in a block by the budgeted call. */
  lemma CompletedExactly(r: Record)
    ensures ValidateCompleted(r).Ok? <==>
      && r.budget.Some? && r.budget.value.Validate().Ok? && r.buyback.Some?
      && var b, p := r.budget.value, r.buyback.value;
         && SoundPurchase(b, p) && p.stakeTx.blockHash != ""
         && (b.destroy == Burn || b.destroy == Recycle ==>
               && p.alphaDestroyed == p.alphaBought && p.destroyTx.Some? && p.destroyTx.value.blockHash != ""
               && p.destroyTx.value.action == (if b.destroy == Burn then BurnAlphaName else RecycleAlphaName))
  {
  }

  lemma BuybackSettles(cfg: EngineConfig, r: Record, q: Reads)
    requires r.state == Swept
    ensures DecideBuyback(cfg, r, q).Save? && DecideBuyback(cfg, r, q).rec.state == Settled <==>
      r.autoRequired == Some(false) || (r.autoRequired == Some(true) && r.buybackDone && ValidateCompleted(r).Ok?)
  {
    hide DecideAutoBuyback;
    if r.autoRequired == Some(true) && !r.buybackDone {
      AutoBuybackStays(cfg, r, q);
    } else if r.autoRequired.Some? {
      assert r.autoRequired == if r.autoRequired.value then Some(true) else Some(false);
    }
  }

  lemma AutoBuybackStays(cfg: EngineConfig, r: Record, q: Reads)
    ensures DecideAutoBuyback(cfg, r, q).Save? ==> DecideAutoBuyback(cfg, r, q).rec.state == r.state
  {
  }

  /** A swept job settles if and only if nothing is left to consolidate or return and its buyback, when
      required, is done and its receipts prove it. */
  lemma SettledExactly(cfg: EngineConfig, r: Record, q: Reads)
    requires r.state == Swept && Canonical(r.address)
    ensures DecideSwept(cfg, r, q).Save? && DecideSwept(cfg, r, q).rec.state == Settled <==>
      && !(cfg.consolidate && r.consolidated < |r.positions|)
      && (r.dustReturned || !(cfg.returnDust || r.detectedTao > 0) || q.free == 0)
      && (r.autoRequired == Some(false)
          || (r.autoRequired == Some(true) && r.buybackDone && ValidateCompleted(r).Ok?))
  {
    var skipped := r.(dustReturned := true);
    assert ValidateCompleted(skipped) == ValidateCompleted(r);
    BuybackSettles(cfg, r, q);
    BuybackSettles(cfg, skipped, q);
  }

  /** A settling step stores the plain move and announces the job. */
  lemma SettledRecord(cfg: EngineConfig, r: Record, q: Reads)
    requires r.state == Swept && DecideBuyback(cfg, r, q).Save? && DecideBuyback(cfg, r, q).rec.state == Settled
    ensures DecideBuyback(cfg, r, q) == Save(Advanced(r, Settled), true)
  {
  }

  /** Without a complete policy the last part of a step stops; with a purchase outstanding it is the
      buyback's; and a completed buyback that does not validate stops it. */
  lemma BuybackExactly(cfg: EngineConfig, r: Record, q: Reads)
    requires r.state == Swept
    ensures var d := DecideBuyback(cfg, r, q);
      && (r.autoRequired.None? || (r.autoRequired == Some(true) && r.budget.None?) ==> d.Stop? && d.counted)
      && (r.autoRequired == Some(true) && r.budget.Some? && !r.buybackDone ==> d == DecideAutoBuyback(cfg, r, q))
      && (r.autoRequired == Some(true) && r.budget.Some? && r.buybackDone && ValidateCompleted(r).Err? ==> d.Stop? && d.counted)
  {
  }

  // ---------------------------------------------------------------- which step runs

  /** A step touches a record of its own identity only. It resolves a journal before anything else, never
      works on a quarantined job, and refuses a job without a complete policy. Each other stage has its
      step; a job that failed or expired waits for an operator, and a settled one is announced: the
      delivery flag is set, or after a failed delivery the next attempt is 30 seconds later. */
  lemma DispatchedExactly(cfg: EngineConfig, r: Record, q: Reads)
    ensures var d := Decide(cfg, r, q);
      if r.identity != Some(Identity(cfg)) then d.Stop? && !d.counted && d.error.Config?
      else if r.quarantined.Some? then d.Nothing?
      else if r.pending.Some? then d == Resolve(r.pending.value)
      else if r.autoRequired.None? || (r.autoRequired == Some(true) && r.budget.None?) then d.Stop? && !d.counted && d.error.Config?
      else match r.state
        case Pending => d == DecidePending(r, q)
        case Detected => d == DecideDetected(cfg, r, q)
        case Funded => d == DecideFunded(cfg, r, q)
        case Swept => d == DecideSwept(cfg, r, q)
        case Settled => d == Save(if q.webhookFails then r.(nextAttemptAt := q.now + 30) else r.(notified := true), false)
        case _ => d.Nothing?
  {
  }

  /** A wallet that does not open stops every step that needs it, counted against the job. */
  lemma WrongWalletStops(cfg: EngineConfig, r: Record, q: Reads)
    requires !Canonical(r.address)
    ensures DecideDetected(cfg, r, q) == DecideFunded(cfg, r, q) == Stop(WRONG_WALLET, true)
    ensures (r.state == Swept && !(cfg.consolidate && r.consolidated < |r.positions|)
             && !r.dustReturned && (cfg.returnDust || r.detectedTao > 0)) ==> DecideSwept(cfg, r, q) == Stop(WRONG_WALLET, true)
    ensures r.address.Malformed? ==> DecidePending(r, q).Stop? && !DecidePending(r, q).counted
  {
  }
}
