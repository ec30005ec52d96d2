/** Exactly which engine histories replay accepts. */
module ReplayCompleteness {
  import opened Basics
  import opened Keys
  import opened Calls
  import opened State
  import opened Engine
  import opened Accounting
  import opened Recovery
  import opened ReplaySoundness

  // ---------------------------------------------------------------- engine histories

  /** One change of a job: bookkeeping without a receipt, a consolidation or dust return skipped because
      there was nothing to move, or a send whose result was applied. */
  datatype Move =
    | Quiet(next: Record)
    | SkippedMove
    | SkippedDust
    | Applied(t: LegacyTransaction, s: EventSummary, token: Token)

  /** A write that touches no account. */
  predicate QuietWrite(e: Record, next: Record) {
    && next == e.(state := next.state, version := next.version, detectedAlpha := next.detectedAlpha,
                  attempts := next.attempts, nextAttemptAt := next.nextAttemptAt, lastError := next.lastError,
                  failedFrom := next.failedFrom, buybackDone := next.buybackDone, notified := next.notified)
    && RecordOk(next)
  }

  predicate MoveOk(e: Record, mv: Move) {
    match mv
    case Quiet(next) => QuietWrite(e, next)
    case SkippedMove => e.state == Swept && e.identity.Some? && e.identity.value.consolidate && e.consolidated < |e.positions|
    case SkippedDust => e.state == Swept && ConsolidationDone(e) && !DustDone(e)
    case Applied(t, s, token) =>
      && ActionOf(t.call).Some?
      && SendOk(e, e, ActionOf(t.call).value, t.call, t.signer)
      && t.receipt.action == t.call.Name() && t.receipt.amount == t.call.Amount()
      && ApplyTx(e.(pending := Some(LegacyJournal(t, token))), t.receipt, s).Ok?
  }

  function After(e: Record, mv: Move): Record
    requires MoveOk(e, mv)
  {
    match mv
    case Quiet(next) => next
    case SkippedMove => e.(consolidated := e.consolidated + 1)
    case SkippedDust => e.(dustReturned := true)
    case Applied(t, s, token) => ApplyTx(e.(pending := Some(LegacyJournal(t, token))), t.receipt, s).value
  }

  /** The extrinsic succeeded with its event, a funding transfer arrived in full, and a `move_stake`
      moved exactly what was swept. */
  predicate Faithful(e: Record, t: LegacyTransaction, s: EventSummary) {
    && Honest(t.call, s)
    && (t.call.TransferTao? ==> s.transferred == Some(t.call.amount))
    && (t.call.MoveStake? ==> e.consolidated < |e.positions| && t.call.alpha == e.positions[e.consolidated].1)
  }

  /** Nothing skipped, nothing partial. */
  predicate PlainMove(e: Record, mv: Move) {
    match mv
    case Quiet(_) => true
    case SkippedMove => false
    case SkippedDust => false
    case Applied(t, s, _) => Faithful(e, t, s)
  }

  /** The record after the moves, if each was possible when its turn came. */
  function Final(e: Record, moves: seq<Move>): Option<Record> {
    if moves == [] then Some(e)
    else
      match Final(e, moves[..|moves| - 1])
      case None => None
      case Some(mid) =>
        if MoveOk(mid, moves[|moves| - 1]) then Some(After(mid, moves[|moves| - 1])) else None
  }

  predicate Plain(e: Record, moves: seq<Move>) {
    moves == []
    || (var n := |moves| - 1;
        Plain(e, moves[..n]) && Final(e, moves[..n]).Some? && PlainMove(Final(e, moves[..n]).value, moves[n]))
  }

  function Sent(moves: seq<Move>): seq<LegacyTransaction> {
    if moves == [] then []
    else
      var last := moves[|moves| - 1];
      Sent(moves[..|moves| - 1]) + (if last.Applied? then [last.t] else [])
  }

  function Events(moves: seq<Move>): (ss: seq<EventSummary>)
    ensures |ss| == |Sent(moves)|
  {
    if moves == [] then []
    else
      var last := moves[|moves| - 1];
      Events(moves[..|moves| - 1]) + (if last.Applied? then [last.s] else [])
  }

  /** Every write of the engine that signs nothing, past detection, is such a move, or a skip followed
      by a quiet one. */
  lemma SavesAreMoves(cfg: EngineConfig, e: Record, q: Reads)
    requires RecordOk(e) && e.state != Pending && Decide(cfg, e, q).Save?
    ensures var c := Decide(cfg, e, q).rec;
      if c.consolidated != e.consolidated then MoveOk(e, SkippedMove) && c == After(e, SkippedMove)
      else if c.dustReturned != e.dustReturned then MoveOk(e, SkippedDust) && QuietWrite(After(e, SkippedDust), c)
      else QuietWrite(e, c)
  {
    hide RecordOk, Follows, DecideDetected, DecideFunded, DecideSwept;
    SaveKeeps(cfg, e, q);
    match e.state
    case Detected => DetectedIsQuiet(cfg, e, q);
    case Funded => FundedIsQuiet(cfg, e, q);
    case Swept => SweptMoves(cfg, e, q);
    case _ =>
  }

  lemma SweptMoves(cfg: EngineConfig, e: Record, q: Reads)
    requires e.identity == Some(Identity(cfg)) && e.state == Swept && DecideSwept(cfg, e, q).Save?
    ensures var c := DecideSwept(cfg, e, q).rec;
      if c.consolidated != e.consolidated then MoveOk(e, SkippedMove) && c == After(e, SkippedMove)
      else if c.dustReturned != e.dustReturned then MoveOk(e, SkippedDust) && AccountsUntouched(After(e, SkippedDust), c)
      else AccountsUntouched(e, c)
  {
    hide DecideBuyback, RecordOk;
    BuybackIsQuiet(cfg, e, q);
    BuybackIsQuiet(cfg, e.(dustReturned := true), q);
  }

  /** A send is decided on the record as it is, or after skipping the dust. */
  lemma SendsAreMoves(cfg: EngineConfig, e: Record, q: Reads)
    requires RecordOk(e) && Decide(cfg, e, q).Send?
    ensures var d := Decide(cfg, e, q);
      && SendOk(d.rec, d.rec, d.action, d.call, d.signer) && ActionOf(d.call) == Some(d.action)
      && if d.rec.dustReturned != e.dustReturned then MoveOk(e, SkippedDust) && QuietWrite(After(e, SkippedDust), d.rec)
         else QuietWrite(e, d.rec)
  {
    hide Decide, RecordOk;
    var d := Decide(cfg, e, q);
    DecidedSendIsOk(cfg, e, q);
    ActionNamesItsCall(e, d.rec, d.action, d.call, d.signer);
    SentRecordOk(e, d.rec, d.action, d.call, d.signer);
    SendAfterSkip(cfg, e, q);
  }

  lemma SentRecordOk(e: Record, rec: Record, action: Action, call: ChainCall, signer: Address)
    requires RecordOk(e) && SendOk(e, rec, action, call, signer)
    ensures RecordOk(rec) && SendOk(rec, rec, action, call, signer)
  {
    assert AppliedTxs(rec) == AppliedTxs(e);
    assert BooksMatch(rec, LedgerOf(AppliedTxs(e)).value);
  }

  lemma SendAfterSkip(cfg: EngineConfig, e: Record, q: Reads)
    requires Decide(cfg, e, q).Send?
    ensures Decide(cfg, e, q).rec.dustReturned != e.dustReturned ==> MoveOk(e, SkippedDust)
  {
  }

  lemma DetectedIsQuiet(cfg: EngineConfig, e: Record, q: Reads)
    ensures DecideDetected(cfg, e, q).Save? ==> AccountsUntouched(e, DecideDetected(cfg, e, q).rec)
  {
  }

  lemma FundedIsQuiet(cfg: EngineConfig, e: Record, q: Reads)
    ensures DecideFunded(cfg, e, q).Save? ==> AccountsUntouched(e, DecideFunded(cfg, e, q).rec)
  {
  }

  predicate AccountsUntouched(e: Record, c: Record) {
    c == e.(state := c.state, detectedAlpha := c.detectedAlpha, attempts := c.attempts, nextAttemptAt := c.nextAttemptAt,
            lastError := c.lastError, failedFrom := c.failedFrom, buybackDone := c.buybackDone, notified := c.notified)
  }

  lemma BuybackIsQuiet(cfg: EngineConfig, e: Record, q: Reads)
    ensures DecideBuyback(cfg, e, q).Save? ==> AccountsUntouched(e, DecideBuyback(cfg, e, q).rec)
  {
  }

  lemma FailuresAndRetriesAreQuiet(e: Record, err: string, maxAttempts: nat, now: nat)
    requires RecordOk(e) && e.pending.None?
    ensures QuietWrite(e, RecordFailure(e, err, maxAttempts, now))
    ensures Retry(e).Ok? ==> QuietWrite(e, Retry(e).value)
    ensures ForceSweep(e).Ok? ==> QuietWrite(e, ForceSweep(e).value)
  {
    hide RecordOk, Follows;
    FailureKeeps(e, err, maxAttempts, now);
    RetryKeeps(e);
    ForceSweepKeeps(e);
  }

  // ---------------------------------------------------------------- simulation

  predicate BudgetSpelled(m: LegacyManifest) {
    m.budget.Some? ==> Canonical(m.budget.value.hotkey)
  }

  /** Replay's accounts agree with the engine record. */
  predicate Mirrors(r: Record, m: LegacyManifest, a: Audit, e: Record)
    requires m.treasuryHotkey.Ss58?
  {
    && e.fundedTao == a.funded && e.sweptAlpha == Sum(Amounts(a.positions)) && e.positions == a.positions
    && e.consolidated == a.consolidated && e.dustReturned == a.dust && e.buyback == a.buyback
    && (a.postSweep <==> a.consolidated > 0 || a.dust || a.buyback.Some?)
  }

  /** What no move of the engine changes. */
  predicate SameJob(r: Record, m: LegacyManifest, e: Record)
    requires m.treasuryHotkey.Ss58?
  {
    && SameFrame(Fresh(r, m), e) && e.address == r.address && e.netuid == r.netuid
    && e.pending.None? && e.quarantined.None? && RecordOk(e)
  }

  lemma EffectFrame(r: Record, action: Action, tx: TxRef, s: EventSummary)
    requires Effect(r, action, tx, s).Ok?
    ensures var a := Effect(r, action, tx, s).value; SameFrame(r, a) && a.address == r.address && a.netuid == r.netuid
  {
  }

  lemma ApplyFrame(j: Record, tx: TxRef, s: EventSummary)
    requires ApplyTx(j, tx, s).Ok?
    ensures var a := ApplyTx(j, tx, s).value; SameFrame(j, a) && a.address == j.address && a.netuid == j.netuid
  {
    hide Effect;
    EffectFrame(j.(pending := None), j.pending.value.action, tx, s);
  }

  lemma MoveKeepsJob(r: Record, m: LegacyManifest, e: Record, mv: Move)
    requires m.treasuryHotkey.Ss58? && SameJob(r, m, e) && MoveOk(e, mv)
    ensures SameJob(r, m, After(e, mv)) && (e.buyback.Some? ==> After(e, mv).buyback.Some?)
  {
    hide RecordOk, SendOk, ApplyTx;
    match mv
    case Quiet(_) =>
    case SkippedMove => SkipConsolidationKeeps(e);
    case SkippedDust => SkipDustKeeps(e);
    case Applied(_, _, _) => AppliedKeepsJob(e, mv);
  }

  lemma AppliedKeepsJob(e: Record, mv: Move)
    requires RecordOk(e) && e.pending.None? && e.quarantined.None? && mv.Applied? && MoveOk(e, mv)
    ensures var z := After(e, mv);
      && RecordOk(z) && z.pending.None? && z.quarantined.None?
      && SameFrame(e, z) && z.address == e.address && z.netuid == e.netuid
      && (e.buyback.Some? ==> z.buyback.Some?)
  {
    var j := e.(pending := Some(LegacyJournal(mv.t, mv.token)));
    StageOfSend(e, mv);
    PermittedFits(e, mv.t, mv.token);
    ApplyKeeps(j, mv.t.receipt, mv.s);
    ApplyFrame(j, mv.t.receipt, mv.s);
  }

  lemma StageOfSend(e: Record, mv: Move)
    requires mv.Applied? && MoveOk(e, mv)
    ensures Permitted(e, mv.t)
  {
  }

  /** Before a send the record invariant supplies the conditions replay checks. */
  lemma FundAudited(r: Record, m: LegacyManifest, a: Audit, e: Record, t: LegacyTransaction, s: EventSummary)
    requires Ready(r, m) && t.signer.Ss58? && SameJob(r, m, e) && Mirrors(r, m, a, e)
    requires t.call.TransferTao? && SendOk(e, e, Fund, t.call, t.signer) && Faithful(e, t, s)
    ensures a.funded == 0 && AuditCall(r, m, a, t, s) == Some(a.(funded := t.call.amount))
  {
  }

  lemma SweepAudited(r: Record, m: LegacyManifest, a: Audit, e: Record, t: LegacyTransaction, s: EventSummary)
    requires Ready(r, m) && t.signer.Ss58? && SameJob(r, m, e) && Mirrors(r, m, a, e)
    requires t.call.TransferStake? && SendOk(e, e, Sweep(Ss58Of(t.call.hotkey)), t.call, t.signer)
    ensures AuditCall(r, m, a, t, s) == Some(a.(positions := a.positions + [(Ss58Of(t.call.hotkey), t.call.alpha)]))
  {
  }

  lemma MoveAudited(r: Record, m: LegacyManifest, a: Audit, e: Record, t: LegacyTransaction, s: EventSummary)
    requires Ready(r, m) && t.signer.Ss58? && SameJob(r, m, e) && Mirrors(r, m, a, e)
    requires t.call.MoveStake? && SendOk(e, e, Consolidate(Ss58Of(t.call.fromHotkey)), t.call, t.signer) && Faithful(e, t, s)
    ensures AuditCall(r, m, a, t, s) == Some(a.(postSweep := true, consolidated := a.consolidated + 1))
  {
  }

  lemma DustAudited(r: Record, m: LegacyManifest, a: Audit, e: Record, t: LegacyTransaction, s: EventSummary)
    requires Ready(r, m) && t.signer.Ss58? && SameJob(r, m, e) && Mirrors(r, m, a, e)
    requires t.call.TransferAll? && SendOk(e, e, ReturnDust, t.call, t.signer)
    ensures AuditCall(r, m, a, t, s) == Some(a.(postSweep := true, dust := true))
  {
  }

  /** A purchase passes if and only if the budget spells its hotkey the generic way. */
  lemma BuyAudited(r: Record, m: LegacyManifest, a: Audit, e: Record, t: LegacyTransaction, s: EventSummary)
    requires Ready(r, m) && t.signer.Ss58? && SameJob(r, m, e) && Mirrors(r, m, a, e)
    requires t.call.AddStakeLimit? && SendOk(e, e, BuyStake(t.call.netuid, t.call.limitPrice), t.call, t.signer)
    requires s.stakeAdded.Some? && s.stakeAdded.value.0 == t.call.tao && s.stakeAdded.value.1 != 0
    ensures AuditCall(r, m, a, t, s).Some? <==> BudgetSpelled(m)
    ensures BudgetSpelled(m) ==> AuditCall(r, m, a, t, s) == Some(a.(postSweep := true,
        buyback := Some(BuybackReceipt(t.call.netuid, t.call.tao, s.stakeAdded.value.1, t.call.limitPrice, t.receipt, None, 0))))
  {
  }

  lemma DestroyAudited(r: Record, m: LegacyManifest, a: Audit, e: Record, t: LegacyTransaction, s: EventSummary)
    requires Ready(r, m) && t.signer.Ss58? && SameJob(r, m, e) && Mirrors(r, m, a, e) && BudgetSpelled(m)
    requires t.call.BurnAlpha? || t.call.RecycleAlpha?
    requires SendOk(e, e, Destroy(t.call.netuid, t.call.RecycleAlpha?), t.call, t.signer)
    requires s.alphaDestroyed == Some(t.call.alpha)
    ensures AuditCall(r, m, a, t, s) == Some(a.(
        buyback := Some(a.buyback.value.(destroyTx := Some(t.receipt), alphaDestroyed := t.call.alpha))))
  {
  }

  /** Replay's accounts after the transaction mirror the engine's record after applying it. */
  predicate Audited(r: Record, m: LegacyManifest, a: Audit, e: Record, mv: Move)
    requires Ready(r, m) && mv.Applied? && MoveOk(e, mv)
  {
    && mv.t.signer.Ss58?
    && (AuditCall(r, m, a, mv.t, mv.s).Some? <==> (After(e, mv).buyback.Some? ==> BudgetSpelled(m)))
    && (AuditCall(r, m, a, mv.t, mv.s).Some? ==> Mirrors(r, m, AuditCall(r, m, a, mv.t, mv.s).value, After(e, mv)))
  }

  lemma FundingAudited(r: Record, m: LegacyManifest, a: Audit, e: Record, mv: Move)
    requires Ready(r, m) && SameJob(r, m, e) && Mirrors(r, m, a, e) && mv.Applied? && MoveOk(e, mv) && Faithful(e, mv.t, mv.s)
    requires e.buyback.Some? ==> BudgetSpelled(m)
    requires mv.t.call.TransferTao?
    ensures Audited(r, m, a, e, mv)
  {
    hide RecordOk, AuditCall, Amounts, Sum, BudgetSpelled;
    FundAudited(r, m, a, e, mv.t, mv.s);
  }

  lemma SweepingAudited(r: Record, m: LegacyManifest, a: Audit, e: Record, mv: Move)
    requires Ready(r, m) && SameJob(r, m, e) && Mirrors(r, m, a, e) && mv.Applied? && MoveOk(e, mv) && Faithful(e, mv.t, mv.s)
    requires e.buyback.Some? ==> BudgetSpelled(m)
    requires mv.t.call.TransferStake?
    ensures Audited(r, m, a, e, mv)
  {
    hide RecordOk, AuditCall, Sum, BudgetSpelled, Honest;
    var t := mv.t;
    SweepAudited(r, m, a, e, t, mv.s);
    assert Amounts(a.positions + [(Ss58Of(t.call.hotkey), t.call.alpha)]) == Amounts(a.positions) + [t.call.alpha];
    SumAppend(Amounts(a.positions), t.call.alpha);
  }

  lemma TidyingAudited(r: Record, m: LegacyManifest, a: Audit, e: Record, mv: Move)
    requires Ready(r, m) && SameJob(r, m, e) && Mirrors(r, m, a, e) && mv.Applied? && MoveOk(e, mv) && Faithful(e, mv.t, mv.s)
    requires e.buyback.Some? ==> BudgetSpelled(m)
    requires mv.t.call.MoveStake? || mv.t.call.TransferAll?
    ensures Audited(r, m, a, e, mv)
  {
    hide RecordOk, AuditCall;
    if mv.t.call.MoveStake? { MoveAudited(r, m, a, e, mv.t, mv.s); } else { DustAudited(r, m, a, e, mv.t, mv.s); }
  }

  lemma PurchaseAudited(r: Record, m: LegacyManifest, a: Audit, e: Record, mv: Move)
    requires Ready(r, m) && SameJob(r, m, e) && Mirrors(r, m, a, e) && mv.Applied? && MoveOk(e, mv) && Faithful(e, mv.t, mv.s)
    requires mv.t.call.AddStakeLimit?
    ensures Audited(r, m, a, e, mv)
  {
    hide RecordOk, AuditCall;
    BuyAudited(r, m, a, e, mv.t, mv.s);
  }

  lemma DestructionAudited(r: Record, m: LegacyManifest, a: Audit, e: Record, mv: Move)
    requires Ready(r, m) && SameJob(r, m, e) && Mirrors(r, m, a, e) && mv.Applied? && MoveOk(e, mv) && Faithful(e, mv.t, mv.s)
    requires e.buyback.Some? ==> BudgetSpelled(m)
    requires mv.t.call.BurnAlpha? || mv.t.call.RecycleAlpha?
    ensures Audited(r, m, a, e, mv)
  {
    hide RecordOk, AuditCall;
    DestroyAudited(r, m, a, e, mv.t, mv.s);
  }

  /** One faithful send is one accepted transaction, with the one exception above. */
  lemma AppliedIsAudited(r: Record, m: LegacyManifest, a: Audit, e: Record, mv: Move)
    requires Ready(r, m) && SameJob(r, m, e) && Mirrors(r, m, a, e) && mv.Applied? && MoveOk(e, mv) && Faithful(e, mv.t, mv.s)
    requires e.buyback.Some? ==> BudgetSpelled(m)
    ensures Audited(r, m, a, e, mv)
  {
    match mv.t.call
    case TransferTao(_, _) => FundingAudited(r, m, a, e, mv);
    case TransferStake(_, _, _, _) => SweepingAudited(r, m, a, e, mv);
    case MoveStake(_, _, _, _) => TidyingAudited(r, m, a, e, mv);
    case TransferAll(_) => TidyingAudited(r, m, a, e, mv);
    case AddStakeLimit(_, _, _, _, _) => PurchaseAudited(r, m, a, e, mv);
    case BurnAlpha(_, _, _) => DestructionAudited(r, m, a, e, mv);
    case RecycleAlpha(_, _, _) => DestructionAudited(r, m, a, e, mv);
    case AssociateHotkey(_) =>
  }

  /** Replay's accounts have fallen behind for good: a skip never shows up in them. */
  predicate Lags(a: Audit, e: Record) {
    a.positions == e.positions && (a.consolidated < e.consolidated || (!a.dust && e.dustReturned))
  }

  /** The state of the audit that goes with an engine record and its history so far. */
  predicate Tracks(r: Record, m: LegacyManifest, audit: Result<Audit>, e: Record, plain: bool)
    requires m.treasuryHotkey.Ss58?
  {
    if plain && (e.buyback.Some? ==> BudgetSpelled(m)) then audit.Ok? && Mirrors(r, m, audit.value, e)
    else audit.Err? || Lags(audit.value, e)
  }

  lemma UnfaithfulIsRejected(r: Record, m: LegacyManifest, a: Audit, e: Record, t: LegacyTransaction, s: EventSummary)
    requires Ready(r, m) && Mirrors(r, m, a, e) && !Faithful(e, t, s)
    ensures AuditStep(r, m, a, t, s).Err?
  {
  }

  /** Once behind, replay rejects or stays behind. */
  lemma LagsStay(r: Record, m: LegacyManifest, a: Audit, e: Record, mv: Move)
    requires Ready(r, m) && SameJob(r, m, e) && MoveOk(e, mv) && mv.Applied? && Lags(a, e)
    requires AuditStep(r, m, a, mv.t, mv.s).Ok?
    ensures Lags(AuditStep(r, m, a, mv.t, mv.s).value, After(e, mv))
  {
    hide Books, PolicyFits, PurchaseFits, PendingFits, FailureFits, SettledFits, Honest, AuditDestroy;
    if mv.t.call.MoveStake? { LateMoveIsRejected(r, m, a, e, mv.t, mv.s); }
    DestructionShape(m, a, mv.t, mv.s);
  }

  /** A later move names another hotkey than the one replay waits for. */
  lemma LateMoveIsRejected(r: Record, m: LegacyManifest, a: Audit, e: Record, t: LegacyTransaction, s: EventSummary)
    requires Ready(r, m) && RecordOk(e) && Lags(a, e) && t.call.MoveStake? && t.signer.Ss58?
    requires SendOk(e, e, Consolidate(Ss58Of(t.call.fromHotkey)), t.call, t.signer)
    ensures AuditCall(r, m, a, t, s).None?
  {
    hide Books, PolicyFits, PurchaseFits, PendingFits, FailureFits, SettledFits;
  }

  lemma DestructionShape(m: LegacyManifest, a: Audit, t: LegacyTransaction, s: EventSummary)
    ensures forall byTreasury, destroy, target, netuid, alpha ::
      var next := AuditDestroy(m, a, t, s, byTreasury, destroy, target, netuid, alpha);
      next.Some? ==> next.value.positions == a.positions && next.value.consolidated == a.consolidated && next.value.dust == a.dust
  {
  }

  function AuditMove(r: Record, m: LegacyManifest, audit: Result<Audit>, mv: Move): Result<Audit>
    requires Ready(r, m)
  {
    if audit.Ok? && mv.Applied? then AuditStep(r, m, audit.value, mv.t, mv.s) else audit
  }

  lemma MoveTracks(r: Record, m: LegacyManifest, audit: Result<Audit>, e: Record, plain: bool, mv: Move)
    requires Ready(r, m) && SameJob(r, m, e) && MoveOk(e, mv) && Tracks(r, m, audit, e, plain)
    requires e.buyback.Some? ==> After(e, mv).buyback.Some?
    ensures Tracks(r, m, AuditMove(r, m, audit, mv), After(e, mv), plain && PlainMove(e, mv))
  {
    if mv.Applied? {
      AppliedTracks(r, m, audit, e, plain, mv);
    }
  }

  lemma AppliedTracks(r: Record, m: LegacyManifest, audit: Result<Audit>, e: Record, plain: bool, mv: Move)
    requires Ready(r, m) && SameJob(r, m, e) && mv.Applied? && MoveOk(e, mv) && Tracks(r, m, audit, e, plain)
    requires e.buyback.Some? ==> After(e, mv).buyback.Some?
    ensures Tracks(r, m, AuditMove(r, m, audit, mv), After(e, mv), plain && Faithful(e, mv.t, mv.s))
  {
    hide SameJob, MoveOk, Mirrors, Lags, AuditCall, ApplyTx, Faithful;
    if audit.Err? {
    } else if plain && (e.buyback.Some? ==> BudgetSpelled(m)) {
      if Faithful(e, mv.t, mv.s) {
        AppliedIsAudited(r, m, audit.value, e, mv);
        FaithfulIsHonest(e, mv.t, mv.s);
      } else {
        UnfaithfulIsRejected(r, m, audit.value, e, mv.t, mv.s);
      }
    } else if AuditStep(r, m, audit.value, mv.t, mv.s).Ok? {
      LagsStay(r, m, audit.value, e, mv);
    }
  }

  lemma FaithfulIsHonest(e: Record, t: LegacyTransaction, s: EventSummary)
    requires Faithful(e, t, s)
    ensures Honest(t.call, s)
  {
  }

  lemma AuditUnfolds(r: Record, m: LegacyManifest, moves: seq<Move>, n: nat)
    requires Ready(r, m) && |moves| == n + 1
    ensures AuditAll(r, m, Sent(moves), Events(moves)) ==
            AuditMove(r, m, AuditAll(r, m, Sent(moves[..n]), Events(moves[..n])), moves[n])
  {
    var txs, ss := Sent(moves), Events(moves);
    if moves[n].Applied? {
      assert txs[..|txs| - 1] == Sent(moves[..n]) && ss[..|ss| - 1] == Events(moves[..n]);
    } else {
      assert txs == Sent(moves[..n]) && ss == Events(moves[..n]);
    }
  }

  lemma {:induction false} HistoryIsAudited(r: Record, m: LegacyManifest, moves: seq<Move>)
    requires Ready(r, m) && Final(Fresh(r, m), moves).Some?
    ensures SameJob(r, m, Final(Fresh(r, m), moves).value)
    ensures Tracks(r, m, AuditAll(r, m, Sent(moves), Events(moves)), Final(Fresh(r, m), moves).value, Plain(Fresh(r, m), moves))
  {
    hide MoveOk, After, AuditAll, PlainMove, RecordOk;
    if moves == [] {
      FreshOk(r, m);
      NothingTracks(r, m);
    } else {
      var n := |moves| - 1;
      HistoryIsAudited(r, m, moves[..n]);
      var mid := Final(Fresh(r, m), moves[..n]).value;
      MoveKeepsJob(r, m, mid, moves[n]);
      MoveTracks(r, m, AuditAll(r, m, Sent(moves[..n]), Events(moves[..n])), mid, Plain(Fresh(r, m), moves[..n]), moves[n]);
      AuditUnfolds(r, m, moves, n);
    }
  }

  lemma NothingTracks(r: Record, m: LegacyManifest)
    requires Ready(r, m)
    ensures Tracks(r, m, AuditAll(r, m, [], []), Fresh(r, m), true)
  {
    assert Amounts([]) == [];
  }

  // ---------------------------------------------------------------- completeness

  /** The legacy record is the engine's, without the identity and policy it lacks. */
  predicate StoredAs(r: Record, m: LegacyManifest, e: Record) {
    e == Adopt(r, m).(identity := e.identity)
  }

  lemma FinishedReproduces(r: Record, m: LegacyManifest, a: Audit, e: Record)
    requires m.treasuryHotkey.Ss58? && SameJob(r, m, e) && Mirrors(r, m, a, e) && StoredAs(r, m, e)
    requires CheckManifest(r, m).Ok?
    requires e.sweptAlpha <= U64_MAX
    ensures Conclude(r, m, a) == Ok(Adopt(r, m))
  {
  }

  lemma LaggingIsRejected(r: Record, m: LegacyManifest, a: Audit, e: Record)
    requires StoredAs(r, m, e) && Lags(a, e)
    ensures Conclude(r, m, a).Err?
  {
  }

  /** Replay completeness, both ways: over all engine histories with a well-formed manifest, skips and
      partial moves included, a job is accepted if and only if no consolidation or dust return was
      skipped, every extrinsic did in full what its call says, every move carried its swept amount, and
      the job bought nothing or its budget spells the hotkey the generic way. The record stored is then
      the engine's. */
  lemma ReplayAcceptsExactly(r: Record, m: LegacyManifest, moves: seq<Move>)
    requires CheckManifest(r, m).Ok? && m.treasuryHotkey.Ss58?
    requires m.transactions == Sent(moves)
    requires Final(Fresh(r, m), moves).Some? && StoredAs(r, m, Final(Fresh(r, m), moves).value)
    requires r.sweptAlpha <= U64_MAX
    ensures ReplayOf(r, m, Events(moves)).Ok? <==>
      Plain(Fresh(r, m), moves) && (r.buyback.Some? ==> BudgetSpelled(m))
    ensures ReplayOf(r, m, Events(moves)).Ok? ==> ReplayOf(r, m, Events(moves)).value == Adopt(r, m)
  {
    hide CheckManifest, AuditAll, Conclude, Plain, Mirrors, Lags, RecordOk, BudgetSpelled;
    AcceptedAddresses(r, m);
    HistoryIsAudited(r, m, moves);
    var e := Final(Fresh(r, m), moves).value;
    var audit := AuditAll(r, m, Sent(moves), Events(moves));
    if audit.Ok? {
      if Plain(Fresh(r, m), moves) && (e.buyback.Some? ==> BudgetSpelled(m)) {
        FinishedReproduces(r, m, audit.value, e);
      } else {
        LaggingIsRejected(r, m, audit.value, e);
      }
    }
  }

  // ---------------------------------------------------------------- the exceptions are real

  function SpelledJob(budget: BuybackBudget): Record {
    Record("job", Ss58Of(2), 1, 0, None, 0, Swept, 0, 0, 0, 0, 0, [SpelledReceipt(budget)],
           Some(BuybackReceipt(budget.netuid, budget.amountRao, 1, 0, SpelledReceipt(budget), None, 0)),
           None, None, None, 0, 0, None, None, None, None, [], 0, false, false, false)
  }

  function SpelledReceipt(budget: BuybackBudget): TxRef {
    TxRef(AddStakeLimitName, "tx", "block", budget.amountRao)
  }

  function SpelledPurchase(budget: BuybackBudget): LegacyTransaction
    requires budget.hotkey.Ss58?
  {
    LegacyTransaction(1, 0, Ss58Of(1), 0, SpelledReceipt(budget),
                      AddStakeLimit(budget.hotkey.account, budget.netuid, budget.amountRao, 0, false))
  }

  function SpelledManifest(budget: BuybackBudget, note: string): LegacyManifest
    requires budget.hotkey.Ss58?
  {
    LegacyManifest("job", 0, "genesis", Ss58Of(1), Ss58Of(3), false, false, Some(budget), 1, 1, 1, note, true,
                   [SpelledPurchase(budget)])
  }

  function SpelledMoves(budget: BuybackBudget, note: string): seq<Move>
    requires budget.hotkey.Ss58?
  {
    var f := Fresh(SpelledJob(budget), SpelledManifest(budget, note));
    [Quiet(f.(state := Funded)), Quiet(f.(state := Swept)),
     Applied(SpelledPurchase(budget), EventSummary([ExtrinsicSuccess, StakeAdded], false, Some((budget.amountRao, 1)), None, None, None), "token")]
  }

  /** For every valid budget whose hotkey is spelled under another prefix there is a job the engine
      produces with a full purchase, and a well-formed manifest of it, that replay rejects. */
  lemma SpellingRejected(budget: BuybackBudget, note: string)
    requires budget.Validate().Ok? && !Canonical(budget.hotkey)
    requires Statement(note)
    ensures var r, m, moves := SpelledJob(budget), SpelledManifest(budget, note), SpelledMoves(budget, note);
      && CheckManifest(r, m).Ok? && m.transactions == Sent(moves)
      && Final(Fresh(r, m), moves).Some? && StoredAs(r, m, Final(Fresh(r, m), moves).value)
      && ReplayOf(r, m, Events(moves)).Err?
  {
    var r, m, moves := SpelledJob(budget), SpelledManifest(budget, note), SpelledMoves(budget, note);
    SpelledChecked(budget, note);
    SpelledHistory(budget, note);
    ReplayAcceptsExactly(r, m, moves);
  }

  lemma SpelledChecked(budget: BuybackBudget, note: string)
    requires budget.Validate().Ok?
    requires Statement(note)
    ensures CheckManifest(SpelledJob(budget), SpelledManifest(budget, note)).Ok?
  {
  }

  lemma SpelledHistory(budget: BuybackBudget, note: string)
    requires budget.Validate().Ok?
    ensures var r, m, moves := SpelledJob(budget), SpelledManifest(budget, note), SpelledMoves(budget, note);
      && Sent(moves) == m.transactions
      && Final(Fresh(r, m), moves).Some? && StoredAs(r, m, Final(Fresh(r, m), moves).value)
  {
    hide QuietWrite, SendOk, ApplyTx, StoredAs, Fresh;
    var r, m, moves := SpelledJob(budget), SpelledManifest(budget, note), SpelledMoves(budget, note);
    var f := Fresh(r, m);
    SpelledQuiet(budget, note);
    SpelledBuy(f.(state := Swept), m, budget, moves[2]);
    assert moves[..2] == [moves[0], moves[1]] && moves[..2][..1] == [moves[0]] && moves[..1] == [moves[0]];
    assert Final(f, [moves[0]]) == Some(f.(state := Funded));
    assert Final(f, moves[..2]) == Some(f.(state := Swept));
    assert Sent(moves[..0]) == [] && Sent([moves[0]]) == [];
    assert Sent(moves[..2]) == [];
  }

  lemma SpelledQuiet(budget: BuybackBudget, note: string)
    requires budget.Validate().Ok?
    ensures var f := Fresh(SpelledJob(budget), SpelledManifest(budget, note));
      QuietWrite(f, f.(state := Funded)) && QuietWrite(f.(state := Funded), f.(state := Swept))
  {
  }

  lemma SpelledBuy(e: Record, m: LegacyManifest, budget: BuybackBudget, mv: Move)
    requires budget.Validate().Ok? && m.treasuryHotkey.Ss58? && m.budget == Some(budget) && m.treasury == Ss58Of(1)
    requires !m.consolidate && !m.returnDust
    requires e == Fresh(SpelledJob(budget), m).(state := Swept)
    requires mv == Applied(SpelledPurchase(budget),
      EventSummary([ExtrinsicSuccess, StakeAdded], false, Some((budget.amountRao, 1)), None, None, None), "token")
    ensures MoveOk(e, mv) && StoredAs(SpelledJob(budget), m, After(e, mv))
  {
  }

  // A job whose dust return was skipped, the wallet being empty.

  const SWEEP := LegacyTransaction(1, 0, Ss58Of(2), 0, TxRef(TransferStakeName, "tx", "block", 5), TransferStake(1, 3, 1, 5))

  const SWEEP_EVENTS := EventSummary([ExtrinsicSuccess, StakeTransferred], false, None, None, None, None)

  function SkippedJob(): Record {
    Record("job", Ss58Of(2), 1, 0, None, 0, Swept, 0, 0, 0, 0, 5, [SWEEP.receipt], None, None, None, None,
           0, 0, None, None, None, None, [(Ss58Of(3), 5)], 0, true, false, false)
  }

  function SkippedManifest(note: string): LegacyManifest {
    LegacyManifest("job", 0, "genesis", Ss58Of(1), Ss58Of(4), false, true, None, 1, 1, 1, note, true, [SWEEP])
  }

  /** The job after its sweep, in stage `state`. */
  function SweptOnce(note: string, state: PaymentState): Record {
    Fresh(SkippedJob(), SkippedManifest(note)).(
      state := state, sweptAlpha := 5, txs := [SWEEP.receipt], positions := [(Ss58Of(3), 5)])
  }

  function SkippedMoves(note: string): seq<Move> {
    [Quiet(Fresh(SkippedJob(), SkippedManifest(note)).(state := Funded)), Applied(SWEEP, SWEEP_EVENTS, "token"),
     Quiet(SweptOnce(note, Swept)), SkippedDust]
  }

  /** An engine history whose dust return was skipped, rejected though its manifest is well formed. */
  lemma SkipRejected(note: string)
    requires Statement(note)
    ensures var r, m, moves := SkippedJob(), SkippedManifest(note), SkippedMoves(note);
      && CheckManifest(r, m).Ok? && m.transactions == Sent(moves)
      && Final(Fresh(r, m), moves).Some? && StoredAs(r, m, Final(Fresh(r, m), moves).value)
      && ReplayOf(r, m, Events(moves)).Err?
  {
    hide CheckManifest, Final, StoredAs, ReplayOf, Fresh, Sent;
    var r, m, moves := SkippedJob(), SkippedManifest(note), SkippedMoves(note);
    SkippedChecked(note);
    SkippedHistory(note);
    ReplayAcceptsExactly(r, m, moves);
    assert !PlainMove(SweptOnce(note, Swept), SkippedDust);
  }

  lemma SkippedChecked(note: string)
    requires Statement(note)
    ensures CheckManifest(SkippedJob(), SkippedManifest(note)).Ok?
  {
    var r, m := SkippedJob(), SkippedManifest(note);
    assert Recoverable(r, m) && Attested(m);
    assert ListOk(r, m, m.transactions);
    assert Receipts(m.transactions) == r.txs;
  }

  lemma SkippedHistory(note: string)
    ensures var r, m, moves := SkippedJob(), SkippedManifest(note), SkippedMoves(note);
      && Sent(moves) == m.transactions
      && Final(Fresh(r, m), moves).Some? && StoredAs(r, m, Final(Fresh(r, m), moves).value)
      && Final(Fresh(r, m), moves[..3]) == Some(SweptOnce(note, Swept))
  {
    hide MoveOk, After, Fresh, StoredAs;
    var moves := SkippedMoves(note);
    var f := Fresh(SkippedJob(), SkippedManifest(note));
    SkippedSteps(note);
    assert moves[..3][..2] == moves[..2] && moves[..2][..1] == moves[..1] && moves[..1][..0] == [];
    assert Final(f, moves[..1]) == Some(f.(state := Funded));
    assert Final(f, moves[..2]) == Some(SweptOnce(note, Funded));
    assert Final(f, moves[..3]) == Some(SweptOnce(note, Swept));
    assert Sent(moves[..0]) == [] && Sent(moves[..1]) == [];
    assert Sent(moves[..2]) == Sent(moves[..1]) + [SWEEP];
    assert Sent(moves[..3]) == [SWEEP];
  }

  lemma SkippedSteps(note: string)
    ensures var r, m, moves := SkippedJob(), SkippedManifest(note), SkippedMoves(note); var f := Fresh(r, m);
      && MoveOk(f, moves[0]) && After(f, moves[0]) == f.(state := Funded)
      && MoveOk(f.(state := Funded), moves[1]) && After(f.(state := Funded), moves[1]) == SweptOnce(note, Funded)
      && MoveOk(SweptOnce(note, Funded), moves[2]) && After(SweptOnce(note, Funded), moves[2]) == SweptOnce(note, Swept)
      && MoveOk(SweptOnce(note, Swept), moves[3]) && StoredAs(r, m, After(SweptOnce(note, Swept), moves[3]))
  {
    hide RecordOk, SendOk, ApplyTx;
    SweptOnceOk(note);
    SweepStep(note);
  }

  lemma SweepStep(note: string)
    ensures var f := Fresh(SkippedJob(), SkippedManifest(note)).(state := Funded);
      MoveOk(f, SkippedMoves(note)[1]) && After(f, SkippedMoves(note)[1]) == SweptOnce(note, Funded)
  {
    hide RecordOk;
    var f := Fresh(SkippedJob(), SkippedManifest(note));
    assert f.positions + [(Ss58Of(3), 5)] == [(Ss58Of(3), 5)] && f.txs + [SWEEP.receipt] == [SWEEP.receipt];
  }

  lemma SweptOnceOk(note: string)
    ensures RecordOk(Fresh(SkippedJob(), SkippedManifest(note)).(state := Funded))
    ensures RecordOk(SweptOnce(note, Swept))
  {
    var e := SweptOnce(note, Swept);
    assert LedgerOf([SWEEP.receipt][..0]) == Some(EMPTY);
    assert EMPTY.sweeps + [5] == [5];
    assert LedgerOf([SWEEP.receipt]) == Some(EMPTY.(sweeps := [5]));
    SumAppend([], 5);
  }
}
