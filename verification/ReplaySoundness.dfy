/** Replay refines the engine: whatever it accepts is a history the engine's own `apply` machine
    produces, send by permitted send, with the same accounts at the end. */
module ReplaySoundness {
  import opened Basics
  import Text
  import opened Keys
  import opened Calls
  import opened State
  import opened Engine
  import opened Accounting
  import opened Recovery

  // ---------------------------------------------------------------- the engine's machine

  function StageFor(action: Action): PaymentState {
    match action
    case Fund => Detected
    case Sweep(_) => Funded
    case _ => Swept
  }

  /** Silent moves forward, at most to `to`. */
  function Silently(e: Record, to: PaymentState): Result<Record> {
    var e1 :- if e.state == Detected && to != Detected then Transition(e, Funded) else Ok(e);
    if e1.state == Funded && to == Swept then Transition(e1, Swept) else Ok(e1)
  }

  /** `move_stake` from the treasury hotkey to itself: accepted by replay, never sent by the engine. */
  predicate SelfMove(e: Record, t: LegacyTransaction) {
    && t.call.MoveStake? && t.call.fromHotkey == t.call.toHotkey
    && e.state == Swept && e.identity.Some? && e.identity.value.consolidate
    && Ss58Of(t.call.toHotkey) == e.identity.value.treasuryHotkey
    && e.consolidated < |e.positions| && e.positions[e.consolidated] == (Ss58Of(t.call.fromHotkey), t.call.alpha)
    && t.call.netuid == e.netuid && t.signer == e.identity.value.treasury
  }

  /** The engine may sign this call in this state. */
  predicate Permitted(e: Record, t: LegacyTransaction) {
    && ActionOf(t.call).Some?
    && e.state == StageFor(ActionOf(t.call).value)
    && (SendOk(e, e, ActionOf(t.call).value, t.call, t.signer) || SelfMove(e, t))
  }

  function LegacyJournal(t: LegacyTransaction, token: Token): PendingTx
    requires ActionOf(t.call).Some?
  {
    PendingTx(ActionOf(t.call).value, Some(token), t.signer, t.nonce, t.receipt.txHash, t.block, t.call.Amount())
  }

  /** One engine turn: silent moves, a permitted send, and its result applied. */
  function Turn(e: Record, t: LegacyTransaction, s: EventSummary, token: Token): Result<Record> {
    if ActionOf(t.call).None? then Err(INVALID)
    else
      var moved :- Silently(e, StageFor(ActionOf(t.call).value));
      if !Permitted(moved, t) then Err(INVALID)
      else ApplyTx(moved.(pending := Some(LegacyJournal(t, token))), t.receipt, s)
  }

  function Turns(e: Record, txs: seq<LegacyTransaction>, ss: seq<EventSummary>, token: Token): Result<Record>
    requires |txs| == |ss|
  {
    if txs == [] then Ok(e)
    else
      var mid :- Turns(e, txs[..|txs| - 1], ss[..|ss| - 1], token);
      Turn(mid, txs[|txs| - 1], ss[|ss| - 1], token)
  }

  /** The job as it was when detected, under the engine's canonical spelling of the manifest. */
  function Fresh(r: Record, m: LegacyManifest): Record
    requires m.treasuryHotkey.Ss58?
  {
    Adopt(r, m).(
      identity := Some(ManifestIdentity(m).(treasuryHotkey := Ss58Of(m.treasuryHotkey.account))),
      state := if r.state == Pending then Pending else Detected,
      fundedTao := 0, sweptAlpha := 0, txs := [], buyback := None, positions := [], consolidated := 0,
      dustReturned := false, buybackDone := false, failedFrom := None, attempts := 0, nextAttemptAt := 0,
      lastError := None, notified := false)
  }

  // ---------------------------------------------------------------- simulation

  /** The manifest's addresses and the record's policy are as an accepted manifest has them. */
  predicate Ready(r: Record, m: LegacyManifest) {
    && Canonical(m.treasury) && Canonical(r.address) && m.treasuryHotkey.Ss58? && m.treasury != r.address
    && r.pending.None? && r.quarantined.None?
    && (m.budget.Some? ==> m.budget.value.hotkey.Ss58?)
  }

  /** Engine record and replay's accounts agree. */
  predicate SameBooks(r: Record, m: LegacyManifest, a: Audit, txs: seq<TxRef>, e: Record)
    requires m.treasuryHotkey.Ss58?
  {
    e == Fresh(r, m).(
      state := e.state, attempts := e.attempts, nextAttemptAt := e.nextAttemptAt, lastError := e.lastError,
      failedFrom := e.failedFrom,
      fundedTao := a.funded, sweptAlpha := Sum(Amounts(a.positions)), txs := txs, buyback := a.buyback,
      positions := a.positions, consolidated := a.consolidated, dustReturned := a.dust,
      buybackDone := a.buyback.Some? && a.buyback.value.destroyTx.Some?)
  }

  /** How far the engine must have moved to have done all this. */
  predicate SameStage(a: Audit, e: Record) {
    && (a.postSweep <==> a.consolidated > 0 || a.dust || a.buyback.Some?)
    && (if a.postSweep then e.state == Swept
        else if a.funded > 0 || a.positions != [] then e.state == Funded
        else e.state == Detected)
  }

  predicate AmountsPositive(ps: seq<(Address, nat)>) {
    forall k :: 0 <= k < |ps| ==> ps[k].1 > 0
  }

  predicate Simulates(r: Record, m: LegacyManifest, a: Audit, txs: seq<TxRef>, e: Record)
    requires m.treasuryHotkey.Ss58?
  {
    SameBooks(r, m, a, txs, e) && SameStage(a, e) && AmountsPositive(a.positions) && RecordOk(e)
  }

  /** `moved` is `e` brought to the stage its next send needs. */
  predicate MovedTo(e: Record, moved: Record, stage: PaymentState) {
    && moved == e.(state := stage, attempts := moved.attempts, nextAttemptAt := moved.nextAttemptAt, lastError := moved.lastError)
    && RecordOk(moved)
  }

  lemma SilentlyMoves(e: Record, to: PaymentState)
    requires RecordOk(e) && e.pending.None? && e.quarantined.None?
    requires e.state == Detected || e.state == Funded || e.state == Swept
    requires to == Detected || to == Funded || to == Swept
    requires RankOf(e.state) <= RankOf(to)
    ensures Silently(e, to).Ok? && MovedTo(e, Silently(e, to).value, to)
  {
    var e1 := if e.state == Detected && to != Detected then Transition(e, Funded).value else e;
    if e.state == Detected && to != Detected { TransitionKeeps(e, Funded); }
    if e1.state == Funded && to == Swept { TransitionKeeps(e1, Swept); }
  }

  /** The stage replay's conditions leave the job in is not past the one the send needs. */
  lemma StageAllows(r: Record, m: LegacyManifest, a: Audit, txs: seq<TxRef>, e: Record, t: LegacyTransaction, s: EventSummary)
    requires Ready(r, m) && t.signer.Ss58? && Simulates(r, m, a, txs, e) && AuditCall(r, m, a, t, s).Some?
    ensures ActionOf(t.call).Some? && RankOf(e.state) <= RankOf(StageFor(ActionOf(t.call).value))
  {
  }

  lemma FundOrSweepPermitted(r: Record, m: LegacyManifest, a: Audit, txs: seq<TxRef>, e: Record, moved: Record,
                             t: LegacyTransaction, s: EventSummary)
    requires Ready(r, m) && t.signer.Ss58? && ListedOk(r, m, t)
    requires SameBooks(r, m, a, txs, e) && SameStage(a, e) && AuditCall(r, m, a, t, s).Some? && ActionOf(t.call).Some?
    requires MovedTo(e, moved, StageFor(ActionOf(t.call).value))
    requires t.call.TransferTao? || t.call.TransferStake?
    ensures Permitted(moved, t)
  {
  }

  lemma MoveOrDustPermitted(r: Record, m: LegacyManifest, a: Audit, txs: seq<TxRef>, e: Record, moved: Record,
                            t: LegacyTransaction, s: EventSummary)
    requires Ready(r, m) && t.signer.Ss58? && ListedOk(r, m, t) && AmountsPositive(a.positions)
    requires SameBooks(r, m, a, txs, e) && SameStage(a, e) && AuditCall(r, m, a, t, s).Some? && ActionOf(t.call).Some?
    requires MovedTo(e, moved, StageFor(ActionOf(t.call).value))
    requires t.call.MoveStake? || t.call.TransferAll?
    ensures Permitted(moved, t)
  {
  }

  lemma BuybackPermitted(r: Record, m: LegacyManifest, a: Audit, txs: seq<TxRef>, e: Record, moved: Record,
                         t: LegacyTransaction, s: EventSummary)
    requires Ready(r, m) && t.signer.Ss58? && ListedOk(r, m, t)
    requires SameBooks(r, m, a, txs, e) && SameStage(a, e) && AuditCall(r, m, a, t, s).Some? && ActionOf(t.call).Some?
    requires MovedTo(e, moved, StageFor(ActionOf(t.call).value))
    requires t.call.AddStakeLimit? || t.call.BurnAlpha? || t.call.RecycleAlpha?
    ensures Permitted(moved, t)
  {
    assert PurchaseFits(moved) && StageFits(moved);
  }

  lemma PermittedByAudit(r: Record, m: LegacyManifest, a: Audit, txs: seq<TxRef>, e: Record, moved: Record,
                         t: LegacyTransaction, s: EventSummary)
    requires Ready(r, m) && t.signer.Ss58? && ListedOk(r, m, t)
    requires Simulates(r, m, a, txs, e) && AuditCall(r, m, a, t, s).Some? && ActionOf(t.call).Some?
    requires MovedTo(e, moved, StageFor(ActionOf(t.call).value))
    ensures Permitted(moved, t)
  {
    match t.call
    case TransferTao(_, _) => FundOrSweepPermitted(r, m, a, txs, e, moved, t, s);
    case TransferStake(_, _, _, _) => FundOrSweepPermitted(r, m, a, txs, e, moved, t, s);
    case MoveStake(_, _, _, _) => MoveOrDustPermitted(r, m, a, txs, e, moved, t, s);
    case TransferAll(_) => MoveOrDustPermitted(r, m, a, txs, e, moved, t, s);
    case AddStakeLimit(_, _, _, _, _) => BuybackPermitted(r, m, a, txs, e, moved, t, s);
    case BurnAlpha(_, _, _) => BuybackPermitted(r, m, a, txs, e, moved, t, s);
    case RecycleAlpha(_, _, _) => BuybackPermitted(r, m, a, txs, e, moved, t, s);
    case AssociateHotkey(_) =>
  }

  /** Journaling a permitted send keeps the record invariant. */
  lemma PermittedFits(e: Record, t: LegacyTransaction, token: Token)
    requires RecordOk(e) && e.pending.None? && e.quarantined.None? && Permitted(e, t)
    ensures var j := e.(pending := Some(LegacyJournal(t, token)));
      RecordOk(j) && ActionName(j.pending.value.action) == t.call.Name()
  {
    hide LedgerOf, Sum;
    var j := e.(pending := Some(LegacyJournal(t, token)));
    assert AppliedTxs(j) == AppliedTxs(e);
    assert BooksMatch(j, LedgerOf(AppliedTxs(e)).value);
  }

  /** Applying the receipt changes the engine's record the way replay changes its accounts. */
  predicate AppliesAs(r: Record, m: LegacyManifest, txs: seq<TxRef>, moved: Record,
                      t: LegacyTransaction, s: EventSummary, token: Token, next: Audit)
    requires Ready(r, m) && ActionOf(t.call).Some?
  {
    var done := ApplyTx(moved.(pending := Some(LegacyJournal(t, token))), t.receipt, s);
    && done.Ok?
    && SameBooks(r, m, next, txs + [t.receipt], done.value)
    && done.value.state == (if t.call.TransferTao? then Funded else moved.state)
  }

  lemma SweepBooks(r: Record, m: LegacyManifest, a: Audit, txs: seq<TxRef>, moved: Record,
                   t: LegacyTransaction, s: EventSummary, token: Token, next: Audit)
    requires Ready(r, m) && t.signer.Ss58? && SameBooks(r, m, a, txs, moved) && t.call.TransferStake?
    requires AuditCall(r, m, a, t, s) == Some(next) && Honest(t.call, s)
    requires moved.state == StageFor(ActionOf(t.call).value) && t.receipt.amount == t.call.Amount()
    ensures AppliesAs(r, m, txs, moved, t, s, token, next)
  {
    hide HasHotkey, Sum;
    assert Amounts(next.positions) == Amounts(a.positions) + [t.call.alpha];
    SumAppend(Amounts(a.positions), t.call.alpha);
  }

  lemma TransferBooks(r: Record, m: LegacyManifest, a: Audit, txs: seq<TxRef>, moved: Record,
                      t: LegacyTransaction, s: EventSummary, token: Token, next: Audit)
    requires Ready(r, m) && t.signer.Ss58? && SameBooks(r, m, a, txs, moved)
    requires t.call.TransferTao? || t.call.MoveStake? || t.call.TransferAll?
    requires AuditCall(r, m, a, t, s) == Some(next)
    requires moved.state == StageFor(ActionOf(t.call).value) && t.receipt.amount == t.call.Amount()
    ensures AppliesAs(r, m, txs, moved, t, s, token, next)
  {
    hide AuditDestroy, HasHotkey, Sum, Amounts;
  }

  lemma BuybackBooks(r: Record, m: LegacyManifest, a: Audit, txs: seq<TxRef>, moved: Record,
                     t: LegacyTransaction, s: EventSummary, token: Token, next: Audit)
    requires Ready(r, m) && t.signer.Ss58? && SameBooks(r, m, a, txs, moved) && ActionOf(t.call).Some?
    requires AuditCall(r, m, a, t, s) == Some(next)
    requires moved.state == StageFor(ActionOf(t.call).value) && t.receipt.amount == t.call.Amount()
    requires a.buyback.Some? ==> a.buyback.value.alphaBought > 0
    requires t.call.AddStakeLimit? || t.call.BurnAlpha? || t.call.RecycleAlpha?
    ensures AppliesAs(r, m, txs, moved, t, s, token, next)
  {
    hide Sum, Amounts;
  }

  lemma NextStage(r: Record, m: LegacyManifest, a: Audit, t: LegacyTransaction, s: EventSummary, e: Record, next: Audit, e': Record)
    requires Ready(r, m) && t.signer.Ss58? && SameStage(a, e) && AuditCall(r, m, a, t, s) == Some(next) && ActionOf(t.call).Some?
    requires a.consolidated <= |a.positions|
    requires e'.state == (if t.call.TransferTao? then Funded else StageFor(ActionOf(t.call).value))
    ensures SameStage(next, e')
    ensures AmountsPositive(a.positions) ==> AmountsPositive(next.positions)
  {
  }

  /** One accepted transaction is one engine turn. */
  lemma StepRefines(r: Record, m: LegacyManifest, a: Audit, txs: seq<TxRef>, e: Record,
                    t: LegacyTransaction, s: EventSummary, token: Token)
    requires Ready(r, m) && Simulates(r, m, a, txs, e) && ListedOk(r, m, t) && AuditStep(r, m, a, t, s).Ok?
    ensures Turn(e, t, s, token).Ok?
    ensures Simulates(r, m, AuditStep(r, m, a, t, s).value, txs + [t.receipt], Turn(e, t, s, token).value)
  {
    hide RecordOk, SendOk, AuditCall, AmountsPositive, Effect, Follows, Silently, Permitted, ApplyTx;
    var next := AuditStep(r, m, a, t, s).value;
    StageAllows(r, m, a, txs, e, t, s);
    var stage := StageFor(ActionOf(t.call).value);
    SilentlyMoves(e, stage);
    var moved := Silently(e, stage).value;
    PermittedByAudit(r, m, a, txs, e, moved, t, s);
    PermittedFits(moved, t, token);
    BoughtSomething(e);
    if t.call.AddStakeLimit? || t.call.BurnAlpha? || t.call.RecycleAlpha? {
      BuybackBooks(r, m, a, txs, moved, t, s, token, next);
    } else if t.call.TransferStake? {
      SweepBooks(r, m, a, txs, moved, t, s, token, next);
    } else {
      TransferBooks(r, m, a, txs, moved, t, s, token, next);
    }
    ApplyKeeps(moved.(pending := Some(LegacyJournal(t, token))), t.receipt, s);
    NextStage(r, m, a, t, s, e, next, Turn(e, t, s, token).value);
  }

  lemma BoughtSomething(e: Record)
    requires RecordOk(e)
    ensures e.consolidated <= |e.positions|
    ensures e.buyback.Some? ==> e.buyback.value.alphaBought > 0
  {
  }

  lemma FreshOk(r: Record, m: LegacyManifest)
    requires Ready(r, m)
    ensures RecordOk(Fresh(r, m))
  {
  }

  lemma {:induction false} AllRefine(r: Record, m: LegacyManifest, txs: seq<LegacyTransaction>, ss: seq<EventSummary>, token: Token)
    requires Ready(r, m) && r.state != Pending && |txs| == |ss| && ListOk(r, m, txs) && AuditAll(r, m, txs, ss).Ok?
    ensures Turns(Fresh(r, m), txs, ss, token).Ok?
    ensures Simulates(r, m, AuditAll(r, m, txs, ss).value, Receipts(txs), Turns(Fresh(r, m), txs, ss, token).value)
  {
    hide AuditStep, Turn, RecordOk, ListedOk, Apart;
    if txs == [] {
      FreshOk(r, m);
    } else {
      var n := |txs| - 1;
      ListOkPrefix(r, m, txs, n);
      AllRefine(r, m, txs[..n], ss[..n], token);
      var a, mid := AuditAll(r, m, txs[..n], ss[..n]).value, Turns(Fresh(r, m), txs[..n], ss[..n], token).value;
      StepRefines(r, m, a, Receipts(txs[..n]), mid, txs[n], ss[n], token);
      assert Receipts(txs) == Receipts(txs[..n]) + [txs[n].receipt];
    }
  }

  // ---------------------------------------------------------------- soundness

  /** The accounts replay checks. */
  predicate SameAccounts(e: Record, r: Record) {
    && e.fundedTao == r.fundedTao && e.sweptAlpha == r.sweptAlpha && e.positions == r.positions
    && e.consolidated == r.consolidated && e.dustReturned == r.dustReturned
    && e.buyback == r.buyback && e.txs == r.txs
  }

  /** What accepting means: the audit runs through and its conclusion is the record. */
  lemma ReplayConcludes(r: Record, m: LegacyManifest, ss: seq<EventSummary>)
    requires ReplayOf(r, m, ss).Ok?
    ensures Ready(r, m) && ListOk(r, m, m.transactions) && Receipts(m.transactions) == r.txs && |ss| == |m.transactions|
    ensures AuditAll(r, m, m.transactions, ss).Ok?
    ensures Conclude(r, m, AuditAll(r, m, m.transactions, ss).value) == ReplayOf(r, m, ss)
  {
  }

  lemma ConcludeShape(r: Record, m: LegacyManifest, a: Audit)
    requires Conclude(r, m, a).Ok?
    ensures Conclude(r, m, a).value == Adopt(r, m)
    ensures Reproduces(r, m, a, Sum(Amounts(a.positions)))
  {
  }

  /** Replay soundness: an accepted job's receipts are a run of permitted engine sends that, folded
      with the engine's own `apply` from the freshly detected job, end in exactly the stored accounts,
      in a stage no later than the stored one. */
  lemma ReplayIsSound(r: Record, m: LegacyManifest, ss: seq<EventSummary>, token: Token)
    requires ReplayOf(r, m, ss).Ok?
    ensures m.treasuryHotkey.Ss58? && |ss| == |m.transactions|
    ensures var e := Turns(Fresh(r, m), m.transactions, ss, token);
      && e.Ok? && SameAccounts(e.value, r) && RecordOk(e.value) && e.value.quarantined.None?
      && Rank(e.value) <= RankOf(AuditStage(r))
  {
    hide ReplayOf, Conclude, AuditAll, RecordOk, ListOk;
    ReplayConcludes(r, m, ss);
    FreshOk(r, m);
    if r.state == Pending {
      NothingToReplay(r, m, ss);
    } else {
      AllRefine(r, m, m.transactions, ss, token);
      var a := AuditAll(r, m, m.transactions, ss).value;
      ConcludeShape(r, m, a);
      AcceptedStage(r, m, ss);
      FinalAccounts(r, m, a, Turns(Fresh(r, m), m.transactions, ss, token).value);
    }
  }

  /** A `move_stake` of a position onto its own hotkey. */
  predicate MovesOntoItself(call: ChainCall) {
    call.MoveStake? && call.fromHotkey == call.toHotkey
  }

  /** The engine itself may make every one of the sends, in the order given. */
  predicate AllSent(e: Record, txs: seq<LegacyTransaction>, ss: seq<EventSummary>, token: Token)
    requires |txs| == |ss|
  {
    txs == []
    || (var n := |txs| - 1;
        && AllSent(e, txs[..n], ss[..n], token)
        && Turns(e, txs[..n], ss[..n], token).Ok?
        && SentNext(Turns(e, txs[..n], ss[..n], token).value, txs[n]))
  }

  /** After the silent moves it needs, the send is one the engine makes. */
  predicate SentNext(e: Record, t: LegacyTransaction) {
    && ActionOf(t.call).Some?
    && var moved := Silently(e, StageFor(ActionOf(t.call).value));
       moved.Ok? && SendOk(moved.value, moved.value, ActionOf(t.call).value, t.call, t.signer)
  }

  lemma PermittedExactly(e: Record, t: LegacyTransaction)
    requires Permitted(e, t)
    ensures SendOk(e, e, ActionOf(t.call).value, t.call, t.signer) <==> !MovesOntoItself(t.call)
  {
  }

  lemma {:induction false} TurnsAreSent(e: Record, txs: seq<LegacyTransaction>, ss: seq<EventSummary>, token: Token)
    requires |txs| == |ss| && Turns(e, txs, ss, token).Ok?
    ensures AllSent(e, txs, ss, token) <==> forall k :: 0 <= k < |txs| ==> !MovesOntoItself(txs[k].call)
  {
    hide SendOk, SelfMove, ApplyTx, Silently, MovesOntoItself;
    if txs != [] {
      var n := |txs| - 1;
      TurnsAreSent(e, txs[..n], ss[..n], token);
      var mid := Turns(e, txs[..n], ss[..n], token).value;
      PermittedExactly(Silently(mid, StageFor(ActionOf(txs[n].call).value)).value, txs[n]);
      if forall k :: 0 <= k < n ==> !MovesOntoItself(txs[..n][k].call) {
        forall k | 0 <= k < n ensures !MovesOntoItself(txs[k].call) { assert txs[..n][k] == txs[k]; }
      }
    }
  }

  /** Exactly when an accepted history is the engine's own: every turn is a send the engine makes if
      and only if the manifest holds no `move_stake` from a hotkey to itself. */
  lemma AcceptedIsSentExactly(r: Record, m: LegacyManifest, ss: seq<EventSummary>, token: Token)
    requires ReplayOf(r, m, ss).Ok?
    ensures m.treasuryHotkey.Ss58? && |ss| == |m.transactions|
    ensures AllSent(Fresh(r, m), m.transactions, ss, token) <==>
      forall k :: 0 <= k < |m.transactions| ==> !MovesOntoItself(m.transactions[k].call)
  {
    hide ReplayOf, Turns, AllSent;
    ReplayIsSound(r, m, ss, token);
    TurnsAreSent(Fresh(r, m), m.transactions, ss, token);
  }

  /** A job not past detection has done nothing. */
  predicate Untouched(r: Record) {
    r.fundedTao == 0 && r.positions == [] && r.consolidated == 0 && !r.dustReturned && r.buyback.None?
  }

  lemma AcceptedStage(r: Record, m: LegacyManifest, ss: seq<EventSummary>)
    requires ReplayOf(r, m, ss).Ok?
    ensures r.state == Pending || AuditStage(r) == Detected || AuditStage(r) == Funded || AuditStage(r) == Swept
    ensures AuditStage(r) == Detected ==> Untouched(r)
  {
  }

  lemma FinalAccounts(r: Record, m: LegacyManifest, a: Audit, e: Record)
    requires Ready(r, m) && Reproduces(r, m, a, Sum(Amounts(a.positions)))
    requires Simulates(r, m, a, r.txs, e)
    requires AuditStage(r) == Detected || AuditStage(r) == Funded || AuditStage(r) == Swept
    requires AuditStage(r) == Detected ==> Untouched(r)
    ensures SameAccounts(e, r) && RecordOk(e) && e.quarantined.None? && Rank(e) <= RankOf(AuditStage(r))
  {
  }

  lemma NothingToReplay(r: Record, m: LegacyManifest, ss: seq<EventSummary>)
    requires ReplayOf(r, m, ss).Ok? && r.state == Pending && m.treasuryHotkey.Ss58?
    ensures m.transactions == [] && SameAccounts(Fresh(r, m), r)
  {
  }

  /** The ledger that stored accounts call for. */
  predicate LedgerMatches(r: Record, l: Ledger) {
    && l.funded == (if r.fundedTao > 0 then Some(r.fundedTao) else None)
    && l.sweeps == Amounts(r.positions) && r.sweptAlpha == Sum(l.sweeps)
    && l.moves == r.consolidated && (l.dust <==> r.dustReturned)
    && l.spent == (if r.buyback.Some? then Some(r.buyback.value.taoSpent) else None)
    && l.destroyed == (if r.buyback.Some? && r.buyback.value.destroyTx.Some?
                       then Some((r.buyback.value.destroyTx.value.action, r.buyback.value.alphaDestroyed)) else None)
  }

  /** Replay counts a consolidation for each `move_stake` and dust for a `transfer_all`. */
  lemma {:induction false} AuditCounts(r: Record, m: LegacyManifest, txs: seq<LegacyTransaction>, ss: seq<EventSummary>)
    requires Ready(r, m) && |txs| == |ss| && ListOk(r, m, txs) && AuditAll(r, m, txs, ss).Ok?
    ensures var a := AuditAll(r, m, txs, ss).value;
      && CountName(Receipts(txs), MoveStakeName) == a.consolidated
      && CountName(Receipts(txs), TransferAllName) == (if a.dust then 1 else 0)
  {
    hide Apart, AuditStep, ListedOk;
    if txs != [] {
      var n := |txs| - 1;
      ListOkPrefix(r, m, txs, n);
      AuditCounts(r, m, txs[..n], ss[..n]);
      assert Receipts(txs)[..n] == Receipts(txs[..n]);
      StepCounts(r, m, AuditAll(r, m, txs[..n], ss[..n]).value, txs[n], ss[n]);
    }
  }

  lemma StepCounts(r: Record, m: LegacyManifest, a: Audit, t: LegacyTransaction, s: EventSummary)
    requires Ready(r, m) && ListedOk(r, m, t) && AuditStep(r, m, a, t, s).Ok?
    ensures var next := AuditStep(r, m, a, t, s).value;
      && next.consolidated == a.consolidated + (if t.receipt.action == MoveStakeName then 1 else 0)
      && (next.dust <==> a.dust || t.receipt.action == TransferAllName)
      && (t.receipt.action == TransferAllName ==> !a.dust)
  {
    hide Honest, HasHotkey, Consolidated, DustSettled, Apart;
  }

  /** The receipts come in the order Fund? Sweep* Move* Dust? Buy? Destroy?, and as a ledger they are
      exactly the stored accounts. */
  lemma ReplayedOrder(r: Record, m: LegacyManifest, ss: seq<EventSummary>)
    requires ReplayOf(r, m, ss).Ok?
    ensures LedgerOf(r.txs).Some? && LedgerMatches(r, LedgerOf(r.txs).value)
  {
    hide ReplayOf, Turns, AuditAll, Conclude, RecordOk, LedgerOf, CountName;
    ReplayIsSound(r, m, ss, "");
    ReplayConcludes(r, m, ss);
    ConcludeShape(r, m, AuditAll(r, m, m.transactions, ss).value);
    AuditCounts(r, m, m.transactions, ss);
    OrderOfAccounts(Turns(Fresh(r, m), m.transactions, ss, "").value, r);
  }

  lemma OrderOfAccounts(e: Record, r: Record)
    requires RecordOk(e) && e.quarantined.None? && SameAccounts(e, r)
    requires CountName(r.txs, MoveStakeName) == r.consolidated
    requires CountName(r.txs, TransferAllName) == (if r.dustReturned then 1 else 0)
    ensures LedgerOf(r.txs).Some? && LedgerMatches(r, LedgerOf(r.txs).value)
  {
    hide CountName, LedgerOf, Sum, PolicyFits, PurchaseFits, StageFits, PendingFits, FailureFits, SettledFits;
    LedgerCounts(r.txs);
    assert LedgerOf(r.txs).value.sweeps == Amounts(r.positions);
  }

  // ---------------------------------------------------------------- the recovered record

  /** `failed_from` as the state machine leaves it: an active state the record has not fallen behind. */
  predicate FailedFromFits(r: Record) {
    r.failedFrom.Some? ==> r.failedFrom.value.IsActive() && RankOf(r.failedFrom.value) <= Rank(r)
  }

  /** A recovered record satisfies everything the engine relies on, as if the engine had produced it,
      if and only if its `failed_from` is one the state machine leaves; replay does not look at it. */
  lemma RecoveredRecordOk(r: Record, m: LegacyManifest, ss: seq<EventSummary>)
    requires ReplayOf(r, m, ss).Ok?
    ensures ReplayOf(r, m, ss).value == Adopt(r, m)
    ensures RecordOk(Adopt(r, m)) <==> FailedFromFits(r)
  {
    hide Turns;
    ReplayIsSound(r, m, ss, "");
    AcceptedAddresses(r, m);
    RecoveredShape(r, m, ss);
    if FailedFromFits(r) { AdoptedOk(r, m, Turns(Fresh(r, m), m.transactions, ss, "").value); }
  }

  /** What replay checked about the stage and about a purchase declared done. */
  lemma RecoveredShape(r: Record, m: LegacyManifest, ss: seq<EventSummary>)
    requires ReplayOf(r, m, ss).Ok? && m.treasuryHotkey.Ss58? && |ss| == |m.transactions|
    ensures ReplayOf(r, m, ss).value == Adopt(r, m)
    ensures AuditStage(r) == Funded ==> r.consolidated == 0 && !r.dustReturned && r.buyback.None?
    ensures r.buybackDone ==> r.buyback.Some? && m.budget.Some? && (m.budget.value.destroy == Keep || r.buyback.value.destroyTx.Some?)
    ensures var e := Turns(Fresh(r, m), m.transactions, ss, ""); e.Ok? ==> SameFrame(Fresh(r, m), e.value)
  {
    hide ReplayOf, Conclude, AuditAll, RecordOk, ListOk;
    ReplayConcludes(r, m, ss);
    ConcludeShape(r, m, AuditAll(r, m, m.transactions, ss).value);
    if r.state == Pending {
      NothingToReplay(r, m, ss);
    } else {
      AllRefine(r, m, m.transactions, ss, "");
      BudgetedPurchase(Turns(Fresh(r, m), m.transactions, ss, "").value);
    }
  }

  lemma BudgetedPurchase(e: Record)
    requires RecordOk(e)
    ensures e.buyback.Some? ==> e.budget.Some?
  {
  }

  predicate SameFrame(f: Record, e: Record) {
    e.identity == f.identity && e.budget == f.budget && e.autoRequired == f.autoRequired && e.detectedTao == f.detectedTao
  }

  lemma AdoptedOk(r: Record, m: LegacyManifest, e: Record)
    requires Recoverable(r, m) && Canonical(m.treasury) && m.treasuryHotkey.Ss58? && FailedFromFits(r)
    requires Receipts(m.transactions) == r.txs
    requires RecordOk(e) && SameAccounts(e, r) && SameFrame(Fresh(r, m), e) && e.quarantined.None?
    requires AuditStage(r) == Funded ==> r.consolidated == 0 && !r.dustReturned && r.buyback.None?
    requires r.buybackDone ==> r.buyback.Some? && m.budget.Some? && (m.budget.value.destroy == Keep || r.buyback.value.destroyTx.Some?)
    ensures RecordOk(Adopt(r, m))
  {
    var z := Adopt(r, m);
    assert AppliedTxs(z) == AppliedTxs(e);
    assert BooksMatch(z, LedgerOf(AppliedTxs(e)).value);
    assert StageFits(z);
  }

  /** The engine steps the record, whatever the chain answers, instead of refusing its identity. */
  ghost predicate Steps(cfg: EngineConfig, rec: Record) {
    forall q: Reads :: Decide(cfg, rec, q) != WRONG_IDENTITY
  }

  lemma StepsExactly(cfg: EngineConfig, rec: Record)
    ensures Steps(cfg, rec) <==> rec.identity == Some(Identity(cfg))
  {
    if rec.identity == Some(Identity(cfg)) {
      forall q: Reads ensures Decide(cfg, rec, q) != WRONG_IDENTITY { IdentityPasses(cfg, rec, q); }
    } else {
      var q := Reads([], 0, (p: StakePosition) => 0, 0, 0, (a: AccountId) => 0, 0, 0, 0, false);
      assert Decide(cfg, rec, q) == WRONG_IDENTITY;
    }
  }

  lemma IdentityPasses(cfg: EngineConfig, rec: Record, q: Reads)
    requires rec.identity == Some(Identity(cfg))
    ensures Decide(cfg, rec, q) != WRONG_IDENTITY
  {
    match rec.state
    case Pending => PendingStops(rec, q);
    case _ =>
  }

  lemma PendingStops(rec: Record, q: Reads)
    ensures DecidePending(rec, q) != WRONG_IDENTITY
  {
  }

  /** Some engine steps the recovered job if and only if the manifest spells the treasury hotkey the
      generic way; the code accepts any spelling that parses. */
  lemma RecoveredStepsExactly(r: Record, m: LegacyManifest, ss: seq<EventSummary>)
    requires ReplayOf(r, m, ss).Ok?
    ensures (exists cfg: EngineConfig :: Steps(cfg, Adopt(r, m))) <==> Canonical(m.treasuryHotkey)
  {
    hide ReplayOf, Steps;
    ReplayConcludes(r, m, ss);
    forall cfg: EngineConfig ensures Steps(cfg, Adopt(r, m)) <==> Adopt(r, m).identity == Some(Identity(cfg)) {
      StepsExactly(cfg, Adopt(r, m));
    }
    if Canonical(m.treasuryHotkey) {
      var cfg := EngineConfig(m.genesisHash, m.treasury.account, m.treasuryHotkey.account, m.consolidate, m.returnDust,
                              0, 0, None, false, None, 0, 0, 0, 0, 0);
      assert Adopt(r, m).identity == Some(Identity(cfg));
    }
  }

  // ---------------------------------------------------------------- the exceptions are real

  /** An operator statement long enough to be accepted. */
  predicate Statement(note: string) {
    Text.ByteLen(Text.Trim(note)) >= 16 && Text.ByteLen(note) <= 4096
  }

  /** A job nothing has happened to, and a manifest without transactions. */
  function IdleJob(failedFrom: Option<PaymentState>): Record {
    Record("job", Ss58Of(2), 1, 0, None, 0, Pending, 0, 0, 0, 0, 0, [], None, None, None, None,
           0, 0, None, failedFrom, None, None, [], 0, false, false, false)
  }

  function IdleManifest(hotkey: Address, note: string): LegacyManifest {
    LegacyManifest("job", 0, "genesis", Ss58Of(1), hotkey, false, false, None, 1, 1, 1, note, true, [])
  }

  lemma IdleAccepted(failedFrom: Option<PaymentState>, hotkey: Address, note: string)
    requires Statement(note) && hotkey.Ss58?
    ensures ReplayOf(IdleJob(failedFrom), IdleManifest(hotkey, note), []).Ok?
  {
    var r, m := IdleJob(failedFrom), IdleManifest(hotkey, note);
    assert Receipts(m.transactions) == r.txs;
    assert CheckManifest(r, m).Ok?;
    assert AuditAll(r, m, [], []) == Ok(NO_HISTORY);
    assert Amounts([]) == [];
  }

  /** A manifest that spells the treasury hotkey under another prefix is accepted, and then no engine
      steps the job. */
  lemma ForeignHotkeyAccepted(prefix: nat, note: string)
    requires Statement(note) && prefix != 42
    ensures var r, m := IdleJob(None), IdleManifest(Ss58(3, prefix), note);
      ReplayOf(r, m, []).Ok? && forall cfg: EngineConfig :: !Steps(cfg, Adopt(r, m))
  {
    hide ReplayOf, Steps;
    IdleAccepted(None, Ss58(3, prefix), note);
    RecoveredStepsExactly(IdleJob(None), IdleManifest(Ss58(3, prefix), note), []);
  }

  /** A waiting record that claims to have failed in a later stage is accepted, and then breaks the
      record invariant. */
  lemma StaleFailureAccepted(note: string)
    requires Statement(note)
    ensures var r, m := IdleJob(Some(Swept)), IdleManifest(Ss58Of(3), note);
      ReplayOf(r, m, []).Ok? && !RecordOk(Adopt(r, m))
  {
    hide ReplayOf, RecordOk;
    IdleAccepted(Some(Swept), Ss58Of(3), note);
    RecoveredRecordOk(IdleJob(Some(Swept)), IdleManifest(Ss58Of(3), note), []);
  }

  function SelfMoveList(): seq<LegacyTransaction> {
    [LegacyTransaction(1, 0, Ss58Of(2), 0, TxRef(TransferStakeName, "sweep", "block", 5), TransferStake(1, 3, 1, 5)),
     LegacyTransaction(1, 1, Ss58Of(1), 0, TxRef(MoveStakeName, "move", "block", 5), MoveStake(3, 3, 1, 5))]
  }

  function SelfMoveEvents(): seq<EventSummary> {
    [EventSummary([ExtrinsicSuccess, StakeTransferred], false, None, None, None, None),
     EventSummary([ExtrinsicSuccess, StakeMoved], false, None, None, None, None)]
  }

  function SelfMoveJob(): Record {
    Record("job", Ss58Of(2), 1, 0, None, 0, Swept, 0, 0, 0, 0, 5, Receipts(SelfMoveList()), None, None, None, None,
           0, 0, None, None, None, None, [(Ss58Of(3), 5)], 1, false, false, false)
  }

  function SelfMoveManifest(note: string): LegacyManifest {
    LegacyManifest("job", 0, "genesis", Ss58Of(1), Ss58Of(3), true, false, None, 1, 1, 1, note, true, SelfMoveList())
  }

  /** A job swept from the treasury's own hotkey and then moved onto itself is accepted, though the
      engine skips such a move. */
  lemma SelfMoveAccepted(note: string, token: Token)
    requires Statement(note)
    ensures var r, m := SelfMoveJob(), SelfMoveManifest(note);
      ReplayOf(r, m, SelfMoveEvents()).Ok? && !AllSent(Fresh(r, m), m.transactions, SelfMoveEvents(), token)
  {
    hide ReplayOf, AllSent, Fresh;
    SelfMoveReplays(note);
    AcceptedIsSentExactly(SelfMoveJob(), SelfMoveManifest(note), SelfMoveEvents(), token);
    assert MovesOntoItself(SelfMoveManifest(note).transactions[1].call);
  }

  lemma SelfMoveReplays(note: string)
    requires Statement(note)
    ensures ReplayOf(SelfMoveJob(), SelfMoveManifest(note), SelfMoveEvents()).Ok?
  {
    hide CheckManifest, AuditStep, Conclude, Statement;
    var m, ss := SelfMoveManifest(note), SelfMoveEvents();
    var r, txs := SelfMoveJob(), m.transactions;
    SelfMoveChecked(note);
    SelfMoveAudited(r, m);
    SelfMoveConcluded(r, m);
    assert txs[..1] == [txs[0]] && txs[..1][..0] == [] && ss[..1] == [ss[0]] && ss[..1][..0] == [];
    assert AuditAll(r, m, txs[..1], ss[..1]) == AuditStep(r, m, NO_HISTORY, txs[0], ss[0]);
    assert AuditAll(r, m, txs, ss) == AuditStep(r, m, AuditAll(r, m, txs[..1], ss[..1]).value, txs[1], ss[1]);
  }

  lemma SelfMoveAudited(r: Record, m: LegacyManifest)
    requires r.address == Ss58Of(2) && r.netuid == 1
    requires m.treasury == Ss58Of(1) && m.treasuryHotkey == Ss58Of(3) && m.consolidate
    ensures AuditStep(r, m, NO_HISTORY, SelfMoveList()[0], SelfMoveEvents()[0]) == Ok(NO_HISTORY.(positions := [(Ss58Of(3), 5)]))
    ensures AuditStep(r, m, NO_HISTORY.(positions := [(Ss58Of(3), 5)]), SelfMoveList()[1], SelfMoveEvents()[1])
         == Ok(NO_HISTORY.(positions := [(Ss58Of(3), 5)], consolidated := 1, postSweep := true))
  {
    assert NO_HISTORY.positions + [(Ss58Of(3), 5)] == [(Ss58Of(3), 5)];
  }

  lemma SelfMoveConcluded(r: Record, m: LegacyManifest)
    requires r == SelfMoveJob()
    ensures Conclude(r, m, NO_HISTORY.(positions := [(Ss58Of(3), 5)], consolidated := 1, postSweep := true)).Ok?
  {
    SumAppend([], 5);
    assert Amounts(r.positions) == [] + [5];
  }

  lemma SelfMoveChecked(note: string)
    requires Statement(note)
    ensures CheckManifest(SelfMoveJob(), SelfMoveManifest(note)).Ok?
  {
    hide Text.ByteLen, Text.Trim;
    var r, m := SelfMoveJob(), SelfMoveManifest(note);
    assert Recoverable(r, m) && Attested(m);
    assert ListOk(r, m, m.transactions);
  }
}
