/** Jobs finish: every applied result and every silent advance uses up a bounded amount of work. */
module Progress {
  import opened Basics
  import opened Keys
  import opened Calls
  import opened State
  import opened ChainScan
  import opened Store
  import opened Engine
  import opened Accounting
  import opened Protocol
  import opened ProtocolSteps
  import opened Safety

  function SweptKeys(ps: seq<(Address, nat)>): set<Address> {
    set k | 0 <= k < |ps| :: ps[k].0
  }

  function One(missing: bool): nat {
    if missing then 1 else 0
  }

  /** Work left for a job whose stake sits under the hotkeys `all`: stages to go, hotkeys to sweep,
      positions to consolidate, the wallet to empty, the purchase, its destruction, its completion. */
  function Remaining(r: Record, all: set<Address>): int {
    (4 - Rank(r)) + (|all| - |r.positions|) + (|all| - r.consolidated)
    + One(!r.dustReturned) + One(r.buyback.None?)
    + One(r.buyback.None? || r.buyback.value.destroyTx.None?) + One(!r.buybackDone)
  }

  lemma {:induction false} DistinctCount(ps: seq<(Address, nat)>)
    requires forall k, m :: 0 <= k < m < |ps| ==> ps[k].0 != ps[m].0
    ensures |SweptKeys(ps)| == |ps|
  {
    if ps != [] {
      var front, last := ps[..|ps| - 1], ps[|ps| - 1].0;
      DistinctCount(front);
      assert SweptKeys(ps) == SweptKeys(front) + {last};
      assert last !in SweptKeys(front);
    }
  }

  lemma SubsetCount<T>(small: set<T>, big: set<T>)
    requires small <= big
    ensures |small| <= |big|
  {
    assert big == small + (big - small);
  }

  /** No hotkey is swept twice, so there are at most as many positions as hotkeys. */
  lemma PositionsBounded(r: Record, all: set<Address>)
    requires PositionsFit(r) && SweptKeys(r.positions) <= all
    ensures |r.positions| <= |all|
  {
    DistinctCount(r.positions);
    SubsetCount(SweptKeys(r.positions), all);
  }

  lemma RemainingBounds(r: Record, all: set<Address>)
    requires PositionsFit(r) && SweptKeys(r.positions) <= all
    ensures 0 <= Remaining(r, all) <= 2 * |all| + 8
  {
    PositionsBounded(r, all);
  }

  /** No stored version adds work: not failing, not a retry, not a forced sweep, not a resolution. */
  lemma WorkNeverGrows(prev: Record, next: Record, all: set<Address>)
    requires Follows(prev, next)
    ensures Remaining(next, all) <= Remaining(prev, all)
  {
  }

  /** Something happened to the job: a receipt was applied, its stage changed, a consolidation or the
      dust step was done or skipped, or its buyback was completed. */
  predicate Happens(prev: Record, next: Record) {
    || |AppliedTxs(next)| > |AppliedTxs(prev)|
    || Stage(next) != Stage(prev)
    || next.consolidated != prev.consolidated || next.dustReturned != prev.dustReturned
    || next.buybackDone != prev.buybackDone
  }

  /** Using a free slot up uses up work. */
  lemma SlotUsesWork(prev: Record, next: Record, slot: Slot, all: set<Address>)
    requires Follows(prev, next) && !Used(prev, slot) && Used(next, slot)
    ensures Remaining(next, all) < Remaining(prev, all)
  {
  }

  /** Whatever happens to a stored record uses up work. */
  lemma HappeningUsesWork(prev: Record, next: Record, all: set<Address>)
    requires RecordOk(prev) && RecordOk(next) && Follows(prev, next) && Receipted(prev, next) && Happens(prev, next)
    ensures Remaining(next, all) < Remaining(prev, all)
  {
    hide Books, PolicyFits, PositionsFit, PurchaseFits, StageFits, SettledFits;
    if |AppliedTxs(next)| > |AppliedTxs(prev)| {
      PendingSlotIsFree(prev);
      SlotUsesWork(prev, next, SlotOf(prev.pending.value.action), all);
    } else {
      StagesRank(prev, next);
    }
  }

  lemma StagesRank(prev: Record, next: Record)
    requires FailureFits(prev) && FailureFits(next)
    ensures Stage(prev) != Stage(next) ==> Rank(prev) != Rank(next)
  {
  }

  /** Every applied result happens, and uses up work. */
  lemma ApplyUsesWork(r: Record, tx: TxRef, s: EventSummary, all: set<Address>)
    requires RecordOk(r) && r.pending.Some?
    requires tx.action == ActionName(r.pending.value.action) && tx.amount == r.pending.value.amount
    requires ApplyTx(r, tx, s).Ok?
    ensures Happens(r, ApplyTx(r, tx, s).value) && Remaining(ApplyTx(r, tx, s).value, all) < Remaining(r, all)
  {
    hide ApplyTx, Used, RecordOk, Follows, Happens;
    ApplyKeeps(r, tx, s);
    ApplyHappens(r, tx, s);
    HappeningUsesWork(r, ApplyTx(r, tx, s).value, all);
  }

  /** Every silent write of a step happens and uses up work, except expiring an unpaid job and the
      delivery bookkeeping of a settled one. */
  lemma SaveUsesWork(cfg: EngineConfig, r: Record, q: Reads, all: set<Address>)
    requires RecordOk(r) && Decide(cfg, r, q).Save? && r.state != Settled
    requires Decide(cfg, r, q).rec.state != Expired
    ensures Happens(r, Decide(cfg, r, q).rec) && Remaining(Decide(cfg, r, q).rec, all) < Remaining(r, all)
  {
    hide RecordOk, Follows, Decide, Happens;
    SaveKeeps(cfg, r, q);
    SaveShape(cfg, r, q);
    SaveHappens(cfg, r, q);
    HappeningUsesWork(r, Decide(cfg, r, q).rec, all);
  }

  lemma SaveHappens(cfg: EngineConfig, r: Record, q: Reads)
    requires Decide(cfg, r, q).Save? && r.state != Settled && Decide(cfg, r, q).rec.state != Expired
    ensures Happens(r, Decide(cfg, r, q).rec)
  {
    hide DecideSwept, AppliedTxs;
    match r.state
    case Pending =>
    case Detected =>
    case Funded =>
    case Swept => SweptHappens(cfg, r, q);
    case _ =>
  }

  lemma SweptHappens(cfg: EngineConfig, r: Record, q: Reads)
    requires DecideSwept(cfg, r, q).Save? && r.state == Swept
    ensures Happens(r, DecideSwept(cfg, r, q).rec)
  {
    hide DecideBuyback, AppliedTxs;
    BuybackHappens(cfg, r, q);
    BuybackHappens(cfg, r.(dustReturned := true), q);
  }

  lemma BuybackHappens(cfg: EngineConfig, r: Record, q: Reads)
    requires r.state == Swept
    ensures DecideBuyback(cfg, r, q).Save? ==>
      var c := DecideBuyback(cfg, r, q).rec;
      c.dustReturned == r.dustReturned && (c.state == Settled || c.buybackDone != r.buybackDone)
  {
  }

  // ---------------------------------------------------------------- the steps that count

  /** Storing `rec` over the version it was built on makes happen what `rec` says. */
  lemma StoredHappens(db: Db, r: Record, rec: Record)
    requires Copy(db, r) && rec.id == r.id && rec.version == r.version && Update(db, rec).0.Ok? && Happens(r, rec)
    ensures r.id in db.payments && Happens(db.payments[r.id], Update(db, rec).1.payments[r.id])
  {
    UpdateOnCurrent(db, rec);
  }

  lemma CopyOf(s: System, w: nat)
    requires Inv(s) && w < |s.workers| && (s.workers[w].Holding? || s.workers[w].Waiting? || s.workers[w].Scanned?)
    ensures Copy(s.db, s.workers[w].r)
    ensures !s.workers[w].Holding? ==> s.workers[w].r.pending.Some?
    ensures s.workers[w].Scanned? ==> s.workers[w].r.pending == Some(s.workers[w].p)
  {
    hide RecordsOk, JournalsLogged, LogOk, LogSettled, ReceiptsOk, Copy;
    assert WorkerOk(s, s.workers[w]);
  }

  lemma CurrentIsSound(s: System, r: Record, rec: Record)
    requires Inv(s) && Copy(s.db, r) && rec.id == r.id && rec.version == r.version && Update(s.db, rec).0.Ok?
    ensures RecordOk(r)
  {
    UpdateOnCurrent(s.db, rec);
    assert RecordOk(s.db.payments[r.id]);
  }

  /** A step that stores a silent write is counted, expiry and delivery bookkeeping apart. */
  lemma StoredSaveHappens(s: System, w: nat, q: Reads, token: Token, rec: Record)
    requires Inv(s) && w < |s.workers| && s.workers[w].Holding?
    requires var d := Decide(s.workers[w].cfg, s.workers[w].r, q); d.Save? && d.rec == rec
    requires Update(s.db, rec).0.Ok? && s.workers[w].r.state != Settled && rec.state != Expired
    ensures var id := s.workers[w].r.id; var t := Exec(s, Step(w, q, token));
      id in s.db.payments && id in t.db.payments && Happens(s.db.payments[id], t.db.payments[id])
  {
    hide Inv, Decide, Update, Happens, Copy;
    var wk := s.workers[w];
    CopyOf(s, w);
    SaveShape(wk.cfg, wk.r, q);
    SaveHappens(wk.cfg, wk.r, q);
    StoredHappens(s.db, wk.r, rec);
    UpdateOnCurrent(s.db, rec);
  }

  /** An inline reply that is applied and stored is counted. */
  lemma StoredReplyHappens(s: System, w: nat, n: nat, i: nat, f: FinalizedTx, rec: Record)
    requires Inv(s) && w < |s.workers| && s.workers[w].Waiting? && At(s.blocks, n, i, s.workers[w].tx.txHash)
    requires BroadcastReply(s.workers[w].tx, s.blocks[n].hash, s.blocks[n].exts[i].events) == Ok(f)
    requires ApplyTx(s.workers[w].r, f.tx, f.summary) == Ok(rec) && Update(s.db, rec).0.Ok?
    ensures var id := s.workers[w].r.id; var t := Exec(s, Reply(w, n, i));
      id in s.db.payments && id in t.db.payments && Happens(s.db.payments[id], t.db.payments[id])
  {
    hide Inv, ApplyTx, BroadcastReply, Update, Happens, Copy, RecordOk;
    var wk := s.workers[w];
    CopyOf(s, w);
    ApplyShape(wk.r, f.tx, f.summary);
    CurrentIsSound(s, wk.r, rec);
    ApplyHappens(wk.r, f.tx, f.summary);
    StoredHappens(s.db, wk.r, rec);
    UpdateOnCurrent(s.db, rec);
  }

  lemma ApplyHappens(r: Record, tx: TxRef, s: EventSummary)
    requires RecordOk(r) && r.pending.Some? && ApplyTx(r, tx, s).Ok?
    ensures Happens(r, ApplyTx(r, tx, s).value)
  {
    hide PolicyFits, PositionsFit, PurchaseFits, StageFits, SettledFits, Books, FailureFits, RankOf;
  }

  /** A journal found successful on chain, applied and stored, is counted. */
  lemma StoredOutcomeHappens(s: System, w: nat, now: nat, rec: Record)
    requires Inv(s) && w < |s.workers| && s.workers[w].Scanned? && s.workers[w].outcome.Included?
    requires var wk := s.workers[w];
      !wk.outcome.summary.failed && ApplyTx(wk.r, ReceiptOf(wk.p, wk.outcome.blockHash), wk.outcome.summary) == Ok(rec)
    requires Update(s.db, rec).0.Ok?
    ensures var id := s.workers[w].r.id; var t := Exec(s, StoreOutcome(w, now));
      id in s.db.payments && id in t.db.payments && Happens(s.db.payments[id], t.db.payments[id])
  {
    hide Inv, ApplyTx, Update, Happens, Copy, RecordOk;
    var wk := s.workers[w];
    var tx := ReceiptOf(wk.p, wk.outcome.blockHash);
    CopyOf(s, w);
    ApplyShape(wk.r, tx, wk.outcome.summary);
    CurrentIsSound(s, wk.r, rec);
    ApplyHappens(wk.r, tx, wk.outcome.summary);
    StoredHappens(s.db, wk.r, rec);
    UpdateOnCurrent(s.db, rec);
  }

  /** Steps of a run in which something happened to job `j`. */
  ghost function Happenings(s: System, ls: seq<Label>, j: string): nat {
    if ls == [] then 0
    else
      var front := ls[..|ls| - 1];
      Happenings(s, front, j)
      + One(j in Run(s, front).db.payments && j in Run(s, ls).db.payments
            && Happens(Run(s, front).db.payments[j], Run(s, ls).db.payments[j]))
  }

  lemma {:induction false} HappeningsUseWork(s: System, ls: seq<Label>, j: string, all: set<Address>)
    requires Inv(s) && j in s.db.payments
    ensures j in Run(s, ls).db.payments
    ensures Happenings(s, ls, j) <= Remaining(s.db.payments[j], all) - Remaining(Run(s, ls).db.payments[j], all)
  {
    hide Inv, Remaining, Exec, Happens;
    if ls != [] {
      var front := ls[..|ls| - 1];
      HappeningsUseWork(s, front, j, all);
      RunKeepsInv(s, front);
      StepUsesWork(Run(s, front), ls[|ls| - 1], j, all);
    }
  }

  /** Any step of anyone leaves a job with no more work, and with less if something happened to it. */
  lemma StepUsesWork(s: System, l: Label, j: string, all: set<Address>)
    requires Inv(s) && j in s.db.payments
    ensures j in Exec(s, l).db.payments
    ensures Remaining(Exec(s, l).db.payments[j], all)
      <= Remaining(s.db.payments[j], all) - One(Happens(s.db.payments[j], Exec(s, l).db.payments[j]))
  {
    hide Exec, RecordOk, Follows, Remaining, JournalsLogged, LogOk, ChainOk, LogSettled, ReceiptsOk, WorkersOk;
    ExecKeeps(s, l);
    var t := Exec(s, l);
    assert Evolves(s, t);
    if t.db.payments[j] != s.db.payments[j] {
      WorkNeverGrows(s.db.payments[j], t.db.payments[j], all);
      if Happens(s.db.payments[j], t.db.payments[j]) { HappeningUsesWork(s.db.payments[j], t.db.payments[j], all); }
    }
  }

  /** Over a finite set of `n` hotkeys at most `2n + 8` things happen to a job in any run, whatever is
      interleaved, and it has at most `2n + 4` applied receipts. */
  lemma JobsRunOutOfWork(start: System, ls: seq<Label>, more: seq<Label>, j: string, all: set<Address>)
    requires Initial(start) && j in Run(start, ls).db.payments
    ensures j in Run(Run(start, ls), more).db.payments
    ensures var r := Run(Run(start, ls), more).db.payments[j];
      SweptKeys(r.positions) <= all ==>
        && Happenings(Run(start, ls), more, j) <= 2 * |all| + 8
        && |AppliedTxs(r)| <= 2 * |all| + 4
  {
    hide Exec, Follows, Remaining, JournalsLogged, LogOk, ChainOk, LogSettled, ReceiptsOk, WorkersOk;
    var s := Run(start, ls);
    ReachableInv(start, ls);
    HappeningsUseWork(s, more, j, all);
    RecordsOnlyMoveForward(s, more, j);
    RunKeepsInv(s, more);
    if SweptKeys(Run(s, more).db.payments[j].positions) <= all {
      WorkBounds(s.db.payments[j], Run(s, more).db.payments[j], all);
    }
  }

  lemma WorkBounds(first: Record, last: Record, all: set<Address>)
    requires RecordOk(first) && RecordOk(last) && Follows(first, last) && SweptKeys(last.positions) <= all
    ensures Remaining(first, all) - Remaining(last, all) <= 2 * |all| + 8
    ensures |AppliedTxs(last)| <= 2 * |all| + 4
  {
    assert SweptKeys(first.positions) <= SweptKeys(last.positions);
    RemainingBounds(first, all);
    RemainingBounds(last, all);
    ReceiptBound(last);
    PositionsBounded(last, all);
  }
}
