/** Every step of the protocol keeps its invariant. */
module ProtocolSteps {
  import opened Basics
  import opened Keys
  import opened Calls
  import opened State
  import opened ChainScan
  import opened Store
  import opened Engine
  import opened Accounting
  import opened Protocol

  /** The receipts stay as they are, or the journal's receipt is added: unapplied if the job is
      quarantined, otherwise with its slot used up. */
  predicate Receipted(prev: Record, next: Record) {
    || (next.txs == prev.txs && next.quarantined == prev.quarantined)
    || (&& prev.pending.Some? && |next.txs| == |prev.txs| + 1
        && (next.quarantined.Some? || Used(next, SlotOf(prev.pending.value.action))))
  }

  /** Stored records only ever move to a following version, one at a time. */
  predicate Evolves(s: System, t: System) {
    forall j :: j in s.db.payments ==>
      && j in t.db.payments
      && (t.db.payments[j] == s.db.payments[j]
          || (Follows(s.db.payments[j], t.db.payments[j]) && Receipted(s.db.payments[j], t.db.payments[j])
              && t.db.payments[j].version == s.db.payments[j].version + 1))
  }

  /** Journals are logged once, for the job that holds them now. */
  predicate LogGrows(s: System, t: System) {
    && (forall h :: h in s.journal ==> h in t.journal && t.journal[h] == s.journal[h])
    && (forall h :: h in t.journal && h !in s.journal ==>
          t.journal[h].job in t.db.payments && t.db.payments[t.journal[h].job].pending == Some(t.journal[h].p))
  }

  predicate Advances(s: System, t: System) {
    Evolves(s, t) && LogGrows(s, t)
  }

  // ---------------------------------------------------------------- steps of one worker alone

  /** The invariant apart from the workers. */
  ghost predicate CoreInv(s: System) {
    && RecordsOk(s) && Fenced(s.db) && JournalsLogged(s) && LogOk(s)
    && ChainOk(s) && LogSettled(s) && ReceiptsOk(s)
  }

  predicate SameCore(s: System, t: System) {
    t.db == s.db && t.blocks == s.blocks && t.signed == s.signed && t.journal == s.journal && t.sent == s.sent
  }

  lemma EntryTransfers(s: System, t: System, h: Hash)
    requires s.blocks != [] && SameCore(s, t) && h in s.journal && EntryOk(s, h) && EntrySettled(s, h)
    ensures EntryOk(t, h) && EntrySettled(t, h)
  {
  }

  lemma CoreTransfers(s: System, t: System)
    requires CoreInv(s) && SameCore(s, t)
    ensures CoreInv(t)
  {
    hide RecordOk, Fenced, Keyed, EntryOk, EntrySettled, AppliedTxs, Used, SlotOf;
    forall h | h in t.journal ensures EntryOk(t, h) && EntrySettled(t, h) {
      EntryTransfers(s, t, h);
    }
    forall j | j in t.db.payments ensures JobReceiptsOk(t, j) {
      assert JobReceiptsOk(s, j);
    }
  }

  lemma WorkerTransfers(s: System, t: System, wk: Worker)
    requires s.blocks != [] && WorkerOk(s, wk) && SameCore(s, t)
    ensures WorkerOk(t, wk)
  {
  }

  /** Fresh signed bytes: no other worker holds them. */
  predicate NewBytes(s: System, w: nat, wk: Worker) {
    wk.Prepared? ==> forall v :: 0 <= v < |s.workers| && v != w && s.workers[v].Prepared? ==> s.workers[v].tx.txHash != wk.tx.txHash
  }

  lemma WorkerMoves(s: System, w: nat, wk: Worker)
    requires Inv(s) && w < |s.workers| && WorkerOk(s, wk) && NewBytes(s, w, wk)
    ensures Inv(With(s, w, wk))
  {
    var t := With(s, w, wk);
    CoreTransfers(s, t);
    forall v | 0 <= v < |t.workers| ensures WorkerOk(t, t.workers[v]) {
      WorkerTransfers(s, t, if v == w then wk else s.workers[v]);
    }
  }

  // ---------------------------------------------------------------- steps that touch reservations only

  predicate OnlyRows(s: System, t: System) {
    && t.db.payments == s.db.payments && t.blocks == s.blocks && t.workers == s.workers
    && t.signed == s.signed && t.journal == s.journal && t.sent == s.sent
  }

  lemma RowsKeepEntry(s: System, t: System, h: Hash)
    requires s.blocks != [] && OnlyRows(s, t) && h in s.journal && EntryOk(s, h) && EntrySettled(s, h)
    ensures EntryOk(t, h) && EntrySettled(t, h)
  {
  }

  lemma RowsChange(s: System, t: System)
    requires Inv(s) && OnlyRows(s, t) && Fenced(t.db)
    ensures Inv(t)
  {
    hide RecordOk, Fenced, EntryOk, EntrySettled, AppliedTxs, Used, SlotOf, WorkerOk;
    forall h | h in t.journal ensures EntryOk(t, h) && EntrySettled(t, h) {
      RowsKeepEntry(s, t, h);
    }
    forall j | j in t.db.payments ensures JobReceiptsOk(t, j) {
      assert JobReceiptsOk(s, j);
    }
    forall v | 0 <= v < |t.workers| ensures WorkerOk(t, t.workers[v]) {
      assert WorkerOk(s, s.workers[v]);
      RowsKeepWorker(s, t, t.workers[v]);
    }
  }

  lemma RowsKeepWorker(s: System, t: System, wk: Worker)
    requires s.blocks != [] && OnlyRows(s, t) && WorkerOk(s, wk)
    ensures WorkerOk(t, wk)
  {
  }

  // ---------------------------------------------------------------- record writes

  /** `t` is `s` after storing `next` over `prev`, and possibly logging one new journal. */
  predicate Wrote(s: System, t: System, prev: Record, next: Record) {
    && prev.id in s.db.payments && s.db.payments[prev.id] == prev && next.id == prev.id
    && t.db.payments == s.db.payments[prev.id := next]
    && next.version == prev.version + 1
    && t.blocks == s.blocks && t.workers == s.workers && t.signed == s.signed && t.sent == s.sent
    && (t.journal == s.journal || NewEntry(s, t, next))
  }

  predicate NewEntry(s: System, t: System, next: Record) {
    && next.pending.Some? && next.pending.value.txHash !in s.journal
    && t.journal == s.journal[next.pending.value.txHash := Entry(next.id, next.pending.value)]
  }

  /** A write disturbs no other worker, unless it journals the very bytes that worker prepared. */
  lemma WriteKeepsWorker(s: System, t: System, prev: Record, next: Record, wk: Worker)
    requires s.blocks != [] && Wrote(s, t, prev, next) && WorkerOk(s, wk)
    requires wk.Prepared? ==> t.journal == s.journal || wk.tx.txHash != next.pending.value.txHash
    ensures WorkerOk(t, wk)
  {
  }

  lemma WriteKeepsRecords(s: System, t: System, prev: Record, next: Record)
    requires RecordsOk(s) && Wrote(s, t, prev, next) && RecordOk(next)
    ensures RecordsOk(t)
  {
  }

  lemma WriteKeepsLog(s: System, t: System, prev: Record, next: Record)
    requires LogOk(s) && Wrote(s, t, prev, next) && Follows(prev, next)
    requires t.journal != s.journal ==> EntryOk(t, next.pending.value.txHash)
    ensures LogOk(t)
  {
  }

  lemma WriteKeepsJournals(s: System, t: System, prev: Record, next: Record)
    requires JournalsLogged(s) && Wrote(s, t, prev, next)
    requires next.pending.Some? ==> next.pending == prev.pending || t.journal != s.journal
    ensures JournalsLogged(t)
  {
  }

  /** Why the journal may leave the record now. */
  ghost predicate Releases(s: System, prev: Record, next: Record)
    requires s.blocks != []
  {
    prev.pending.Some? && next.pending.None? ==>
      var h := prev.pending.value.txHash;
      && h in s.journal && s.journal[h] == Entry(prev.id, prev.pending.value)
      && Closed(s, h) && (Succeeded(s.blocks, h) ==> Filed(next, h))
  }

  lemma FiledStays(prev: Record, next: Record, h: Hash)
    requires prev.txs <= next.txs && Filed(prev, h)
    ensures Filed(next, h)
  {
  }

  lemma WriteKeepsSettled(s: System, t: System, prev: Record, next: Record)
    requires s.blocks != [] && LogSettled(s) && LogOk(s) && Wrote(s, t, prev, next) && Follows(prev, next)
    requires Releases(s, prev, next)
    requires prev.pending.Some? && next.pending.Some? ==> next.pending == prev.pending
    ensures LogSettled(t)
  {
    hide Succeeded, InChain, At;
    forall h | h in t.journal ensures EntrySettled(t, h) {
      if h in s.journal {
        assert EntrySettled(s, h);
        assert EntryOk(s, h);
        var e := s.journal[h];
        if e.job == prev.id {
          if Current(s, h) {
            if next.pending.Some? { assert Current(t, h); }
          } else if Succeeded(s.blocks, h) {
            FiledStays(prev, next, h);
          }
        }
      } else {
        assert Current(t, h);
      }
    }
  }

  lemma OtherReceiptsStay(s: System, t: System, prev: Record, next: Record, j: string)
    requires Wrote(s, t, prev, next) && j in s.db.payments && j != prev.id && JobReceiptsOk(s, j)
    ensures JobReceiptsOk(t, j)
  {
  }

  /** No receipt added. */
  lemma SameReceiptsStay(s: System, t: System, prev: Record, next: Record)
    requires Wrote(s, t, prev, next) && Follows(prev, next) && JobReceiptsOk(s, prev.id)
    requires next.txs == prev.txs && next.quarantined == prev.quarantined
    ensures JobReceiptsOk(t, prev.id)
  {
    forall k | 0 <= k < |AppliedTxs(next)|
      ensures Used(next, SlotOf(t.journal[next.txs[k].txHash].p.action))
    {
      UsedForever(prev, next, SlotOf(s.journal[prev.txs[k].txHash].p.action));
    }
  }

  /** The receipt of the journal just resolved is added; its slot was free until now. */
  lemma NewReceiptFits(s: System, t: System, prev: Record, next: Record, p: PendingTx, tx: TxRef)
    requires Wrote(s, t, prev, next) && Follows(prev, next) && JobReceiptsOk(s, prev.id) && t.journal == s.journal
    requires RecordOk(prev) && prev.pending == Some(p)
    requires p.txHash in s.journal && s.journal[p.txHash] == Entry(prev.id, p)
    requires next.txs == prev.txs + [tx] && tx.txHash == p.txHash
    requires next.quarantined.Some? || Used(next, SlotOf(p.action))
    ensures JobReceiptsOk(t, prev.id)
  {
    PendingSlotIsFree(prev);
    forall k | 0 <= k < |prev.txs|
      ensures Used(next, SlotOf(s.journal[prev.txs[k].txHash].p.action))
      ensures SlotOf(s.journal[prev.txs[k].txHash].p.action) != SlotOf(p.action)
    {
      UsedForever(prev, next, SlotOf(s.journal[prev.txs[k].txHash].p.action));
    }
  }

  lemma ReceiptsStay(s: System, t: System, prev: Record, next: Record)
    requires ReceiptsOk(s) && Wrote(s, t, prev, next) && JobReceiptsOk(t, prev.id)
    ensures ReceiptsOk(t)
  {
    forall j | j in t.db.payments ensures JobReceiptsOk(t, j) {
      if j != prev.id { OtherReceiptsStay(s, t, prev, next, j); }
    }
  }

  lemma WriteKeepsChain(s: System, t: System, prev: Record, next: Record)
    requires ChainOk(s) && Wrote(s, t, prev, next)
    ensures ChainOk(t)
  {
  }

  /** Storing `next`: the core of the invariant survives. */
  lemma WriteKeepsCore(s: System, t: System, prev: Record, next: Record)
    requires CoreInv(s) && Wrote(s, t, prev, next) && Fenced(t.db)
    requires RecordOk(next) && Follows(prev, next) && Releases(s, prev, next)
    requires prev.pending.Some? && next.pending.Some? ==> next.pending == prev.pending
    requires next.pending.Some? ==> next.pending == prev.pending || t.journal != s.journal
    requires t.journal != s.journal ==> EntryOk(t, next.pending.value.txHash)
    requires JobReceiptsOk(t, prev.id)
    ensures CoreInv(t)
  {
    WriteKeepsRecords(s, t, prev, next);
    WriteKeepsChain(s, t, prev, next);
    WriteKeepsLog(s, t, prev, next);
    WriteKeepsJournals(s, t, prev, next);
    WriteKeepsSettled(s, t, prev, next);
    ReceiptsStay(s, t, prev, next);
  }

  // ---------------------------------------------------------------- storing without a journal

  /** `rec` may replace `prev` and leaves no journal behind. */
  ghost predicate Fits(s: System, prev: Record, rec: Record)
    requires s.blocks != []
  {
    && RecordOk(rec) && Follows(prev, rec) && rec.pending.None? && Releases(s, prev, rec)
    && (|| (rec.txs == prev.txs && rec.quarantined == prev.quarantined)
        || (&& prev.pending.Some?
            && |rec.txs| == |prev.txs| + 1 && rec.txs[|prev.txs|].txHash == prev.pending.value.txHash
            && (rec.quarantined.Some? || Used(rec, SlotOf(prev.pending.value.action)))))
  }

  /** A write that goes through was built on the current version. */
  lemma UpdateOnCurrent(db: Db, rec: Record)
    requires Update(db, rec).0.Ok?
    ensures rec.id in db.payments && db.payments[rec.id].version == rec.version
    ensures Update(db, rec).0.value == rec.(version := rec.version + 1)
    ensures Update(db, rec).1.payments == db.payments[rec.id := rec.(version := rec.version + 1)]
  {
  }

  lemma BumpFits(s: System, prev: Record, rec: Record)
    requires s.blocks != [] && Fits(s, prev, rec)
    ensures var next := rec.(version := rec.version + 1); Fits(s, prev, next)
  {
    var next := rec.(version := rec.version + 1);
    BookkeepingIsFree(rec, next);
    FollowsTransitive(prev, rec, next);
    if prev.pending.Some? {
      assert Filed(rec, prev.pending.value.txHash) ==> Filed(next, prev.pending.value.txHash);
      if rec.quarantined.None? && Used(rec, SlotOf(prev.pending.value.action)) {
        UsedForever(rec, next, SlotOf(prev.pending.value.action));
      }
    }
  }

  lemma FittingReceipts(s: System, t: System, prev: Record, next: Record)
    requires s.blocks != [] && Wrote(s, t, prev, next) && t.journal == s.journal && Fits(s, prev, next)
    requires RecordOk(prev) && JobReceiptsOk(s, prev.id)
    ensures JobReceiptsOk(t, prev.id)
  {
    hide RecordOk, Used, SlotOf, AppliedTxs;
    if next.txs == prev.txs && next.quarantined == prev.quarantined {
      SameReceiptsStay(s, t, prev, next);
    } else {
      var tx := next.txs[|prev.txs|];
      assert next.txs == prev.txs + [tx];
      NewReceiptFits(s, t, prev, next, prev.pending.value, tx);
    }
  }

  lemma StoreFitting(s: System, t: System, prev: Record, next: Record)
    requires Inv(s) && Wrote(s, t, prev, next) && t.journal == s.journal && Fenced(t.db) && Fits(s, prev, next)
    ensures Inv(t)
  {
    FittingReceipts(s, t, prev, next);
    WriteKeepsCore(s, t, prev, next);
    forall v | 0 <= v < |t.workers| ensures WorkerOk(t, t.workers[v]) {
      WriteKeepsWorker(s, t, prev, next, s.workers[v]);
    }
  }

  lemma WroteAdvances(s: System, t: System, prev: Record, next: Record)
    requires Wrote(s, t, prev, next) && Follows(prev, next) && Receipted(prev, next)
    ensures Advances(s, t)
  {
  }

  lemma MovedAdvances(s: System, t: System, w: nat, wk: Worker)
    requires Advances(s, t) && w < |t.workers|
    ensures Advances(s, With(t, w, wk))
  {
  }

  lemma PutStores(s: System, w: nat, rec: Record, wk: Worker)
    requires Inv(s) && w < |s.workers| && Update(s.db, rec).0.Ok? && Fits(s, s.db.payments[rec.id], rec)
    requires wk.Idle? || (wk.Holding? && wk.r == Update(s.db, rec).0.value)
    ensures var t := With(s.(db := Update(s.db, rec).1), w, wk);
      Inv(t) && Advances(s, t)
  {
    hide RecordOk, Follows, Fenced, JournalsLogged, LogOk, LogSettled, ReceiptsOk, WorkersOk;
    var (res, db) := Update(s.db, rec);
    UpdateOnCurrent(s.db, rec);
    UpdateKeepsFence(s.db, rec);
    var prev, t := s.db.payments[rec.id], s.(db := db);
    BumpFits(s, prev, rec);
    StoreFitting(s, t, prev, res.value);
    WroteAdvances(s, t, prev, res.value);
    MovedAdvances(s, t, w, wk);
    WorkerMoves(t, w, wk);
  }

  lemma PutKeeps(s: System, w: nat, cfg: EngineConfig, rec: Record, goOn: bool, quiet: bool)
    requires Inv(s) && w < |s.workers|
    requires Update(s.db, rec).0.Ok? ==> Fits(s, s.db.payments[rec.id], rec)
    ensures Inv(Put(s, w, cfg, rec, goOn, quiet))
    ensures Advances(s, Put(s, w, cfg, rec, goOn, quiet))
  {
    var res := Update(s.db, rec).0;
    if res.Ok? {
      PutStores(s, w, rec, if goOn then Holding(cfg, res.value) else Idle);
    } else if res.error.Conflict? || quiet {
      WorkerMoves(s, w, Idle);
    } else {
      WorkerMoves(s, w, Failing(cfg, rec.id, res.error));
    }
  }

  // ---------------------------------------------------------------- step by step

  lemma HasBlocks(s: System)
    requires Inv(s)
    ensures s.blocks != []
  {
  }

  lemma CreateKeeps(s: System, l: Label)
    requires Inv(s) && l.Create?
    ensures Inv(ExecCreate(s, l))
    ensures Advances(s, ExecCreate(s, l))
  {
    hide RecordOk, Fenced, Keyed, Follows, JournalsLogged, LogOk, ChainOk, LogSettled, ReceiptsOk, WorkersOk;
    HasBlocks(s);
    var made := if l.sweepJob then NewSweepJob(l.cfg, l.id, l.account)
                else NewPayment(l.cfg, l.id, l.account, l.minAlpha, l.expiresAt);
    if made.Ok? && made.value.id !in s.db.payments {
      var r := made.value;
      NewRecordOk(l.cfg, l.id, Ss58Of(l.account), r.minAlpha, r.minTao, r.expiresAt, r.state);
      InsertKeepsFence(s.db, r);
      InsertedOk(s, ExecCreate(s, l), r);
    }
  }

  predicate Inserted(s: System, t: System, r: Record) {
    && r.id !in s.db.payments && r.pending.None? && r.txs == []
    && t == s.(db := t.db) && t.db.payments == s.db.payments[r.id := r]
  }

  lemma InsertKeepsEntry(s: System, t: System, r: Record, h: Hash)
    requires Inserted(s, t, r) && s.blocks != [] && h in s.journal && EntryOk(s, h) && EntrySettled(s, h)
    ensures EntryOk(t, h) && EntrySettled(t, h)
  {
  }

  lemma InsertKeepsReceipts(s: System, t: System, r: Record)
    requires Inserted(s, t, r) && ReceiptsOk(s)
    ensures ReceiptsOk(t)
  {
  }

  lemma InsertKeepsWorker(s: System, t: System, r: Record, wk: Worker)
    requires Inserted(s, t, r) && s.blocks != [] && WorkerOk(s, wk)
    ensures WorkerOk(t, wk)
  {
  }

  lemma InsertKeepsChain(s: System, t: System, r: Record)
    requires Inserted(s, t, r) && ChainOk(s)
    ensures ChainOk(t)
  {
  }

  lemma InsertedOk(s: System, t: System, r: Record)
    requires Inv(s) && RecordOk(r) && Inserted(s, t, r) && Fenced(t.db)
    ensures Inv(t)
  {
    forall h | h in t.journal ensures EntryOk(t, h) && EntrySettled(t, h) {
      assert EntryOk(s, h) && EntrySettled(s, h);
      InsertKeepsEntry(s, t, r, h);
    }
    InsertKeepsReceipts(s, t, r);
    InsertKeepsChain(s, t, r);
    forall v | 0 <= v < |t.workers| ensures WorkerOk(t, t.workers[v]) {
      InsertKeepsWorker(s, t, r, s.workers[v]);
    }
  }

  lemma SpawnKeeps(s: System)
    requires Inv(s)
    ensures Inv(s.(workers := s.workers + [Idle]))
  {
    var t := s.(workers := s.workers + [Idle]);
    CoreTransfers(s, t);
    forall v | 0 <= v < |t.workers| ensures WorkerOk(t, t.workers[v]) {
      if v < |s.workers| { WorkerTransfers(s, t, s.workers[v]); }
    }
  }

  /** A job created by an engine carries its policy; migrating it is always refused. */
  lemma MigrateRefused(s: System, id: string, version: nat, budget: Option<BuybackBudget>)
    requires Inv(s)
    ensures MigrateLegacyPolicy(s.db, id, version, budget).1 == s.db
  {
  }

  /** The plain write of a copy that turned out to be current. */
  lemma PlainFits(s: System, r: Record, rec: Record)
    requires Inv(s) && Copy(s.db, r) && rec.id == r.id && rec.version == r.version
    requires Update(s.db, rec).0.Ok?
    requires RecordOk(r) ==> RecordOk(rec) && Follows(r, rec)
    requires r.pending.None? && rec.pending.None? && rec.txs == r.txs && rec.quarantined == r.quarantined
    ensures Fits(s, s.db.payments[rec.id], rec)
  {
    UpdateOnCurrent(s.db, rec);
    assert RecordOk(s.db.payments[r.id]);
  }

  /** What the rest of the proof needs to know about a decision. */
  predicate DecisionOk(r: Record, d: Decision) {
    match d
    case Save(rec, _) => NothingSigned(r, rec) && r.pending.None? && (RecordOk(r) ==> RecordOk(rec) && Follows(r, rec))
    case Send(rec, action, call, signer) => SendOk(r, rec, action, call, signer)
    case _ => true
  }

  lemma DecisionIsOk(cfg: EngineConfig, r: Record, q: Reads)
    ensures DecisionOk(r, Decide(cfg, r, q))
  {
    var d := Decide(cfg, r, q);
    if d.Save? {
      SaveShape(cfg, r, q);
      if RecordOk(r) { SaveKeeps(cfg, r, q); }
    } else if d.Send? {
      DecidedSendIsOk(cfg, r, q);
    }
  }

  lemma SendKeeps(s: System, w: nat, cfg: EngineConfig, r: Record, d: Decision, token: Token)
    requires Inv(s) && w < |s.workers| && Copy(s.db, r) && d.Send? && DecisionOk(r, d)
    ensures Inv(ExecDecision(s, w, cfg, r, d, token))
    ensures Advances(s, ExecDecision(s, w, cfg, r, d, token))
  {
    hide RecordsOk, Fenced, SendOk, Reserve, Follows, JournalsLogged, LogOk, ChainOk, LogSettled, ReceiptsOk, WorkersOk;
    HasBlocks(s);
    var (res, db) := Reserve(s.db, d.signer, d.rec.id, Some(d.rec.version), token);
    if res.Ok? {
      ReserveKeepsFence(s.db, d.signer, d.rec.id, Some(d.rec.version), token);
      var t := s.(db := db);
      ReserveOnlyRows(s.db, d.signer, d.rec.id, Some(d.rec.version), token);
      RowsChange(s, t);
      WorkerMoves(t, w, Reserved(cfg, r, d.rec, d.action, d.call, d.signer, token));
    } else {
      WorkerMoves(s, w, Idle);
    }
  }

  lemma ReserveOnlyRows(db: Db, signer: Address, job: string, version: Option<nat>, token: Token)
    ensures Reserve(db, signer, job, version, token).1.payments == db.payments
  {
  }

  lemma DecisionKeeps(s: System, w: nat, cfg: EngineConfig, r: Record, d: Decision, token: Token)
    requires Inv(s) && w < |s.workers| && Copy(s.db, r) && DecisionOk(r, d)
    ensures Inv(ExecDecision(s, w, cfg, r, d, token))
    ensures Advances(s, ExecDecision(s, w, cfg, r, d, token))
  {
    hide Inv, Put, Update, RecordOk, Follows, SendOk;
    HasBlocks(s);
    match d
    case Nothing => WorkerMoves(s, w, Idle);
    case Resolve(_) =>
    case Save(rec, goOn) =>
      if Update(s.db, rec).0.Ok? { PlainFits(s, r, rec); }
      PutKeeps(s, w, cfg, rec, goOn, r.state == Pending || r.state == Settled);
    case Stop(err, counted) => WorkerMoves(s, w, if counted then Failing(cfg, r.id, err) else Idle);
    case Send(_, _, _, _) => SendKeeps(s, w, cfg, r, d, token);
  }

  lemma StepKeeps(s: System, w: nat, q: Reads, token: Token)
    requires Inv(s) && w < |s.workers| && s.workers[w].Holding?
    ensures Inv(ExecStep(s, w, q, token))
    ensures Advances(s, ExecStep(s, w, q, token))
  {
    var wk := s.workers[w];
    assert WorkerOk(s, wk);
    DecisionIsOk(wk.cfg, wk.r, q);
    DecisionKeeps(s, w, wk.cfg, wk.r, Decide(wk.cfg, wk.r, q), token);
  }

  lemma CancelOnlyRows(db: Db, signer: Address, job: string, token: Token)
    ensures CancelPreparation(db, signer, job, token).1.payments == db.payments
  {
  }

  lemma PrepareFailsKeeps(s: System, w: nat, err: Error)
    requires Inv(s) && w < |s.workers| && s.workers[w].Reserved?
    ensures Inv(ExecPrepareFails(s, w, err))
    ensures Advances(s, ExecPrepareFails(s, w, err))
  {
    hide RecordsOk, Fenced, Follows, CancelPreparation, JournalsLogged, LogOk, ChainOk, LogSettled, ReceiptsOk, WorkersOk;
    HasBlocks(s);
    var wk := s.workers[w];
    var (res, db) := CancelPreparation(s.db, wk.signer, wk.r.id, wk.token);
    CancelOnlyRows(s.db, wk.signer, wk.r.id, wk.token);
    CancelKeepsFence(s.db, wk.signer, wk.r.id, wk.token);
    if res.Ok? {
      var t := s.(db := db);
      RowsChange(s, t);
      WorkerMoves(t, w, Failing(wk.cfg, wk.r.id, err));
    } else {
      WorkerMoves(s, w, Idle);
    }
  }

  // ---------------------------------------------------------------- signing, journaling, sending

  lemma PrepareKeeps(s: System, w: nat, nonce: nat, hash: Hash, birth: nat)
    requires Inv(s) && w < |s.workers| && s.workers[w].Reserved?
    ensures Inv(ExecPrepare(s, w, nonce, hash, birth))
    ensures Advances(s, ExecPrepare(s, w, nonce, hash, birth))
  {
    if hash !in s.signed && !InChain(s.blocks, hash) {
      var wk := s.workers[w];
      var tx := PreparedTx(wk.call, wk.signer, nonce, hash, birth);
      var t := s.(signed := s.signed[hash := tx]);
      SignedGrows(s, t, hash, tx);
      PreparedAreSigned(s);
      LoggedIsSigned(s);
      var wk' := Prepared(wk.cfg, wk.base, wk.r, wk.action, wk.call, wk.signer, wk.token, tx);
      ReservedToPrepared(s, t, wk, hash, tx);
      WorkerMoves(t, w, wk');
    }
  }

  lemma ReservedToPrepared(s: System, t: System, wk: Worker, hash: Hash, tx: PreparedTx)
    requires s.blocks != [] && wk.Reserved? && WorkerOk(s, wk) && t == s.(signed := s.signed[hash := tx])
    requires tx.call == wk.call && tx.signer == wk.signer && tx.txHash == hash && hash !in s.journal
    ensures WorkerOk(t, Prepared(wk.cfg, wk.base, wk.r, wk.action, wk.call, wk.signer, wk.token, tx))
  {
  }

  lemma PreparedAreSigned(s: System)
    requires s.blocks != [] && WorkersOk(s)
    ensures forall v :: 0 <= v < |s.workers| && s.workers[v].Prepared? ==> s.workers[v].tx.txHash in s.signed
  {
  }

  lemma LoggedIsSigned(s: System)
    requires LogOk(s)
    ensures s.journal.Keys <= s.signed.Keys
  {
  }

  lemma SignedKeepsWorker(s: System, t: System, hash: Hash, tx: PreparedTx, wk: Worker)
    requires s.blocks != [] && hash !in s.signed && t == s.(signed := s.signed[hash := tx]) && WorkerOk(s, wk)
    ensures WorkerOk(t, wk)
  {
  }

  lemma SignedKeepsChain(s: System, t: System, hash: Hash, tx: PreparedTx)
    requires ChainOk(s) && !InChain(s.blocks, hash) && t == s.(signed := s.signed[hash := tx])
    ensures ChainOk(t)
  {
  }

  lemma SignedKeepsEntry(s: System, t: System, hash: Hash, tx: PreparedTx, h: Hash)
    requires s.blocks != [] && hash !in s.signed && t == s.(signed := s.signed[hash := tx])
    requires h in s.journal && EntryOk(s, h) && EntrySettled(s, h)
    ensures EntryOk(t, h) && EntrySettled(t, h)
  {
  }

  lemma SignedGrows(s: System, t: System, hash: Hash, tx: PreparedTx)
    requires Inv(s) && hash !in s.signed && !InChain(s.blocks, hash) && t == s.(signed := s.signed[hash := tx])
    ensures Inv(t)
  {
    hide RecordOk, Fenced, Keyed, EntryOk, EntrySettled, AppliedTxs, Used, SlotOf, WorkerOk;
    SignedKeepsChain(s, t, hash, tx);
    forall h | h in t.journal ensures EntryOk(t, h) && EntrySettled(t, h) {
      SignedKeepsEntry(s, t, hash, tx, h);
    }
    forall j | j in t.db.payments ensures JobReceiptsOk(t, j) {
      assert JobReceiptsOk(s, j);
    }
    forall v | 0 <= v < |t.workers| ensures WorkerOk(t, t.workers[v]) {
      SignedKeepsWorker(s, t, hash, tx, s.workers[v]);
    }
  }

  /** Storing the journal: only over the version the step decided on, only for unused bytes. */
  lemma JournalStepKeeps(s: System, w: nat)
    requires Inv(s) && w < |s.workers| && s.workers[w].Prepared?
    ensures Inv(ExecJournal(s, w))
    ensures Advances(s, ExecJournal(s, w))
  {
    var wk := s.workers[w];
    var res := Update(s.db, wk.r.(pending := Some(JournalOf(wk)))).0;
    if res.Ok? {
      JournalCommits(s, w);
    } else if res.error.Conflict? {
      WorkerMoves(s, w, Idle);
    } else {
      WorkerMoves(s, w, Failing(wk.cfg, wk.r.id, res.error));
    }
  }

  lemma JournalCommits(s: System, w: nat)
    requires Inv(s) && w < |s.workers| && s.workers[w].Prepared?
    requires var wk := s.workers[w]; Update(s.db, wk.r.(pending := Some(JournalOf(wk)))).0.Ok?
    ensures var wk := s.workers[w];
      var (res, db) := Update(s.db, wk.r.(pending := Some(JournalOf(wk))));
      var t := With(s.(db := db, journal := s.journal[wk.tx.txHash := Entry(wk.r.id, JournalOf(wk))]), w,
                    Journaled(wk.cfg, res.value, wk.tx));
      Inv(t) && Advances(s, t)
  {
    var wk := s.workers[w];
    assert WorkerOk(s, wk);
    var rec := wk.r.(pending := Some(JournalOf(wk)));
    var (res, db) := Update(s.db, rec);
    UpdateKeepsFence(s.db, rec);
    JournalOnCurrent(s, w);
    assert RecordOk(wk.base);
    JournalFits(s, w);
    var t := s.(db := db, journal := s.journal[wk.tx.txHash := Entry(wk.r.id, JournalOf(wk))]);
    JournalStored(s, t, w, wk.base, res.value);
    WroteAdvances(s, t, wk.base, res.value);
    MovedAdvances(s, t, w, Journaled(wk.cfg, res.value, wk.tx));
  }

  lemma JournalOnCurrent(s: System, w: nat)
    requires s.blocks != [] && w < |s.workers| && s.workers[w].Prepared? && WorkerOk(s, s.workers[w])
    requires var wk := s.workers[w]; Update(s.db, wk.r.(pending := Some(JournalOf(wk)))).0.Ok?
    ensures var wk := s.workers[w];
      var (res, db) := Update(s.db, wk.r.(pending := Some(JournalOf(wk))));
      var t := s.(db := db, journal := s.journal[wk.tx.txHash := Entry(wk.r.id, JournalOf(wk))]);
      && wk.base.id in s.db.payments && s.db.payments[wk.base.id] == wk.base && wk.base.pending.None?
      && res.value == wk.r.(pending := Some(JournalOf(wk)), version := wk.r.version + 1)
      && Wrote(s, t, wk.base, res.value) && NewEntry(s, t, res.value)
  {
  }

  lemma JournalFits(s: System, w: nat)
    requires w < |s.workers| && s.workers[w].Prepared?
    requires var wk := s.workers[w]; RecordOk(wk.base) && SendOk(wk.base, wk.r, wk.action, wk.call, wk.signer)
    ensures var wk := s.workers[w];
      var next := wk.r.(pending := Some(JournalOf(wk)), version := wk.r.version + 1);
      RecordOk(next) && Follows(wk.base, next) && next.txs == wk.base.txs && next.quarantined == wk.base.quarantined
  {
    var wk := s.workers[w];
    var j := wk.r.(pending := Some(JournalOf(wk)));
    JournalKeeps(wk.base, wk.r, wk.action, wk.call, wk.signer, wk.token, wk.tx);
    BookkeepingIsFree(j, j.(version := j.version + 1));
    FollowsTransitive(wk.base, j, j.(version := j.version + 1));
  }

  lemma JournalStored(s: System, t: System, w: nat, prev: Record, next: Record)
    requires Inv(s) && w < |s.workers| && s.workers[w].Prepared? && Wrote(s, t, prev, next) && NewEntry(s, t, next)
    requires Fenced(t.db) && RecordOk(next) && Follows(prev, next)
    requires prev.pending.None? && next.txs == prev.txs && next.quarantined == prev.quarantined
    requires var wk := s.workers[w];
      next.pending == Some(JournalOf(wk)) && SendOk(wk.base, wk.r, wk.action, wk.call, wk.signer) && prev == wk.base
    ensures Inv(With(t, w, Journaled(s.workers[w].cfg, next, s.workers[w].tx)))
  {
    hide RecordOk, Fenced, AppliedTxs, Used;
    var wk := s.workers[w];
    assert WorkerOk(s, wk);
    ActionNamesItsCall(wk.base, wk.r, wk.action, wk.call, wk.signer);
    assert EntryOk(t, wk.tx.txHash);
    SameReceiptsStay(s, t, prev, next);
    WriteKeepsCore(s, t, prev, next);
    forall v | 0 <= v < |t.workers| && v != w ensures WorkerOk(t, t.workers[v]) {
      assert WorkerOk(s, s.workers[v]);
      WriteKeepsWorker(s, t, prev, next, s.workers[v]);
    }
    ReplaceWorker(t, w, Journaled(wk.cfg, next, wk.tx));
  }

  /** Like `WorkerMoves`, when the worker's own old state is out of date. */
  lemma ReplaceWorker(s: System, w: nat, wk: Worker)
    requires CoreInv(s) && w < |s.workers| && WorkerOk(s, wk) && !wk.Prepared?
    requires forall v :: 0 <= v < |s.workers| && v != w ==> WorkerOk(s, s.workers[v])
    requires forall u, v :: 0 <= u < v < |s.workers| && s.workers[u].Prepared? && s.workers[v].Prepared? ==>
      s.workers[u].tx.txHash != s.workers[v].tx.txHash
    ensures Inv(With(s, w, wk))
  {
    var t := With(s, w, wk);
    CoreTransfers(s, t);
    forall v | 0 <= v < |t.workers| ensures WorkerOk(t, t.workers[v]) {
      WorkerTransfers(s, t, if v == w then wk else s.workers[v]);
    }
  }

  lemma BroadcastKeeps(s: System, w: nat)
    requires Inv(s) && w < |s.workers| && s.workers[w].Journaled?
    ensures var wk := s.workers[w];
      Inv(With(s.(sent := s.sent + {wk.tx.txHash}), w, Waiting(wk.cfg, wk.r, wk.tx)))
  {
    var wk := s.workers[w];
    assert WorkerOk(s, wk);
    var t := s.(sent := s.sent + {wk.tx.txHash});
    SentGrows(s, t, wk.tx.txHash);
    WorkerMoves(t, w, Waiting(wk.cfg, wk.r, wk.tx));
  }

  lemma SentKeepsWorker(s: System, t: System, h: Hash, wk: Worker)
    requires s.blocks != [] && t == s.(sent := s.sent + {h}) && WorkerOk(s, wk)
    ensures WorkerOk(t, wk)
  {
  }

  lemma SentKeepsChain(s: System, t: System, h: Hash)
    requires ChainOk(s) && t == s.(sent := s.sent + {h})
    ensures ChainOk(t)
  {
  }

  lemma SentKeepsEntry(s: System, t: System, h: Hash, g: Hash)
    requires s.blocks != [] && t == s.(sent := s.sent + {h}) && g in s.journal && EntryOk(s, g) && EntrySettled(s, g)
    ensures EntryOk(t, g) && EntrySettled(t, g)
  {
  }

  lemma SentKeepsReceipts(s: System, t: System, h: Hash)
    requires t == s.(sent := s.sent + {h}) && ReceiptsOk(s)
    ensures ReceiptsOk(t)
  {
  }

  lemma SentGrows(s: System, t: System, h: Hash)
    requires Inv(s) && h in s.journal && t == s.(sent := s.sent + {h})
    ensures Inv(t)
  {
    hide RecordOk, Fenced, Keyed, ReceiptsOk;
    SentKeepsChain(s, t, h);
    forall g | g in t.journal ensures EntryOk(t, g) && EntrySettled(t, g) {
      SentKeepsEntry(s, t, h, g);
    }
    SentKeepsReceipts(s, t, h);
    forall v | 0 <= v < |t.workers| ensures WorkerOk(t, t.workers[v]) {
      SentKeepsWorker(s, t, h, s.workers[v]);
    }
  }

  // ---------------------------------------------------------------- the chain grows

  lemma BlockAt(s: System, block: Block, n: nat, i: nat, h: Hash)
    ensures At(s.blocks + [block], n, i, h) <==>
      At(s.blocks, n, i, h) || (n == |s.blocks| && i < |block.exts| && block.exts[i].hash == h)
  {
  }

  lemma FinalizeKeepsChain(s: System, block: Block)
    requires ChainOk(s) && Admissible(s, block)
    ensures ChainOk(s.(blocks := s.blocks + [block]))
  {
    var t := s.(blocks := s.blocks + [block]);
    forall n: nat, i: nat, h | At(t.blocks, n, i, h) && h in t.signed
      ensures h in t.sent && t.signed[h].birthBlock <= n <= t.signed[h].birthBlock + MORTALITY
      ensures t.blocks[n].exts[i].data == Encoded(t.signed[h].call)
    {
      BlockAt(s, block, n, i, h);
    }
    forall n: nat, i: nat, m: nat, k: nat, h | At(t.blocks, n, i, h) && At(t.blocks, m, k, h) && h in t.signed
      ensures n == m && i == k
    {
      BlockAt(s, block, n, i, h);
      BlockAt(s, block, m, k, h);
    }
  }

  lemma StillInChain(s: System, block: Block, h: Hash)
    requires InChain(s.blocks, h)
    ensures InChain(s.blocks + [block], h)
  {
    var n, i :| 0 <= n < |s.blocks| && 0 <= i < |s.blocks[n].exts| && At(s.blocks, n, i, h);
    BlockAt(s, block, n, i, h);
    assert At(s.blocks + [block], n, i, h);
  }

  /** A transaction released by its record is not in the new block. */
  lemma FinalizeKeepsSettled(s: System, block: Block, h: Hash)
    requires Inv(s) && Admissible(s, block) && h in s.journal
    ensures EntrySettled(s.(blocks := s.blocks + [block]), h)
  {
    var t := s.(blocks := s.blocks + [block]);
    assert EntryOk(s, h) && EntrySettled(s, h);
    if !Current(s, h) {
      if InChain(s.blocks, h) { StillInChain(s, block, h); }
      if Succeeded(t.blocks, h) {
        var n: nat, i: nat :| At(t.blocks, n, i, h) && Failure !in t.blocks[n].exts[i].events;
        BlockAt(s, block, n, i, h);
        assert At(s.blocks, n, i, h);
        assert Succeeded(s.blocks, h);
      }
    }
  }

  lemma FinalizeKeepsWorker(s: System, block: Block, wk: Worker)
    requires Inv(s) && Admissible(s, block) && WorkerOk(s, wk)
    ensures WorkerOk(s.(blocks := s.blocks + [block]), wk)
  {
    hide RecordsOk, Fenced, JournalsLogged, LogSettled, ReceiptsOk;
    var t := s.(blocks := s.blocks + [block]);
    if wk.Scanned? {
      var h := wk.p.txHash;
      assert EntryOk(s, h);
      match wk.outcome
      case Dead =>
        forall n: nat, i: nat | At(t.blocks, n, i, h) ensures At(s.blocks, n, i, h) {
          BlockAt(s, block, n, i, h);
        }
      case Included(_, summary) =>
        var n: nat, i: nat :| At(s.blocks, n, i, h) && SummaryOf(s.blocks[n].exts[i].events) == Ok(summary);
        BlockAt(s, block, n, i, h);
        assert t.blocks[n] == s.blocks[n];
      case Wait =>
    }
  }

  lemma FinalizeKeeps(s: System, block: Block)
    requires Inv(s) && Admissible(s, block)
    ensures Inv(s.(blocks := s.blocks + [block]))
  {
    var t := s.(blocks := s.blocks + [block]);
    FinalizeKeepsChain(s, block);
    forall h | h in t.journal ensures EntryOk(t, h) && EntrySettled(t, h) {
      assert EntryOk(s, h);
      FinalizeKeepsSettled(s, block, h);
    }
    forall j | j in t.db.payments ensures JobReceiptsOk(t, j) {
      assert JobReceiptsOk(s, j);
    }
    forall v | 0 <= v < |t.workers| ensures WorkerOk(t, t.workers[v]) {
      FinalizeKeepsWorker(s, block, s.workers[v]);
    }
  }

  // ---------------------------------------------------------------- results

  lemma ApplyShape(r: Record, tx: TxRef, sm: EventSummary)
    requires ApplyTx(r, tx, sm).Ok?
    ensures var a := ApplyTx(r, tx, sm).value; a.id == r.id && a.version == r.version
  {
  }

  /** A journal whose extrinsic is finalized may be released by filing its receipt. */
  lemma AppliedFits(s: System, r: Record, p: PendingTx, tx: TxRef, sm: EventSummary)
    requires Inv(s) && r.id in s.db.payments && s.db.payments[r.id] == r && r.pending == Some(p)
    requires HoldsJournal(s, r, p.txHash) && InChain(s.blocks, p.txHash)
    requires tx == ReceiptOf(p, tx.blockHash) && ApplyTx(r, tx, sm).Ok?
    ensures Fits(s, r, ApplyTx(r, tx, sm).value)
  {
    var a := ApplyTx(r, tx, sm).value;
    assert RecordOk(r);
    ApplyKeeps(r, tx, sm);
    assert a.txs[|r.txs|] == tx;
    assert Filed(a, p.txHash);
  }

  lemma AnswerKeeps(s: System, w: nat, cfg: EngineConfig, r: Record, answer: Result<FinalizedTx>)
    requires Inv(s) && w < |s.workers|
    requires answer.Ok? && ApplyTx(r, answer.value.tx, answer.value.summary).Ok? ==>
      var a := ApplyTx(r, answer.value.tx, answer.value.summary).value;
      Update(s.db, a).0.Ok? ==> Fits(s, s.db.payments[a.id], a)
    ensures Inv(ExecAnswer(s, w, cfg, r, answer))
    ensures Advances(s, ExecAnswer(s, w, cfg, r, answer))
  {
    match answer
    case Err(e) => WorkerMoves(s, w, Failing(cfg, r.id, e));
    case Ok(f) =>
      match ApplyTx(r, f.tx, f.summary)
      case Err(e) => WorkerMoves(s, w, Failing(cfg, r.id, e));
      case Ok(applied) => PutKeeps(s, w, cfg, applied, false, false);
  }

  lemma ReplyKeeps(s: System, w: nat, n: nat, i: nat)
    requires Inv(s) && w < |s.workers| && s.workers[w].Waiting?
    ensures Inv(ExecReply(s, w, n, i))
    ensures Advances(s, ExecReply(s, w, n, i))
  {
    var wk := s.workers[w];
    assert WorkerOk(s, wk);
    if At(s.blocks, n, i, wk.tx.txHash) {
      var answer := BroadcastReply(wk.tx, s.blocks[n].hash, s.blocks[n].exts[i].events);
      if answer.Ok? && ApplyTx(wk.r, answer.value.tx, answer.value.summary).Ok? {
        var a := ApplyTx(wk.r, answer.value.tx, answer.value.summary).value;
        if Update(s.db, a).0.Ok? { ReplyFits(s, wk, n, i, answer.value, a); }
      }
      AnswerKeeps(s, w, wk.cfg, wk.r, answer);
    }
  }

  lemma ReplyFits(s: System, wk: Worker, n: nat, i: nat, f: FinalizedTx, applied: Record)
    requires Inv(s) && wk.Waiting? && WorkerOk(s, wk) && At(s.blocks, n, i, wk.tx.txHash)
    requires BroadcastReply(wk.tx, s.blocks[n].hash, s.blocks[n].exts[i].events) == Ok(f)
    requires ApplyTx(wk.r, f.tx, f.summary) == Ok(applied) && Update(s.db, applied).0.Ok?
    ensures Fits(s, s.db.payments[applied.id], applied)
  {
    hide RecordOk, Follows, Update, Succeeded, Filed, ApplyTx, BroadcastReply, ActionOf;
    var p := wk.r.pending.value;
    ApplyShape(wk.r, f.tx, f.summary);
    UpdateOnCurrent(s.db, applied);
    assert EntryOk(s, p.txHash);
    ReplyIsReceipt(wk.tx, p, s.blocks[n].hash, s.blocks[n].exts[i].events, f);
    AppliedFits(s, wk.r, p, f.tx, f.summary);
  }

  /** An inline reply carries the receipt reconciliation would rebuild. */
  lemma ReplyIsReceipt(tx: PreparedTx, p: PendingTx, blockHash: Hash, events: seq<Event>, f: FinalizedTx)
    requires BroadcastReply(tx, blockHash, events) == Ok(f)
    requires ActionOf(tx.call) == Some(p.action) && p.amount == tx.call.Amount() && p.txHash == tx.txHash
    ensures f.tx == ReceiptOf(p, f.tx.blockHash)
  {
  }

  lemma ScanKeeps(s: System, w: nat, seen: nat)
    requires Inv(s) && w < |s.workers| && s.workers[w].Holding?
    ensures Inv(ExecScan(s, w, seen))
    ensures Advances(s, ExecScan(s, w, seen))
  {
    var wk := s.workers[w];
    assert WorkerOk(s, wk);
    if 0 < seen <= |s.blocks| && MayScan(wk) {
      var p := wk.r.pending.value;
      var verdict := Lookup(s.blocks[..seen], p);
      if verdict.Err? || verdict.value.Wait? {
        WorkerMoves(s, w, Idle);
      } else {
        assert EntryOk(s, p.txHash);
        JournalIsMortal(s, p);
        ScanIsRight(s, p, seen, verdict.value);
        WorkerMoves(s, w, Scanned(wk.cfg, wk.r, p, verdict.value));
      }
    }
  }

  lemma JournalIsMortal(s: System, p: PendingTx)
    requires ChainOk(s) && p.txHash in s.signed && s.signed[p.txHash].birthBlock == p.birthBlock
    ensures Mortal(s.blocks, p)
  {
  }

  /** A verdict against any finalized prefix holds for the whole chain. */
  lemma ScanIsRight(s: System, p: PendingTx, seen: nat, outcome: PendingOutcome)
    requires s.blocks != [] && 0 < seen <= |s.blocks| && Mortal(s.blocks, p)
    requires Lookup(s.blocks[..seen], p) == Ok(outcome) && !outcome.Wait?
    ensures OutcomeOk(s, p, outcome)
  {
    var prefix := s.blocks[..seen];
    assert s.blocks == prefix + s.blocks[seen..];
    if outcome.Dead? {
      LookupIsExact(prefix, p);
      DeadIsForever(prefix, s.blocks[seen..], p);
    } else {
      FoundInPrefix(prefix, s.blocks[seen..], p);
    }
  }

  lemma FoundInPrefix(prefix: seq<Block>, more: seq<Block>, p: PendingTx)
    requires prefix != [] && Lookup(prefix, p).Ok? && Lookup(prefix, p).value.Included?
    ensures var all := prefix + more;
      exists n: nat, i: nat :: At(all, n, i, p.txHash) && SummaryOf(all[n].exts[i].events) == Ok(Lookup(prefix, p).value.summary)
  {
    var loc := Locate(prefix, p.txHash, p.birthBlock, ScanEnd(prefix, p)).value;
    var all := prefix + more;
    assert all[loc.0] == prefix[loc.0];
    assert At(all, loc.0, loc.1, p.txHash);
  }

  lemma FoundInChain(s: System, p: PendingTx, outcome: PendingOutcome)
    requires s.blocks != [] && OutcomeOk(s, p, outcome) && outcome.Included?
    ensures InChain(s.blocks, p.txHash)
  {
  }

  /** A finalized extrinsic is one place only, so its events decide success. */
  lemma FailedOnlyThere(s: System, p: PendingTx, outcome: PendingOutcome)
    requires Inv(s) && OutcomeOk(s, p, outcome) && outcome.Included? && p.txHash in s.signed
    ensures Succeeded(s.blocks, p.txHash) <==> !outcome.summary.failed
  {
    var n: nat, i: nat :| At(s.blocks, n, i, p.txHash) && SummaryOf(s.blocks[n].exts[i].events) == Ok(outcome.summary);
    SummaryIsFaithful(s.blocks[n].exts[i].events);
    if Succeeded(s.blocks, p.txHash) {
      var m: nat, k: nat :| At(s.blocks, m, k, p.txHash) && Failure !in s.blocks[m].exts[k].events;
      assert m == n && k == i;
    }
  }

  lemma ResolvedShape(r: Record, p: PendingTx, outcome: PendingOutcome, maxAttempts: nat, now: nat)
    requires r.pending == Some(p)
    ensures var z := Resolved(r, p, outcome, maxAttempts, now); z.id == r.id && z.version == r.version
  {
    match outcome
    case Wait =>
    case Dead =>
    case Included(blockHash, summary) =>
      var tx := ReceiptOf(p, blockHash);
      if summary.failed {
        FailureKeepsProgress(r.(pending := None), FAILED_ON_CHAIN, maxAttempts, now);
      } else if ApplyTx(r, tx, summary).Ok? {
        ApplyShape(r, tx, summary);
      } else {
        var e := ApplyTx(r, tx, summary).error;
        FailureKeepsProgress(r.(pending := None, quarantined := Some(p), txs := r.txs + [tx]), RECEIPT_MISMATCH + e.text, 1, now);
      }
  }

  lemma ResolvedFits(s: System, r: Record, p: PendingTx, outcome: PendingOutcome, maxAttempts: nat, now: nat)
    requires Inv(s) && r.id in s.db.payments && s.db.payments[r.id] == r && r.pending == Some(p)
    requires HoldsJournal(s, r, p.txHash) && OutcomeOk(s, p, outcome)
    ensures Fits(s, r, Resolved(r, p, outcome, maxAttempts, now))
  {
    var z := Resolved(r, p, outcome, maxAttempts, now);
    assert RecordOk(r) && EntryOk(s, p.txHash);
    ResolvedKeeps(r, p, outcome, maxAttempts, now);
    match outcome
    case Dead =>
      assert !Succeeded(s.blocks, p.txHash);
    case Included(blockHash, summary) =>
      FoundInChain(s, p, outcome);
      FailedOnlyThere(s, p, outcome);
      var tx := ReceiptOf(p, blockHash);
      if !summary.failed {
        if ApplyTx(r, tx, summary).Ok? {
          AppliedFits(s, r, p, tx, summary);
        } else {
          QuarantineKeeps(r, tx, summary, now);
          assert z.txs[|r.txs|] == tx;
          assert Filed(z, p.txHash);
        }
      }
    case Wait =>
  }

  lemma StoreOutcomeKeeps(s: System, w: nat, now: nat)
    requires Inv(s) && w < |s.workers| && s.workers[w].Scanned?
    ensures var wk := s.workers[w];
      var t := Put(s, w, wk.cfg, Resolved(wk.r, wk.p, wk.outcome, wk.cfg.maxAttempts, now), false, true);
      Inv(t) && Advances(s, t)
  {
    var wk := s.workers[w];
    assert WorkerOk(s, wk);
    var z := Resolved(wk.r, wk.p, wk.outcome, wk.cfg.maxAttempts, now);
    ResolvedShape(wk.r, wk.p, wk.outcome, wk.cfg.maxAttempts, now);
    if Update(s.db, z).0.Ok? {
      UpdateOnCurrent(s.db, z);
      ResolvedFits(s, wk.r, wk.p, wk.outcome, wk.cfg.maxAttempts, now);
    }
    PutKeeps(s, w, wk.cfg, z, false, true);
  }

  // ---------------------------------------------------------------- failures and operators

  lemma CountFits(s: System, wk: Worker, now: nat)
    requires Inv(s) && wk.Counting? && WorkerOk(s, wk)
    ensures var f := RecordFailure(wk.r, wk.err.text, wk.cfg.maxAttempts, now);
      Update(s.db, f).0.Ok? ==> Fits(s, s.db.payments[f.id], f)
  {
    var f := RecordFailure(wk.r, wk.err.text, wk.cfg.maxAttempts, now);
    FailureKeepsProgress(wk.r, wk.err.text, wk.cfg.maxAttempts, now);
    if Update(s.db, f).0.Ok? {
      if RecordOk(wk.r) { FailureKeeps(wk.r, wk.err.text, wk.cfg.maxAttempts, now); }
      PlainFits(s, wk.r, f);
    }
  }

  lemma CountKeeps(s: System, w: nat, now: nat)
    requires Inv(s) && w < |s.workers| && s.workers[w].Counting?
    ensures var wk := s.workers[w];
      var t := Put(s, w, wk.cfg, RecordFailure(wk.r, wk.err.text, wk.cfg.maxAttempts, now), false, true);
      Inv(t) && Advances(s, t)
  {
    var wk := s.workers[w];
    CountFits(s, wk, now);
    PutKeeps(s, w, wk.cfg, RecordFailure(wk.r, wk.err.text, wk.cfg.maxAttempts, now), false, true);
  }

  lemma RetryShape(r: Record)
    ensures Retry(r).Ok? ==> NothingSigned(r, Retry(r).value)
    ensures ForceSweep(r).Ok? ==> NothingSigned(r, ForceSweep(r).value)
  {
  }

  lemma OperatorFits(s: System, r: Record, res: Result<Record>)
    requires Inv(s) && Copy(s.db, r)
    requires res.Ok? && NothingSigned(r, res.value)
    requires RecordOk(r) ==> RecordOk(res.value) && Follows(r, res.value) && r.pending.None?
    requires Update(s.db, res.value).0.Ok?
    ensures Fits(s, s.db.payments[res.value.id], res.value)
  {
  }

  lemma OperatorRecord(r: Record, res: Result<Record>)
    requires res.Ok? && (res == Retry(r) || res == ForceSweep(r))
    ensures NothingSigned(r, res.value)
    ensures RecordOk(r) ==> RecordOk(res.value) && Follows(r, res.value) && r.pending.None?
  {
    RetryShape(r);
    if RecordOk(r) {
      RetryKeeps(r);
      ForceSweepKeeps(r);
    }
  }

  lemma OperatorKeeps(s: System, w: nat, res: Result<Record>)
    requires Inv(s) && w < |s.workers| && s.workers[w].Holding?
    requires res == Retry(s.workers[w].r) || res == ForceSweep(s.workers[w].r)
    ensures Inv(PutResult(s, w, s.workers[w].cfg, res))
    ensures Advances(s, PutResult(s, w, s.workers[w].cfg, res))
  {
    assert WorkerOk(s, s.workers[w]);
    if res.Ok? {
      OperatorRecord(s.workers[w].r, res);
      if Update(s.db, res.value).0.Ok? { OperatorFits(s, s.workers[w].r, res); }
      PutKeeps(s, w, s.workers[w].cfg, res.value, false, true);
    } else {
      WorkerMoves(s, w, Idle);
    }
  }

  lemma ReadKeeps(s: System, w: nat, cfg: EngineConfig, id: string)
    requires Inv(s) && w < |s.workers| && id in s.db.payments
    ensures Inv(With(s, w, Holding(cfg, s.db.payments[id])))
  {
    WorkerMoves(s, w, Holding(cfg, s.db.payments[id]));
  }

  lemma RereadKeeps(s: System, w: nat)
    requires Inv(s) && w < |s.workers| && s.workers[w].Failing?
    ensures Inv(ExecReread(s, w))
    ensures Advances(s, ExecReread(s, w))
  {
    var wk := s.workers[w];
    if wk.id !in s.db.payments || s.db.payments[wk.id].pending.Some? {
      WorkerMoves(s, w, Idle);
    } else {
      WorkerMoves(s, w, Counting(wk.cfg, s.db.payments[wk.id], wk.err));
    }
  }

  // ---------------------------------------------------------------- every step, every run

  predicate Sending(l: Label) {
    l.Step? || l.Prepare? || l.PrepareFails? || l.Journal? || l.Broadcast? || l.Reply?
  }

  lemma SendingStepKeeps(s: System, l: Label)
    requires Inv(s) && OfWorker(l) && l.w < |s.workers| && Sending(l)
    ensures Inv(ExecWorker(s, l, s.workers[l.w]))
    ensures Advances(s, ExecWorker(s, l, s.workers[l.w]))
  {
    hide Inv, Follows, ExecStep, ExecPrepare, ExecPrepareFails, ExecJournal, ExecReply, ExecScan, ExecReread, Put, PutResult;
    HasBlocks(s);
    var wk := s.workers[l.w];
    match l
    case Step(w, q, token) => if wk.Holding? { StepKeeps(s, w, q, token); }
    case Prepare(w, nonce, hash, birth) => if wk.Reserved? { PrepareKeeps(s, w, nonce, hash, birth); }
    case PrepareFails(w, err) => if wk.Reserved? { PrepareFailsKeeps(s, w, err); }
    case Journal(w) => if wk.Prepared? { JournalStepKeeps(s, w); }
    case Broadcast(w) => if wk.Journaled? { BroadcastKeeps(s, w); }
    case Reply(w, n, i) => if wk.Waiting? { ReplyKeeps(s, w, n, i); }
  }

  /** A step that only moves one worker advances nothing and loses nothing. */
  lemma StandingAdvances(s: System, w: nat)
    requires w < |s.workers|
    ensures Advances(s, s)
    ensures forall wk :: Advances(s, With(s, w, wk))
  {
  }

  predicate Resolving(l: Label) {
    l.Scan? || l.StoreOutcome? || l.Reread? || l.Count?
  }

  lemma ResolvingStepKeeps(s: System, l: Label)
    requires Inv(s) && OfWorker(l) && l.w < |s.workers| && Resolving(l)
    ensures Inv(ExecWorker(s, l, s.workers[l.w]))
    ensures Advances(s, ExecWorker(s, l, s.workers[l.w]))
  {
    hide Inv, Follows, ExecScan, ExecReread, Put;
    var wk := s.workers[l.w];
    match l
    case Scan(w, seen) => if wk.Holding? { ScanKeeps(s, w, seen); }
    case StoreOutcome(w, now) => if wk.Scanned? { StoreOutcomeKeeps(s, w, now); }
    case Reread(w) => if wk.Failing? { RereadKeeps(s, w); }
    case Count(w, now) => if wk.Counting? { CountKeeps(s, w, now); }
  }

  lemma OtherStepKeeps(s: System, l: Label)
    requires Inv(s) && OfWorker(l) && l.w < |s.workers| && !Sending(l) && !Resolving(l)
    ensures Inv(ExecWorker(s, l, s.workers[l.w]))
    ensures Advances(s, ExecWorker(s, l, s.workers[l.w]))
  {
    hide Inv, Advances, PutResult, Retry, ForceSweep;
    HasBlocks(s);
    StandingAdvances(s, l.w);
    var wk := s.workers[l.w];
    match l
    case Read(w, cfg, id) => if wk.Idle? && id in s.db.payments { ReadKeeps(s, w, cfg, id); }
    case RetryJob(w) => if wk.Holding? { OperatorKeeps(s, w, Retry(wk.r)); }
    case ForceJob(w) => if wk.Holding? { OperatorKeeps(s, w, ForceSweep(wk.r)); }
    case Fault(w, err) => if !wk.Idle? { WorkerMoves(s, w, Failing(wk.cfg, JobOf(wk), err)); }
    case Crash(w) => WorkerMoves(s, w, Idle);
  }

  lemma WorkerStepKeeps(s: System, l: Label)
    requires Inv(s) && OfWorker(l) && l.w < |s.workers|
    ensures Inv(ExecWorker(s, l, s.workers[l.w]))
    ensures Advances(s, ExecWorker(s, l, s.workers[l.w]))
  {
    if Sending(l) { SendingStepKeeps(s, l); } else if Resolving(l) { ResolvingStepKeeps(s, l); } else { OtherStepKeeps(s, l); }
  }

  lemma ExecKeeps(s: System, l: Label)
    requires Inv(s)
    ensures Inv(Exec(s, l))
    ensures Advances(s, Exec(s, l))
  {
    hide Inv, ExecCreate, ExecWorker, MigrateLegacyPolicy, Admissible, Follows;
    match l
    case Create(_, _, _, _, _, _) => CreateKeeps(s, l);
    case Spawn => SpawnKeeps(s);
    case MigrateJob(id, version, budget) => MigrateRefused(s, id, version, budget);
    case Finalize(block) => if Admissible(s, block) { FinalizeKeeps(s, block); }
    case _ => if l.w < |s.workers| { WorkerStepKeeps(s, l); }
  }

  lemma InitialInv(s: System)
    requires Initial(s)
    ensures Inv(s)
  {
  }

  /** The invariant holds after every run from an empty store, whatever is interleaved. */
  lemma {:induction false} RunKeepsInv(s: System, ls: seq<Label>)
    requires Inv(s)
    ensures Inv(Run(s, ls))
  {
    if ls != [] {
      RunKeepsInv(s, ls[..|ls| - 1]);
      ExecKeeps(Run(s, ls[..|ls| - 1]), ls[|ls| - 1]);
    }
  }
}
