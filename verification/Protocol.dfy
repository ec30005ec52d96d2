/** The durable job protocol as a step system: any number of engines share one store, each may stall
    or crash between any two operations, replies get lost, and the chain grows on its own. */
module Protocol {
  import opened Basics
  import opened Keys
  import opened Calls
  import opened State
  import opened ChainScan
  import opened Store
  import opened Engine
  import opened Accounting

  /** One engine's pass over one record. `r` is the copy it read, however old. */
  datatype Worker =
    | Idle
    | Holding(cfg: EngineConfig, r: Record)
      // signer reserved, nothing signed
    | Reserved(cfg: EngineConfig, base: Record, r: Record, action: Action, call: ChainCall, signer: Address, token: Token)
      // signed bytes in memory only
    | Prepared(cfg: EngineConfig, base: Record, r: Record, action: Action, call: ChainCall, signer: Address, token: Token, tx: PreparedTx)
      // journal stored, bytes not sent
    | Journaled(cfg: EngineConfig, r: Record, tx: PreparedTx)
      // bytes sent, reply outstanding
    | Waiting(cfg: EngineConfig, r: Record, tx: PreparedTx)
      // lookup answered, result not stored
    | Scanned(cfg: EngineConfig, r: Record, p: PendingTx, outcome: PendingOutcome)
      // the step returned an error; the record is about to be read again
    | Failing(cfg: EngineConfig, id: string, err: Error)
      // read again without a journal; the failure is about to be stored
    | Counting(cfg: EngineConfig, r: Record, err: Error)

  datatype Entry = Entry(job: string, p: PendingTx)

  /** `signed`, `journal` and `sent` only record history: every extrinsic ever signed, every journal
      ever stored, every transaction hash ever handed to the network. */
  datatype System = System(
    db: Db, blocks: seq<Block>, workers: seq<Worker>,
    signed: map<Hash, PreparedTx>, journal: map<Hash, Entry>, sent: set<Hash>)

  datatype Label =
    | Create(cfg: EngineConfig, id: string, account: AccountId, sweepJob: bool, minAlpha: Option<nat>, expiresAt: nat)
    | Spawn
    | Read(w: nat, cfg: EngineConfig, id: string)
    | Step(w: nat, q: Reads, token: Token)
    | Prepare(w: nat, nonce: nat, hash: Hash, birth: nat)
    | PrepareFails(w: nat, err: Error)
    | Journal(w: nat)
    | Broadcast(w: nat)
    | Finalize(block: Block)
    | Reply(w: nat, n: nat, i: nat)
    | Scan(w: nat, seen: nat)
    | StoreOutcome(w: nat, now: nat)
    | Reread(w: nat)
    | Count(w: nat, now: nat)
    | RetryJob(w: nat)
    | ForceJob(w: nat)
    | MigrateJob(id: string, version: nat, budget: Option<BuybackBudget>)
    | Fault(w: nat, err: Error)
    | Crash(w: nat)

  // ---------------------------------------------------------------- the chain

  /** Chain assumptions. Extrinsics signed by the engines enter a block only if their bytes were sent,
      at most once, inside their mortality window, unaltered. Other extrinsics are arbitrary. */
  ghost predicate Admissible(s: System, block: Block) {
    && (forall i :: 0 <= i < |block.exts| && block.exts[i].hash in s.signed ==>
          var h := block.exts[i].hash;
          && h in s.sent && !InChain(s.blocks, h)
          && s.signed[h].birthBlock <= |s.blocks| <= s.signed[h].birthBlock + MORTALITY
          && block.exts[i].data == Encoded(s.signed[h].call))
    && (forall i, k :: 0 <= i < k < |block.exts| && block.exts[i].hash in s.signed ==>
          block.exts[i].hash != block.exts[k].hash)
  }

  // ---------------------------------------------------------------- steps

  function With(s: System, w: nat, wk: Worker): System
    requires w < |s.workers|
  {
    s.(workers := s.workers[w := wk])
  }

  function JobOf(wk: Worker): string {
    match wk
    case Idle => ""
    case Failing(_, id, _) => id
    case _ => wk.r.id
  }

  /** Stores `rec`; a lost race ends the pass, another error is reported unless `quiet`. */
  function Put(s: System, w: nat, cfg: EngineConfig, rec: Record, goOn: bool, quiet: bool): System
    requires w < |s.workers|
  {
    var (res, db) := Update(s.db, rec);
    if res.Ok? then With(s.(db := db), w, if goOn then Holding(cfg, res.value) else Idle)
    else if res.error.Conflict? || quiet then With(s, w, Idle)
    else With(s, w, Failing(cfg, rec.id, res.error))
  }

  function ExecCreate(s: System, l: Label): System
    requires l.Create?
  {
    var made := if l.sweepJob then NewSweepJob(l.cfg, l.id, l.account)
                else NewPayment(l.cfg, l.id, l.account, l.minAlpha, l.expiresAt);
    if made.Err? then s else s.(db := Insert(s.db, made.value).1)
  }

  function ExecStep(s: System, w: nat, q: Reads, token: Token): System
    requires w < |s.workers| && s.workers[w].Holding?
  {
    ExecDecision(s, w, s.workers[w].cfg, s.workers[w].r, Decide(s.workers[w].cfg, s.workers[w].r, q), token)
  }

  function ExecDecision(s: System, w: nat, cfg: EngineConfig, r: Record, d: Decision, token: Token): System
    requires w < |s.workers|
  {
    match d
    case Nothing => With(s, w, Idle)
    case Resolve(_) => s
    case Save(rec, goOn) => Put(s, w, cfg, rec, goOn, r.state == Pending || r.state == Settled)
    case Stop(err, counted) => With(s, w, if counted then Failing(cfg, r.id, err) else Idle)
    case Send(rec, action, call, signer) =>
      var (res, db) := Reserve(s.db, signer, rec.id, Some(rec.version), token);
      if res.Ok? then With(s.(db := db), w, Reserved(cfg, r, rec, action, call, signer, token))
      else With(s, w, Idle)
  }

  function ExecPrepare(s: System, w: nat, nonce: nat, hash: Hash, birth: nat): System
    requires w < |s.workers| && s.workers[w].Reserved?
  {
    var wk := s.workers[w];
    var tx := PreparedTx(wk.call, wk.signer, nonce, hash, birth);
    if hash in s.signed || InChain(s.blocks, hash) then s
    else With(s.(signed := s.signed[hash := tx]), w,
              Prepared(wk.cfg, wk.base, wk.r, wk.action, wk.call, wk.signer, wk.token, tx))
  }

  function ExecPrepareFails(s: System, w: nat, err: Error): System
    requires w < |s.workers| && s.workers[w].Reserved?
  {
    var wk := s.workers[w];
    var (res, db) := CancelPreparation(s.db, wk.signer, wk.r.id, wk.token);
    if res.Ok? then With(s.(db := db), w, Failing(wk.cfg, wk.r.id, err)) else With(s, w, Idle)
  }

  function JournalOf(wk: Worker): PendingTx
    requires wk.Prepared?
  {
    JournalEntry(wk.action, wk.token, wk.tx, wk.call)
  }

  function ExecJournal(s: System, w: nat): System
    requires w < |s.workers| && s.workers[w].Prepared?
  {
    var wk := s.workers[w];
    var p := JournalOf(wk);
    var (res, db) := Update(s.db, wk.r.(pending := Some(p)));
    if res.Ok? then
      With(s.(db := db, journal := s.journal[wk.tx.txHash := Entry(wk.r.id, p)]), w, Journaled(wk.cfg, res.value, wk.tx))
    else if res.error.Conflict? then With(s, w, Idle)
    else With(s, w, Failing(wk.cfg, wk.r.id, res.error))
  }

  /** The broadcasting worker hears back. */
  function ExecAnswer(s: System, w: nat, cfg: EngineConfig, r: Record, answer: Result<FinalizedTx>): System
    requires w < |s.workers|
  {
    match answer
    case Err(e) => With(s, w, Failing(cfg, r.id, e))
    case Ok(f) =>
      match ApplyTx(r, f.tx, f.summary)
      case Err(e) => With(s, w, Failing(cfg, r.id, e))
      case Ok(applied) => Put(s, w, cfg, applied, false, false)
  }

  function ExecReply(s: System, w: nat, n: nat, i: nat): System
    requires w < |s.workers| && s.workers[w].Waiting?
  {
    var wk := s.workers[w];
    if !At(s.blocks, n, i, wk.tx.txHash) then s
    else ExecAnswer(s, w, wk.cfg, wk.r, BroadcastReply(wk.tx, s.blocks[n].hash, s.blocks[n].exts[i].events))
  }

  function ExecVerdict(s: System, w: nat, cfg: EngineConfig, r: Record, p: PendingTx, verdict: Result<PendingOutcome>): System
    requires w < |s.workers|
  {
    if verdict.Err? || verdict.value.Wait? then With(s, w, Idle) else With(s, w, Scanned(cfg, r, p, verdict.value))
  }

  /** A step resolves a journal only for its own identity and never for a quarantined job. */
  predicate MayScan(wk: Worker)
    requires wk.Holding?
  {
    wk.r.identity == Some(Identity(wk.cfg)) && wk.r.quarantined.None? && wk.r.pending.Some?
  }

  /** The node may lag: the scan sees the first `seen` finalized blocks. */
  function ExecScan(s: System, w: nat, seen: nat): System
    requires w < |s.workers| && s.workers[w].Holding?
  {
    var wk := s.workers[w];
    if !(0 < seen <= |s.blocks|) || !MayScan(wk) then s
    else ExecVerdict(s, w, wk.cfg, wk.r, wk.r.pending.value, Lookup(s.blocks[..seen], wk.r.pending.value))
  }

  function ExecReread(s: System, w: nat): System
    requires w < |s.workers| && s.workers[w].Failing?
  {
    var wk := s.workers[w];
    if wk.id !in s.db.payments || s.db.payments[wk.id].pending.Some? then With(s, w, Idle)
    else With(s, w, Counting(wk.cfg, s.db.payments[wk.id], wk.err))
  }

  function PutResult(s: System, w: nat, cfg: EngineConfig, res: Result<Record>): System
    requires w < |s.workers|
  {
    if res.Ok? then Put(s, w, cfg, res.value, false, true) else With(s, w, Idle)
  }

  /** One step; a label that is not enabled leaves the system as it is. */
  ghost function Exec(s: System, l: Label): System {
    match l
    case Create(_, _, _, _, _, _) => ExecCreate(s, l)
    case Spawn => s.(workers := s.workers + [Idle])
    case MigrateJob(id, version, budget) => s.(db := MigrateLegacyPolicy(s.db, id, version, budget).1)
    case Finalize(block) => if Admissible(s, block) then s.(blocks := s.blocks + [block]) else s
    case _ => if l.w < |s.workers| then ExecWorker(s, l, s.workers[l.w]) else s
  }

  predicate OfWorker(l: Label) {
    !l.Create? && !l.Spawn? && !l.MigrateJob? && !l.Finalize?
  }

  function ExecWorker(s: System, l: Label, wk: Worker): System
    requires OfWorker(l) && l.w < |s.workers| && wk == s.workers[l.w]
  {
    match l
    case Read(w, cfg, id) => if wk.Idle? && id in s.db.payments then With(s, w, Holding(cfg, s.db.payments[id])) else s
    case Step(w, q, token) => if wk.Holding? then ExecStep(s, w, q, token) else s
    case Prepare(w, nonce, hash, birth) => if wk.Reserved? then ExecPrepare(s, w, nonce, hash, birth) else s
    case PrepareFails(w, err) => if wk.Reserved? then ExecPrepareFails(s, w, err) else s
    case Journal(w) => if wk.Prepared? then ExecJournal(s, w) else s
    case Broadcast(w) => if wk.Journaled? then With(s.(sent := s.sent + {wk.tx.txHash}), w, Waiting(wk.cfg, wk.r, wk.tx)) else s
    case Reply(w, n, i) => if wk.Waiting? then ExecReply(s, w, n, i) else s
    case Scan(w, seen) => if wk.Holding? then ExecScan(s, w, seen) else s
    case StoreOutcome(w, now) =>
      if wk.Scanned? then Put(s, w, wk.cfg, Resolved(wk.r, wk.p, wk.outcome, wk.cfg.maxAttempts, now), false, true) else s
    case Reread(w) => if wk.Failing? then ExecReread(s, w) else s
    case Count(w, now) =>
      if wk.Counting? then Put(s, w, wk.cfg, RecordFailure(wk.r, wk.err.text, wk.cfg.maxAttempts, now), false, true) else s
    case RetryJob(w) => if wk.Holding? then PutResult(s, w, wk.cfg, Retry(wk.r)) else s
    case ForceJob(w) => if wk.Holding? then PutResult(s, w, wk.cfg, ForceSweep(wk.r)) else s
    case Fault(w, err) => if wk.Idle? then s else With(s, w, Failing(wk.cfg, JobOf(wk), err))
    case Crash(w) => With(s, w, Idle)
  }

  ghost function Run(s: System, ls: seq<Label>): System {
    if ls == [] then s else Exec(Run(s, ls[..|ls| - 1]), ls[|ls| - 1])
  }

  /** Any finalized chain, an empty store, idle workers. */
  predicate Initial(s: System) {
    && s.db == Db(map[], map[]) && s.blocks != []
    && (forall w :: 0 <= w < |s.workers| ==> s.workers[w] == Idle)
    && s.signed == map[] && s.journal == map[] && s.sent == {}
  }

  // ---------------------------------------------------------------- the invariant

  predicate RecordsOk(s: System) {
    && Keyed(s.db)
    && (forall j :: j in s.db.payments ==> RecordOk(s.db.payments[j]))
  }

  /** A stored journal is in the log. */
  predicate JournalsLogged(s: System) {
    forall j :: j in s.db.payments && s.db.payments[j].pending.Some? ==>
      var p := s.db.payments[j].pending.value;
      p.txHash in s.journal && s.journal[p.txHash] == Entry(j, p)
  }

  predicate EntryOk(s: System, h: Hash)
    requires h in s.journal
  {
    var e := s.journal[h];
    && h in s.signed && e.p.txHash == h && e.job in s.db.payments
    && e.p.birthBlock == s.signed[h].birthBlock && e.p.signer == s.signed[h].signer && e.p.nonce == s.signed[h].nonce
    && e.p.amount == s.signed[h].call.Amount() && ActionOf(s.signed[h].call) == Some(e.p.action)
    && (e.p.action.BuyStake? ==>
          s.db.payments[e.job].budget.Some? && e.p.amount == s.db.payments[e.job].budget.value.amountRao)
  }

  predicate LogOk(s: System) {
    && (forall h :: h in s.journal ==> EntryOk(s, h))
    && s.sent <= s.journal.Keys
  }

  ghost predicate ChainOk(s: System) {
    && s.blocks != []
    && (forall n: nat, i: nat, h :: At(s.blocks, n, i, h) && h in s.signed ==>
          && h in s.sent && s.signed[h].birthBlock <= n <= s.signed[h].birthBlock + MORTALITY
          && s.blocks[n].exts[i].data == Encoded(s.signed[h].call))
    && (forall n: nat, i: nat, m: nat, k: nat, h ::
          At(s.blocks, n, i, h) && At(s.blocks, m, k, h) && h in s.signed ==> n == m && i == k)
  }

  /** The extrinsic is finalized without `ExtrinsicFailed`. */
  ghost predicate Succeeded(blocks: seq<Block>, h: Hash) {
    exists n: nat, i: nat :: At(blocks, n, i, h) && Failure !in blocks[n].exts[i].events
  }

  predicate Filed(r: Record, h: Hash) {
    exists k :: 0 <= k < |r.txs| && r.txs[k].txHash == h
  }

  predicate Current(s: System, h: Hash)
    requires h in s.journal
  {
    s.journal[h].job in s.db.payments && s.db.payments[s.journal[h].job].pending == Some(s.journal[h].p)
  }

  /** The chain has had its last chance to include the transaction, or did include it. */
  ghost predicate Closed(s: System, h: Hash)
    requires h in s.journal && s.blocks != []
  {
    InChain(s.blocks, h) || Head(s.blocks) >= s.journal[h].p.birthBlock + MORTALITY
  }

  ghost predicate EntrySettled(s: System, h: Hash)
    requires h in s.journal && s.blocks != []
  {
    || Current(s, h)
    || (&& Closed(s, h)
        && (Succeeded(s.blocks, h) ==> s.journal[h].job in s.db.payments && Filed(s.db.payments[s.journal[h].job], h)))
  }

  /** A journal leaves the record only once the chain can no longer include it, and a success leaves
      a receipt. */
  ghost predicate LogSettled(s: System)
    requires s.blocks != []
  {
    forall h :: h in s.journal ==> EntrySettled(s, h)
  }

  /** Receipts of a job are journals of that job, for pairwise different slots, all accounted for. */
  predicate JobReceiptsOk(s: System, j: string)
    requires j in s.db.payments
  {
    var r := s.db.payments[j];
    && (forall k :: 0 <= k < |r.txs| ==> r.txs[k].txHash in s.journal && s.journal[r.txs[k].txHash].job == j)
    && (forall k, m :: 0 <= k < m < |r.txs| ==>
          SlotOf(s.journal[r.txs[k].txHash].p.action) != SlotOf(s.journal[r.txs[m].txHash].p.action))
    && (forall k :: 0 <= k < |AppliedTxs(r)| ==> Used(r, SlotOf(s.journal[r.txs[k].txHash].p.action)))
  }

  predicate ReceiptsOk(s: System) {
    forall j :: j in s.db.payments ==> JobReceiptsOk(s, j)
  }

  /** A copy is an earlier or the current version; at the current version it is the stored record. */
  predicate Copy(db: Db, c: Record) {
    && c.id in db.payments
    && c.version <= db.payments[c.id].version
    && (c.version == db.payments[c.id].version ==> c == db.payments[c.id])
  }

  ghost predicate OutcomeOk(s: System, p: PendingTx, outcome: PendingOutcome)
    requires s.blocks != []
  {
    match outcome
    case Wait => false
    case Dead => Head(s.blocks) > Horizon(p) && !InChain(s.blocks, p.txHash)
    case Included(blockHash, summary) =>
      exists n: nat, i: nat :: At(s.blocks, n, i, p.txHash) && SummaryOf(s.blocks[n].exts[i].events) == Ok(summary)
  }

  predicate HoldsJournal(s: System, r: Record, h: Hash) {
    && r.pending.Some? && r.pending.value.txHash == h
    && h in s.journal && s.journal[h] == Entry(r.id, r.pending.value)
  }

  ghost predicate WorkerOk(s: System, wk: Worker)
    requires s.blocks != []
  {
    match wk
    case Idle => true
    case Holding(_, r) => Copy(s.db, r) && (r.pending.Some? ==> HoldsJournal(s, r, r.pending.value.txHash))
    case Reserved(_, base, r, action, call, signer, _) => Copy(s.db, base) && SendOk(base, r, action, call, signer)
    case Prepared(_, base, r, action, call, signer, _, tx) =>
      && Copy(s.db, base) && SendOk(base, r, action, call, signer)
      && tx.call == call && tx.signer == signer
      && tx.txHash in s.signed && s.signed[tx.txHash] == tx && tx.txHash !in s.journal
    case Journaled(_, r, tx) =>
      Copy(s.db, r) && HoldsJournal(s, r, tx.txHash) && tx.txHash in s.signed && s.signed[tx.txHash] == tx
    case Waiting(_, r, tx) =>
      Copy(s.db, r) && HoldsJournal(s, r, tx.txHash) && tx.txHash in s.signed && s.signed[tx.txHash] == tx
    case Scanned(_, r, p, outcome) =>
      Copy(s.db, r) && r.pending == Some(p) && HoldsJournal(s, r, p.txHash) && OutcomeOk(s, p, outcome)
    case Failing(_, _, _) => true
    case Counting(_, r, _) => Copy(s.db, r) && r.pending.None?
  }

  ghost predicate WorkersOk(s: System)
    requires s.blocks != []
  {
    && (forall w :: 0 <= w < |s.workers| ==> WorkerOk(s, s.workers[w]))
    && (forall w, v :: 0 <= w < v < |s.workers| && s.workers[w].Prepared? && s.workers[v].Prepared? ==>
          s.workers[w].tx.txHash != s.workers[v].tx.txHash)
  }

  ghost predicate Inv(s: System) {
    && RecordsOk(s) && Fenced(s.db) && JournalsLogged(s) && LogOk(s)
    && ChainOk(s) && LogSettled(s) && ReceiptsOk(s) && WorkersOk(s)
  }
}
