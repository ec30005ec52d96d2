/** The SQLite store (src/store.rs): each `Immediate` transaction is one atomic operation on the
    `payments` and `signer_reservations` tables. */
module Store {
  import opened Basics
  import opened Keys
  import opened Calls
  import opened State

  /** A row of `signer_reservations`; the signer is the primary key. */
  datatype Row = Row(job: string, token: Token)

  /** Contents of the two tables. */
  datatype Db = Db(payments: map<string, Record>, rows: map<Address, Row>)

  /** How the `version INTEGER` column reads a u64 back. */
  function AsI64(version: nat): int {
    if version <= I64_MAX then version else version - (U64_MAX + 1)
  }

  predicate PendingSigner(db: Db, signer: Address) {
    exists j :: j in db.payments && db.payments[j].pending.Some? && db.payments[j].pending.value.signer == signer
  }

  predicate JobReserved(db: Db, job: string) {
    exists a :: a in db.rows && db.rows[a].job == job
  }

  predicate TokenTaken(db: Db, token: Token) {
    exists a :: a in db.rows && db.rows[a].token == token
  }

  /** The journal's signer is reserved for this job under the journal's own token. */
  predicate Owned(db: Db, job: string, p: PendingTx) {
    p.reservation.Some? && p.signer in db.rows && db.rows[p.signer] == Row(job, p.reservation.value)
  }

  predicate HasPending(db: Db, job: string) {
    job in db.payments && db.payments[job].pending.Some?
  }

  // ---------------------------------------------------------------- transactions

  function Reserve(db: Db, signer: Address, job: string, version: Option<nat>, token: Token): (done: (Result<Token>, Db))
    ensures done.0.Ok? ==> done.0.value == token
    ensures done.0.Err? ==> done.1 == db
  {
    var current := if job in db.payments then Some(AsI64(db.payments[job].version)) else None;
    if version.Some? && current != (if version.value <= I64_MAX then Some(version.value) else None) then
      (Err(Conflict(job)), db)
    else if PendingSigner(db, signer) then
      (Err(Conflict("unresolved signer journal")), db)
    else if signer in db.rows || TokenTaken(db, token) then
      (Err(Conflict("signer reserved")), db)
    else
      (Ok(token), db.(rows := db.rows[signer := Row(job, token)]))
  }

  function CancelPreparation(db: Db, signer: Address, job: string, token: Token): (done: (Result<()>, Db))
    ensures done.0.Err? ==> done.1 == db
  {
    if signer in db.rows && db.rows[signer] == Row(job, token) && !PendingSigner(db, signer) && !HasPending(db, job) then
      (Ok(()), db.(rows := db.rows - {signer}))
    else
      (Err(Conflict("preparation token or pending journal changed")), db)
  }

  function Insert(db: Db, rec: Record): (Result<()>, Db) {
    if rec.id in db.payments then (Err(Store("exists")), db)
    else (Ok(()), db.(payments := db.payments[rec.id := rec]))
  }

  function Update(db: Db, rec: Record): (done: (Result<Record>, Db))
    ensures done.0.Ok? ==> done.0.value == rec.(version := rec.version + 1)
    ensures done.0.Err? ==> done.1 == db
  {
    if rec.id !in db.payments then
      (Err(NotFound(rec.id)), db)
    else
      var prev := db.payments[rec.id];
      if prev.version != rec.version then
        (Err(Conflict(rec.id)), db)
      else if prev.budget != rec.budget || prev.autoRequired != rec.autoRequired || prev.identity != rec.identity then
        (Err(Store("immutable job budget")), db)
      else if rec.pending.Some? && rec.pending.value.reservation.None? then
        (Err(Store("legacy journal requires manual reconciliation")), db)
      else if rec.pending.Some? && !Owned(db, rec.id, rec.pending.value) then
        (Err(Store("signer reservation mismatch")), db)
      else if prev.pending.Some? && rec.pending.Some? && rec.pending != prev.pending then
        (Err(Store("cannot replace unresolved journal")), db)
      else if prev.pending.Some? && rec.pending.None? && prev.pending.value.reservation.None? then
        (Err(Store("legacy journal requires manual reconciliation")), db)
      else if prev.pending.Some? && rec.pending.None? && !Owned(db, rec.id, prev.pending.value) then
        (Err(Store("signer reservation mismatch")), db)
      else if rec.version + 1 > U64_MAX then
        (Err(Store("version overflow")), db)
      else
        var next := rec.(version := rec.version + 1);
        var rows := if prev.pending.Some? && rec.pending.None? then db.rows - {prev.pending.value.signer} else db.rows;
        (Ok(next), Db(db.payments[rec.id := next], rows))
  }

  /** No policy and no sign of execution: the only records whose policy may be set by hand. */
  predicate PristineLegacy(r: Record) {
    && r.autoRequired.None? && r.budget.None? && r.pending.None? && r.quarantined.None?
    && r.txs == [] && r.buyback.None? && !r.buybackDone
    && r.fundedTao == 0 && r.sweptAlpha == 0 && r.positions == [] && r.consolidated == 0 && !r.dustReturned
    && (r.state == Pending || r.state == Detected)
  }

  function MigratedPolicy(r: Record, version: nat, budget: Option<BuybackBudget>): Result<Record> {
    if r.version != version then Err(Conflict(r.id))
    else if !PristineLegacy(r) then Err(Store("legacy job has policy or execution evidence"))
    else
      var _ :- if budget.Some? then budget.value.Validate() else Ok(());
      if r.version + 1 > U64_MAX then Err(Store("version overflow"))
      else Ok(r.(autoRequired := Some(budget.Some?), budget := budget, version := r.version + 1))
  }

  function MigrateLegacyPolicy(db: Db, id: string, version: nat, budget: Option<BuybackBudget>): (Result<Record>, Db) {
    if JobReserved(db, id) then (Err(Conflict("job has a signer reservation")), db)
    else if id !in db.payments then (Err(Store("no such payment")), db)
    else
      match MigratedPolicy(db.payments[id], version, budget)
      case Err(e) => (Err(e), db)
      case Ok(next) =>
        if next.version > I64_MAX then (Err(Store("version out of range")), db)
        else (Ok(next), db.(payments := db.payments[id := next]))
  }

  // ---------------------------------------------------------------- the signer fence

  /** Every stored journal's signer row belongs to that job under that journal's token. */
  predicate Fenced(db: Db) {
    forall j :: j in db.payments && db.payments[j].pending.Some? ==> Owned(db, j, db.payments[j].pending.value)
  }

  predicate Keyed(db: Db) {
    forall j :: j in db.payments ==> db.payments[j].id == j
  }

  /** Under the fence at most one job has a journal for a given signer. */
  lemma OneJournalPerSigner(db: Db, j: string, k: string)
    requires Fenced(db) && HasPending(db, j) && HasPending(db, k)
    requires db.payments[j].pending.value.signer == db.payments[k].pending.value.signer
    ensures j == k
  {
  }

  /** No transaction of the store breaks the fence: reserving never replaces a row, cancelling never
      removes a journaled signer's row, and a write that adds or drops a journal does so together
      with its row. */
  lemma ReserveKeepsFence(db: Db, signer: Address, job: string, version: Option<nat>, token: Token)
    requires Fenced(db)
    ensures Fenced(Reserve(db, signer, job, version, token).1)
  {
  }

  lemma CancelKeepsFence(db: Db, signer: Address, job: string, token: Token)
    requires Fenced(db)
    ensures Fenced(CancelPreparation(db, signer, job, token).1)
  {
  }

  lemma UpdateKeepsFence(db: Db, rec: Record)
    requires Fenced(db) && Keyed(db)
    ensures Fenced(Update(db, rec).1) && Keyed(Update(db, rec).1)
  {
  }

  lemma InsertKeepsFence(db: Db, rec: Record)
    requires Fenced(db) && Keyed(db) && rec.pending.None?
    ensures Fenced(Insert(db, rec).1) && Keyed(Insert(db, rec).1)
  {
  }

  lemma MigrateKeepsFence(db: Db, id: string, version: nat, budget: Option<BuybackBudget>)
    requires Fenced(db) && Keyed(db)
    ensures Fenced(MigrateLegacyPolicy(db, id, version, budget).1)
    ensures Keyed(MigrateLegacyPolicy(db, id, version, budget).1)
  {
  }

  /** The stored job is at the version named; a version beyond the i64 column reads as no job at all. */
  predicate VersionNamed(db: Db, job: string, version: Option<nat>) {
    version.Some? ==>
      if version.value <= I64_MAX then job in db.payments && db.payments[job].version == version.value
      else job !in db.payments
  }

  // ---------------------------------------------------------------- exactly when, and to what effect

  /** Exactly when a signer can be reserved under the fence: nobody holds its row, the token is new and
      the job, when a version is named, is at it. The journal scan of the source adds nothing for
      journals that carry a token. A reservation adds that row and nothing else; a refusal is a lost race. */
  lemma ReserveSucceedsExactly(db: Db, signer: Address, job: string, version: Option<nat>, token: Token)
    requires Fenced(db)
    requires job in db.payments ==> db.payments[job].version <= U64_MAX
    ensures var (res, next) := Reserve(db, signer, job, version, token);
      && (res.Ok? <==> signer !in db.rows && !TokenTaken(db, token) && VersionNamed(db, job, version))
      && (res.Ok? ==> res.value == token && next == db.(rows := db.rows[signer := Row(job, token)]))
      && (res.Err? ==> res.error.Conflict? && next == db)
  {
    if PendingSigner(db, signer) {
      var j :| j in db.payments && db.payments[j].pending.Some? && db.payments[j].pending.value.signer == signer;
      assert Owned(db, j, db.payments[j].pending.value);
    }
  }

  /** Exactly when a reservation can be given back under the fence: the row is this job's under this
      token, and the job has no journal. The row goes and nothing else changes; so the signer can be
      reserved again. */
  lemma CancelSucceedsExactly(db: Db, signer: Address, job: string, token: Token)
    requires Fenced(db)
    ensures var (res, next) := CancelPreparation(db, signer, job, token);
      && (res.Ok? <==> signer in db.rows && db.rows[signer] == Row(job, token) && !HasPending(db, job))
      && (res.Ok? ==> next == db.(rows := db.rows - {signer}))
      && (res.Err? ==> res.error.Conflict? && next == db)
  {
    if PendingSigner(db, signer) {
      var j :| j in db.payments && db.payments[j].pending.Some? && db.payments[j].pending.value.signer == signer;
      assert Owned(db, j, db.payments[j].pending.value);
    }
  }

  /** Cancelling what was just reserved restores the tables. */
  lemma CancelUndoesReserve(db: Db, signer: Address, job: string, version: Option<nat>, token: Token)
    requires Fenced(db) && Reserve(db, signer, job, version, token).0.Ok? && !HasPending(db, job)
    ensures CancelPreparation(Reserve(db, signer, job, version, token).1, signer, job, token) == (Ok(()), db)
  {
    var next := Reserve(db, signer, job, version, token).1;
    ReserveKeepsFence(db, signer, job, version, token);
    CancelSucceedsExactly(next, signer, job, token);
    assert next.rows - {signer} == db.rows;
  }

  /** An id is inserted once; nothing is ever overwritten. */
  lemma InsertSucceedsExactly(db: Db, rec: Record)
    ensures var (res, next) := Insert(db, rec);
      && (res.Ok? <==> rec.id !in db.payments)
      && next == (if res.Ok? then db.(payments := db.payments[rec.id := rec]) else db)
  {
  }

  /** Exactly when a write goes through under the fence: it builds on the stored version, keeps budget,
      policy and identity, and leaves the journal alone, releases it, or adds one to a job without, whose
      signer the job has reserved under its token. It stores the next version, and a released
      journal's row goes with it. Only a lost race is a conflict. */
  lemma UpdateSucceedsExactly(db: Db, rec: Record)
    requires Fenced(db)
    ensures var (res, next) := Update(db, rec);
      && (res.Ok? <==>
            && rec.id in db.payments && rec.version == db.payments[rec.id].version < U64_MAX
            && rec.budget == db.payments[rec.id].budget
            && rec.autoRequired == db.payments[rec.id].autoRequired
            && rec.identity == db.payments[rec.id].identity
            && (rec.pending.Some? ==>
                  && Owned(db, rec.id, rec.pending.value)
                  && (db.payments[rec.id].pending.None? || db.payments[rec.id].pending == rec.pending)))
      && (res.Ok? ==>
            && res.value == rec.(version := rec.version + 1)
            && next.payments == db.payments[rec.id := res.value]
            && next.rows == (if HasPending(db, rec.id) && rec.pending.None?
                             then db.rows - {db.payments[rec.id].pending.value.signer} else db.rows))
      && (res.Err? ==>
            && next == db
            && (res.error.Conflict? <==> rec.id in db.payments && rec.version != db.payments[rec.id].version)
            && (res.error.NotFound? <==> rec.id !in db.payments))
  {
    if HasPending(db, rec.id) {
      assert Owned(db, rec.id, db.payments[rec.id].pending.value);
    }
  }

  /** Exactly when a policy can be set by hand: the job is reserved by nobody, at the version named and
      below the column's range, has no policy and no trace of execution, and the budget, if any, is
      valid. Only policy, budget and version change. */
  lemma MigrateSucceedsExactly(db: Db, id: string, version: nat, budget: Option<BuybackBudget>)
    ensures var (res, next) := MigrateLegacyPolicy(db, id, version, budget);
      && (res.Ok? <==>
            && id in db.payments && version == db.payments[id].version < I64_MAX
            && (forall a :: a in db.rows ==> db.rows[a].job != id)
            && (budget.Some? ==> budget.value.Validate().Ok?)
            && var r := db.payments[id];
               && (r.state == Pending || r.state == Detected)
               && r.autoRequired.None? && r.budget.None? && r.pending.None? && r.quarantined.None?
               && r.fundedTao == 0 && r.sweptAlpha == 0 && r.positions == [] && r.consolidated == 0 && !r.dustReturned
               && r.buyback.None? && !r.buybackDone && r.txs == [])
      && (res.Ok? ==>
            && res.value == db.payments[id].(autoRequired := Some(budget.Some?), budget := budget, version := version + 1)
            && next == db.(payments := db.payments[id := res.value]))
      && (res.Err? ==> next == db)
  {
  }

  // ---------------------------------------------------------------- the store object

  class SqliteStore {
    var payments: map<string, Record>
    var reservations: map<Address, Row>

    function Tables(): Db
      reads this
    {
      Db(payments, reservations)
    }

    constructor ()
      ensures Tables() == Db(map[], map[])
    {
      payments, reservations := map[], map[];
    }

    /** `SqliteStore::reserve`; `token` is the fresh UUID. */
    method ReserveSigner(signer: Address, job: string, version: Option<nat>, token: Token) returns (res: Result<Token>)
      modifies this
      ensures (res, Tables()) == Reserve(old(Tables()), signer, job, version, token)
    {
      if version.Some? {
        var current: Option<int> := None;
        if job in payments {
          current := Some(AsI64(payments[job].version));
        }
        var wanted: Option<int> := None;
        if version.value <= I64_MAX {
          wanted := Some(version.value);
        }
        if current != wanted {
          return Err(Conflict(job));
        }
      }
      var pending := exists j :: j in payments && payments[j].pending.Some? && payments[j].pending.value.signer == signer;
      assert pending == PendingSigner(Tables(), signer);
      if pending {
        return Err(Conflict("unresolved signer journal"));
      }
      if signer in reservations || exists a :: a in reservations && reservations[a].token == token {
        return Err(Conflict("signer reserved"));
      }
      reservations := reservations[signer := Row(job, token)];
      return Ok(token);
    }

    method Cancel(signer: Address, job: string, token: Token) returns (res: Result<()>)
      modifies this
      ensures (res, Tables()) == CancelPreparation(old(Tables()), signer, job, token)
    {
      if signer !in reservations || reservations[signer] != Row(job, token)
        || PendingSigner(Tables(), signer)
        || (job in payments && payments[job].pending.Some?)
      {
        return Err(Conflict("preparation token or pending journal changed"));
      }
      reservations := reservations - {signer};
      return Ok(());
    }

    method InsertRecord(rec: Record) returns (res: Result<()>)
      modifies this
      ensures (res, Tables()) == Insert(old(Tables()), rec)
    {
      if rec.id in payments {
        return Err(Store("exists"));
      }
      payments := payments[rec.id := rec];
      return Ok(());
    }

    method Get(id: string) returns (res: Option<Record>)
      ensures res == if id in payments then Some(payments[id]) else None
    {
      if id in payments {
        return Some(payments[id]);
      }
      return None;
    }

    /** Compare-and-swap write. The row deletion is part of the same transaction: an error after it
        rolls it back. */
    method Write(rec: Record) returns (res: Result<Record>)
      modifies this
      ensures (res, Tables()) == Update(old(Tables()), rec)
    {
      if rec.id !in payments {
        return Err(NotFound(rec.id));
      }
      var previous := payments[rec.id];
      if previous.version != rec.version {
        return Err(Conflict(rec.id));
      }
      if previous.budget != rec.budget
        || previous.autoRequired != rec.autoRequired
        || previous.identity != rec.identity
      {
        return Err(Store("immutable job budget"));
      }
      if rec.pending.Some? {
        var p := rec.pending.value;
        if p.reservation.None? {
          return Err(Store("legacy journal requires manual reconciliation"));
        }
        if p.signer !in reservations || reservations[p.signer] != Row(rec.id, p.reservation.value) {
          return Err(Store("signer reservation mismatch"));
        }
      }
      var rows := reservations;
      if previous.pending.Some? {
        var p := previous.pending.value;
        if rec.pending.Some? && rec.pending != previous.pending {
          return Err(Store("cannot replace unresolved journal"));
        }
        if rec.pending.None? {
          if p.reservation.None? {
            return Err(Store("legacy journal requires manual reconciliation"));
          }
          if p.signer !in rows || rows[p.signer] != Row(rec.id, p.reservation.value) {
            return Err(Store("signer reservation mismatch"));
          }
          rows := rows - {p.signer};
        }
      }
      if rec.version + 1 > U64_MAX {
        return Err(Store("version overflow"));
      }
      var next := rec.(version := rec.version + 1);
      payments, reservations := payments[rec.id := next], rows;
      return Ok(next);
    }

    method Migrate(id: string, version: nat, budget: Option<BuybackBudget>) returns (res: Result<Record>)
      modifies this
      ensures (res, Tables()) == MigrateLegacyPolicy(old(Tables()), id, version, budget)
    {
      var reserved := exists a :: a in reservations && reservations[a].job == id;
      assert reserved == JobReserved(Tables(), id);
      if reserved {
        return Err(Conflict("job has a signer reservation"));
      }
      if id !in payments {
        return Err(Store("no such payment"));
      }
      var rec := payments[id];
      if rec.version != version {
        return Err(Conflict(rec.id));
      }
      if !PristineLegacy(rec) {
        return Err(Store("legacy job has policy or execution evidence"));
      }
      if budget.Some? {
        var valid := budget.value.Validate();
        if valid.Err? {
          return Err(valid.error);
        }
      }
      if rec.version + 1 > U64_MAX {
        return Err(Store("version overflow"));
      }
      var next := rec.(autoRequired := Some(budget.Some?));
      next := next.(budget := budget);
      next := next.(version := next.version + 1);
      if next.version > I64_MAX {
        return Err(Store("version out of range"));
      }
      payments := payments[id := next];
      return Ok(next);
    }
  }
}
