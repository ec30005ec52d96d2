/** Record histories under arbitrary sequences of store transactions, by anyone, on any starting
    tables: legacy records, migrations and recoveries included. */
module History {
  import opened Basics
  import opened Keys
  import opened Calls
  import opened State
  import opened Store
  import opened Recovery
  import opened RecoverLegacy

  datatype StoreOp =
    | InsertOp(rec: Record)
    | ReserveOp(signer: Address, job: string, at: Option<nat>, token: Token)
    | CancelOp(signer: Address, job: string, token: Token)
    | UpdateOp(rec: Record)
    | MigrateOp(id: string, version: nat, budget: Option<BuybackBudget>)
    | RecoverOp(m: LegacyManifest, node: ArchiveNode)

  function Perform(db: Db, op: StoreOp): Db {
    match op
    case InsertOp(rec) => Insert(db, rec).1
    case ReserveOp(signer, job, version, token) => Reserve(db, signer, job, version, token).1
    case CancelOp(signer, job, token) => CancelPreparation(db, signer, job, token).1
    case UpdateOp(rec) => Update(db, rec).1
    case MigrateOp(id, version, budget) => MigrateLegacyPolicy(db, id, version, budget).1
    case RecoverOp(m, node) => if node.blocks == [] then db else Recover(db, m, node).1
  }

  function Performed(db: Db, ops: seq<StoreOp>): Db {
    if ops == [] then db else Perform(Performed(db, ops[..|ops| - 1]), ops[|ops| - 1])
  }

  /** The version of job `j` a successful write must name. */
  function BuiltOn(op: StoreOp, j: string): Option<nat> {
    match op
    case UpdateOp(rec) => if rec.id == j then Some(rec.version) else None
    case MigrateOp(id, version, _) => if id == j then Some(version) else None
    case RecoverOp(m, _) => if m.job == j then Some(m.version) else None
    case _ => None
  }

  /** Identity and policy are written once, and the budget never changes after the policy is set. */
  predicate PolicyKept(prev: Record, next: Record) {
    && (prev.identity.Some? ==> next.identity == prev.identity)
    && (prev.autoRequired.Some? ==> next.autoRequired == prev.autoRequired && next.budget == prev.budget)
    && (next.autoRequired == prev.autoRequired ==> next.budget == prev.budget)
  }

  /** One transaction leaves a stored record alone, or replaces the version it names by its successor. */
  predicate Succeeds(prev: Record, next: Record, op: StoreOp, j: string) {
    next == prev
    || (BuiltOn(op, j) == Some(prev.version) && next.version == prev.version + 1 && next.version <= U64_MAX && PolicyKept(prev, next))
  }

  lemma StepSucceeds(db: Db, op: StoreOp, j: string)
    requires Keyed(db) && j in db.payments
    ensures j in Perform(db, op).payments && Succeeds(db.payments[j], Perform(db, op).payments[j], op, j)
  {
    hide Recover, Reserve, CancelPreparation, Keyed;
    match op
    case RecoverOp(m, node) => if node.blocks != [] { RecoverySucceeds(db, m, node, j); }
    case UpdateOp(rec) => UpdateSucceeds(db, rec, j);
    case ReserveOp(signer, job, at, token) => RowsOnly(db, op);
    case CancelOp(signer, job, token) => RowsOnly(db, op);
    case _ =>
  }

  lemma RowsOnly(db: Db, op: StoreOp)
    requires op.ReserveOp? || op.CancelOp?
    ensures Perform(db, op).payments == db.payments
  {
  }

  lemma UpdateSucceeds(db: Db, rec: Record, j: string)
    requires j in db.payments
    ensures j in Update(db, rec).1.payments && Succeeds(db.payments[j], Update(db, rec).1.payments[j], UpdateOp(rec), j)
  {
  }

  lemma RecoverySucceeds(db: Db, m: LegacyManifest, node: ArchiveNode, j: string)
    requires node.blocks != [] && j in db.payments
    ensures j in Recover(db, m, node).1.payments
    ensures Succeeds(db.payments[j], Recover(db, m, node).1.payments[j], RecoverOp(m, node), j)
  {
    hide CheckManifest, Recover;
    if Recover(db, m, node).0.Ok? {
      RecoverShape(db, m, node);
      AcceptedAddresses(db.payments[m.job], m);
    }
  }

  /** Keys stay record ids, and the signer fence stays closed, under every transaction that does not
      insert a record with a journal already in it. */
  lemma StepKeepsFence(db: Db, op: StoreOp)
    requires Keyed(db)
    ensures Keyed(Perform(db, op))
    ensures Fenced(db) && (op.InsertOp? ==> op.rec.pending.None?) ==> Fenced(Perform(db, op))
  {
    hide CheckManifest, Busy, PristineLegacy, Fenced;
    if Fenced(db) && (op.InsertOp? ==> op.rec.pending.None?) {
      FenceKept(db, op);
    }
    if op.RecoverOp? && op.node.blocks != [] && Recover(db, op.m, op.node).0.Ok? {
      RecoverShape(db, op.m, op.node);
    }
  }

  lemma FenceKept(db: Db, op: StoreOp)
    requires Keyed(db) && Fenced(db) && (op.InsertOp? ==> op.rec.pending.None?)
    ensures Fenced(Perform(db, op))
  {
    match op
    case InsertOp(rec) => InsertKeepsFence(db, rec);
    case ReserveOp(signer, job, version, token) => ReserveKeepsFence(db, signer, job, version, token);
    case CancelOp(signer, job, token) => CancelKeepsFence(db, signer, job, token);
    case UpdateOp(rec) => UpdateKeepsFence(db, rec);
    case MigrateOp(id, version, budget) => MigrateKeepsFence(db, id, version, budget);
    case RecoverOp(m, node) => if node.blocks != [] { RecoverKeepsFence(db, m, node); }
  }

  lemma {:induction false} HistoryKeyed(db: Db, ops: seq<StoreOp>)
    requires Keyed(db)
    ensures Keyed(Performed(db, ops))
  {
    if ops != [] {
      HistoryKeyed(db, ops[..|ops| - 1]);
      StepKeepsFence(Performed(db, ops[..|ops| - 1]), ops[|ops| - 1]);
    }
  }

  /** Over every sequence of transactions no signer ever has two journals: the fence holds throughout. */
  lemma {:induction false} HistoryFenced(db: Db, ops: seq<StoreOp>)
    requires Keyed(db) && Fenced(db)
    requires forall k :: 0 <= k < |ops| ==> ops[k].InsertOp? ==> ops[k].rec.pending.None?
    ensures Fenced(Performed(db, ops))
  {
    if ops != [] {
      HistoryFenced(db, ops[..|ops| - 1]);
      HistoryKeyed(db, ops[..|ops| - 1]);
      StepKeepsFence(Performed(db, ops[..|ops| - 1]), ops[|ops| - 1]);
    }
  }

  // ---------------------------------------------------------------- linear histories

  /** Writes of job `j` that went through. */
  function Writes(db: Db, ops: seq<StoreOp>, j: string): nat {
    if ops == [] then 0
    else
      var before, after := Performed(db, ops[..|ops| - 1]), Performed(db, ops);
      Writes(db, ops[..|ops| - 1], j)
      + (if j in before.payments && j in after.payments && after.payments[j] != before.payments[j] then 1 else 0)
  }

  /** Times the identity, or the policy, of job `j` changed. */
  function IdentityWrites(db: Db, ops: seq<StoreOp>, j: string): nat {
    if ops == [] then 0
    else
      var before, after := Performed(db, ops[..|ops| - 1]), Performed(db, ops);
      IdentityWrites(db, ops[..|ops| - 1], j)
      + (if j in before.payments && j in after.payments && after.payments[j].identity != before.payments[j].identity then 1 else 0)
  }

  function PolicyWrites(db: Db, ops: seq<StoreOp>, j: string): nat {
    if ops == [] then 0
    else
      var before, after := Performed(db, ops[..|ops| - 1]), Performed(db, ops);
      PolicyWrites(db, ops[..|ops| - 1], j)
      + (if j in before.payments && j in after.payments
            && (after.payments[j].autoRequired != before.payments[j].autoRequired || after.payments[j].budget != before.payments[j].budget)
         then 1 else 0)
  }

  /** Histories are linear: a job's version counts its successful writes, each built on the version
      just before it, so a version number never names two different records; identity is set at
      most once, policy and budget at most once together, and never changed or cleared. */
  lemma {:induction false} HistoriesAreLinear(db: Db, ops: seq<StoreOp>, j: string)
    requires Keyed(db) && j in db.payments
    ensures j in Performed(db, ops).payments
    ensures var first, last := db.payments[j], Performed(db, ops).payments[j];
      && last.version == first.version + Writes(db, ops, j)
      && (last.version == first.version ==> last == first)
      && PolicyKept(first, last)
      && IdentityWrites(db, ops, j) <= (if first.identity.None? && last.identity.Some? then 1 else 0)
      && PolicyWrites(db, ops, j) <= (if first.autoRequired.None? && last.autoRequired.Some? then 1 else 0)
  {
    if ops != [] {
      var front, op := ops[..|ops| - 1], ops[|ops| - 1];
      HistoriesAreLinear(db, front, j);
      HistoryKeyed(db, front);
      StepSucceeds(Performed(db, front), op, j);
    }
  }
}
