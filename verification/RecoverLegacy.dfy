/** Applying a verified legacy manifest inside one store transaction (`SqliteStore::recover_legacy`,
    src/store.rs), and what one success says from the chain down to the record. */
module RecoverLegacy {
  import opened Basics
  import opened Keys
  import opened Calls
  import opened State
  import opened ChainScan
  import opened Store
  import opened Accounting
  import opened Recovery
  import opened ReplaySoundness
  import Archive
  import Protocol

  datatype RecoveryReport = RecoveryReport(
    job: string, previousVersion: nat, genesisHash: Hash, finalizedBlock: nat, finalizedHash: Hash,
    transactions: nat, applied: bool)

  /** What the archive node shows during the transaction. */
  datatype ArchiveNode = ArchiveNode(blocks: seq<Block>, genesis: Hash, anchor: Option<Hash>)

  /** A journal or a quarantined journal of the signer, in any job. */
  predicate Unresolved(db: Db, signer: Address) {
    exists j :: j in db.payments
      && ((db.payments[j].pending.Some? && db.payments[j].pending.value.signer == signer)
          || (db.payments[j].quarantined.Some? && db.payments[j].quarantined.value.signer == signer))
  }

  predicate Busy(db: Db, r: Record, m: LegacyManifest) {
    || r.address in db.rows || m.treasury in db.rows || JobReserved(db, r.id)
    || Unresolved(db, r.address) || Unresolved(db, m.treasury)
  }

  function Recover(db: Db, m: LegacyManifest, node: ArchiveNode): (done: (Result<RecoveryReport>, Db))
    requires node.blocks != []
    ensures done.0.Err? ==> done.1 == db
  {
    if m.job !in db.payments then (Err(Store("no such payment")), db)
    else
      var r := db.payments[m.job];
      var checked := CheckManifest(r, m);
      if checked.Err? then (Err(checked.error), db)
      else if Busy(db, r, m) then (Err(Conflict("legacy recovery signers have unresolved ownership")), db)
      else
        match Archive.VerifyArchive(node.blocks, node.genesis, r, m, node.anchor)
        case Err(e) => (Err(e), db)
        case Ok((summaries, head, hash)) =>
          match ReplayOf(r, m, summaries)
          case Err(e) => (Err(e), db)
          case Ok(next) =>
            if r.version + 1 > U64_MAX then (Err(Store("version overflow")), db)
            else if r.version + 1 > I64_MAX then (Err(Store("version out of range")), db)
            else
              (Ok(RecoveryReport(r.id, r.version, m.genesisHash, head, hash, |m.transactions|, true)),
               db.(payments := db.payments[r.id := next.(version := r.version + 1)]))
  }

  /** `recover_legacy`: one immediate transaction, so an error leaves the tables as they were. */
  method RecoverInStore(store: SqliteStore, m: LegacyManifest, node: ArchiveNode) returns (res: Result<RecoveryReport>)
    requires node.blocks != []
    modifies store
    ensures (res, store.Tables()) == Recover(old(store.Tables()), m, node)
  {
    var stored := store.Get(m.job);
    if stored.None? {
      return Err(Store("no such payment"));
    }
    var r := stored.value;
    var _ :- ValidateManifest(r, m);
    if Busy(store.Tables(), r, m) {
      return Err(Conflict("legacy recovery signers have unresolved ownership"));
    }
    var summaries, head, hash;
    var verified := Archive.VerifyLegacyArchive(node.blocks, node.genesis, r, m, node.anchor);
    if verified.Err? {
      return Err(verified.error);
    }
    summaries, head, hash := verified.value.0, verified.value.1, verified.value.2;
    var next :- Replay(r, m, summaries);
    if next.version + 1 > U64_MAX {
      return Err(Store("version overflow"));
    }
    next := next.(version := next.version + 1);
    if next.version > I64_MAX {
      return Err(Store("version out of range"));
    }
    store.payments := store.payments[next.id := next];
    return Ok(RecoveryReport(r.id, r.version, m.genesisHash, head, hash, |m.transactions|, true));
  }

  // ---------------------------------------------------------------- what a success means

  /** Exactly when recovery succeeds: the job exists below the version column's range, its manifest is
      accepted, neither signer has a row, a journal or a quarantined journal anywhere and the job has no
      row, and archive and replay agree with the manifest. The report says what was applied. */
  lemma RecoverSucceedsExactly(db: Db, m: LegacyManifest, node: ArchiveNode)
    requires node.blocks != []
    ensures var (res, next) := Recover(db, m, node);
      && (res.Ok? <==>
            && m.job in db.payments && CheckManifest(db.payments[m.job], m).Ok?
            && var r := db.payments[m.job]; var archive := Archive.VerifyArchive(node.blocks, node.genesis, r, m, node.anchor);
               && r.version < I64_MAX && SignersFree(db, r, m)
               && archive.Ok? && ReplayOf(r, m, archive.value.0).Ok?)
      && (res.Ok? ==>
            && var head := Head(node.blocks); var r := db.payments[m.job];
               && res.value == RecoveryReport(m.job, m.version, m.genesisHash, head, node.blocks[head].hash, |m.transactions|, true)
               && next == db.(payments := db.payments[m.job := Adopt(r, m).(version := m.version + 1)]))
      && (res.Err? ==> next == db)
  {
    if m.job in db.payments && CheckManifest(db.payments[m.job], m).Ok? {
      AcceptedAddresses(db.payments[m.job], m);
      BusyExactly(db, db.payments[m.job], m);
    }
  }

  /** Nothing in the store is outstanding for the job or either of its signers. */
  predicate SignersFree(db: Db, r: Record, m: LegacyManifest) {
    && (forall a :: a in db.rows ==> a != r.address && a != m.treasury && db.rows[a].job != r.id)
    && (forall j :: j in db.payments && db.payments[j].pending.Some? ==>
          db.payments[j].pending.value.signer != r.address && db.payments[j].pending.value.signer != m.treasury)
    && (forall j :: j in db.payments && db.payments[j].quarantined.Some? ==>
          db.payments[j].quarantined.value.signer != r.address && db.payments[j].quarantined.value.signer != m.treasury)
  }

  lemma BusyExactly(db: Db, r: Record, m: LegacyManifest)
    ensures Busy(db, r, m) <==> !SignersFree(db, r, m)
  {
  }

  lemma RecoverShape(db: Db, m: LegacyManifest, node: ArchiveNode)
    requires node.blocks != [] && Recover(db, m, node).0.Ok?
    ensures m.job in db.payments && CheckManifest(db.payments[m.job], m).Ok?
    ensures var r := db.payments[m.job];
      && !Busy(db, r, m) && r.id == m.job && r.version == m.version < I64_MAX
      && Archive.VerifyArchive(node.blocks, node.genesis, r, m, node.anchor).Ok?
      && ReplayOf(r, m, Archive.VerifyArchive(node.blocks, node.genesis, r, m, node.anchor).value.0).Ok?
      && Recover(db, m, node).1 == db.(payments := db.payments[r.id := Adopt(r, m).(version := r.version + 1)])
  {
    hide RecordOk, ListOk, Recoverable, Attested, Busy, AuditAll, Reproduces;
    AcceptedAddresses(db.payments[m.job], m);
  }

  /** A success gives the record identity and policy and nothing else, changes no row and no other
      record, and the stored record satisfies all the engine relies on if and only if its
      `failed_from` is one the state machine leaves. */
  lemma RecoveryStores(db: Db, m: LegacyManifest, node: ArchiveNode)
    requires node.blocks != [] && Recover(db, m, node).0.Ok?
    ensures m.job in db.payments
    ensures var r := db.payments[m.job]; var db' := Recover(db, m, node).1;
      && db'.rows == db.rows
      && db'.payments == db.payments[m.job := Adopt(r, m).(version := r.version + 1)]
      && (RecordOk(db'.payments[m.job]) <==> FailedFromFits(r))
  {
    hide RecordOk, CheckManifest, ReplayOf, Busy;
    RecoverShape(db, m, node);
    var r := db.payments[m.job];
    AcceptedAddresses(r, m);
    StoredOk(r, m, Archive.VerifyArchive(node.blocks, node.genesis, r, m, node.anchor).value.0);
  }

  /** The receipts are the extrinsics of the two signers from block `first` on, all of them, in chain order. */
  ghost predicate AllActivity(blocks: seq<Block>, treasury: AccountId, deposit: AccountId, first: nat, txs: seq<TxRef>)
    requires first <= |blocks|
  {
    var es := Archive.Emissions(blocks, treasury, deposit, first, |blocks|, 0);
    && Archive.Lists(blocks, treasury, deposit, first, |blocks|, 0, es)
    && |txs| == |es|
    && (forall k :: 0 <= k < |es| ==>
          && es[k].0 < |blocks| && es[k].1 < |blocks[es[k].0].exts|
          && txs[k].txHash == blocks[es[k].0].exts[es[k].1].hash
          && txs[k].blockHash == blocks[es[k].0].hash)
  }

  /** End to end: a recovered job's receipts are, in chain order, every extrinsic its two signers
      signed in the audited interval. */
  lemma RecoveryIsComplete(db: Db, m: LegacyManifest, node: ArchiveNode)
    requires node.blocks != [] && Recover(db, m, node).0.Ok?
    ensures m.job in db.payments && m.treasury.Ss58? && db.payments[m.job].address.Ss58? && 0 < m.firstBlock <= |node.blocks|
    ensures AllActivity(node.blocks, m.treasury.account, db.payments[m.job].address.account, m.firstBlock, db.payments[m.job].txs)
  {
    RecoverShape(db, m, node);
    var r := db.payments[m.job];
    AcceptedAddresses(r, m);
    ReceiptsAreEmissions(node.blocks, node.genesis, r, m, node.anchor);
  }

  lemma StoredOk(r: Record, m: LegacyManifest, ss: seq<EventSummary>)
    requires ReplayOf(r, m, ss).Ok?
    ensures RecordOk(Adopt(r, m).(version := r.version + 1)) <==> FailedFromFits(r)
  {
    hide ReplayOf;
    RecoveredRecordOk(r, m, ss);
    if FailedFromFits(r) {
      BookkeepingIsFree(Adopt(r, m), Adopt(r, m).(version := r.version + 1));
    }
  }

  lemma ReceiptsAreEmissions(blocks: seq<Block>, genesis: Hash, r: Record, m: LegacyManifest, anchor: Option<Hash>)
    requires blocks != [] && m.firstBlock > 0 && m.treasury.Ss58? && r.address.Ss58?
    requires Archive.VerifyArchive(blocks, genesis, r, m, anchor).Ok? && Receipts(m.transactions) == r.txs
    ensures m.firstBlock <= |blocks| && AllActivity(blocks, m.treasury.account, r.address.account, m.firstBlock, r.txs)
  {
    var (ss, head, hash) := Archive.VerifyArchive(blocks, genesis, r, m, anchor).value;
    Archive.ArchiveIsComplete(blocks, genesis, r, m, anchor, ss);
    var es := Archive.Emissions(blocks, m.treasury.account, r.address.account, m.firstBlock, |blocks|, 0);
    forall k | 0 <= k < |es|
      ensures es[k].0 < |blocks| && es[k].1 < |blocks[es[k].0].exts|
      ensures r.txs[k].txHash == blocks[es[k].0].exts[es[k].1].hash && r.txs[k].blockHash == blocks[es[k].0].hash
    {
      assert Archive.Matches(blocks, m, m.firstBlock, es, ss, k);
      assert r.txs[k] == Receipts(m.transactions)[k];
    }
  }

  lemma RecoverKeepsFence(db: Db, m: LegacyManifest, node: ArchiveNode)
    requires node.blocks != [] && Fenced(db) && Keyed(db)
    ensures Fenced(Recover(db, m, node).1) && Keyed(Recover(db, m, node).1)
  {
    var db' := Recover(db, m, node).1;
    if Recover(db, m, node).0.Ok? {
      RecoverShape(db, m, node);
      AcceptedAddresses(db.payments[m.job], m);
      forall j | j in db'.payments && db'.payments[j].pending.Some? ensures Owned(db', j, db'.payments[j].pending.value) {
        assert db'.payments[j] == db.payments[j];
        assert Owned(db, j, db.payments[j].pending.value);
      }
    }
  }

  /** No job an engine created is ever touched by recovery, in any reachable state of the protocol. */
  lemma RecoverRefused(s: Protocol.System, m: LegacyManifest, node: ArchiveNode)
    requires node.blocks != [] && Protocol.RecordsOk(s)
    ensures Recover(s.db, m, node).0.Err? && Recover(s.db, m, node).1 == s.db
  {
    if m.job in s.db.payments {
      IdentityKnown(s.db.payments[m.job]);
      IdentityRefused(s.db.payments[m.job], m);
    }
  }

  lemma IdentityRefused(r: Record, m: LegacyManifest)
    requires r.identity.Some?
    ensures CheckManifest(r, m).Err?
  {
  }

  lemma IdentityKnown(r: Record)
    requires RecordOk(r)
    ensures r.identity.Some?
  {
  }
}
