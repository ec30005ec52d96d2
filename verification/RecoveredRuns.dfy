/** A recovered job joins the step system: with its old receipts in the log the invariant holds again,
    so everything proved of runs holds of recovered jobs, their old transactions included. */
module RecoveredRuns {
  import opened Basics
  import opened Calls
  import opened State
  import opened ChainScan
  import opened Store
  import opened Engine
  import opened Accounting
  import opened Recovery
  import opened ReplaySoundness
  import opened RecoverLegacy
  import opened Protocol
  import opened ProtocolSteps
  import opened Safety
  import Archive

  // ---------------------------------------------------------------- old receipts use up different slots

  function SlotAt(t: LegacyTransaction): Slot
    requires ActionOf(t.call).Some?
  {
    SlotOf(ActionOf(t.call).value)
  }

  /** Silent moves lose no slot. */
  lemma MovedKeepsUsed(e: Record, moved: Record, stage: PaymentState, slot: Slot)
    requires MovedTo(e, moved, stage) && Used(e, slot) && RankOf(e.state) <= RankOf(stage)
    requires e.state == Detected || e.state == Funded || e.state == Swept
    ensures Used(moved, slot)
  {
  }

  /** A replayed turn uses up a slot nothing used before. */
  lemma TurnSlot(r: Record, m: LegacyManifest, a: Audit, txs: seq<TxRef>, e: Record,
                 t: LegacyTransaction, s: EventSummary, token: Token)
    requires Ready(r, m) && Simulates(r, m, a, txs, e) && ListedOk(r, m, t) && AuditStep(r, m, a, t, s).Ok?
    ensures ActionOf(t.call).Some? && Turn(e, t, s, token).Ok?
    ensures var z := Turn(e, t, s, token).value;
      !Used(e, SlotAt(t)) && Used(z, SlotAt(t)) && forall slot :: Used(e, slot) ==> Used(z, slot)
  {
    hide RecordOk, SendOk, AuditCall, AmountsPositive, Effect, Follows, Silently, Permitted, ApplyTx, Used, SlotOf;
    StageAllows(r, m, a, txs, e, t, s);
    StepRefines(r, m, a, txs, e, t, s, token);
    var stage := StageFor(ActionOf(t.call).value);
    SilentlyMoves(e, stage);
    var moved := Silently(e, stage).value;
    PermittedByAudit(r, m, a, txs, e, moved, t, s);
    PermittedFits(moved, t, token);
    var j := moved.(pending := Some(LegacyJournal(t, token)));
    PendingSlotIsFree(j);
    ApplyKeeps(j, t.receipt, s);
    JournalUsesNothing(moved, j);
    forall slot | Used(e, slot) ensures Used(j, slot) && Used(Turn(e, t, s, token).value, slot) {
      MovedKeepsUsed(e, moved, stage, slot);
      UsedForever(j, Turn(e, t, s, token).value, slot);
    }
  }

  lemma JournalUsesNothing(moved: Record, j: Record)
    requires j == moved.(pending := j.pending)
    ensures forall slot :: Used(j, slot) <==> Used(moved, slot)
  {
  }

  /** Receipts of an accepted history are for pairwise different slots, all used up at its end. */
  predicate SlotsApart(txs: seq<LegacyTransaction>, e: Record) {
    && (forall k :: 0 <= k < |txs| ==> ActionOf(txs[k].call).Some? && Used(e, SlotAt(txs[k])))
    && (forall k, l :: 0 <= k < l < |txs| ==> SlotAt(txs[k]) != SlotAt(txs[l]))
  }

  lemma {:induction false} ReplayedSlots(r: Record, m: LegacyManifest, txs: seq<LegacyTransaction>, ss: seq<EventSummary>, token: Token)
    requires Ready(r, m) && r.state != Pending && |txs| == |ss| && ListOk(r, m, txs) && AuditAll(r, m, txs, ss).Ok?
    ensures Turns(Fresh(r, m), txs, ss, token).Ok?
    ensures SlotsApart(txs, Turns(Fresh(r, m), txs, ss, token).value)
  {
    hide AuditStep, Turn, RecordOk, ListedOk, Apart, Used, SlotOf, Simulates;
    AllRefine(r, m, txs, ss, token);
    if txs != [] {
      var n := |txs| - 1;
      ListOkPrefix(r, m, txs, n);
      ReplayedSlots(r, m, txs[..n], ss[..n], token);
      AllRefine(r, m, txs[..n], ss[..n], token);
      var mid := Turns(Fresh(r, m), txs[..n], ss[..n], token).value;
      TurnSlot(r, m, AuditAll(r, m, txs[..n], ss[..n]).value, Receipts(txs[..n]), mid, txs[n], ss[n], token);
      var e := Turns(Fresh(r, m), txs, ss, token).value;
      forall k | 0 <= k < n
        ensures ActionOf(txs[k].call).Some? && Used(e, SlotAt(txs[k])) && SlotAt(txs[k]) != SlotAt(txs[n])
      {
        assert txs[..n][k] == txs[k];
      }
      forall k, l | 0 <= k < l < n ensures SlotAt(txs[k]) != SlotAt(txs[l]) {
        assert txs[..n][k] == txs[k] && txs[..n][l] == txs[l];
      }
    }
  }

  /** The stored record has used up whatever the replayed one has. */
  lemma StoredUses(e: Record, z: Record, slot: Slot)
    requires SameAccounts(e, z) && Rank(e) <= Rank(z) && Used(e, slot)
    ensures Used(z, slot)
  {
  }

  // ---------------------------------------------------------------- the joined system

  /** A purchase on file requests the budget. */
  predicate OldPurchase(m: LegacyManifest, t: LegacyTransaction) {
    t.call.AddStakeLimit? ==> m.budget.Some? && t.call.tao == m.budget.value.amountRao
  }

  /** The old transactions as signed extrinsics and as journals of the job. Both are history: what
      `birth` matters for, the window of inclusion, has passed. */
  function OldSigned(t: LegacyTransaction): PreparedTx {
    PreparedTx(t.call, t.signer, t.nonce, t.receipt.txHash, t.block)
  }

  function OldEntry(job: string, t: LegacyTransaction): Entry
    requires ActionOf(t.call).Some?
  {
    Entry(job, LegacyJournal(t, ""))
  }

  predicate AllActions(txs: seq<LegacyTransaction>) {
    forall k :: 0 <= k < |txs| ==> ActionOf(txs[k].call).Some?
  }

  function AddSigned(signed: map<Hash, PreparedTx>, txs: seq<LegacyTransaction>): map<Hash, PreparedTx> {
    if txs == [] then signed
    else AddSigned(signed, txs[..|txs| - 1])[txs[|txs| - 1].receipt.txHash := OldSigned(txs[|txs| - 1])]
  }

  function AddEntries(journal: map<Hash, Entry>, job: string, txs: seq<LegacyTransaction>): map<Hash, Entry>
    requires AllActions(txs)
  {
    if txs == [] then journal
    else AddEntries(journal, job, txs[..|txs| - 1])[txs[|txs| - 1].receipt.txHash := OldEntry(job, txs[|txs| - 1])]
  }

  function Hashes(txs: seq<LegacyTransaction>): set<Hash> {
    set k | 0 <= k < |txs| :: txs[k].receipt.txHash
  }

  predicate DistinctHashes(txs: seq<LegacyTransaction>) {
    forall k, l :: 0 <= k < l < |txs| ==> txs[k].receipt.txHash != txs[l].receipt.txHash
  }

  lemma {:induction false} AddedSigned(signed: map<Hash, PreparedTx>, txs: seq<LegacyTransaction>)
    requires DistinctHashes(txs) && Hashes(txs) !! signed.Keys
    ensures AddSigned(signed, txs).Keys == signed.Keys + Hashes(txs)
    ensures forall h :: h in signed ==> AddSigned(signed, txs)[h] == signed[h]
    ensures forall k :: 0 <= k < |txs| ==> AddSigned(signed, txs)[txs[k].receipt.txHash] == OldSigned(txs[k])
  {
    if txs != [] {
      var front, last := txs[..|txs| - 1], txs[|txs| - 1];
      assert Hashes(txs) == Hashes(front) + {last.receipt.txHash};
      AddedSigned(signed, front);
      forall k | 0 <= k < |txs| - 1 ensures AddSigned(signed, txs)[txs[k].receipt.txHash] == OldSigned(txs[k]) {
        assert front[k] == txs[k];
      }
    }
  }

  lemma {:induction false} AddedEntries(journal: map<Hash, Entry>, job: string, txs: seq<LegacyTransaction>)
    requires AllActions(txs) && DistinctHashes(txs) && Hashes(txs) !! journal.Keys
    ensures AddEntries(journal, job, txs).Keys == journal.Keys + Hashes(txs)
    ensures forall h :: h in journal ==> AddEntries(journal, job, txs)[h] == journal[h]
    ensures forall k :: 0 <= k < |txs| ==> AddEntries(journal, job, txs)[txs[k].receipt.txHash] == OldEntry(job, txs[k])
  {
    if txs != [] {
      var front, last := txs[..|txs| - 1], txs[|txs| - 1];
      assert Hashes(txs) == Hashes(front) + {last.receipt.txHash};
      AddedEntries(journal, job, front);
      forall k | 0 <= k < |txs| - 1 ensures AddEntries(journal, job, txs)[txs[k].receipt.txHash] == OldEntry(job, txs[k]) {
        assert front[k] == txs[k];
      }
    }
  }

  /** `t` is `s` with a recovered job `z` and its old transactions `txs` in the log. */
  predicate Joined(s: System, t: System, z: Record, txs: seq<LegacyTransaction>) {
    && AllActions(txs)
    && t == s.(db := t.db, signed := AddSigned(s.signed, txs), journal := AddEntries(s.journal, z.id, txs), sent := s.sent + Hashes(txs))
    && t.db == s.db.(payments := s.db.payments[z.id := z])
  }

  /** What recovery established about the record and the chain. */
  ghost predicate Recovered(s: System, z: Record, m: LegacyManifest, txs: seq<LegacyTransaction>) {
    && RecordOk(z) && z.pending.None? && z.quarantined.None? && z.txs == Receipts(txs) && z.budget == m.budget
    && SlotsApart(txs, z) && DistinctHashes(txs)
    && (forall k :: 0 <= k < |txs| ==>
          && OldPurchase(m, txs[k]) && txs[k].receipt.amount == txs[k].call.Amount()
          && At(s.blocks, txs[k].block, txs[k].index, txs[k].receipt.txHash)
          && s.blocks[txs[k].block].exts[txs[k].index].data == Encoded(txs[k].call))
  }

  /** Chain assumptions about old extrinsics: their hashes are none of the engines', and each is on
      chain at one place only. */
  ghost predicate OldHashesFresh(s: System, txs: seq<LegacyTransaction>) {
    && Hashes(txs) !! s.signed.Keys
    && (forall n: nat, i: nat, m: nat, k: nat, h ::
          At(s.blocks, n, i, h) && At(s.blocks, m, k, h) && h in Hashes(txs) ==> n == m && i == k)
  }

  /** The logs of the joined system, entry by entry. */
  predicate LogsJoined(s: System, t: System, z: Record, txs: seq<LegacyTransaction>) {
    && AllActions(txs)
    && t.signed.Keys == s.signed.Keys + Hashes(txs) && t.journal.Keys == s.journal.Keys + Hashes(txs)
    && (forall h :: h in s.signed ==> t.signed[h] == s.signed[h])
    && (forall h :: h in s.journal ==> t.journal[h] == s.journal[h])
    && (forall k :: 0 <= k < |txs| ==>
          && t.signed[txs[k].receipt.txHash] == OldSigned(txs[k])
          && t.journal[txs[k].receipt.txHash] == OldEntry(z.id, txs[k]))
    && t.sent == s.sent + Hashes(txs) && t.blocks == s.blocks && t.workers == s.workers
    && z.id !in s.db.payments && t.db.payments == s.db.payments[z.id := z]
  }

  lemma JoinLogs(s: System, t: System, z: Record, txs: seq<LegacyTransaction>)
    requires LogOk(s) && Joined(s, t, z, txs) && DistinctHashes(txs) && Hashes(txs) !! s.signed.Keys && z.id !in s.db.payments
    ensures LogsJoined(s, t, z, txs)
  {
    LoggedIsSigned(s);
    AddedSigned(s.signed, txs);
    AddedEntries(s.journal, z.id, txs);
  }

  lemma OldHashIndex(txs: seq<LegacyTransaction>, h: Hash) returns (k: nat)
    requires h in Hashes(txs)
    ensures k < |txs| && txs[k].receipt.txHash == h
  {
    k :| 0 <= k < |txs| && txs[k].receipt.txHash == h;
  }

  /** An old transaction's entry is in order and settled: it is on chain and its receipt on file. */
  lemma OldEntryOk(s: System, t: System, z: Record, m: LegacyManifest, txs: seq<LegacyTransaction>, k: nat)
    requires s.blocks != [] && LogsJoined(s, t, z, txs) && Recovered(s, z, m, txs) && k < |txs|
    ensures EntryOk(t, txs[k].receipt.txHash) && EntrySettled(t, txs[k].receipt.txHash)
  {
    hide RecordOk, SlotsApart, Succeeded;
    assert At(t.blocks, txs[k].block, txs[k].index, txs[k].receipt.txHash);
    assert z.txs[k].txHash == txs[k].receipt.txHash;
    assert Filed(z, txs[k].receipt.txHash);
  }

  lemma NewEntryStays(s: System, t: System, z: Record, txs: seq<LegacyTransaction>, h: Hash)
    requires s.blocks != [] && LogsJoined(s, t, z, txs) && h in s.journal && EntryOk(s, h) && EntrySettled(s, h)
    ensures EntryOk(t, h) && EntrySettled(t, h)
  {
    hide Succeeded, InChain, Filed;
  }

  lemma JoinKeepsLog(s: System, t: System, z: Record, m: LegacyManifest, txs: seq<LegacyTransaction>)
    requires s.blocks != [] && LogOk(s) && LogSettled(s) && LogsJoined(s, t, z, txs) && Recovered(s, z, m, txs)
    ensures LogOk(t) && LogSettled(t)
  {
    hide EntryOk, EntrySettled, Recovered;
    forall h | h in t.journal ensures EntryOk(t, h) && EntrySettled(t, h) {
      if h in s.journal {
        assert EntryOk(s, h) && EntrySettled(s, h);
        NewEntryStays(s, t, z, txs, h);
      } else {
        var k := OldHashIndex(txs, h);
        OldEntryOk(s, t, z, m, txs, k);
      }
    }
  }

  lemma JoinKeepsChain(s: System, t: System, z: Record, m: LegacyManifest, txs: seq<LegacyTransaction>)
    requires ChainOk(s) && LogsJoined(s, t, z, txs) && Recovered(s, z, m, txs) && OldHashesFresh(s, txs)
    ensures ChainOk(t)
  {
    hide RecordOk, SlotsApart, DistinctHashes;
    forall n: nat, i: nat, h | At(t.blocks, n, i, h) && h in t.signed
      ensures h in t.sent && t.signed[h].birthBlock <= n <= t.signed[h].birthBlock + MORTALITY
      ensures t.blocks[n].exts[i].data == Encoded(t.signed[h].call)
    {
      if h !in s.signed {
        var k := OldHashIndex(txs, h);
        assert At(s.blocks, txs[k].block, txs[k].index, h);
      }
    }
  }

  lemma JoinKeepsJournals(s: System, t: System, z: Record, txs: seq<LegacyTransaction>)
    requires JournalsLogged(s) && LogsJoined(s, t, z, txs) && z.pending.None?
    ensures JournalsLogged(t)
  {
  }

  lemma OldReceiptLogged(s: System, t: System, z: Record, m: LegacyManifest, txs: seq<LegacyTransaction>)
    requires LogsJoined(s, t, z, txs) && Recovered(s, z, m, txs)
    ensures z.id in t.db.payments && t.db.payments[z.id] == z && |z.txs| == |txs|
    ensures forall k :: 0 <= k < |z.txs| ==>
      z.txs[k].txHash in t.journal && t.journal[z.txs[k].txHash] == OldEntry(z.id, txs[k])
  {
    hide RecordOk, SlotsApart, DistinctHashes;
    forall k | 0 <= k < |z.txs|
      ensures z.txs[k].txHash in t.journal && t.journal[z.txs[k].txHash] == OldEntry(z.id, txs[k])
    {
      assert z.txs[k].txHash == txs[k].receipt.txHash;
    }
  }

  lemma OldReceiptsOk(s: System, t: System, z: Record, m: LegacyManifest, txs: seq<LegacyTransaction>)
    requires LogsJoined(s, t, z, txs) && Recovered(s, z, m, txs)
    ensures JobReceiptsOk(t, z.id)
  {
    hide RecordOk, Used, SlotOf, DistinctHashes, LogsJoined, OldPurchase, At;
    OldReceiptLogged(s, t, z, m, txs);
  }

  lemma JoinKeepsReceipts(s: System, t: System, z: Record, m: LegacyManifest, txs: seq<LegacyTransaction>)
    requires ReceiptsOk(s) && LogsJoined(s, t, z, txs) && Recovered(s, z, m, txs)
    ensures ReceiptsOk(t)
  {
    hide Recovered, Used, SlotOf;
    forall j | j in t.db.payments ensures JobReceiptsOk(t, j) {
      if j == z.id { OldReceiptsOk(s, t, z, m, txs); } else { assert JobReceiptsOk(s, j); }
    }
  }

  lemma JoinKeepsWorker(s: System, t: System, z: Record, txs: seq<LegacyTransaction>, wk: Worker)
    requires s.blocks != [] && LogsJoined(s, t, z, txs) && Hashes(txs) !! s.signed.Keys && WorkerOk(s, wk)
    ensures WorkerOk(t, wk)
  {
  }

  lemma JoinKeepsInv(s: System, t: System, z: Record, m: LegacyManifest, txs: seq<LegacyTransaction>)
    requires Inv(s) && LogsJoined(s, t, z, txs) && Recovered(s, z, m, txs) && OldHashesFresh(s, txs) && Fenced(t.db)
    ensures Inv(t)
  {
    hide RecordOk, Fenced, LogOk, LogSettled, JournalsLogged, ReceiptsOk, SlotsApart, WorkerOk;
    JoinKeepsChain(s, t, z, m, txs);
    JoinKeepsLog(s, t, z, m, txs);
    JoinKeepsJournals(s, t, z, txs);
    JoinKeepsReceipts(s, t, z, m, txs);
    forall v | 0 <= v < |t.workers| ensures WorkerOk(t, t.workers[v]) {
      assert WorkerOk(s, s.workers[v]);
      JoinKeepsWorker(s, t, z, txs, s.workers[v]);
    }
  }

  // ---------------------------------------------------------------- from recovery to the join

  lemma {:induction false} PurchasesAreBudgeted(r: Record, m: LegacyManifest, txs: seq<LegacyTransaction>, ss: seq<EventSummary>)
    requires Ready(r, m) && |txs| == |ss| && AuditAll(r, m, txs, ss).Ok?
    ensures forall k :: 0 <= k < |txs| ==> OldPurchase(m, txs[k])
  {
    hide AuditStep, OldPurchase;
    if txs != [] {
      var n := |txs| - 1;
      PurchasesAreBudgeted(r, m, txs[..n], ss[..n]);
      PurchaseIsBudgeted(r, m, AuditAll(r, m, txs[..n], ss[..n]).value, txs[n], ss[n]);
      forall k | 0 <= k < n ensures OldPurchase(m, txs[k]) { assert txs[..n][k] == txs[k]; }
    }
  }

  lemma PurchaseIsBudgeted(r: Record, m: LegacyManifest, a: Audit, t: LegacyTransaction, s: EventSummary)
    requires Ready(r, m) && AuditStep(r, m, a, t, s).Ok?
    ensures OldPurchase(m, t)
  {
  }

  /** The record recovery stores. */
  function Stored(r: Record, m: LegacyManifest): Record {
    Adopt(r, m).(version := r.version + 1)
  }

  lemma StoredSlots(r: Record, m: LegacyManifest, ss: seq<EventSummary>)
    requires ReplayOf(r, m, ss).Ok?
    ensures SlotsApart(m.transactions, Stored(r, m))
    ensures forall k :: 0 <= k < |m.transactions| ==> OldPurchase(m, m.transactions[k])
  {
    hide ReplayOf, Turns, AuditAll, Conclude, RecordOk, ListOk, Used, SlotOf, OldPurchase;
    ReplayConcludes(r, m, ss);
    PurchasesAreBudgeted(r, m, m.transactions, ss);
    if r.state == Pending {
      NothingToReplay(r, m, ss);
    } else {
      ReplayIsSound(r, m, ss, "");
      ReplayedSlots(r, m, m.transactions, ss, "");
      var e := Turns(Fresh(r, m), m.transactions, ss, "").value;
      StageIsRank(r, m);
      forall k | 0 <= k < |m.transactions| ensures Used(Stored(r, m), SlotAt(m.transactions[k])) {
        StoredUses(e, Stored(r, m), SlotAt(m.transactions[k]));
      }
    }
  }

  lemma StageIsRank(r: Record, m: LegacyManifest)
    ensures RankOf(AuditStage(r)) == Rank(Stored(r, m))
  {
  }

  /** Every manifest entry is on chain as described. */
  lemma EntriesOnChain(blocks: seq<Block>, genesis: Hash, r: Record, m: LegacyManifest, anchor: Option<Hash>)
    requires blocks != [] && m.firstBlock > 0 && m.treasury.Ss58? && r.address.Ss58?
    requires Archive.VerifyArchive(blocks, genesis, r, m, anchor).Ok?
    ensures forall k :: 0 <= k < |m.transactions| ==>
      var t := m.transactions[k];
      At(blocks, t.block, t.index, t.receipt.txHash) && blocks[t.block].exts[t.index].data == Encoded(t.call)
  {
    var (ss, head, hash) := Archive.VerifyArchive(blocks, genesis, r, m, anchor).value;
    Archive.ArchiveIsComplete(blocks, genesis, r, m, anchor, ss);
    var es := Archive.Emissions(blocks, m.treasury.account, r.address.account, m.firstBlock, |blocks|, 0);
    forall k | 0 <= k < |m.transactions|
      ensures var t := m.transactions[k];
        At(blocks, t.block, t.index, t.receipt.txHash) && blocks[t.block].exts[t.index].data == Encoded(t.call)
    {
      assert Archive.Matches(blocks, m, m.firstBlock, es, ss, k);
    }
  }

  lemma OnChainExtends(prefix: seq<Block>, blocks: seq<Block>, t: LegacyTransaction)
    requires prefix <= blocks && At(prefix, t.block, t.index, t.receipt.txHash)
    requires prefix[t.block].exts[t.index].data == Encoded(t.call)
    ensures At(blocks, t.block, t.index, t.receipt.txHash) && blocks[t.block].exts[t.index].data == Encoded(t.call)
  {
    assert prefix[t.block] == blocks[t.block];
  }

  /** Recovery leaves what the join needs. */
  lemma RecoveryYields(s: System, db: Db, m: LegacyManifest, node: ArchiveNode)
    requires node.blocks != [] && node.blocks <= s.blocks && Recover(db, m, node).0.Ok?
    requires m.job in db.payments && FailedFromFits(db.payments[m.job])
    ensures Recovered(s, Stored(db.payments[m.job], m), m, m.transactions)
  {
    hide Recover, Archive.VerifyArchive, ReplayOf, CheckManifest, RecordOk, SlotsApart, ListedOk, Archive.Matches;
    RecoverShape(db, m, node);
    RecoveryStores(db, m, node);
    var r := db.payments[m.job];
    AcceptedAddresses(r, m);
    StoredSlots(r, m, Archive.VerifyArchive(node.blocks, node.genesis, r, m, node.anchor).value.0);
    EntriesOnChain(node.blocks, node.genesis, r, m, node.anchor);
    forall k | 0 <= k < |m.transactions|
      ensures var t := m.transactions[k];
        && t.receipt.amount == t.call.Amount()
        && At(s.blocks, t.block, t.index, t.receipt.txHash) && s.blocks[t.block].exts[t.index].data == Encoded(t.call)
    {
      OnChainExtends(node.blocks, s.blocks, m.transactions[k]);
      ListedAmount(r, m, m.transactions[k]);
    }
    assert DistinctHashes(m.transactions);
  }

  lemma ListedAmount(r: Record, m: LegacyManifest, t: LegacyTransaction)
    requires ListedOk(r, m, t)
    ensures t.receipt.amount == t.call.Amount()
  {
  }

  /** The tables with a legacy record beside the engine's jobs. */
  function WithLegacy(db: Db, r: Record): Db {
    db.(payments := db.payments[r.id := r])
  }

  /** The step system right after recovery: the recovered record stored, its old transactions logged. */
  function AfterRecovery(s: System, r: Record, m: LegacyManifest, node: ArchiveNode): System
    requires node.blocks != [] && AllActions(m.transactions)
  {
    s.(db := Recover(WithLegacy(s.db, r), m, node).1,
       signed := AddSigned(s.signed, m.transactions),
       journal := AddEntries(s.journal, r.id, m.transactions),
       sent := s.sent + Hashes(m.transactions))
  }

  /** A recovered job joins any reachable system without breaking its invariant, at whatever point of
      the other jobs' work, the chain having grown since the scan or not. */
  lemma RecoveredJobJoins(s: System, r: Record, m: LegacyManifest, node: ArchiveNode)
    requires Inv(s) && r.id !in s.db.payments && FailedFromFits(r) && OldHashesFresh(s, m.transactions)
    requires node.blocks != [] && node.blocks <= s.blocks && Recover(WithLegacy(s.db, r), m, node).0.Ok?
    ensures AllActions(m.transactions) && Inv(AfterRecovery(s, r, m, node))
  {
    hide Recover, RecordOk, Fenced, Keyed, LogSettled, ChainOk, JournalsLogged, ReceiptsOk, WorkersOk, OldHashesFresh, LogsJoined, AddSigned, AddEntries;
    var db := WithLegacy(s.db, r);
    RecoverJob(s, r, m, node);
    RecoveryStores(db, m, node);
    RecoveryYields(s, db, m, node);
    ActionsKnown(m.transactions, Stored(r, m));
    LegacyKeepsFence(s, r);
    RecoverKeepsFence(db, m, node);
    var t := AfterRecovery(s, r, m, node);
    assert t.db.payments == s.db.payments[r.id := Stored(r, m)];
    FreshHashes(s, m.transactions);
    JoinLogs(s, t, Stored(r, m), m.transactions);
    JoinKeepsInv(s, t, Stored(r, m), m, m.transactions);
  }

  lemma ActionsKnown(txs: seq<LegacyTransaction>, e: Record)
    requires SlotsApart(txs, e)
    ensures AllActions(txs)
  {
  }

  lemma FreshHashes(s: System, txs: seq<LegacyTransaction>)
    requires OldHashesFresh(s, txs)
    ensures Hashes(txs) !! s.signed.Keys
  {
  }

  /** Recovery works on the legacy record: the engines' own jobs are refused. */
  lemma RecoverJob(s: System, r: Record, m: LegacyManifest, node: ArchiveNode)
    requires RecordsOk(s) && node.blocks != [] && Recover(WithLegacy(s.db, r), m, node).0.Ok?
    ensures m.job == r.id && r.pending.None?
  {
    hide Recover, RecordOk, CheckManifest;
    var db := WithLegacy(s.db, r);
    RecoverShape(db, m, node);
    AcceptedAddresses(db.payments[m.job], m);
    forall j | j in s.db.payments ensures CheckManifest(s.db.payments[j], m).Err? {
      IdentityKnown(s.db.payments[j]);
      IdentityRefused(s.db.payments[j], m);
    }
  }

  lemma LegacyKeepsFence(s: System, r: Record)
    requires Fenced(s.db) && Keyed(s.db) && r.id !in s.db.payments && r.pending.None?
    ensures Fenced(WithLegacy(s.db, r)) && Keyed(WithLegacy(s.db, r))
  {
    var db := WithLegacy(s.db, r);
    forall j | j in db.payments && db.payments[j].pending.Some? ensures Owned(db, j, db.payments[j].pending.value) {
      assert Owned(s.db, j, s.db.payments[j].pending.value);
    }
  }

  /** So over every run after recovery, a job has at most one success of each kind on chain, its old
      transactions counted: a recovered job never repeats what it did before it was recovered. */
  lemma RecoveredAtMostOnce(s: System, r: Record, m: LegacyManifest, node: ArchiveNode, ls: seq<Label>, n: nat, i: nat, k: nat, l: nat)
    requires Inv(s) && r.id !in s.db.payments && FailedFromFits(r) && OldHashesFresh(s, m.transactions)
    requires node.blocks != [] && node.blocks <= s.blocks && Recover(WithLegacy(s.db, r), m, node).0.Ok?
    requires AllActions(m.transactions)
    requires var u := Run(AfterRecovery(s, r, m, node), ls); Landed(u, n, i) && Landed(u, k, l)
    ensures var u := Run(AfterRecovery(s, r, m, node), ls);
      && HashAt(u, n, i) in u.journal && HashAt(u, k, l) in u.journal
      && u.blocks[n].exts[i].data.Encoded? && u.blocks[k].exts[l].data.Encoded?
    ensures var u := Run(AfterRecovery(s, r, m, node), ls);
      (u.journal[HashAt(u, n, i)].job == u.journal[HashAt(u, k, l)].job
       && CallSlot(u.blocks[n].exts[i].data.call) == CallSlot(u.blocks[k].exts[l].data.call)) ==> n == k && i == l
  {
    hide Inv, Run, Recover, AfterRecovery, Landed, OldHashesFresh, FailedFromFits, CallSlot;
    RecoveredJobJoins(s, r, m, node);
    RunKeepsInv(AfterRecovery(s, r, m, node), ls);
    OneSuccess(Run(AfterRecovery(s, r, m, node), ls), n, i, k, l);
  }
}
