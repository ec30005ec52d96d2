/** Legacy recovery (src/recovery.rs): an independent second account of what a job did, checked
    against the stored totals. */
module Recovery {
  import opened Basics
  import opened Text
  import opened Keys
  import opened Calls
  import opened State

  datatype LegacyTransaction = LegacyTransaction(
    block: nat, index: nat, signer: Address, nonce: nat, receipt: TxRef, call: ChainCall)

  datatype LegacyManifest = LegacyManifest(
    job: string, version: nat, genesisHash: Hash, treasury: Address, treasuryHotkey: Address,
    consolidate: bool, returnDust: bool, budget: Option<BuybackBudget>,
    firstBlock: nat, stoppedAt: nat, maximumMortality: nat,
    attestation: string, allStopped: bool, transactions: seq<LegacyTransaction>)

  const UNAUDITED := Error.Store("legacy recovery requires a complete audited manifest and unresolved-free record")

  // ---------------------------------------------------------------- well-formed manifests

  /** The record may be recovered at all: legacy, nothing unresolved, policy not contradicted. */
  predicate Recoverable(r: Record, m: LegacyManifest) {
    && r.identity.None?
    && (r.autoRequired.Some? ==> r.autoRequired == Some(m.budget.Some?) && r.budget == m.budget)
    && r.pending.None? && r.quarantined.None? && !r.notified
    && (r.state.Pending? || r.state.Detected? || r.state.Funded? || r.state.Swept?
        || (r.state.Failed? && (r.failedFrom == Some(Funded) || r.failedFrom == Some(Swept))))
    && (r.state.Pending? || r.state.Detected? ==>
          && m.transactions == [] && r.fundedTao == 0 && r.sweptAlpha == 0 && r.positions == []
          && r.consolidated == 0 && !r.dustReturned && r.buyback.None? && !r.buybackDone)
    && (m.transactions == [] ==> r.state.Pending? || r.state.Detected?)
  }

  /** The audited interval and the operator's statement. */
  predicate Attested(m: LegacyManifest) {
    && |m.transactions| <= 4096
    && 0 < m.firstBlock <= m.stoppedAt
    && 0 < m.maximumMortality <= 65536
    && m.allStopped
    && ByteLen(Trim(m.attestation)) >= 16 && ByteLen(m.attestation) <= 4096
  }

  predicate Before(a: LegacyTransaction, b: LegacyTransaction) {
    a.block < b.block || (a.block == b.block && a.index < b.index)
  }

  predicate ListedOk(r: Record, m: LegacyManifest, t: LegacyTransaction) {
    && m.firstBlock <= t.block <= m.stoppedAt
    && (t.signer == m.treasury || t.signer == r.address)
    && t.receipt.action == t.call.Name() && t.receipt.amount == t.call.Amount()
  }

  /** Two entries never share a position, a transaction hash or a signer's nonce. */
  predicate Apart(a: LegacyTransaction, b: LegacyTransaction) {
    Before(a, b) && a.receipt.txHash != b.receipt.txHash && (a.signer, a.nonce) != (b.signer, b.nonce)
  }

  predicate ListOk(r: Record, m: LegacyManifest, txs: seq<LegacyTransaction>) {
    && (forall k :: 0 <= k < |txs| ==> ListedOk(r, m, txs[k]))
    && (forall k, l :: 0 <= k < l < |txs| ==> Apart(txs[k], txs[l]))
  }

  function Receipts(txs: seq<LegacyTransaction>): seq<TxRef> {
    seq(|txs|, k requires 0 <= k < |txs| => txs[k].receipt)
  }

  function CheckManifest(r: Record, m: LegacyManifest): Result<()> {
    if r.id != m.job || r.version != m.version then Err(Conflict(m.job))
    else if !Recoverable(r, m) || !Attested(m) then Err(UNAUDITED)
    else
      var treasury :- ParseSs58(m.treasury);
      var deposit :- ParseSs58(r.address);
      var _ :- ParseSs58(m.treasuryHotkey);
      if treasury == deposit || Ss58Of(treasury) != m.treasury || Ss58Of(deposit) != r.address then Err(UNAUDITED)
      else
        var _ :- if m.budget.Some? then m.budget.value.Validate() else Ok(());
        if !ListOk(r, m, m.transactions) || Receipts(m.transactions) != r.txs then Err(UNAUDITED) else Ok(())
  }

  lemma ListOkExtends(r: Record, m: LegacyManifest, txs: seq<LegacyTransaction>, t: LegacyTransaction)
    ensures ListOk(r, m, txs + [t]) <==>
      && ListOk(r, m, txs) && ListedOk(r, m, t)
      && (forall k :: 0 <= k < |txs| ==> Apart(txs[k], t))
  {
    hide ListedOk, Apart;
    var all := txs + [t];
    if ListOk(r, m, all) {
      assert ListedOk(r, m, all[|txs|]);
      forall k | 0 <= k < |txs| ensures ListedOk(r, m, txs[k]) && Apart(txs[k], t) {
        assert ListedOk(r, m, all[k]) && Apart(all[k], all[|txs|]);
      }
      forall k, l | 0 <= k < l < |txs| ensures Apart(txs[k], txs[l]) {
        assert Apart(all[k], all[l]);
      }
    }
    if ListOk(r, m, txs) && ListedOk(r, m, t) && forall k :: 0 <= k < |txs| ==> Apart(txs[k], t) {
      forall k | 0 <= k < |all| ensures ListedOk(r, m, all[k]) {
        if k < |txs| { assert all[k] == txs[k]; } else { assert all[k] == t; }
      }
      forall k, l | 0 <= k < l < |all| ensures Apart(all[k], all[l]) {
        assert all[k] == txs[k];
        if l < |txs| { assert all[l] == txs[l]; } else { assert all[l] == t; }
      }
    }
  }

  lemma ListOkPrefix(r: Record, m: LegacyManifest, txs: seq<LegacyTransaction>, n: nat)
    requires n <= |txs| && ListOk(r, m, txs)
    ensures ListOk(r, m, txs[..n])
  {
  }

  /** One pass with the last position, the hashes and the nonces seen so far decides the list. */
  method CheckList(r: Record, m: LegacyManifest, txs: seq<LegacyTransaction>) returns (ok: bool)
    ensures ok <==> ListOk(r, m, txs)
  {
    var last: Option<(nat, nat)> := None;
    var hashes: set<Hash> := {};
    var nonces: set<(Address, nat)> := {};
    for i := 0 to |txs|
      invariant ListOk(r, m, txs[..i])
      invariant last == if i == 0 then None else Some((txs[i - 1].block, txs[i - 1].index))
      invariant hashes == set k | 0 <= k < i :: txs[k].receipt.txHash
      invariant nonces == set k | 0 <= k < i :: (txs[k].signer, txs[k].nonce)
    {
      var t := txs[i];
      assert txs[..i + 1] == txs[..i] + [t];
      ListOkExtends(r, m, txs[..i], t);
      PairwiseFromLast(r, m, txs[..i], t, hashes, nonces);
      if t.block < m.firstBlock
        || t.block > m.stoppedAt
        || (last.Some? && !(last.value.0 < t.block || (last.value.0 == t.block && last.value.1 < t.index)))
        || t.receipt.txHash in hashes
        || (t.signer, t.nonce) in nonces
        || (t.signer != m.treasury && t.signer != r.address)
        || t.receipt.action != t.call.Name()
        || t.receipt.amount != t.call.Amount()
      {
        if ListOk(r, m, txs) { ListOkPrefix(r, m, txs, i + 1); }
        return false;
      }
      last := Some((t.block, t.index));
      hashes := hashes + {t.receipt.txHash};
      nonces := nonces + {(t.signer, t.nonce)};
    }
    assert txs[..|txs|] == txs;
    return true;
  }

  /** In an ordered list it is enough to come after the last entry. */
  lemma PairwiseFromLast(r: Record, m: LegacyManifest, txs: seq<LegacyTransaction>, t: LegacyTransaction,
                         hashes: set<Hash>, nonces: set<(Address, nat)>)
    requires ListOk(r, m, txs)
    requires hashes == set k | 0 <= k < |txs| :: txs[k].receipt.txHash
    requires nonces == set k | 0 <= k < |txs| :: (txs[k].signer, txs[k].nonce)
    ensures (forall k :: 0 <= k < |txs| ==> Apart(txs[k], t)) <==>
      && (txs == [] || Before(txs[|txs| - 1], t))
      && t.receipt.txHash !in hashes && (t.signer, t.nonce) !in nonces
  {
  }

  /** `validate_manifest`. */
  method ValidateManifest(r: Record, m: LegacyManifest) returns (res: Result<()>)
    ensures res == CheckManifest(r, m)
  {
    if r.id != m.job || r.version != m.version {
      return Err(Conflict(m.job));
    }
    if !Recoverable(r, m) || !Attested(m) {
      return Err(UNAUDITED);
    }
    var treasury :- ParseSs58(m.treasury);
    var deposit :- ParseSs58(r.address);
    var _ :- ParseSs58(m.treasuryHotkey);
    if treasury == deposit || Ss58Of(treasury) != m.treasury || Ss58Of(deposit) != r.address {
      return Err(UNAUDITED);
    }
    if m.budget.Some? {
      var _ :- m.budget.value.Validate();
    }
    var listed := CheckList(r, m, m.transactions);
    if !listed || Receipts(m.transactions) != r.txs {
      return Err(UNAUDITED);
    }
    return Ok(());
  }

  /** What an accepted manifest says about the three addresses. */
  lemma AcceptedAddresses(r: Record, m: LegacyManifest)
    requires CheckManifest(r, m).Ok?
    ensures Canonical(m.treasury) && Canonical(r.address) && m.treasuryHotkey.Ss58? && m.treasury != r.address
    ensures m.budget.Some? ==> m.budget.value.hotkey.Ss58?
    ensures Recoverable(r, m) && Attested(m) && ListOk(r, m, m.transactions) && Receipts(m.transactions) == r.txs
    ensures m.budget.Some? ==> m.budget.value.Validate().Ok?
  {
  }

  /** Exactly when a manifest is accepted, condition by condition. It names the record at its version,
      which is legacy, unresolved, unsettled, unannounced and of the manifest's policy if it has one;
      a job not past detection has done nothing and has no transactions, any other has some. The
      interval, the historical mortality and the operator's statement are within bounds, the addresses
      are distinct and spelled the generic way, the budget is valid, and the transactions are at most
      4096, in chain order, of the two signers, inside the interval, named and valued as their calls,
      without a repeated hash or nonce, and have exactly the stored receipts. */
  lemma ManifestAcceptedExactly(r: Record, m: LegacyManifest)
    ensures CheckManifest(r, m).Ok? <==>
      && r.id == m.job && r.version == m.version
      && r.identity.None? && r.pending.None? && r.quarantined.None? && !r.notified
      && (r.autoRequired.None? || (r.autoRequired == Some(m.budget.Some?) && r.budget == m.budget))
      && (match r.state
          case Pending => NothingDone(r) && m.transactions == []
          case Detected => NothingDone(r) && m.transactions == []
          case Funded => m.transactions != []
          case Swept => m.transactions != []
          case Failed => (r.failedFrom == Some(Funded) || r.failedFrom == Some(Swept)) && m.transactions != []
          case _ => false)
      && 1 <= m.firstBlock <= m.stoppedAt && 1 <= m.maximumMortality <= 65536
      && m.allStopped && ByteLen(Trim(m.attestation)) >= 16 && ByteLen(m.attestation) <= 4096
      && Canonical(m.treasury) && Canonical(r.address) && m.treasuryHotkey.Ss58? && m.treasury != r.address
      && (m.budget.Some? ==> m.budget.value.Validate().Ok?)
      && |m.transactions| <= 4096 && Receipts(m.transactions) == r.txs
      && (forall t :: t in m.transactions ==>
            && m.firstBlock <= t.block <= m.stoppedAt && (t.signer == m.treasury || t.signer == r.address)
            && t.receipt.action == t.call.Name() && t.receipt.amount == t.call.Amount())
      && (forall k, l :: 0 <= k < l < |m.transactions| ==>
            var a, b := m.transactions[k], m.transactions[l];
            && (a.block < b.block || (a.block == b.block && a.index < b.index))
            && a.receipt.txHash != b.receipt.txHash && !(a.signer == b.signer && a.nonce == b.nonce))
    ensures CheckManifest(r, m).Err? && CheckManifest(r, m).error.Conflict? <==> r.id != m.job || r.version != m.version
  {
    ListedExactly(r, m, m.transactions);
  }

  predicate NothingDone(r: Record) {
    && r.fundedTao == 0 && r.sweptAlpha == 0 && r.positions == [] && r.consolidated == 0
    && !r.dustReturned && r.buyback.None? && !r.buybackDone
  }

  lemma ListedExactly(r: Record, m: LegacyManifest, txs: seq<LegacyTransaction>)
    ensures ListOk(r, m, txs) <==>
      && (forall t :: t in txs ==>
            && m.firstBlock <= t.block <= m.stoppedAt && (t.signer == m.treasury || t.signer == r.address)
            && t.receipt.action == t.call.Name() && t.receipt.amount == t.call.Amount())
      && (forall k, l :: 0 <= k < l < |txs| ==>
            var a, b := txs[k], txs[l];
            && (a.block < b.block || (a.block == b.block && a.index < b.index))
            && a.receipt.txHash != b.receipt.txHash && !(a.signer == b.signer && a.nonce == b.nonce))
  {
    if ListOk(r, m, txs) {
      forall t | t in txs ensures ListedOk(r, m, t) {
        var k :| 0 <= k < |txs| && txs[k] == t;
        assert ListedOk(r, m, txs[k]);
      }
      forall k, l | 0 <= k < l < |txs| ensures Apart(txs[k], txs[l]) {}
    }
  }

  // ---------------------------------------------------------------- replay

  /** The local variables of `replay`. */
  datatype Audit = Audit(
    funded: nat, positions: seq<(Address, nat)>, consolidated: nat, dust: bool, postSweep: bool,
    buyback: Option<BuybackReceipt>)

  const NO_HISTORY := Audit(0, [], 0, false, false, None)
  const INVALID := Error.Store("legacy call, events or stage disagrees with audited job")

  /** Consolidation and dust are over as far as the manifest asks for them. */
  predicate Consolidated(m: LegacyManifest, a: Audit) {
    m.consolidate ==> a.consolidated == |a.positions|
  }

  predicate DustSettled(r: Record, m: LegacyManifest, a: Audit) {
    m.returnDust || r.detectedTao > 0 ==> a.dust
  }

  /** One transaction of the manifest with its archived events; `None` where the source rejects. */
  function AuditCall(r: Record, m: LegacyManifest, a: Audit, t: LegacyTransaction, s: EventSummary): Option<Audit>
    requires m.treasury.Ss58? && r.address.Ss58? && m.treasuryHotkey.Ss58? && t.signer.Ss58?
  {
    var byTreasury := t.signer.account == m.treasury.account;
    var byDeposit := t.signer.account == r.address.account;
    match t.call
    case TransferTao(dest, amount) =>
      if byTreasury && dest == r.address.account && a.funded == 0 && a.positions == [] && !a.dust && a.buyback.None?
         && amount > 0 && s.transferred == Some(amount)
      then Some(a.(funded := amount)) else None
    case TransferStake(dest, hotkey, netuid, alpha) =>
      if byDeposit && dest == m.treasury.account && netuid == r.netuid && !a.postSweep && a.consolidated == 0
         && !a.dust && a.buyback.None? && alpha > 0 && !HasHotkey(a.positions, Ss58Of(hotkey))
      then Some(a.(positions := a.positions + [(Ss58Of(hotkey), alpha)])) else None
    case MoveStake(from, to, netuid, alpha) =>
      if m.consolidate && byTreasury && to == m.treasuryHotkey.account && netuid == r.netuid && !a.dust && a.buyback.None?
         && a.consolidated < |a.positions| && a.positions[a.consolidated] == (Ss58Of(from), alpha)
      then Some(a.(postSweep := true, consolidated := a.consolidated + 1)) else None
    case TransferAll(dest) =>
      if (m.returnDust || r.detectedTao > 0) && byDeposit && dest == m.treasury.account && !a.dust && a.buyback.None?
         && Consolidated(m, a)
      then Some(a.(postSweep := true, dust := true)) else None
    case AddStakeLimit(target, netuid, tao, limitPrice, allowPartial) =>
      if !allowPartial && byTreasury && a.buyback.None? && Consolidated(m, a) && DustSettled(r, m, a)
         && m.budget.Some? && s.stakeAdded.Some?
         && Ss58Of(target) == m.budget.value.hotkey && netuid == m.budget.value.netuid && tao == m.budget.value.amountRao
         && s.stakeAdded.value.0 == tao && s.stakeAdded.value.1 != 0
      then Some(a.(postSweep := true,
                   buyback := Some(BuybackReceipt(netuid, s.stakeAdded.value.0, s.stakeAdded.value.1, limitPrice, t.receipt, None, 0))))
      else None
    case BurnAlpha(target, netuid, alpha) => AuditDestroy(m, a, t, s, byTreasury, Burn, target, netuid, alpha)
    case RecycleAlpha(target, netuid, alpha) => AuditDestroy(m, a, t, s, byTreasury, Recycle, target, netuid, alpha)
    case AssociateHotkey(_) => None
  }

  function AuditDestroy(m: LegacyManifest, a: Audit, t: LegacyTransaction, s: EventSummary, byTreasury: bool,
                        destroy: DestroyPolicy, target: AccountId, netuid: nat, alpha: nat): Option<Audit>
  {
    if byTreasury && m.budget.Some? && a.buyback.Some?
       && m.budget.value.destroy == destroy && Ss58Of(target) == m.budget.value.hotkey && netuid == m.budget.value.netuid
       && a.buyback.value.destroyTx.None? && alpha == a.buyback.value.alphaBought && s.alphaDestroyed == Some(alpha)
    then Some(a.(buyback := Some(a.buyback.value.(destroyTx := Some(t.receipt), alphaDestroyed := alpha)))) else None
  }

  /** The archived events say the extrinsic succeeded and did what its call is for. */
  predicate Honest(call: ChainCall, s: EventSummary) {
    !s.failed && s.Has(ExtrinsicSuccess) && s.Has(call.ExpectedEvent())
  }

  function AuditStep(r: Record, m: LegacyManifest, a: Audit, t: LegacyTransaction, s: EventSummary): Result<Audit>
    requires m.treasury.Ss58? && r.address.Ss58? && m.treasuryHotkey.Ss58?
  {
    var _ :- ParseSs58(t.signer);
    if !Honest(t.call, s) then Err(INVALID)
    else
      match AuditCall(r, m, a, t, s)
      case None => Err(INVALID)
      case Some(next) => Ok(next)
  }

  function AuditAll(r: Record, m: LegacyManifest, txs: seq<LegacyTransaction>, ss: seq<EventSummary>): Result<Audit>
    requires m.treasury.Ss58? && r.address.Ss58? && m.treasuryHotkey.Ss58? && |txs| == |ss|
  {
    if txs == [] then Ok(NO_HISTORY)
    else
      var a :- AuditAll(r, m, txs[..|txs| - 1], ss[..|ss| - 1]);
      AuditStep(r, m, a, txs[|txs| - 1], ss[|ss| - 1])
  }

  /** The stage the job is in, or failed in. */
  function AuditStage(r: Record): PaymentState {
    if r.state == Failed && r.failedFrom.Some? then r.failedFrom.value else r.state
  }

  predicate PurchaseDone(m: LegacyManifest, a: Audit) {
    a.buyback.Some? && (a.buyback.value.destroyTx.Some? || (m.budget.Some? && m.budget.value.destroy == Keep))
  }

  /** The audit reproduces what the record stores. */
  predicate Reproduces(r: Record, m: LegacyManifest, a: Audit, total: nat) {
    && (AuditStage(r) == Funded ==> a.consolidated == 0 && !a.dust && a.buyback.None? && !r.buybackDone)
    && a.funded == r.fundedTao && a.positions == r.positions && total == r.sweptAlpha
    && a.consolidated == r.consolidated && a.dust == r.dustReturned && a.buyback == r.buyback
    && (r.buybackDone ==> PurchaseDone(m, a))
  }

  function ManifestIdentity(m: LegacyManifest): JobIdentity {
    JobIdentity(m.genesisHash, m.treasury, m.treasuryHotkey, m.consolidate, m.returnDust)
  }

  /** The record with the manifest's identity and policy. */
  function Adopt(r: Record, m: LegacyManifest): Record {
    r.(identity := Some(ManifestIdentity(m)), autoRequired := Some(m.budget.Some?), budget := m.budget)
  }

  function Conclude(r: Record, m: LegacyManifest, a: Audit): Result<Record> {
    var total := Sum(Amounts(a.positions));
    if total > U64_MAX then Err(Store("legacy amount overflow"))
    else if !Reproduces(r, m, a, total) then Err(Store("legacy receipts do not reproduce stored accounting"))
    else Ok(Adopt(r, m))
  }

  /** `replay`: the record to store. */
  function ReplayOf(r: Record, m: LegacyManifest, ss: seq<EventSummary>): Result<Record> {
    var _ :- CheckManifest(r, m);
    if |ss| != |m.transactions| then Err(Store("missing archived receipts"))
    else
      AcceptedAddresses(r, m);
      var a :- AuditAll(r, m, m.transactions, ss);
      Conclude(r, m, a)
  }

  lemma {:induction false} AuditFailsEarly(r: Record, m: LegacyManifest, txs: seq<LegacyTransaction>, ss: seq<EventSummary>, n: nat)
    requires m.treasury.Ss58? && r.address.Ss58? && m.treasuryHotkey.Ss58? && |txs| == |ss|
    requires n <= |txs| && AuditAll(r, m, txs[..n], ss[..n]).Err?
    ensures AuditAll(r, m, txs, ss) == AuditAll(r, m, txs[..n], ss[..n])
  {
    if n == |txs| {
      assert txs[..n] == txs && ss[..n] == ss;
    } else {
      var k := |txs| - 1;
      assert txs[..k][..n] == txs[..n] && ss[..k][..n] == ss[..n];
      AuditFailsEarly(r, m, txs[..k], ss[..k], n);
    }
  }

  /** `replay`, transaction by transaction over its own accounts. */
  method Replay(r: Record, m: LegacyManifest, ss: seq<EventSummary>) returns (res: Result<Record>)
    ensures res == ReplayOf(r, m, ss)
  {
    hide CheckManifest, AuditStep, Reproduces, Adopt, Recoverable, Attested, ListOk, Receipts;
    var _ :- ValidateManifest(r, m);
    AcceptedAddresses(r, m);
    if |ss| != |m.transactions| {
      return Err(Store("missing archived receipts"));
    }
    var a := NO_HISTORY;
    for i := 0 to |ss|
      invariant AuditAll(r, m, m.transactions[..i], ss[..i]) == Ok(a)
    {
      var step := AuditOne(r, m, a, m.transactions[i], ss[i]);
      assert m.transactions[..i + 1][..i] == m.transactions[..i] && ss[..i + 1][..i] == ss[..i];
      if step.Err? {
        AuditFailsEarly(r, m, m.transactions, ss, i + 1);
        return Err(step.error);
      }
      a := step.value;
    }
    assert m.transactions[..|ss|] == m.transactions && ss[..|ss|] == ss;
    var total := CheckedTotal(a.positions);
    if total.None? {
      return Err(Store("legacy amount overflow"));
    }
    if !Reproduces(r, m, a, total.value) {
      return Err(Store("legacy receipts do not reproduce stored accounting"));
    }
    return Ok(Adopt(r, m));
  }

  /** The loop body of `replay`: the accounts after one transaction. */
  method AuditOne(r: Record, m: LegacyManifest, before: Audit, t: LegacyTransaction, s: EventSummary) returns (res: Result<Audit>)
    requires m.treasury.Ss58? && r.address.Ss58? && m.treasuryHotkey.Ss58?
    ensures res == AuditStep(r, m, before, t, s)
  {
    var signer :- ParseSs58(t.signer);
    var a := before;
    if s.failed || !s.Has(ExtrinsicSuccess) || !s.Has(t.call.ExpectedEvent()) {
      return Err(INVALID);
    }
    match t.call {
      case TransferTao(dest, amount) =>
        if !(signer == m.treasury.account && dest == r.address.account && a.funded == 0 && a.positions == []
             && !a.dust && a.buyback.None? && amount > 0)
        {
          return Err(INVALID);
        }
        if s.transferred != Some(amount) {
          return Err(INVALID);
        }
        a := a.(funded := amount);
      case TransferStake(dest, hotkey, netuid, alpha) =>
        if !(signer == r.address.account && dest == m.treasury.account && netuid == r.netuid && !a.postSweep
             && a.consolidated == 0 && !a.dust && a.buyback.None? && alpha > 0)
        {
          return Err(INVALID);
        }
        if HasHotkey(a.positions, Ss58Of(hotkey)) {
          return Err(INVALID);
        }
        a := a.(positions := a.positions + [(Ss58Of(hotkey), alpha)]);
      case MoveStake(from, to, netuid, alpha) =>
        if !(m.consolidate && signer == m.treasury.account && to == m.treasuryHotkey.account && netuid == r.netuid
             && !a.dust && a.buyback.None?)
        {
          return Err(INVALID);
        }
        if a.consolidated >= |a.positions| || a.positions[a.consolidated] != (Ss58Of(from), alpha) {
          return Err(INVALID);
        }
        a := a.(postSweep := true);
        a := a.(consolidated := a.consolidated + 1);
      case TransferAll(dest) =>
        if !((m.returnDust || r.detectedTao > 0) && signer == r.address.account && dest == m.treasury.account
             && !a.dust && a.buyback.None?)
        {
          return Err(INVALID);
        }
        if m.consolidate && a.consolidated != |a.positions| {
          return Err(INVALID);
        }
        a := a.(postSweep := true);
        a := a.(dust := true);
      case AddStakeLimit(target, netuid, tao, limitPrice, allowPartial) =>
        if allowPartial || signer != m.treasury.account || a.buyback.Some? {
          return Err(INVALID);
        }
        if (m.consolidate && a.consolidated != |a.positions|) || ((m.returnDust || r.detectedTao > 0) && !a.dust) {
          return Err(INVALID);
        }
        a := a.(postSweep := true);
        if m.budget.None? || s.stakeAdded.None? {
          return Err(INVALID);
        }
        var b := m.budget.value;
        var (spent, bought) := s.stakeAdded.value;
        if Ss58Of(target) != b.hotkey || netuid != b.netuid || tao != b.amountRao || spent != tao || bought == 0 {
          return Err(INVALID);
        }
        a := a.(buyback := Some(BuybackReceipt(netuid, spent, bought, limitPrice, t.receipt, None, 0)));
      case BurnAlpha(target, netuid, alpha) =>
        var destroyed := DestroyOne(m, a, t, s, signer == m.treasury.account, Burn, target, netuid, alpha);
        if destroyed.None? {
          return Err(INVALID);
        }
        a := destroyed.value;
      case RecycleAlpha(target, netuid, alpha) =>
        var destroyed := DestroyOne(m, a, t, s, signer == m.treasury.account, Recycle, target, netuid, alpha);
        if destroyed.None? {
          return Err(INVALID);
        }
        a := destroyed.value;
      case AssociateHotkey(_) =>
        return Err(INVALID);
    }
    return Ok(a);
  }

  method DestroyOne(m: LegacyManifest, before: Audit, t: LegacyTransaction, s: EventSummary, byTreasury: bool,
                    destroy: DestroyPolicy, target: AccountId, netuid: nat, alpha: nat) returns (res: Option<Audit>)
    ensures res == AuditDestroy(m, before, t, s, byTreasury, destroy, target, netuid, alpha)
  {
    if !byTreasury || m.budget.None? || before.buyback.None? {
      return None;
    }
    var b := m.budget.value;
    var receipt := before.buyback.value;
    if b.destroy != destroy || Ss58Of(target) != b.hotkey || netuid != b.netuid || receipt.destroyTx.Some?
      || alpha != receipt.alphaBought || s.alphaDestroyed != Some(alpha)
    {
      return None;
    }
    receipt := receipt.(destroyTx := Some(t.receipt));
    receipt := receipt.(alphaDestroyed := alpha);
    return Some(before.(buyback := Some(receipt)));
  }

  /** The swept total, unless it overflows on the way. */
  method CheckedTotal(ps: seq<(Address, nat)>) returns (total: Option<nat>)
    ensures total == if Sum(Amounts(ps)) > U64_MAX then None else Some(Sum(Amounts(ps)))
  {
    var sum := 0;
    for i := 0 to |ps|
      invariant sum == Sum(Amounts(ps[..i])) <= U64_MAX
    {
      assert Amounts(ps[..i + 1]) == Amounts(ps[..i]) + [ps[i].1];
      SumAppend(Amounts(ps[..i]), ps[i].1);
      if sum + ps[i].1 > U64_MAX {
        SumGrows(ps, i + 1);
        return None;
      }
      sum := sum + ps[i].1;
    }
    assert ps[..|ps|] == ps;
    return Some(sum);
  }

  lemma {:induction false} SumGrows(ps: seq<(Address, nat)>, n: nat)
    requires n <= |ps|
    ensures Sum(Amounts(ps[..n])) <= Sum(Amounts(ps))
  {
    if n == |ps| {
      assert ps[..n] == ps;
    } else {
      var front := ps[..|ps| - 1];
      assert front[..n] == ps[..n];
      SumGrows(front, n);
      assert Amounts(ps) == Amounts(front) + [ps[|ps| - 1].1];
      SumAppend(Amounts(front), ps[|ps| - 1].1);
    }
  }
}
