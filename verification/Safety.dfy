/** What holds after every run of the protocol, over all interleavings, crashes, lost replies, lagging
    nodes and stalled broadcasters. */
module Safety {
  import opened Basics
  import opened Calls
  import opened State
  import opened ChainScan
  import opened Store
  import opened Engine
  import opened Accounting
  import opened Decisions
  import opened Protocol
  import opened ProtocolSteps

  lemma ReachableInv(start: System, ls: seq<Label>)
    requires Initial(start)
    ensures Inv(Run(start, ls))
  {
    InitialInv(start);
    RunKeepsInv(start, ls);
  }

  // ---------------------------------------------------------------- one live transaction per signer

  /** A journaled transaction the chain has not included and may still include. */
  ghost predicate StillPossible(s: System, h: Hash) {
    h in s.journal && !InChain(s.blocks, h) && |s.blocks| <= s.journal[h].p.birthBlock + MORTALITY
  }

  /** Whatever engine-signed extrinsic the chain may put in its next block was journaled and is still
      possible in this sense; bytes prepared but never journaled cannot appear. */
  lemma NextBlockIsJournaled(start: System, ls: seq<Label>, block: Block, i: nat)
    requires Initial(start) && Admissible(Run(start, ls), block)
    requires i < |block.exts| && block.exts[i].hash in Run(start, ls).signed
    ensures StillPossible(Run(start, ls), block.exts[i].hash)
  {
    var s := Run(start, ls);
    ReachableInv(start, ls);
    assert EntryOk(s, block.exts[i].hash);
  }

  /** Every transaction the chain could still include is the present journal of its job, and the
      signer's row belongs to that job under that journal's token. */
  lemma PossibleIsPendingAndFenced(start: System, ls: seq<Label>, h: Hash)
    requires Initial(start) && StillPossible(Run(start, ls), h)
    ensures var s := Run(start, ls); var e := s.journal[h];
      && e.job in s.db.payments && s.db.payments[e.job].pending == Some(e.p) && e.p.txHash == h
      && Owned(s.db, e.job, e.p)
  {
    var s := Run(start, ls);
    ReachableInv(start, ls);
    assert EntrySettled(s, h) && EntryOk(s, h);
  }

  /** So no two transactions the chain could still include share a signer. */
  lemma PossibleSignersDiffer(start: System, ls: seq<Label>, h: Hash, g: Hash)
    requires Initial(start) && StillPossible(Run(start, ls), h) && StillPossible(Run(start, ls), g)
    requires Run(start, ls).journal[h].p.signer == Run(start, ls).journal[g].p.signer
    ensures h == g
  {
    var s := Run(start, ls);
    ReachableInv(start, ls);
    PossibleIsPendingAndFenced(start, ls, h);
    PossibleIsPendingAndFenced(start, ls, g);
    OneJournalPerSigner(s.db, s.journal[h].job, s.journal[g].job);
  }

  // ---------------------------------------------------------------- at most once

  /** Extrinsic `i` of block `n` was signed by an engine and succeeded. */
  ghost predicate Landed(s: System, n: nat, i: nat) {
    n < |s.blocks| && i < |s.blocks[n].exts| && s.blocks[n].exts[i].hash in s.signed && Failure !in s.blocks[n].exts[i].events
  }

  function HashAt(s: System, n: nat, i: nat): Hash
    requires n < |s.blocks| && i < |s.blocks[n].exts|
  {
    s.blocks[n].exts[i].hash
  }

  lemma LandedIsJournaled(s: System, n: nat, i: nat)
    requires LogOk(s) && ChainOk(s) && Landed(s, n, i)
    ensures HashAt(s, n, i) in s.journal && EntryOk(s, HashAt(s, n, i)) && Succeeded(s.blocks, HashAt(s, n, i))
    ensures s.blocks[n].exts[i].data == Encoded(s.signed[HashAt(s, n, i)].call)
  {
  }

  /** A success is either still the job's journal or one of its receipts. */
  lemma LandedIsKnown(s: System, n: nat, i: nat)
    requires Inv(s) && Landed(s, n, i)
    ensures HashAt(s, n, i) in s.journal
    ensures var h := HashAt(s, n, i); var e := s.journal[h];
      e.job in s.db.payments && (s.db.payments[e.job].pending == Some(e.p) || Filed(s.db.payments[e.job], h))
  {
    LandedIsJournaled(s, n, i);
    assert EntrySettled(s, HashAt(s, n, i));
  }

  /** A receipt's slot and the journal's slot of the same job differ. */
  lemma ReceiptVersusJournal(s: System, j: string, k: nat)
    requires Inv(s) && j in s.db.payments && s.db.payments[j].pending.Some? && k < |s.db.payments[j].txs|
    ensures s.db.payments[j].txs[k].txHash in s.journal
    ensures SlotOf(s.journal[s.db.payments[j].txs[k].txHash].p.action) != SlotOf(s.db.payments[j].pending.value.action)
  {
    var r := s.db.payments[j];
    assert RecordOk(r) && JobReceiptsOk(s, j);
    PendingSlotIsFree(r);
    assert AppliedTxs(r) == r.txs;
  }

  lemma SameSlotSameHash(s: System, n: nat, i: nat, m: nat, k: nat)
    requires Inv(s) && Landed(s, n, i) && Landed(s, m, k)
    requires HashAt(s, n, i) in s.journal && HashAt(s, m, k) in s.journal
    requires s.journal[HashAt(s, n, i)].job == s.journal[HashAt(s, m, k)].job
    requires SlotOf(s.journal[HashAt(s, n, i)].p.action) == SlotOf(s.journal[HashAt(s, m, k)].p.action)
    ensures HashAt(s, n, i) == HashAt(s, m, k)
  {
    hide RecordsOk, Fenced, JournalsLogged, LogOk, ChainOk, LogSettled, WorkersOk, SlotOf, Used, EntryOk, Succeeded;
    var h, g := HashAt(s, n, i), HashAt(s, m, k);
    LandedIsJournaled(s, n, i);
    LandedIsJournaled(s, m, k);
    LandedIsKnown(s, n, i);
    LandedIsKnown(s, m, k);
    var j := s.journal[h].job;
    var r := s.db.payments[j];
    assert JobReceiptsOk(s, j);
    if Filed(r, h) {
      var x :| 0 <= x < |r.txs| && r.txs[x].txHash == h;
      if Filed(r, g) {
        var y :| 0 <= y < |r.txs| && r.txs[y].txHash == g;
        assert x == y;
      } else {
        ReceiptVersusJournal(s, j, x);
      }
    } else if Filed(r, g) {
      var y :| 0 <= y < |r.txs| && r.txs[y].txHash == g;
      ReceiptVersusJournal(s, j, y);
    }
  }

  /** The slot of a landed call, read off the chain, is the slot of its journal. */
  lemma LandedSlot(s: System, n: nat, i: nat)
    requires LogOk(s) && ChainOk(s) && Landed(s, n, i)
    ensures var h := HashAt(s, n, i);
      && h in s.journal && s.blocks[n].exts[i].data.Encoded?
      && CallSlot(s.blocks[n].exts[i].data.call) == Some(SlotOf(s.journal[h].p.action))
  {
    hide Closed, Succeeded;
    LandedIsJournaled(s, n, i);
  }

  /** No step's money moves twice: over every run, a job has at most one successful Fund, ReturnDust,
      BuyStake and Destroy on chain, and at most one successful Sweep and Consolidate per hotkey,
      kinds and hotkeys as the included calls themselves name them. */
  lemma AtMostOneSuccessPerSlot(start: System, ls: seq<Label>, n: nat, i: nat, m: nat, k: nat)
    requires Initial(start) && Landed(Run(start, ls), n, i) && Landed(Run(start, ls), m, k)
    ensures var s := Run(start, ls); HashAt(s, n, i) in s.journal && HashAt(s, m, k) in s.journal
    ensures var s := Run(start, ls); s.blocks[n].exts[i].data.Encoded? && s.blocks[m].exts[k].data.Encoded?
    ensures var s := Run(start, ls);
      (s.journal[HashAt(s, n, i)].job == s.journal[HashAt(s, m, k)].job
       && CallSlot(s.blocks[n].exts[i].data.call) == CallSlot(s.blocks[m].exts[k].data.call)) ==> n == m && i == k
  {
    ReachableInv(start, ls);
    OneSuccess(Run(start, ls), n, i, m, k);
  }

  lemma OneSuccess(s: System, n: nat, i: nat, m: nat, k: nat)
    requires Inv(s) && Landed(s, n, i) && Landed(s, m, k)
    ensures HashAt(s, n, i) in s.journal && HashAt(s, m, k) in s.journal
    ensures s.blocks[n].exts[i].data.Encoded? && s.blocks[m].exts[k].data.Encoded?
    ensures (s.journal[HashAt(s, n, i)].job == s.journal[HashAt(s, m, k)].job
             && CallSlot(s.blocks[n].exts[i].data.call) == CallSlot(s.blocks[m].exts[k].data.call)) ==> n == m && i == k
  {
    hide RecordsOk, Fenced, JournalsLogged, LogSettled, ReceiptsOk, WorkersOk, LogOk, CallSlot, SlotOf;
    LandedSlot(s, n, i);
    LandedSlot(s, m, k);
    var h, g := HashAt(s, n, i), HashAt(s, m, k);
    if s.journal[h].job == s.journal[g].job && SlotOf(s.journal[h].p.action) == SlotOf(s.journal[g].p.action) {
      SameSlotSameHash(s, n, i, m, k);
      assert At(s.blocks, n, i, h) && At(s.blocks, m, k, h);
    }
  }

  // ---------------------------------------------------------------- conservation of buyback budgets

  ghost predicate LandedBuy(s: System, n: nat, i: nat) {
    Landed(s, n, i) && s.signed[HashAt(s, n, i)].call.AddStakeLimit?
  }

  /** Rao requested by the successful purchases among the first `k` extrinsics of block `n`. */
  ghost function SpentInBlock(s: System, n: nat, k: nat): nat
    requires n < |s.blocks| && k <= |s.blocks[n].exts|
  {
    if k == 0 then 0
    else SpentInBlock(s, n, k - 1) + (if LandedBuy(s, n, k - 1) then s.signed[HashAt(s, n, k - 1)].call.tao else 0)
  }

  /** Rao requested by the successful purchases of the first `n` blocks. */
  ghost function Spent(s: System, n: nat): nat
    requires n <= |s.blocks|
  {
    if n == 0 then 0 else Spent(s, n - 1) + SpentInBlock(s, n - 1, |s.blocks[n - 1].exts|)
  }

  function BudgetOf(s: System, j: string): nat {
    if j in s.db.payments && s.db.payments[j].budget.Some? then s.db.payments[j].budget.value.amountRao else 0
  }

  ghost function Pick(jobs: set<string>): string
    requires jobs != {}
  {
    var j :| j in jobs; j
  }

  ghost function BudgetSum(s: System, jobs: set<string>): nat {
    if jobs == {} then 0 else var j := Pick(jobs); BudgetOf(s, j) + BudgetSum(s, jobs - {j})
  }

  lemma {:induction false} BudgetSumRemove(s: System, jobs: set<string>, j: string)
    requires j in jobs
    ensures BudgetSum(s, jobs) == BudgetOf(s, j) + BudgetSum(s, jobs - {j})
    decreases jobs
  {
    var p := Pick(jobs);
    if p != j {
      BudgetSumRemove(s, jobs - {p}, j);
      BudgetSumRemove(s, jobs - {j}, p);
      assert jobs - {p} - {j} == jobs - {j} - {p};
    }
  }

  lemma {:induction false} BudgetSumMonotone(s: System, some: set<string>, all: set<string>)
    requires some <= all
    ensures BudgetSum(s, some) <= BudgetSum(s, all)
    decreases some
  {
    if some != {} {
      var j := Pick(some);
      BudgetSumRemove(s, all, j);
      BudgetSumMonotone(s, some - {j}, all - {j});
    }
  }

  /** Jobs whose purchase landed before position (n, k). */
  ghost predicate BoughtBefore(s: System, n: nat, k: nat, j: string) {
    exists m: nat, i: nat :: (m < n || (m == n && i < k)) && LandedBuy(s, m, i)
      && HashAt(s, m, i) in s.journal && s.journal[HashAt(s, m, i)].job == j
  }

  /** `jobs` are exactly the jobs that bought before (n, k). */
  ghost predicate Buyers(s: System, n: nat, k: nat, jobs: set<string>) {
    forall j :: j in jobs <==> BoughtBefore(s, n, k, j)
  }

  /** Every purchase on chain requests exactly its job's budget, and no job has two. */
  ghost predicate BuysFit(s: System) {
    && (forall n: nat, i: nat :: LandedBuy(s, n, i) ==>
          var h := HashAt(s, n, i);
          && h in s.journal && s.journal[h].job in s.db.payments
          && s.signed[h].call.tao == BudgetOf(s, s.journal[h].job))
    && (forall n: nat, i: nat, m: nat, k: nat ::
          LandedBuy(s, n, i) && LandedBuy(s, m, k) && s.journal[HashAt(s, n, i)].job == s.journal[HashAt(s, m, k)].job ==>
          n == m && i == k)
  }

  lemma BuyIsBudget(s: System, n: nat, i: nat)
    requires LogOk(s) && ChainOk(s) && LandedBuy(s, n, i)
    ensures var h := HashAt(s, n, i);
      && h in s.journal && s.journal[h].job in s.db.payments && SlotOf(s.journal[h].p.action) == BuySlot
      && s.signed[h].call.tao == BudgetOf(s, s.journal[h].job)
  {
  }

  lemma BuysAreBudgets(s: System)
    requires Inv(s)
    ensures BuysFit(s)
  {
    forall n: nat, i: nat | LandedBuy(s, n, i)
      ensures var h := HashAt(s, n, i);
        && h in s.journal && s.journal[h].job in s.db.payments && SlotOf(s.journal[h].p.action) == BuySlot
        && s.signed[h].call.tao == BudgetOf(s, s.journal[h].job)
    {
      BuyIsBudget(s, n, i);
    }
    forall n: nat, i: nat, m: nat, k: nat | LandedBuy(s, n, i) && LandedBuy(s, m, k)
        && s.journal[HashAt(s, n, i)].job == s.journal[HashAt(s, m, k)].job
      ensures n == m && i == k
    {
      SameSlotSameHash(s, n, i, m, k);
      assert At(s.blocks, n, i, HashAt(s, n, i)) && At(s.blocks, m, k, HashAt(s, n, i));
    }
  }

  /** One more extrinsic: a purchase adds a new buyer with exactly its budget. */
  lemma OneMoreBuy(s: System, n: nat, k: nat, jobs: set<string>) returns (more: set<string>)
    requires BuysFit(s) && n < |s.blocks| && k < |s.blocks[n].exts| && Buyers(s, n, k, jobs)
    requires jobs <= s.db.payments.Keys
    ensures Buyers(s, n, k + 1, more) && more <= s.db.payments.Keys
    ensures BudgetSum(s, more) == BudgetSum(s, jobs) + (if LandedBuy(s, n, k) then s.signed[HashAt(s, n, k)].call.tao else 0)
  {
    if LandedBuy(s, n, k) {
      var j := s.journal[HashAt(s, n, k)].job;
      NoSecondBuy(s, n, k, j);
      more := jobs + {j};
      BudgetSumRemove(s, more, j);
      assert more - {j} == jobs;
      BuyersGrow(s, n, k, jobs, j);
    } else {
      more := jobs;
      BuyersStay(s, n, k, jobs);
    }
  }

  lemma BuyersGrow(s: System, n: nat, k: nat, jobs: set<string>, j: string)
    requires Buyers(s, n, k, jobs) && LandedBuy(s, n, k)
    requires HashAt(s, n, k) in s.journal && s.journal[HashAt(s, n, k)].job == j
    ensures Buyers(s, n, k + 1, jobs + {j})
  {
  }

  lemma BuyersStay(s: System, n: nat, k: nat, jobs: set<string>)
    requires Buyers(s, n, k, jobs) && !LandedBuy(s, n, k)
    ensures Buyers(s, n, k + 1, jobs)
  {
  }

  lemma NoSecondBuy(s: System, n: nat, k: nat, j: string)
    requires BuysFit(s) && LandedBuy(s, n, k) && s.journal[HashAt(s, n, k)].job == j
    ensures !BoughtBefore(s, n, k, j)
  {
  }

  lemma {:induction false} BlockBuyers(s: System, n: nat, k: nat, before: set<string>) returns (jobs: set<string>)
    requires BuysFit(s) && n < |s.blocks| && k <= |s.blocks[n].exts|
    requires Buyers(s, n, 0, before) && before <= s.db.payments.Keys
    ensures Buyers(s, n, k, jobs) && jobs <= s.db.payments.Keys
    ensures BudgetSum(s, jobs) == BudgetSum(s, before) + SpentInBlock(s, n, k)
  {
    if k == 0 {
      jobs := before;
    } else {
      var rest := BlockBuyers(s, n, k - 1, before);
      jobs := OneMoreBuy(s, n, k - 1, rest);
    }
  }

  lemma {:induction false} ChainBuyers(s: System, n: nat) returns (jobs: set<string>)
    requires BuysFit(s) && n <= |s.blocks|
    ensures Buyers(s, n, 0, jobs) && jobs <= s.db.payments.Keys
    ensures BudgetSum(s, jobs) == Spent(s, n)
  {
    if n == 0 {
      jobs := {};
    } else {
      var before := ChainBuyers(s, n - 1);
      var len := |s.blocks[n - 1].exts|;
      jobs := BlockBuyers(s, n - 1, len, before);
      NextBlockBuyers(s, n - 1, len, jobs);
    }
  }

  lemma NextBlockBuyers(s: System, n: nat, len: nat, jobs: set<string>)
    requires n < |s.blocks| && len == |s.blocks[n].exts| && Buyers(s, n, len, jobs)
    ensures Buyers(s, n + 1, 0, jobs)
  {
  }

  /** Conservation: over every run, the TAO requested by all successful purchases on chain is the sum
      of the frozen budgets of the jobs that bought, each counted once, and so never exceeds the sum
      of all budgets. */
  lemma PurchasesStayWithinBudgets(start: System, ls: seq<Label>) returns (buyers: set<string>)
    requires Initial(start)
    ensures var s := Run(start, ls);
      && buyers <= s.db.payments.Keys
      && (forall j :: j in buyers <==> BoughtBefore(s, |s.blocks|, 0, j))
      && Spent(s, |s.blocks|) == BudgetSum(s, buyers) <= BudgetSum(s, s.db.payments.Keys)
  {
    var s := Run(start, ls);
    ReachableInv(start, ls);
    BuysAreBudgets(s);
    buyers := ChainBuyers(s, |s.blocks|);
    BudgetSumMonotone(s, buyers, s.db.payments.Keys);
  }

  // ---------------------------------------------------------------- histories

  lemma JobFollowsItself(s: System, j: string)
    requires RecordsOk(s) && j in s.db.payments
    ensures Follows(s.db.payments[j], s.db.payments[j])
  {
  }

  /** Over any continuation of a run a job's record only moves forward: same policy, rank never lower,
      nothing swept, consolidated, returned or bought ever undone, receipts only appended. */
  lemma {:induction false} RecordsOnlyMoveForward(s: System, ls: seq<Label>, j: string)
    requires Inv(s) && j in s.db.payments
    ensures j in Run(s, ls).db.payments && Follows(s.db.payments[j], Run(s, ls).db.payments[j])
    ensures s.db.payments[j].version <= Run(s, ls).db.payments[j].version
    ensures s.db.payments[j].version == Run(s, ls).db.payments[j].version ==> Run(s, ls).db.payments[j] == s.db.payments[j]
  {
    hide RecordsOk, Fenced, JournalsLogged, LogOk, ChainOk, LogSettled, ReceiptsOk, WorkersOk, Exec, LogGrows;
    JobFollowsItself(s, j);
    if ls != [] {
      var front := ls[..|ls| - 1];
      RecordsOnlyMoveForward(s, front, j);
      RunKeepsInv(s, front);
      var mid := Run(s, front);
      ExecKeeps(mid, ls[|ls| - 1]);
      var t := Exec(mid, ls[|ls| - 1]);
      assert Evolves(mid, t);
      if t.db.payments[j] != mid.db.payments[j] {
        FollowsTransitive(s.db.payments[j], mid.db.payments[j], t.db.payments[j]);
      }
    }
  }

  /** A job that was swept never returns to an earlier step. */
  lemma NoGoingBack(start: System, ls: seq<Label>, more: seq<Label>, j: string)
    requires Initial(start) && j in Run(start, ls).db.payments
    ensures var later := Run(Run(start, ls), more);
      && j in later.db.payments
      && Rank(Run(start, ls).db.payments[j]) <= Rank(later.db.payments[j])
      && (Rank(Run(start, ls).db.payments[j]) >= 3 ==>
            later.db.payments[j].state != Detected && later.db.payments[j].state != Funded && later.db.payments[j].state != Pending)
  {
    ReachableInv(start, ls);
    RecordsOnlyMoveForward(Run(start, ls), more, j);
  }

  /** One step adds no journal entry for a quarantined job. */
  lemma FrozenStep(s: System, t: System, j: string)
    requires Advances(s, t) && j in s.db.payments && s.db.payments[j].quarantined.Some? && s.db.payments[j].pending.None?
    ensures forall h :: h in t.journal && t.journal[h].job == j ==> h in s.journal
  {
  }

  lemma FrozenRecord(r: Record)
    requires RecordOk(r) && r.quarantined.Some?
    ensures r.pending.None? && r.state == Failed
  {
  }

  /** After a quarantine the job never journals again, whatever ticks, retries and force-sweeps run:
      its journal stays empty, its receipts stay as they are, and no entry of the journal log is
      added for it. */
  lemma {:induction false} QuarantineFreezesJob(s: System, ls: seq<Label>, j: string)
    requires Inv(s) && j in s.db.payments && s.db.payments[j].quarantined.Some?
    ensures j in Run(s, ls).db.payments
    ensures var r := Run(s, ls).db.payments[j];
      r.quarantined == s.db.payments[j].quarantined && r.pending.None? && r.txs == s.db.payments[j].txs && r.state == Failed
    ensures forall h :: h in Run(s, ls).journal && Run(s, ls).journal[h].job == j ==> h in s.journal
  {
    RecordsOnlyMoveForward(s, ls, j);
    RunKeepsInv(s, ls);
    FrozenRecord(Run(s, ls).db.payments[j]);
    JobFollowsItself(s, j);
    if ls != [] {
      var front := ls[..|ls| - 1];
      RecordsOnlyMoveForward(s, front, j);
      RunKeepsInv(s, front);
      FrozenRecord(Run(s, front).db.payments[j]);
      QuarantineFreezesJob(s, front, j);
      ExecKeeps(Run(s, front), ls[|ls| - 1]);
      FrozenStep(Run(s, front), Run(s, ls), j);
    }
  }

  /** The write that quarantines a job frees its signer: any job at its current version can reserve
      it at once under a token nobody holds. `z` is the record reconciliation writes. */
  lemma QuarantineFreesSigner(start: System, ls: seq<Label>, w: nat, now: nat, z: Record, other: string, token: Token)
    requires Initial(start) && w < |Run(start, ls).workers| && Run(start, ls).workers[w].Scanned?
    requires var wk := Run(start, ls).workers[w]; z == Resolved(wk.r, wk.p, wk.outcome, wk.cfg.maxAttempts, now)
    requires z.quarantined.Some? && Update(Run(start, ls).db, z).0.Ok?
    ensures var s := Run(start, ls); var p := s.workers[w].p; var db := Exec(s, StoreOutcome(w, now)).db;
      && z.id in db.payments && db.payments[z.id].quarantined == z.quarantined
      && p.signer !in db.rows
      && (other in db.payments && db.payments[other].version <= I64_MAX && !TokenTaken(db, token) ==>
            Reserve(db, p.signer, other, Some(db.payments[other].version), token).0 == Ok(token))
  {
    var s := Run(start, ls);
    var wk := s.workers[w];
    ReachableInv(start, ls);
    ScannedCopy(s, w);
    ResolvedShape(wk.r, wk.p, wk.outcome, wk.cfg.maxAttempts, now);
    UpdateOnCurrent(s.db, z);
    StoreOutcomeDb(s, w, now, z);
    QuarantinedHasNoJournal(s, wk.r, wk.p, wk.outcome, wk.cfg.maxAttempts, now);
    ReleaseFreesSigner(s.db, wk.r, z, wk.p, other, token);
  }

  lemma ScannedCopy(s: System, w: nat)
    requires s.blocks != [] && WorkersOk(s) && w < |s.workers| && s.workers[w].Scanned?
    ensures var wk := s.workers[w]; Copy(s.db, wk.r) && wk.r.pending == Some(wk.p) && !wk.outcome.Wait?
  {
  }

  lemma StoreOutcomeDb(s: System, w: nat, now: nat, z: Record)
    requires w < |s.workers| && s.workers[w].Scanned?
    requires var wk := s.workers[w]; z == Resolved(wk.r, wk.p, wk.outcome, wk.cfg.maxAttempts, now)
    requires Update(s.db, z).0.Ok?
    ensures Exec(s, StoreOutcome(w, now)).db == Update(s.db, z).1
  {
  }

  lemma QuarantinedHasNoJournal(s: System, r: Record, p: PendingTx, outcome: PendingOutcome, maxAttempts: nat, now: nat)
    requires RecordsOk(s) && r.id in s.db.payments && s.db.payments[r.id] == r && r.pending == Some(p) && !outcome.Wait?
    ensures Resolved(r, p, outcome, maxAttempts, now).pending.None?
  {
    ResolvedKeeps(r, p, outcome, maxAttempts, now);
  }

  /** Storing a record without the journal it had frees the journal's signer. */
  lemma ReleaseFreesSigner(db: Db, r: Record, z: Record, p: PendingTx, other: string, token: Token)
    requires Fenced(db) && Keyed(db) && r.id in db.payments && db.payments[r.id] == r && r.pending == Some(p)
    requires z.id == r.id && z.pending.None? && Update(db, z).0.Ok?
    ensures var next := Update(db, z).1;
      && p.signer !in next.rows
      && (other in next.payments && next.payments[other].version <= I64_MAX && !TokenTaken(next, token) ==>
            Reserve(next, p.signer, other, Some(next.payments[other].version), token).0 == Ok(token))
  {
  }

  /** After every run every settled job is complete. */
  lemma SettledJobsAreComplete(start: System, ls: seq<Label>, j: string)
    requires Initial(start) && j in Run(start, ls).db.payments
    requires Run(start, ls).db.payments[j].state == Settled
    ensures var r := Run(start, ls).db.payments[j];
      && r.pending.None? && r.quarantined.None? && r.identity.Some?
      && (r.identity.value.consolidate ==> r.consolidated == |r.positions|)
      && (r.identity.value.returnDust || r.detectedTao > 0 ==> r.dustReturned)
      && (r.autoRequired == Some(true) || (r.autoRequired == Some(false) && r.buyback.None?))
      && (r.autoRequired == Some(true) ==>
            && r.budget.Some? && r.buyback.Some?
            && r.buyback.value.taoSpent == r.budget.value.amountRao && r.buyback.value.alphaBought > 0
            && (r.budget.value.destroy != Keep ==>
                  && r.buyback.value.destroyTx.Some?
                  && r.buyback.value.alphaDestroyed == r.buyback.value.alphaBought
                  && r.buyback.value.destroyTx.value.action == DestroyName(r.budget.value.destroy)))
  {
    ReachableInv(start, ls);
    assert RecordOk(Run(start, ls).db.payments[j]);
    SettledIsComplete(Run(start, ls).db.payments[j]);
  }

  /** A payment made in TAO reaches the treasury: once a step has stored a job as detected by TAO, the
      amount held stays noted, and over every continuation the job settles only with its wallet emptied. */
  lemma TaoPaymentIsReturned(start: System, ls: seq<Label>, w: nat, q: Reads, token: Token, more: seq<Label>, r: Record)
    requires Initial(start) && w < |Run(start, ls).workers| && Run(start, ls).workers[w].Holding?
    requires r == Run(start, ls).workers[w].r && r.state == Pending && PaidInTao(r, q) && q.free > 0
    requires var d := Decide(Run(start, ls).workers[w].cfg, r, q); d.Save? && Update(Run(start, ls).db, d.rec).0.Ok?
    ensures var later := Run(Exec(Run(start, ls), Step(w, q, token)), more);
      && r.id in later.db.payments && later.db.payments[r.id].detectedTao == q.free
      && (later.db.payments[r.id].state == Settled ==> later.db.payments[r.id].dustReturned)
  {
    hide Inv, Run, Update, Decide, DecidePending, Follows, RecordOk;
    var s := Run(start, ls);
    var cfg := s.workers[w].cfg;
    var rec := Decide(cfg, r, q).rec;
    ReachableInv(start, ls);
    TaoIsNoted(cfg, r, q);
    UpdateOnCurrent(s.db, rec);
    StepStores(s, w, q, token);
    ExecKeeps(s, Step(w, q, token));
    var t := Exec(s, Step(w, q, token));
    RecordsOnlyMoveForward(t, more, r.id);
    RunKeepsInv(t, more);
    NotedTaoIsReturned(Run(t, more), r.id, t.db.payments[r.id]);
  }

  lemma TaoIsNoted(cfg: EngineConfig, r: Record, q: Reads)
    requires r.state == Pending && PaidInTao(r, q) && Decide(cfg, r, q).Save?
    ensures var c := Decide(cfg, r, q).rec; c.detectedTao == q.free && Rank(c) == 1 && c.id == r.id
  {
    hide DecidePending;
    DispatchedExactly(cfg, r, q);
    if r.address.Ss58? { DetectedExactly(r, q); } else { WrongWalletStops(cfg, r, q); }
  }

  lemma StepStores(s: System, w: nat, q: Reads, token: Token)
    requires w < |s.workers| && s.workers[w].Holding?
    requires var d := Decide(s.workers[w].cfg, s.workers[w].r, q); d.Save? && Update(s.db, d.rec).0.Ok?
    ensures Exec(s, Step(w, q, token)).db == Update(s.db, Decide(s.workers[w].cfg, s.workers[w].r, q).rec).1
  {
    hide Decide, Update;
  }

  lemma NotedTaoIsReturned(s: System, j: string, noted: Record)
    requires Inv(s) && j in s.db.payments && Follows(noted, s.db.payments[j]) && Rank(noted) == 1 && noted.detectedTao > 0
    ensures s.db.payments[j].detectedTao == noted.detectedTao
    ensures s.db.payments[j].state == Settled ==> s.db.payments[j].dustReturned
  {
    assert RecordOk(s.db.payments[j]);
  }

  /** After every run the accounting of every job agrees with its receipts. */
  lemma AccountsAlwaysBalance(start: System, ls: seq<Label>, j: string)
    requires Initial(start) && j in Run(start, ls).db.payments
    ensures var r := Run(start, ls).db.payments[j];
      && RecordOk(r)
      && r.sweptAlpha == Sum(Amounts(r.positions))
      && CountName(AppliedTxs(r), TransferStakeName) == |r.positions|
      && CountName(AppliedTxs(r), TransferKeepAliveName) <= 1
      && CountName(AppliedTxs(r), AddStakeLimitName) <= 1
      && |r.txs| <= 2 * |r.positions| + 5
      && (r.state == Failed ==> r.pending.None?)
  {
    ReachableInv(start, ls);
    var r := Run(start, ls).db.payments[j];
    assert RecordOk(r);
    ReceiptsMatchFlags(r);
    ReceiptBound(r);
  }
}
