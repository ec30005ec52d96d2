/** Payment record and its persistent state machine (src/state.rs). */
module State {
  import opened Basics
  import opened Text
  import opened Keys
  import opened Calls
  import Units

  datatype PaymentState = Pending | Detected | Funded | Swept | Settled | Failed | Expired
  {
    /** States the watcher keeps driving. */
    predicate IsActive() {
      Pending? || Detected? || Funded? || Swept?
    }

    predicate CanTransition(to: PaymentState) {
      match this
      case Pending => to.Detected? || to.Expired? || to.Failed?
      case Detected => to.Funded? || to.Failed?
      case Funded => to.Swept? || to.Failed?
      case Swept => to.Settled? || to.Failed?
      case Failed => to.Detected? || to.Funded? || to.Swept?
      case Expired => to.Detected?
      case Settled => false
    }
  }

  datatype BuybackReceipt = BuybackReceipt(
    netuid: nat, taoSpent: nat, alphaBought: nat, limitPrice: nat, stakeTx: TxRef,
    destroyTx: Option<TxRef>, alphaDestroyed: nat)

  datatype DestroyPolicy = Keep | Burn | Recycle

  datatype BuybackBudget = BuybackBudget(
    amountRao: nat, currency: string, source: string, netuid: nat, destroy: DestroyPolicy, hotkey: Address)
  {
    function Validate(): Result<()> {
      var _ :- ParseSs58(hotkey);
      if (netuid == 0 && destroy != Keep)
        || amountRao < Units.MIN_STAKE_RAO
        || currency != "TAO"
        || Trim(source) == ""
        || ByteLen(source) > 128
      then Err(Config("explicit TAO buyback budget/source required"))
      else Ok(())
    }
  }

  /** Execution identity frozen at creation; absent on legacy records. */
  datatype JobIdentity = JobIdentity(
    genesisHash: Hash, treasury: Address, treasuryHotkey: Address, consolidate: bool, returnDust: bool)

  /** The stored value of a payment record. Wallet secrets, callback data and timestamps that no
      decision reads are left out. */
  datatype Record = Record(
    id: string, address: Address, netuid: nat, minAlpha: nat, minTao: Option<nat>, expiresAt: nat,
    state: PaymentState, version: nat, detectedAlpha: nat, detectedTao: nat,
    fundedTao: nat, sweptAlpha: nat, txs: seq<TxRef>, buyback: Option<BuybackReceipt>,
    budget: Option<BuybackBudget>, autoRequired: Option<bool>, identity: Option<JobIdentity>,
    attempts: nat, nextAttemptAt: nat, lastError: Option<string>, failedFrom: Option<PaymentState>,
    pending: Option<PendingTx>, quarantined: Option<PendingTx>,
    positions: seq<(Address, nat)>, consolidated: nat, dustReturned: bool, buybackDone: bool, notified: bool)

  /** Amounts of swept positions, in order. */
  function Amounts(ps: seq<(Address, nat)>): seq<nat> {
    seq(|ps|, i requires 0 <= i < |ps| => ps[i].1)
  }

  predicate HasHotkey(ps: seq<(Address, nat)>, hotkey: Address) {
    exists k :: 0 <= k < |ps| && ps[k].0 == hotkey
  }

  /** A failed record may only resume the step it failed in. */
  predicate ResumeOk(r: Record, to: PaymentState) {
    || r.state != Failed
    || r.failedFrom == Some(to)
    || (r.failedFrom == Some(Pending) && to == Detected)
  }

  function Transition(r: Record, to: PaymentState): Result<Record> {
    if !r.state.CanTransition(to) || !ResumeOk(r, to) then
      Err(InvalidTransition("invalid state transition"))
    else
      Ok(r.(state := to, attempts := 0, nextAttemptAt := 0,
            failedFrom := if to == Failed then Some(r.state) else r.failedFrom,
            lastError := if to == Failed then r.lastError else None))
  }

  /** Backoff in seconds: 5 * 2^attempts, the exponent capped at 7 and the result at 600. */
  function Backoff(attempts: nat): nat {
    Min(5 * Units.Pow2(Min(attempts, 7)), 600)
  }

  function Take500(text: string): string {
    if |text| <= 500 then text else text[..500]
  }

  function RecordFailure(r: Record, err: string, maxAttempts: nat, now: nat): Record {
    var gaveUp := r.attempts + 1 >= maxAttempts && r.state.CanTransition(Failed);
    r.(attempts := r.attempts + 1,
       lastError := Some(Take500(err)),
       nextAttemptAt := now + Backoff(r.attempts + 1),
       failedFrom := if gaveUp then Some(r.state) else r.failedFrom,
       state := if gaveUp then Failed else r.state)
  }

  // ---------------------------------------------------------------- no going back

  /** Progress of a job: a failed job counts as the step it failed in, an expired one as pending. */
  function Stage(r: Record): PaymentState {
    match r.state
    case Failed => (match r.failedFrom case Some(s) => s case None => Pending)
    case Expired => Pending
    case _ => r.state
  }

  function RankOf(s: PaymentState): nat {
    match s
    case Pending => 0
    case Detected => 1
    case Funded => 2
    case Swept => 3
    case Settled => 4
    case Failed => 0
    case Expired => 0
  }

  function Rank(r: Record): nat {
    RankOf(Stage(r))
  }

  /** The moves of the state machine: an active job takes its next step or gives up, an unpaid one
      expires, an expired one reopens, and a failed one resumes the step it failed in, detection
      standing in for waiting. */
  predicate MayMove(r: Record, to: PaymentState) {
    || (r.state.IsActive() && (to == Failed || RankOf(to) == RankOf(r.state) + 1))
    || (r.state == Pending && to == Expired)
    || (r.state == Expired && to == Detected)
    || (r.state == Failed && Resumes(r.failedFrom) == Some(to))
  }

  /** The step a failed job resumes; none where `failed_from` names no step. */
  function Resumes(failedFrom: Option<PaymentState>): Option<PaymentState> {
    match failedFrom
    case None => None
    case Some(s) => if s == Pending then Some(Detected) else if 1 <= RankOf(s) <= 3 then Some(s) else None
  }

  /** A transition is accepted if and only if the state machine has the move, and then restarts the
      attempts and clears the error, except that giving up keeps the error and notes the step. */
  lemma TransitionExactly(r: Record, to: PaymentState)
    ensures Transition(r, to).Ok? <==> MayMove(r, to)
    ensures MayMove(r, to) && to != Failed ==>
      Transition(r, to) == Ok(r.(state := to, attempts := 0, nextAttemptAt := 0, lastError := None))
    ensures MayMove(r, Failed) ==>
      Transition(r, Failed) == Ok(r.(state := Failed, attempts := 0, nextAttemptAt := 0, failedFrom := Some(r.state)))
  {
  }

  /** Every accepted transition moves the rank up by at most one step, never down: the only moves
      that keep it are giving up, resuming, expiring and reopening. */
  lemma TransitionNeverGoesBack(r: Record, to: PaymentState)
    requires Transition(r, to).Ok?
    ensures Rank(r) <= Rank(Transition(r, to).value) <= Rank(r) + 1
    ensures Rank(Transition(r, to).value) == Rank(r) + 1 <==>
      RankOf(to) > Rank(r)
  {
  }

  /** The wait starts at 10 seconds and doubles with every failure up to 10 minutes. */
  lemma BackoffDoubles(n: nat)
    ensures Backoff(1) == 10 && Backoff(n + 1) == Min(2 * Backoff(n), 600)
  {
    if n >= 7 {
      assert Units.Pow2(7) == 2 * Units.Pow2(6) && Units.Pow2(6) == 2 * Units.Pow2(5);
      assert Units.Pow2(4) == 16 && Units.Pow2(5) == 2 * Units.Pow2(4);
    } else {
      assert Units.Pow2(n + 1) == 2 * Units.Pow2(n);
      if n == 6 { assert Units.Pow2(3) == 8 && Units.Pow2(6) == 8 * Units.Pow2(3); }
    }
  }

  /** Whether one more failure makes the job give up. */
  predicate GivesUp(r: Record, maxAttempts: nat) {
    r.state.IsActive() && r.attempts + 1 >= maxAttempts
  }

  /** A failure counts one attempt, notes the first 500 characters of its error, and schedules the next
      attempt 10 to 600 seconds later by the backoff. The job fails, remembering its step, if and only
      if its attempts are used up in a state that can fail. Rank and accounting stay. */
  lemma FailureKeepsProgress(r: Record, err: string, maxAttempts: nat, now: nat)
    ensures var f := RecordFailure(r, err, maxAttempts, now);
      && Rank(f) == Rank(r)
      && f.attempts == r.attempts + 1
      && f.nextAttemptAt == now + Backoff(f.attempts) && now + 10 <= f.nextAttemptAt <= now + 600
      && f.lastError.Some? && f.lastError.value <= err && |f.lastError.value| == Min(|err|, 500)
      && f.state == (if GivesUp(r, maxAttempts) then Failed else r.state)
      && f.failedFrom == (if GivesUp(r, maxAttempts) then Some(r.state) else r.failedFrom)
      && f == r.(state := f.state, attempts := f.attempts, lastError := f.lastError,
                 nextAttemptAt := f.nextAttemptAt, failedFrom := f.failedFrom)
  {
  }

  /** A budget is valid if and only if its hotkey parses, it buys at least the minimum stake, it is paid
      in TAO, it says who provided it in at most 128 bytes that are not all blank, and it destroys
      nothing on the root subnet. */
  lemma BudgetValidExactly(b: BuybackBudget)
    ensures b.Validate().Ok? <==>
      && b.hotkey.Ss58?
      && b.amountRao >= 2_000_000 && b.currency == "TAO"
      && ByteLen(b.source) <= 128 && (exists k :: 0 <= k < |b.source| && !IsWhitespace(b.source[k]))
      && (b.netuid == 0 ==> b.destroy == Keep)
  {
    TrimBlank(b.source);
  }

  // ---------------------------------------------------------------- the live record

  /** The record as the engine holds it: one owned value whose fields are assigned one at a time. */
  class PaymentRecord {
    var value: Record

    constructor (r: Record)
      ensures value == r
    {
      value := r;
    }

    /** `PaymentRecord::transition`; an error changes nothing. */
    method MoveTo(to: PaymentState) returns (res: Result<()>)
      modifies this
      ensures match Transition(old(value), to)
        case Ok(moved) => res == Ok(()) && value == moved
        case Err(e) => res == Err(e) && value == old(value)
    {
      var resumeOk := value.state != Failed
        || value.failedFrom == Some(to)
        || (value.failedFrom == Some(Pending) && to == Detected);
      if !value.state.CanTransition(to) || !resumeOk {
        return Err(InvalidTransition("invalid state transition"));
      }
      if to == Failed {
        value := value.(failedFrom := Some(value.state));
      }
      value := value.(state := to, attempts := 0, nextAttemptAt := 0);
      if to != Failed {
        value := value.(lastError := None);
      }
      return Ok(());
    }

    /** `PaymentRecord::record_failure`. */
    method NoteFailure(err: string, maxAttempts: nat, now: nat)
      modifies this
      ensures value == RecordFailure(old(value), err, maxAttempts, now)
    {
      value := value.(attempts := value.attempts + 1);
      value := value.(lastError := Some(Take500(err)));
      value := value.(nextAttemptAt := now + Backoff(value.attempts));
      if value.attempts >= maxAttempts && value.state.CanTransition(Failed) {
        value := value.(failedFrom := Some(value.state));
        value := value.(state := Failed);
      }
    }
  }
}
