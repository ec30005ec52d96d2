/** Finalized blocks, event summaries and the scan that resolves a journal (src/chain.rs). */
module ChainScan {
  import opened Basics
  import opened Keys
  import opened Calls

  /** Events of one extrinsic. `Undecodable` is any event the client fails to decode. */
  datatype Event =
    | Success
    | Failure
    | AddedStake(tao: nat, alpha: nat)
    | Burned(amount: nat)
    | Recycled(amount: nat)
    | TransferredStake(taoValue: nat)
    | MovedStake(taoValue: nat)
    | TransferredTao(rao: nat)
    | Other(pallet: string, event: string)
    | Undecodable

  function NameOf(e: Event): EventName
    requires !e.Undecodable?
  {
    match e
    case Success => ExtrinsicSuccess
    case Failure => ExtrinsicFailed
    case AddedStake(_, _) => StakeAdded
    case Burned(_) => AlphaBurned
    case Recycled(_) => AlphaRecycled
    case TransferredStake(_) => StakeTransferred
    case MovedStake(_) => StakeMoved
    case TransferredTao(_) => BalancesTransfer
    case Other(p, n) => OtherEvent(p, n)
  }

  /** `MultiAddress` bytes of an extrinsic: none when unsigned, otherwise an account or a form the
      client does not know. */
  datatype AddressBytes = Unsigned | AccountBytes(account: AccountId) | UnknownForm

  /** Encoded call data: the encoding of a known call, or anything else. */
  datatype CallData = Encoded(call: ChainCall) | ForeignData

  datatype Extrinsic = Extrinsic(
    hash: Hash, address: AddressBytes, nonce: Option<nat>, data: CallData, events: seq<Event>)

  /** A finalized block; its number is its position in the chain. `nonces` is the account state
      after the block. */
  datatype Block = Block(hash: Hash, exts: seq<Extrinsic>, nonces: map<AccountId, nat>)

  const MORTALITY: nat := 64

  // ---------------------------------------------------------------- event summaries

  /** `value` is the payload of the last event in `evs` that `pick` selects. */
  ghost predicate LastPick<T(!new)>(evs: seq<Event>, pick: Event -> Option<T>, value: Option<T>) {
    match value
    case None => forall k :: 0 <= k < |evs| ==> pick(evs[k]).None?
    case Some(v) => exists k :: 0 <= k < |evs| && pick(evs[k]) == Some(v)
                       && forall l :: k < l < |evs| ==> pick(evs[l]).None?
  }

  function StakeOf(e: Event): Option<(nat, nat)> {
    if e.AddedStake? then Some((e.tao, e.alpha)) else None
  }

  function DestroyedOf(e: Event): Option<nat> {
    if e.Burned? || e.Recycled? then Some(e.amount) else None
  }

  function MovedOf(e: Event): Option<nat> {
    if e.TransferredStake? || e.MovedStake? then Some(e.taoValue) else None
  }

  predicate AnyTransfer(evs: seq<Event>) {
    exists k :: 0 <= k < |evs| && evs[k].TransferredTao?
  }

  function TransferTotal(evs: seq<Event>): nat {
    if evs == [] then 0
    else TransferTotal(evs[..|evs| - 1]) + (if evs[|evs| - 1].TransferredTao? then evs[|evs| - 1].rao else 0)
  }

  /** What a summary says about the events it was built from. */
  ghost predicate Summarises(evs: seq<Event>, s: EventSummary) {
    && Undecodable !in evs
    && |s.names| == |evs|
    && (forall k :: 0 <= k < |evs| ==> s.names[k] == NameOf(evs[k]))
    && (s.failed <==> Failure in evs)
    && LastPick(evs, StakeOf, s.stakeAdded)
    && LastPick(evs, DestroyedOf, s.alphaDestroyed)
    && LastPick(evs, MovedOf, s.stakeMovedTao)
    && s.transferred == (if AnyTransfer(evs) then Some(TransferTotal(evs)) else None)
  }

  function Latest<T>(before: Option<T>, found: Option<T>): Option<T> {
    if found.Some? then found else before
  }

  /** One step of `from_events`. */
  function Absorb(s: EventSummary, e: Event): EventSummary
    requires !e.Undecodable?
  {
    s.(names := s.names + [NameOf(e)],
       failed := s.failed || e.Failure?,
       stakeAdded := Latest(s.stakeAdded, StakeOf(e)),
       alphaDestroyed := Latest(s.alphaDestroyed, DestroyedOf(e)),
       stakeMovedTao := Latest(s.stakeMovedTao, MovedOf(e)),
       transferred := if e.TransferredTao? then Some((if s.transferred.Some? then s.transferred.value else 0) + e.rao)
                      else s.transferred)
  }

  const EMPTY_SUMMARY := EventSummary([], false, None, None, None, None)

  function SummaryOf(evs: seq<Event>): Result<EventSummary> {
    if evs == [] then Ok(EMPTY_SUMMARY)
    else
      var s :- SummaryOf(evs[..|evs| - 1]);
      if evs[|evs| - 1].Undecodable? then Err(Chain("cannot decode event")) else Ok(Absorb(s, evs[|evs| - 1]))
  }

  lemma PickExtends<T(!new)>(evs: seq<Event>, e: Event, pick: Event -> Option<T>, v: Option<T>)
    requires LastPick(evs, pick, v)
    ensures LastPick(evs + [e], pick, Latest(v, pick(e)))
  {
    var all := evs + [e];
    assert all[|evs|] == e;
    forall k | 0 <= k < |evs| ensures all[k] == evs[k] {}
    if pick(e).None? && v.Some? {
      var k :| 0 <= k < |evs| && pick(evs[k]) == v && forall l :: k < l < |evs| ==> pick(evs[l]).None?;
      assert pick(all[k]) == v;
    }
  }

  lemma TransferExtends(evs: seq<Event>, e: Event)
    ensures AnyTransfer(evs + [e]) <==> AnyTransfer(evs) || e.TransferredTao?
    ensures TransferTotal(evs + [e]) == TransferTotal(evs) + (if e.TransferredTao? then e.rao else 0)
    ensures !AnyTransfer(evs) ==> TransferTotal(evs) == 0
  {
    var all := evs + [e];
    assert all[..|evs|] == evs && all[|evs|] == e;
    if AnyTransfer(evs) {
      var k :| 0 <= k < |evs| && evs[k].TransferredTao?;
      assert all[k].TransferredTao?;
    } else {
      NoTransfers(evs);
    }
    if AnyTransfer(all) && !e.TransferredTao? {
      var k :| 0 <= k < |all| && all[k].TransferredTao?;
      assert evs[k].TransferredTao?;
    }
  }

  lemma AbsorbSummarises(evs: seq<Event>, s: EventSummary, e: Event)
    requires Summarises(evs, s) && !e.Undecodable?
    ensures Summarises(evs + [e], Absorb(s, e))
  {
    PickExtends(evs, e, StakeOf, s.stakeAdded);
    PickExtends(evs, e, DestroyedOf, s.alphaDestroyed);
    PickExtends(evs, e, MovedOf, s.stakeMovedTao);
    TransferExtends(evs, e);
  }

  lemma {:induction false} NoTransfers(evs: seq<Event>)
    requires forall k :: 0 <= k < |evs| ==> !evs[k].TransferredTao?
    ensures TransferTotal(evs) == 0
  {
    if evs != [] {
      NoTransfers(evs[..|evs| - 1]);
    }
  }

  /** A summary exists exactly when every event decodes, and then says what the events say. */
  lemma {:induction false} SummaryIsFaithful(evs: seq<Event>)
    ensures SummaryOf(evs).Ok? <==> Undecodable !in evs
    ensures SummaryOf(evs).Ok? ==> Summarises(evs, SummaryOf(evs).value)
  {
    if evs == [] {
      assert LastPick(evs, StakeOf, None);
      assert LastPick(evs, DestroyedOf, None);
      assert LastPick(evs, MovedOf, None);
    } else {
      var front, e := evs[..|evs| - 1], evs[|evs| - 1];
      SummaryIsFaithful(front);
      assert evs == front + [e];
      if SummaryOf(front).Ok? && !e.Undecodable? {
        AbsorbSummarises(front, SummaryOf(front).value, e);
      }
    }
  }

  /** `EventSummary::from_events`. */
  method FromEvents(evs: seq<Event>) returns (res: Result<EventSummary>)
    ensures res == SummaryOf(evs)
    ensures res.Ok? ==> Summarises(evs, res.value)
  {
    var s := EMPTY_SUMMARY;
    for i := 0 to |evs|
      invariant SummaryOf(evs[..i]) == Ok(s)
    {
      var ev := evs[i];
      assert evs[..i + 1][..i] == evs[..i] && evs[..i + 1][i] == ev;
      if ev.Undecodable? {
        UndecodableFails(evs, i);
        return Err(Chain("cannot decode event"));
      }
      match ev {
        case Failure => s := s.(failed := true);
        case AddedStake(tao, alpha) => s := s.(stakeAdded := Some((tao, alpha)));
        case Burned(amount) => s := s.(alphaDestroyed := Some(amount));
        case Recycled(amount) => s := s.(alphaDestroyed := Some(amount));
        case TransferredStake(tao) => s := s.(stakeMovedTao := Some(tao));
        case MovedStake(tao) => s := s.(stakeMovedTao := Some(tao));
        case TransferredTao(rao) =>
          s := s.(transferred := Some((if s.transferred.Some? then s.transferred.value else 0) + rao));
        case _ =>
      }
      s := s.(names := s.names + [NameOf(ev)]);
    }
    assert evs[..|evs|] == evs;
    SummaryIsFaithful(evs);
    return Ok(s);
  }

  lemma {:induction false} UndecodableFails(evs: seq<Event>, i: nat)
    requires i < |evs| && evs[i].Undecodable?
    requires SummaryOf(evs[..i]).Ok?
    ensures SummaryOf(evs) == Err(Chain("cannot decode event"))
    decreases |evs| - i
  {
    FirstBadEvent(evs, i, |evs|);
    assert evs[..|evs|] == evs;
  }

  lemma {:induction false} FirstBadEvent(evs: seq<Event>, i: nat, n: nat)
    requires i < n <= |evs| && evs[i].Undecodable?
    requires SummaryOf(evs[..i]).Ok?
    ensures SummaryOf(evs[..n]) == Err(Chain("cannot decode event"))
    decreases n
  {
    assert evs[..n][..n - 1] == evs[..n - 1];
    if n > i + 1 {
      FirstBadEvent(evs, i, n - 1);
    }
  }

  // ---------------------------------------------------------------- the finalized scan

  /** Extrinsic `i` of block `n` carries the hash. */
  predicate At(blocks: seq<Block>, n: nat, i: nat, hash: Hash) {
    n < |blocks| && i < |blocks[n].exts| && blocks[n].exts[i].hash == hash
  }

  predicate InChain(blocks: seq<Block>, hash: Hash) {
    exists n, i | 0 <= n < |blocks| && 0 <= i < |blocks[n].exts| :: At(blocks, n, i, hash)
  }

  /** First position at or after `i` whose extrinsic carries the hash, or the number of extrinsics. */
  function FirstExt(exts: seq<Extrinsic>, hash: Hash, i: nat): (k: nat)
    requires i <= |exts|
    ensures i <= k <= |exts|
    ensures k < |exts| ==> exts[k].hash == hash
    ensures forall m :: i <= m < k ==> exts[m].hash != hash
    decreases |exts| - i
  {
    if i == |exts| || exts[i].hash == hash then i else FirstExt(exts, hash, i + 1)
  }

  /** First (block, extrinsic) carrying the hash in blocks `lo..hi`. */
  function Locate(blocks: seq<Block>, hash: Hash, lo: nat, hi: nat): (loc: Option<(nat, nat)>)
    requires hi <= |blocks|
    ensures loc.Some? ==> lo <= loc.value.0 < hi && At(blocks, loc.value.0, loc.value.1, hash)
    ensures loc.None? ==> forall n: nat, i: nat :: lo <= n < hi ==> !At(blocks, n, i, hash)
    decreases hi - lo
  {
    if lo >= hi then None
    else
      var k := FirstExt(blocks[lo].exts, hash, 0);
      if k < |blocks[lo].exts| then Some((lo, k)) else Locate(blocks, hash, lo + 1, hi)
  }

  function Head(blocks: seq<Block>): nat
    requires blocks != []
  {
    |blocks| - 1
  }

  function Horizon(p: PendingTx): nat {
    p.birthBlock + MORTALITY + 1
  }

  /** Blocks the scan reads: `birth ..= min(head, horizon)`, as an exclusive upper bound. */
  function ScanEnd(blocks: seq<Block>, p: PendingTx): nat
    requires blocks != []
  {
    Min(Head(blocks), Horizon(p)) + 1
  }

  /** Outcome of `find_pending` against a finalized chain. */
  function Lookup(blocks: seq<Block>, p: PendingTx): Result<PendingOutcome>
    requires blocks != []
  {
    if Horizon(p) > U64_MAX then Err(Chain("transaction mortality overflow"))
    else
      match Locate(blocks, p.txHash, p.birthBlock, ScanEnd(blocks, p))
      case Some(at) =>
        var summary :- SummaryOf(blocks[at.0].exts[at.1].events);
        Ok(Included(blocks[at.0].hash, summary))
      case None => Ok(if Head(blocks) > Horizon(p) then Dead else Wait)
  }

  /** `Chain::find_pending`. */
  method FindPending(blocks: seq<Block>, p: PendingTx) returns (res: Result<PendingOutcome>)
    requires blocks != []
    ensures res == Lookup(blocks, p)
  {
    var head := |blocks| - 1;
    if p.birthBlock + MORTALITY > U64_MAX || p.birthBlock + MORTALITY + 1 > U64_MAX {
      return Err(Chain("transaction mortality overflow"));
    }
    var horizon := p.birthBlock + MORTALITY + 1;
    var last := Min(head, horizon);
    var n := p.birthBlock;
    while n <= last
      invariant p.birthBlock <= n
      invariant Locate(blocks, p.txHash, p.birthBlock, ScanEnd(blocks, p)) == Locate(blocks, p.txHash, n, ScanEnd(blocks, p))
    {
      var exts := blocks[n].exts;
      for i := 0 to |exts|
        invariant FirstExt(exts, p.txHash, 0) == FirstExt(exts, p.txHash, i)
      {
        if exts[i].hash == p.txHash {
          var summary := FromEvents(exts[i].events);
          if summary.Err? {
            return Err(summary.error);
          }
          return Ok(Included(blocks[n].hash, summary.value));
        }
      }
      n := n + 1;
    }
    if head > horizon {
      return Ok(Dead);
    }
    return Ok(Wait);
  }

  /** The hash occurs in the window the scan must cover. */
  ghost predicate InWindow(blocks: seq<Block>, p: PendingTx) {
    exists n: nat, i: nat :: p.birthBlock <= n <= Horizon(p) && At(blocks, n, i, p.txHash)
  }

  /** What a lookup that finds the hash answers: the block and summary of an occurrence in the window. */
  ghost predicate Describes(blocks: seq<Block>, p: PendingTx, blockHash: Hash, summary: EventSummary) {
    exists n: nat, i: nat :: p.birthBlock <= n <= Horizon(p) && At(blocks, n, i, p.txHash)
      && blocks[n].hash == blockHash && SummaryOf(blocks[n].exts[i].events) == Ok(summary)
  }

  /** Exactness: the journal is declared dead if and only if the head is past the horizon and no
      block of the window carries the hash; it is found (or its events fail to decode) if and only
      if some block of the window does, and then the answer is that block's; and it waits in
      precisely the remaining cases. */
  lemma LookupIsExact(blocks: seq<Block>, p: PendingTx)
    requires blocks != [] && Horizon(p) <= U64_MAX
    ensures Lookup(blocks, p) == Ok(Dead) <==> Head(blocks) > Horizon(p) && !InWindow(blocks, p)
    ensures Lookup(blocks, p) == Ok(Wait) <==> Head(blocks) <= Horizon(p) && !InWindow(blocks, p)
    ensures (Lookup(blocks, p).Err? || Lookup(blocks, p).value.Included?) <==> InWindow(blocks, p)
    ensures Lookup(blocks, p).Ok? && Lookup(blocks, p).value.Included? ==>
      Describes(blocks, p, Lookup(blocks, p).value.blockHash, Lookup(blocks, p).value.summary)
    ensures Lookup(blocks, p).Err? ==>
      exists n: nat, i: nat :: At(blocks, n, i, p.txHash) && Undecodable in blocks[n].exts[i].events
  {
    var loc := Locate(blocks, p.txHash, p.birthBlock, ScanEnd(blocks, p));
    if InWindow(blocks, p) {
      var n: nat, i: nat :| p.birthBlock <= n <= Horizon(p) && At(blocks, n, i, p.txHash);
      assert n < ScanEnd(blocks, p);
    }
    if loc.Some? {
      assert At(blocks, loc.value.0, loc.value.1, p.txHash);
      SummaryIsFaithful(blocks[loc.value.0].exts[loc.value.1].events);
    }
  }

  /** Finality: a chain only grows. */
  lemma AtExtends(blocks: seq<Block>, more: seq<Block>, n: nat, i: nat, hash: Hash)
    requires n < |blocks|
    ensures At(blocks + more, n, i, hash) <==> At(blocks, n, i, hash)
  {
  }

  lemma {:induction false} LocateExtends(blocks: seq<Block>, more: seq<Block>, hash: Hash, lo: nat, hi: nat, hi': nat)
    requires hi <= |blocks| && hi <= hi' <= |blocks| + |more|
    ensures Locate(blocks, hash, lo, hi).Some? || hi == hi' ==>
      Locate(blocks + more, hash, lo, hi') == Locate(blocks, hash, lo, hi)
    decreases hi - lo
  {
    if lo < hi {
      assert (blocks + more)[lo] == blocks[lo];
      LocateExtends(blocks, more, hash, lo + 1, hi, hi');
    }
  }

  /** Stability: once a scan says dead or included, every later scan of the grown chain agrees. */
  lemma LookupIsStable(blocks: seq<Block>, more: seq<Block>, p: PendingTx)
    requires blocks != []
    requires Lookup(blocks, p).Ok? && !Lookup(blocks, p).value.Wait?
    ensures Lookup(blocks + more, p) == Lookup(blocks, p)
  {
    LocateExtends(blocks, more, p.txHash, p.birthBlock, ScanEnd(blocks, p), ScanEnd(blocks + more, p));
    var loc := Locate(blocks, p.txHash, p.birthBlock, ScanEnd(blocks, p));
    if loc.Some? {
      assert (blocks + more)[loc.value.0] == blocks[loc.value.0];
    }
  }

  /** The mortality assumption: the chain includes the transaction only in `birth..=birth+MORTALITY`. */
  ghost predicate Mortal(blocks: seq<Block>, p: PendingTx) {
    forall n: nat, i: nat :: At(blocks, n, i, p.txHash) ==> p.birthBlock <= n <= p.birthBlock + MORTALITY
  }

  /** A dead verdict is final: under the mortality assumption no extension of the chain ever
      contains the transaction. */
  lemma DeadIsForever(blocks: seq<Block>, more: seq<Block>, p: PendingTx)
    requires blocks != [] && Lookup(blocks, p) == Ok(Dead)
    requires Mortal(blocks + more, p)
    ensures !InChain(blocks + more, p.txHash)
  {
    LookupIsExact(blocks, p);
    forall n: nat, i: nat | At(blocks + more, n, i, p.txHash) ensures false {
      assert n < |blocks|;
      AtExtends(blocks, more, n, i, p.txHash);
    }
  }
}
