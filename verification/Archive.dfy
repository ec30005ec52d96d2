/** The exhaustive archive scan of legacy recovery (`Chain::verify_legacy_archive`, src/chain.rs). */
module Archive {
  import opened Basics
  import opened Keys
  import opened Calls
  import opened State
  import opened ChainScan
  import opened Recovery

  const INCOMPLETE := Error.Chain("incomplete or inconsistent legacy archive evidence")
  const UNEXPLAINED := Error.Chain("unexplained signer activity; multi-job treasury histories are unsupported")

  /** Next nonce expected of each signer, and the summaries so far. */
  datatype ScanState = ScanState(next: map<AccountId, nat>, summaries: seq<EventSummary>)

  /** Nonce of an account in the state of a block; absent accounts have none. */
  function NonceAt(block: Block, who: AccountId): nat {
    if who in block.nonces then block.nonces[who] else 0
  }

  predicate Ours(ext: Extrinsic, treasury: AccountId, deposit: AccountId) {
    ext.address.AccountBytes? && (ext.address.account == treasury || ext.address.account == deposit)
  }

  /** The manifest entry says everything about the extrinsic that the archive says. */
  predicate Explains(t: LegacyTransaction, n: nat, i: nat, block: Block)
    requires i < |block.exts| && block.exts[i].address.AccountBytes?
  {
    var ext := block.exts[i];
    && t.block == n && t.index == i
    && t.signer == Ss58Of(ext.address.account)
    && ext.nonce == Some(t.nonce)
    && t.receipt.txHash == ext.hash && t.receipt.blockHash == block.hash
    && ext.data == Encoded(t.call)
  }

  /** One extrinsic of the scan. */
  function Visit(m: LegacyManifest, treasury: AccountId, deposit: AccountId, n: nat, i: nat, block: Block, st: ScanState): Result<ScanState>
    requires i < |block.exts|
  {
    var ext := block.exts[i];
    if ext.address.Unsigned? then Ok(st)
    else if ext.address.UnknownForm? then Err(INCOMPLETE)
    else if !Ours(ext, treasury, deposit) then Ok(st)
    else if |st.summaries| >= |m.transactions| then Err(UNEXPLAINED)
    else if !Explains(m.transactions[|st.summaries|], n, i, block) then Err(INCOMPLETE)
    else
      var who, nonce := ext.address.account, ext.nonce.value;
      if who !in st.next || st.next[who] != nonce || nonce + 1 > U64_MAX then Err(INCOMPLETE)
      else
        var summary :- SummaryOf(ext.events);
        Ok(ScanState(st.next[who := nonce + 1], st.summaries + [summary]))
  }

  /** The scan of blocks `lo..n` and of the first `i` extrinsics of block `n`. */
  function ScanTo(blocks: seq<Block>, m: LegacyManifest, treasury: AccountId, deposit: AccountId, lo: nat, n: nat, i: nat): Result<ScanState>
    requires 0 < lo <= n <= |blocks| && (if n < |blocks| then i <= |blocks[n].exts| else i == 0)
    decreases n, i
  {
    if i > 0 then
      var st :- ScanTo(blocks, m, treasury, deposit, lo, n, i - 1);
      Visit(m, treasury, deposit, n, i - 1, blocks[n], st)
    else if n == lo then
      Ok(ScanState(map[treasury := NonceAt(blocks[lo - 1], treasury), deposit := NonceAt(blocks[lo - 1], deposit)], []))
    else ScanTo(blocks, m, treasury, deposit, lo, n - 1, |blocks[n - 1].exts|)
  }

  /** The whole interval may be scanned: old signatures have expired and the work is bounded. */
  predicate Covered(m: LegacyManifest, head: nat) {
    var horizon := m.stoppedAt + m.maximumMortality + 1;
    horizon <= U64_MAX && horizon < head && m.firstBlock <= head <= m.firstBlock + 100_000
  }

  /** `verify_legacy_archive`. `anchor` is the node's second answer for the hash of the head. */
  function VerifyArchive(blocks: seq<Block>, genesis: Hash, r: Record, m: LegacyManifest, anchor: Option<Hash>):
    Result<(seq<EventSummary>, nat, Hash)>
    requires blocks != [] && m.firstBlock > 0
  {
    var head := Head(blocks);
    if genesis != m.genesisHash || !Covered(m, head) then Err(INCOMPLETE)
    else
      var treasury :- ParseSs58(m.treasury);
      var deposit :- ParseSs58(r.address);
      var st :- ScanTo(blocks, m, treasury, deposit, m.firstBlock, |blocks|, 0);
      if |st.summaries| != |m.transactions| || anchor != Some(blocks[head].hash) then Err(INCOMPLETE)
      else Ok((st.summaries, head, blocks[head].hash))
  }

  lemma {:induction false} ScanFailsEarly(blocks: seq<Block>, m: LegacyManifest, treasury: AccountId, deposit: AccountId,
                                          lo: nat, n: nat, i: nat, n': nat, i': nat)
    requires 0 < lo <= n <= n' <= |blocks| && (n < n' || i <= i')
    requires if n < |blocks| then i <= |blocks[n].exts| else i == 0
    requires if n' < |blocks| then i' <= |blocks[n'].exts| else i' == 0
    requires ScanTo(blocks, m, treasury, deposit, lo, n, i).Err?
    ensures ScanTo(blocks, m, treasury, deposit, lo, n', i') == ScanTo(blocks, m, treasury, deposit, lo, n, i)
    decreases n', i'
  {
    if n == n' && i == i' {
    } else if i' > 0 {
      ScanFailsEarly(blocks, m, treasury, deposit, lo, n, i, n', i' - 1);
    } else {
      ScanFailsEarly(blocks, m, treasury, deposit, lo, n, i, n' - 1, |blocks[n' - 1].exts|);
    }
  }

  /** `verify_legacy_archive`: block by block, extrinsic by extrinsic. */
  method VerifyLegacyArchive(blocks: seq<Block>, genesis: Hash, r: Record, m: LegacyManifest, anchor: Option<Hash>)
    returns (res: Result<(seq<EventSummary>, nat, Hash)>)
    requires blocks != [] && m.firstBlock > 0
    ensures res == VerifyArchive(blocks, genesis, r, m, anchor)
  {
    if genesis != m.genesisHash {
      return Err(INCOMPLETE);
    }
    var head := |blocks| - 1;
    if m.stoppedAt + m.maximumMortality + 1 > U64_MAX {
      return Err(INCOMPLETE);
    }
    var horizon := m.stoppedAt + m.maximumMortality + 1;
    if head <= horizon || head < m.firstBlock || head - m.firstBlock > 100_000 {
      return Err(INCOMPLETE);
    }
    var treasury :- ParseSs58(m.treasury);
    var deposit :- ParseSs58(r.address);
    var start := blocks[m.firstBlock - 1];
    var next: map<AccountId, nat> := map[treasury := NonceAt(start, treasury)];
    next := next[deposit := NonceAt(start, deposit)];
    var summaries: seq<EventSummary> := [];
    var number := m.firstBlock;
    while number <= head
      invariant m.firstBlock <= number <= |blocks|
      invariant ScanTo(blocks, m, treasury, deposit, m.firstBlock, number, 0) == Ok(ScanState(next, summaries))
    {
      var block := blocks[number];
      for i := 0 to |block.exts|
        invariant ScanTo(blocks, m, treasury, deposit, m.firstBlock, number, i) == Ok(ScanState(next, summaries))
      {
        var step := VisitOne(m, treasury, deposit, number, i, block, next, summaries);
        if step.Err? {
          ScanFailsEarly(blocks, m, treasury, deposit, m.firstBlock, number, i + 1, |blocks|, 0);
          return Err(step.error);
        }
        next, summaries := step.value.next, step.value.summaries;
      }
      number := number + 1;
    }
    if |summaries| != |m.transactions| {
      return Err(INCOMPLETE);
    }
    if anchor != Some(blocks[head].hash) {
      return Err(INCOMPLETE);
    }
    return Ok((summaries, head, blocks[head].hash));
  }

  /** The inner loop body. */
  method VisitOne(m: LegacyManifest, treasury: AccountId, deposit: AccountId, number: nat, i: nat, block: Block,
                  next: map<AccountId, nat>, summaries: seq<EventSummary>) returns (res: Result<ScanState>)
    requires i < |block.exts|
    ensures res == Visit(m, treasury, deposit, number, i, block, ScanState(next, summaries))
  {
    var ext := block.exts[i];
    if ext.address.Unsigned? {
      return Ok(ScanState(next, summaries));
    }
    if ext.address.UnknownForm? {
      return Err(INCOMPLETE);
    }
    var signer := ext.address.account;
    if signer != treasury && signer != deposit {
      return Ok(ScanState(next, summaries));
    }
    if |summaries| >= |m.transactions| {
      return Err(UNEXPLAINED);
    }
    var expected := m.transactions[|summaries|];
    if ext.nonce.None? {
      return Err(INCOMPLETE);
    }
    var nonce := ext.nonce.value;
    if expected.block != number
      || expected.index != i
      || expected.signer != Ss58Of(signer)
      || expected.nonce != nonce
      || signer !in next || next[signer] != nonce
      || expected.receipt.txHash != ext.hash
      || expected.receipt.blockHash != block.hash
      || ext.data != Encoded(expected.call)
    {
      return Err(INCOMPLETE);
    }
    if nonce + 1 > U64_MAX {
      return Err(INCOMPLETE);
    }
    var summary :- FromEvents(ext.events);
    return Ok(ScanState(next[signer := nonce + 1], summaries + [summary]));
  }

  // ---------------------------------------------------------------- completeness of the scan

  /** Positions of the two signers' extrinsics in blocks `lo..n` and the first `i` of block `n`. */
  function Emissions(blocks: seq<Block>, treasury: AccountId, deposit: AccountId, lo: nat, n: nat, i: nat): seq<(nat, nat)>
    requires lo <= n <= |blocks| && (if n < |blocks| then i <= |blocks[n].exts| else i == 0)
    decreases n, i
  {
    if i > 0 then
      Emissions(blocks, treasury, deposit, lo, n, i - 1)
      + (if Ours(blocks[n].exts[i - 1], treasury, deposit) then [(n, i - 1)] else [])
    else if n == lo then []
    else Emissions(blocks, treasury, deposit, lo, n - 1, |blocks[n - 1].exts|)
  }

  predicate Earlier(n: nat, i: nat, n': nat, i': nat) {
    n < n' || (n == n' && i < i')
  }

  predicate IsEmission(blocks: seq<Block>, treasury: AccountId, deposit: AccountId, n: nat, i: nat) {
    n < |blocks| && i < |blocks[n].exts| && Ours(blocks[n].exts[i], treasury, deposit)
  }

  /** The positions are exactly the two signers' extrinsics, in chain order. */
  ghost predicate Lists(blocks: seq<Block>, treasury: AccountId, deposit: AccountId, lo: nat, n: nat, i: nat, es: seq<(nat, nat)>) {
    && (forall k :: 0 <= k < |es| ==>
          lo <= es[k].0 && Earlier(es[k].0, es[k].1, n, i) && IsEmission(blocks, treasury, deposit, es[k].0, es[k].1))
    && (forall k, l :: 0 <= k < l < |es| ==> Earlier(es[k].0, es[k].1, es[l].0, es[l].1))
    && (forall b: nat, x: nat :: lo <= b && Earlier(b, x, n, i) && IsEmission(blocks, treasury, deposit, b, x) ==> (b, x) in es)
  }

  lemma {:induction false} EmissionsAreAll(blocks: seq<Block>, treasury: AccountId, deposit: AccountId, lo: nat, n: nat, i: nat)
    requires lo <= n <= |blocks| && (if n < |blocks| then i <= |blocks[n].exts| else i == 0)
    ensures Lists(blocks, treasury, deposit, lo, n, i, Emissions(blocks, treasury, deposit, lo, n, i))
    decreases n, i
  {
    if i > 0 {
      EmissionsAreAll(blocks, treasury, deposit, lo, n, i - 1);
      ListsExtend(blocks, treasury, deposit, lo, n, i - 1, Emissions(blocks, treasury, deposit, lo, n, i - 1));
    } else if n > lo {
      EmissionsAreAll(blocks, treasury, deposit, lo, n - 1, |blocks[n - 1].exts|);
      ListsNextBlock(blocks, treasury, deposit, lo, n - 1, Emissions(blocks, treasury, deposit, lo, n, 0));
    }
  }

  lemma ListsExtend(blocks: seq<Block>, treasury: AccountId, deposit: AccountId, lo: nat, n: nat, i: nat, es: seq<(nat, nat)>)
    requires lo <= n < |blocks| && i < |blocks[n].exts| && Lists(blocks, treasury, deposit, lo, n, i, es)
    ensures Lists(blocks, treasury, deposit, lo, n, i + 1,
                  es + (if Ours(blocks[n].exts[i], treasury, deposit) then [(n, i)] else []))
  {
  }

  lemma ListsNextBlock(blocks: seq<Block>, treasury: AccountId, deposit: AccountId, lo: nat, n: nat, es: seq<(nat, nat)>)
    requires lo <= n < |blocks| && Lists(blocks, treasury, deposit, lo, n, |blocks[n].exts|, es)
    ensures Lists(blocks, treasury, deposit, lo, n + 1, 0, es)
  {
  }

  function AccountAt(blocks: seq<Block>, e: (nat, nat)): Option<AccountId> {
    if e.0 < |blocks| && e.1 < |blocks[e.0].exts| && blocks[e.0].exts[e.1].address.AccountBytes?
    then Some(blocks[e.0].exts[e.1].address.account) else None
  }

  /** How many of the positions are signed by `who`. */
  function CountBy(blocks: seq<Block>, es: seq<(nat, nat)>, who: AccountId): nat {
    if es == [] then 0
    else CountBy(blocks, es[..|es| - 1], who) + (if AccountAt(blocks, es[|es| - 1]) == Some(who) then 1 else 0)
  }

  /** Every signed extrinsic scanned names its signer in a known form. */
  predicate KnownForms(blocks: seq<Block>, lo: nat, n: nat, i: nat) {
    forall b, x | lo <= b < |blocks| && 0 <= x < |blocks[b].exts| :: Earlier(b, x, n, i) ==> !blocks[b].exts[x].address.UnknownForm?
  }

  /** The `k`-th emission is the `k`-th manifest entry, takes its signer's next nonce in turn, and its
      events decode to the `k`-th summary. */
  predicate Matches(blocks: seq<Block>, m: LegacyManifest, lo: nat, es: seq<(nat, nat)>, ss: seq<EventSummary>, k: nat)
    requires lo > 0 && k < |es| && lo <= |blocks|
  {
    && AccountAt(blocks, es[k]).Some?
    && k < |m.transactions| && k < |ss|
    && Explains(m.transactions[k], es[k].0, es[k].1, blocks[es[k].0])
    && m.transactions[k].nonce == NonceAt(blocks[lo - 1], AccountAt(blocks, es[k]).value) + CountBy(blocks, es[..k], AccountAt(blocks, es[k]).value)
    && m.transactions[k].nonce < U64_MAX
    && SummaryOf(blocks[es[k].0].exts[es[k].1].events) == Ok(ss[k])
  }

  predicate Agrees(blocks: seq<Block>, m: LegacyManifest, treasury: AccountId, deposit: AccountId, lo: nat, n: nat, i: nat,
                   es: seq<(nat, nat)>, ss: seq<EventSummary>)
    requires 0 < lo <= |blocks|
  {
    KnownForms(blocks, lo, n, i) && |ss| == |es| && forall k :: 0 <= k < |es| ==> Matches(blocks, m, lo, es, ss, k)
  }

  predicate Tracks(blocks: seq<Block>, treasury: AccountId, deposit: AccountId, lo: nat, es: seq<(nat, nat)>, st: ScanState)
    requires 0 < lo <= |blocks|
  {
    && st.next.Keys == {treasury, deposit}
    && forall who :: who in st.next ==> st.next[who] == NonceAt(blocks[lo - 1], who) + CountBy(blocks, es, who)
  }

  lemma MatchesExtends(blocks: seq<Block>, m: LegacyManifest, lo: nat, es: seq<(nat, nat)>, ss: seq<EventSummary>,
                       e: (nat, nat), s: EventSummary, k: nat)
    requires 0 < lo <= |blocks| && |ss| == |es| && k < |es|
    ensures Matches(blocks, m, lo, es + [e], ss + [s], k) <==> Matches(blocks, m, lo, es, ss, k)
  {
    assert (es + [e])[..k] == es[..k];
  }

  /** What is needed of one more extrinsic of ours. */
  predicate NextMatches(blocks: seq<Block>, m: LegacyManifest, lo: nat, es: seq<(nat, nat)>, e: (nat, nat), s: EventSummary)
    requires 0 < lo <= |blocks| && AccountAt(blocks, e).Some?
  {
    var who := AccountAt(blocks, e).value;
    && |es| < |m.transactions|
    && Explains(m.transactions[|es|], e.0, e.1, blocks[e.0])
    && m.transactions[|es|].nonce == NonceAt(blocks[lo - 1], who) + CountBy(blocks, es, who)
    && m.transactions[|es|].nonce < U64_MAX
    && SummaryOf(blocks[e.0].exts[e.1].events) == Ok(s)
  }

  lemma AgreesExtends(blocks: seq<Block>, m: LegacyManifest, lo: nat, es: seq<(nat, nat)>, ss: seq<EventSummary>, e: (nat, nat), s: EventSummary)
    requires 0 < lo <= |blocks| && |ss| == |es| && AccountAt(blocks, e).Some?
    ensures (forall k :: 0 <= k < |es| + 1 ==> Matches(blocks, m, lo, es + [e], ss + [s], k)) <==>
      && (forall k :: 0 <= k < |es| ==> Matches(blocks, m, lo, es, ss, k))
      && NextMatches(blocks, m, lo, es, e, s)
  {
    assert (es + [e])[..|es|] == es;
    forall k | 0 <= k < |es| ensures Matches(blocks, m, lo, es + [e], ss + [s], k) <==> Matches(blocks, m, lo, es, ss, k) {
      MatchesExtends(blocks, m, lo, es, ss, e, s, k);
    }
    assert NextMatches(blocks, m, lo, es, e, s) <==> Matches(blocks, m, lo, es + [e], ss + [s], |es|);
    if forall k :: 0 <= k < |es| + 1 ==> Matches(blocks, m, lo, es + [e], ss + [s], k) {
      forall k | 0 <= k < |es| ensures Matches(blocks, m, lo, es, ss, k) {
        assert Matches(blocks, m, lo, es + [e], ss + [s], k);
      }
    }
  }

  /** A visit of one of our extrinsics succeeds exactly when it matches. */
  lemma VisitOurs(blocks: seq<Block>, m: LegacyManifest, treasury: AccountId, deposit: AccountId, lo: nat, n: nat, i: nat,
                  es: seq<(nat, nat)>, st: ScanState)
    requires 0 < lo <= |blocks| && n < |blocks| && i < |blocks[n].exts| && Ours(blocks[n].exts[i], treasury, deposit)
    requires Tracks(blocks, treasury, deposit, lo, es, st) && |st.summaries| == |es|
    ensures var v := Visit(m, treasury, deposit, n, i, blocks[n], st);
      && (v.Ok? <==> SummaryOf(blocks[n].exts[i].events).Ok? && NextMatches(blocks, m, lo, es, (n, i), SummaryOf(blocks[n].exts[i].events).value))
      && (v.Ok? ==> Tracks(blocks, treasury, deposit, lo, es + [(n, i)], v.value)
                    && v.value.summaries == st.summaries + [SummaryOf(blocks[n].exts[i].events).value])
  {
  }

  /** The scan result is right for a position: it holds the summaries of a full agreement, or there is none. */
  ghost predicate Decided(blocks: seq<Block>, m: LegacyManifest, treasury: AccountId, deposit: AccountId, lo: nat, n: nat, i: nat,
                          es: seq<(nat, nat)>, scan: Result<ScanState>)
    requires 0 < lo <= |blocks|
  {
    && (scan.Ok? ==>
          && Agrees(blocks, m, treasury, deposit, lo, n, i, es, scan.value.summaries)
          && Tracks(blocks, treasury, deposit, lo, es, scan.value))
    && (scan.Err? ==> forall ss :: !Agrees(blocks, m, treasury, deposit, lo, n, i, es, ss))
  }

  /** The position matters only through the address forms seen. */
  lemma SameDecision(blocks: seq<Block>, m: LegacyManifest, treasury: AccountId, deposit: AccountId, lo: nat, n: nat, i: nat,
                     n': nat, i': nat, es: seq<(nat, nat)>, scan: Result<ScanState>)
    requires 0 < lo <= |blocks| && (KnownForms(blocks, lo, n, i) <==> KnownForms(blocks, lo, n', i'))
    requires Decided(blocks, m, treasury, deposit, lo, n, i, es, scan)
    ensures Decided(blocks, m, treasury, deposit, lo, n', i', es, scan)
  {
    if scan.Err? {
      forall ss ensures !Agrees(blocks, m, treasury, deposit, lo, n', i', es, ss) {
        assert !Agrees(blocks, m, treasury, deposit, lo, n, i, es, ss);
      }
    }
  }

  lemma FormsExtend(blocks: seq<Block>, lo: nat, n: nat, i: nat)
    requires lo <= n < |blocks| && i < |blocks[n].exts| && !blocks[n].exts[i].address.UnknownForm?
    ensures KnownForms(blocks, lo, n, i + 1) <==> KnownForms(blocks, lo, n, i)
  {
  }

  lemma UnknownDecides(blocks: seq<Block>, m: LegacyManifest, treasury: AccountId, deposit: AccountId, lo: nat, n: nat, i: nat,
                       es: seq<(nat, nat)>, e: Error)
    requires 0 < lo <= n < |blocks| && i < |blocks[n].exts| && blocks[n].exts[i].address.UnknownForm?
    ensures Decided(blocks, m, treasury, deposit, lo, n, i + 1, es, Err(e))
  {
  }

  lemma LastMatches(blocks: seq<Block>, m: LegacyManifest, lo: nat, es: seq<(nat, nat)>, ss: seq<EventSummary>, e: (nat, nat))
    requires 0 < lo <= |blocks| && AccountAt(blocks, e).Some?
    ensures |ss| == |es| + 1 && Matches(blocks, m, lo, es + [e], ss, |es|) ==> NextMatches(blocks, m, lo, es, e, ss[|es|])
  {
  }

  lemma OursDecides(blocks: seq<Block>, m: LegacyManifest, treasury: AccountId, deposit: AccountId, lo: nat, n: nat, i: nat,
                    es: seq<(nat, nat)>, st: ScanState)
    requires 0 < lo <= n < |blocks| && i < |blocks[n].exts| && Ours(blocks[n].exts[i], treasury, deposit)
    requires Decided(blocks, m, treasury, deposit, lo, n, i, es, Ok(st))
    ensures Decided(blocks, m, treasury, deposit, lo, n, i + 1, es + [(n, i)], Visit(m, treasury, deposit, n, i, blocks[n], st))
  {
    var e := (n, i);
    var v := Visit(m, treasury, deposit, n, i, blocks[n], st);
    VisitOurs(blocks, m, treasury, deposit, lo, n, i, es, st);
    FormsExtend(blocks, lo, n, i);
    if v.Ok? {
      AgreesExtends(blocks, m, lo, es, st.summaries, e, SummaryOf(blocks[n].exts[i].events).value);
    } else {
      var all, next := es + [e], i + 1;
      forall ss ensures !Agrees(blocks, m, treasury, deposit, lo, n, next, all, ss) {
        LastMatches(blocks, m, lo, es, ss, e);
      }
    }
  }

  lemma ErrorDecides(blocks: seq<Block>, m: LegacyManifest, treasury: AccountId, deposit: AccountId, lo: nat, n: nat, i: nat,
                     es: seq<(nat, nat)>, e: Error)
    requires 0 < lo <= n < |blocks| && i < |blocks[n].exts|
    requires Decided(blocks, m, treasury, deposit, lo, n, i, es, Err(e))
    ensures Decided(blocks, m, treasury, deposit, lo, n, i + 1, es + (if Ours(blocks[n].exts[i], treasury, deposit) then [(n, i)] else []), Err(e))
  {
    var es' := es + (if Ours(blocks[n].exts[i], treasury, deposit) then [(n, i)] else []);
    var next := i + 1;
    forall ss ensures !Agrees(blocks, m, treasury, deposit, lo, n, next, es', ss) {
      if Agrees(blocks, m, treasury, deposit, lo, n, i + 1, es', ss) {
        PrefixAgrees(blocks, m, treasury, deposit, lo, n, i, es, es', ss);
      }
    }
  }

  lemma PrefixAgrees(blocks: seq<Block>, m: LegacyManifest, treasury: AccountId, deposit: AccountId, lo: nat, n: nat, i: nat,
                     es: seq<(nat, nat)>, es': seq<(nat, nat)>, ss: seq<EventSummary>)
    requires 0 < lo <= n < |blocks| && es <= es' && Agrees(blocks, m, treasury, deposit, lo, n, i + 1, es', ss)
    ensures Agrees(blocks, m, treasury, deposit, lo, n, i, es, ss[..|es|])
  {
    forall k | 0 <= k < |es| ensures Matches(blocks, m, lo, es, ss[..|es|], k) {
      assert Matches(blocks, m, lo, es', ss, k);
      assert es'[..k] == es[..k];
    }
    assert KnownForms(blocks, lo, n, i) by {
      assert KnownForms(blocks, lo, n, i + 1);
    }
  }

  lemma {:induction false} ScanDecides(blocks: seq<Block>, m: LegacyManifest, treasury: AccountId, deposit: AccountId, lo: nat, n: nat, i: nat)
    requires 0 < lo <= n <= |blocks| && (if n < |blocks| then i <= |blocks[n].exts| else i == 0)
    ensures Decided(blocks, m, treasury, deposit, lo, n, i, Emissions(blocks, treasury, deposit, lo, n, i), ScanTo(blocks, m, treasury, deposit, lo, n, i))
    decreases n, i
  {
    if i > 0 {
      ScanDecides(blocks, m, treasury, deposit, lo, n, i - 1);
      var es, scan := Emissions(blocks, treasury, deposit, lo, n, i - 1), ScanTo(blocks, m, treasury, deposit, lo, n, i - 1);
      if scan.Err? {
        ErrorDecides(blocks, m, treasury, deposit, lo, n, i - 1, es, scan.error);
      } else if blocks[n].exts[i - 1].address.UnknownForm? {
        UnknownDecides(blocks, m, treasury, deposit, lo, n, i - 1, es, INCOMPLETE);
      } else if Ours(blocks[n].exts[i - 1], treasury, deposit) {
        OursDecides(blocks, m, treasury, deposit, lo, n, i - 1, es, scan.value);
      } else {
        assert es + [] == es;
        FormsExtend(blocks, lo, n, i - 1);
        SameDecision(blocks, m, treasury, deposit, lo, n, i - 1, n, i, es, scan);
      }
    } else if n > lo {
      ScanDecides(blocks, m, treasury, deposit, lo, n - 1, |blocks[n - 1].exts|);
      assert KnownForms(blocks, lo, n, 0) <==> KnownForms(blocks, lo, n - 1, |blocks[n - 1].exts|);
      SameDecision(blocks, m, treasury, deposit, lo, n - 1, |blocks[n - 1].exts|, n, 0,
                   Emissions(blocks, treasury, deposit, lo, n, 0), ScanTo(blocks, m, treasury, deposit, lo, n, 0));
    }
  }

  /** Archive completeness, both ways: the scan accepts with given summaries if and only if the
      genesis, the interval and the anchor fit, every signed extrinsic of the interval names its
      signer in a known form, and the manifest lists exactly the two signers' extrinsics of
      `first_block..=head` in chain order, each described to the last field, with each signer's
      nonces running consecutively from its nonce just before the interval. */
  lemma ArchiveIsComplete(blocks: seq<Block>, genesis: Hash, r: Record, m: LegacyManifest, anchor: Option<Hash>, ss: seq<EventSummary>)
    requires blocks != [] && m.firstBlock > 0 && m.treasury.Ss58? && r.address.Ss58?
    ensures var treasury, deposit, head := m.treasury.account, r.address.account, Head(blocks);
      VerifyArchive(blocks, genesis, r, m, anchor) == Ok((ss, head, blocks[head].hash)) <==>
        && genesis == m.genesisHash && anchor == Some(blocks[head].hash)
        && m.stoppedAt + m.maximumMortality + 1 <= U64_MAX && head > m.stoppedAt + m.maximumMortality + 1
        && head >= m.firstBlock && head - m.firstBlock <= 100_000
        && var es := Emissions(blocks, treasury, deposit, m.firstBlock, |blocks|, 0);
           && Lists(blocks, treasury, deposit, m.firstBlock, |blocks|, 0, es)
           && |m.transactions| == |es|
           && Agrees(blocks, m, treasury, deposit, m.firstBlock, |blocks|, 0, es, ss)
  {
    var treasury, deposit, head := m.treasury.account, r.address.account, Head(blocks);
    if Covered(m, head) {
      EmissionsAreAll(blocks, treasury, deposit, m.firstBlock, |blocks|, 0);
      ScanDecides(blocks, m, treasury, deposit, m.firstBlock, |blocks|, 0);
      var es := Emissions(blocks, treasury, deposit, m.firstBlock, |blocks|, 0);
      var scan := ScanTo(blocks, m, treasury, deposit, m.firstBlock, |blocks|, 0);
      if scan.Ok? && Agrees(blocks, m, treasury, deposit, m.firstBlock, |blocks|, 0, es, ss) {
        SummariesUnique(blocks, m, m.firstBlock, es, ss, scan.value.summaries);
      }
    }
  }

  lemma SummariesUnique(blocks: seq<Block>, m: LegacyManifest, lo: nat, es: seq<(nat, nat)>, ss: seq<EventSummary>, ss': seq<EventSummary>)
    requires 0 < lo <= |blocks| && |ss| == |es| == |ss'|
    requires forall k :: 0 <= k < |es| ==> Matches(blocks, m, lo, es, ss, k)
    requires forall k :: 0 <= k < |es| ==> Matches(blocks, m, lo, es, ss', k)
    ensures ss == ss'
  {
    forall k | 0 <= k < |es| ensures ss[k] == ss'[k] {
      assert Matches(blocks, m, lo, es, ss, k) && Matches(blocks, m, lo, es, ss', k);
    }
  }

  // ---------------------------------------------------------------- nothing comes later

  /** The operator's statement about old signatures: each was made by the stop and could be included
      only for `maximum_mortality` blocks after it was made. */
  ghost predicate OldSignaturesExpire(blocks: seq<Block>, m: LegacyManifest, emitted: set<Hash>) {
    forall n: nat, i: nat :: n < |blocks| && i < |blocks[n].exts| && blocks[n].exts[i].hash in emitted ==>
      m.firstBlock <= n <= m.stoppedAt + m.maximumMortality
  }

  /** An accepted archive is final: however the chain grows, whatever the old emitters signed for
      either signer is in the manifest already. */
  lemma NothingComesLater(blocks: seq<Block>, more: seq<Block>, genesis: Hash, r: Record, m: LegacyManifest, anchor: Option<Hash>,
                          emitted: set<Hash>, n: nat, i: nat)
    requires blocks != [] && m.firstBlock > 0 && VerifyArchive(blocks, genesis, r, m, anchor).Ok?
    requires m.treasury.Ss58? && r.address.Ss58? && OldSignaturesExpire(blocks + more, m, emitted)
    requires IsEmission(blocks + more, m.treasury.account, r.address.account, n, i) && (blocks + more)[n].exts[i].hash in emitted
    ensures exists k :: 0 <= k < |m.transactions| && m.transactions[k].block == n && m.transactions[k].index == i
                        && m.transactions[k].receipt.txHash == (blocks + more)[n].exts[i].hash
  {
    var (ss, head, hash) := VerifyArchive(blocks, genesis, r, m, anchor).value;
    ArchiveIsComplete(blocks, genesis, r, m, anchor, ss);
    var treasury, deposit := m.treasury.account, r.address.account;
    var es := Emissions(blocks, treasury, deposit, m.firstBlock, |blocks|, 0);
    assert n < |blocks| && (blocks + more)[n] == blocks[n];
    assert Earlier(n, i, |blocks|, 0) && IsEmission(blocks, treasury, deposit, n, i);
    var k :| 0 <= k < |es| && es[k] == (n, i);
    assert Matches(blocks, m, m.firstBlock, es, ss, k);
  }
}
