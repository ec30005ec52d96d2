/** The calls of `EngineCalls`, run without interference, are runs of the protocol: what is proved of
    every run holds of them too. First the pieces of a step, then `StepCall` as a whole and the two
    operator calls. */
module CallsAreRuns {
  import opened Basics
  import opened Keys
  import opened Calls
  import opened State
  import opened ChainScan
  import opened Store
  import opened Engine
  import opened EngineCalls
  import opened Accounting
  import opened Protocol
  import opened ProtocolSteps
  import opened Safety

  lemma RunSnoc(s: System, ls: seq<Label>, l: Label)
    ensures Run(s, ls + [l]) == Exec(Run(s, ls), l)
  {
  }

  lemma RunOne(s: System, l: Label)
    ensures Run(s, [l]) == Exec(s, l)
  {
  }

  /** Worker `w` holds the record and has just decided to send. */
  predicate AboutToSend(s: System, w: nat, q: Reads, d: Decision) {
    && w < |s.workers| && s.workers[w].Holding?
    && d == Decide(s.workers[w].cfg, s.workers[w].r, q) && d.Send? && d.rec.pending.None?
  }

  // ---------------------------------------------------------------- the sending steps one by one

  lemma StepReserves(s: System, w: nat, q: Reads, d: Decision, token: Token)
    requires AboutToSend(s, w, q, d)
    ensures var t := Exec(s, Step(w, q, token)); var (res, db) := Reserve(s.db, d.signer, d.rec.id, Some(d.rec.version), token);
      && t == With(s.(db := db), w, if res.Ok? then Reserved(s.workers[w].cfg, s.workers[w].r, d.rec, d.action, d.call, d.signer, token) else Idle)
  {
    hide Decide, Reserve;
  }

  lemma StepPrepares(s: System, w: nat, nonce: nat, hash: Hash, birth: nat)
    requires w < |s.workers| && s.workers[w].Reserved? && hash !in s.signed && !InChain(s.blocks, hash)
    ensures var t := Exec(s, Prepare(w, nonce, hash, birth)); var wk := s.workers[w];
      var tx := PreparedTx(wk.call, wk.signer, nonce, hash, birth);
      && t.db == s.db && t.blocks == s.blocks && |t.workers| == |s.workers|
      && t.workers[w] == Prepared(wk.cfg, wk.base, wk.r, wk.action, wk.call, wk.signer, wk.token, tx)
      && t.signed == s.signed[hash := tx] && t.sent == s.sent
  {
  }

  lemma StepJournals(s: System, w: nat)
    requires w < |s.workers| && s.workers[w].Prepared?
    ensures var t := Exec(s, Journal(w)); var wk := s.workers[w];
      var (res, db) := Update(s.db, wk.r.(pending := Some(JournalEntry(wk.action, wk.token, wk.tx, wk.call))));
      && t.db == db && t.blocks == s.blocks && |t.workers| == |s.workers| && t.signed == s.signed && t.sent == s.sent
      && (res.Ok? ==> t.workers[w] == Journaled(wk.cfg, res.value, wk.tx))
      && (res.Err? ==> t.workers[w].Idle? || t.workers[w].Failing?)
  {
    hide Update;
  }

  lemma StepBroadcasts(s: System, w: nat)
    requires w < |s.workers|
    ensures var t := Exec(s, Broadcast(w)); var wk := s.workers[w];
      && t.db == s.db && t.blocks == s.blocks && |t.workers| == |s.workers|
      && t.signed == s.signed
      && (wk.Journaled? ==> t.workers[w] == Waiting(wk.cfg, wk.r, wk.tx) && t.sent == s.sent + {wk.tx.txHash})
  {
  }

  /** The four steps up to the broadcast. */
  function SendLabels(w: nat, q: Reads, token: Token, nonce: nat, hash: Hash, birth: nat): seq<Label> {
    [Step(w, q, token)] + [Prepare(w, nonce, hash, birth)] + [Journal(w)] + [Broadcast(w)]
  }

  /** After a failed reservation the worker is idle and the other labels do nothing. */
  lemma IdleDoesNothing(s: System, w: nat, nonce: nat, hash: Hash, birth: nat)
    requires w < |s.workers| && s.workers[w].Idle?
    ensures Exec(s, Prepare(w, nonce, hash, birth)) == s && Exec(s, Journal(w)) == s && Exec(s, Broadcast(w)) == s
  {
  }

  /** State after the four steps: the tables are those of `send_journaled` whose reply is lost; if
      the journal was stored the worker waits for the reply with the journaled record. */
  lemma SendRunsTo(s: System, w: nat, q: Reads, d: Decision, token: Token, nonce: nat, hash: Hash, birth: nat,
                   find: Result<PendingOutcome>, lost: Error)
    requires AboutToSend(s, w, q, d) && hash !in s.signed && !InChain(s.blocks, hash)
    ensures var t := Run(s, SendLabels(w, q, token, nonce, hash, birth));
      var tx := PreparedTx(d.call, d.signer, nonce, hash, birth);
      var sent := SendJournaled(s.db, d.rec, d.action, d.call, d.signer, token, Rpc(Ok(tx), Err(lost), find));
      && t.db == sent.2 && t.blocks == s.blocks && |t.workers| == |s.workers|
      && (sent.1.pending.Some? ==>
            && t.workers[w] == Waiting(s.workers[w].cfg, sent.1, tx)
            && t.signed == s.signed[hash := tx] && t.sent == s.sent + {hash})
  {
    hide Decide, Reserve, Update, InChain;
    var a := Step(w, q, token);
    var b := Prepare(w, nonce, hash, birth);
    RunOne(s, a);
    RunSnoc(s, [a], b);
    RunSnoc(s, [a] + [b], Journal(w));
    RunSnoc(s, [a] + [b] + [Journal(w)], Broadcast(w));
    StepReserves(s, w, q, d, token);
    var s1 := Exec(s, a);
    if s1.workers[w].Idle? {
      IdleDoesNothing(s1, w, nonce, hash, birth);
    } else {
      StepPrepares(s1, w, nonce, hash, birth);
      var s2 := Exec(s1, b);
      StepJournals(s2, w);
      StepBroadcasts(Exec(s2, Journal(w)), w);
    }
  }

  /** A send whose reply is lost is the run of its four steps. */
  lemma LostSendIsRun(s: System, w: nat, q: Reads, d: Decision, token: Token, nonce: nat, hash: Hash, birth: nat,
                      find: Result<PendingOutcome>, lost: Error)
    requires AboutToSend(s, w, q, d) && hash !in s.signed && !InChain(s.blocks, hash)
    ensures var tx := PreparedTx(d.call, d.signer, nonce, hash, birth);
      Run(s, SendLabels(w, q, token, nonce, hash, birth)).db
      == SendJournaled(s.db, d.rec, d.action, d.call, d.signer, token, Rpc(Ok(tx), Err(lost), find)).2
  {
    hide AboutToSend, SendJournaled, SendLabels, InChain;
    SendRunsTo(s, w, q, d, token, nonce, hash, birth, find, lost);
  }

  lemma StepReplies(s: System, w: nat, n: nat, i: nat)
    requires w < |s.workers| && s.workers[w].Waiting? && At(s.blocks, n, i, s.workers[w].tx.txHash)
    ensures var wk := s.workers[w];
      Exec(s, Reply(w, n, i)).db == Deliver(s.db, wk.r, BroadcastReply(wk.tx, s.blocks[n].hash, s.blocks[n].exts[i].events)).2
  {
    hide Update, ApplyTx, BroadcastReply;
  }

  /** A send whose transaction is finalized in the next block and answered is the run of six steps. */
  lemma AnsweredSendIsRun(s: System, w: nat, q: Reads, d: Decision, token: Token, nonce: nat, hash: Hash, birth: nat,
                          block: Block, i: nat, find: Result<PendingOutcome>)
    requires AboutToSend(s, w, q, d) && hash !in s.signed && !InChain(s.blocks, hash)
    requires Admissible(Run(s, SendLabels(w, q, token, nonce, hash, birth)), block)
    requires i < |block.exts| && block.exts[i].hash == hash
    requires SendJournaled(s.db, d.rec, d.action, d.call, d.signer, token,
                           Rpc(Ok(PreparedTx(d.call, d.signer, nonce, hash, birth)), Err(Chain("lost")), find)).1.pending.Some?
    ensures var tx := PreparedTx(d.call, d.signer, nonce, hash, birth);
      var reply := BroadcastReply(tx, block.hash, block.exts[i].events);
      Run(s, SendLabels(w, q, token, nonce, hash, birth) + [Finalize(block)] + [Reply(w, |s.blocks|, i)]).db
      == SendJournaled(s.db, d.rec, d.action, d.call, d.signer, token, Rpc(Ok(tx), reply, find)).2
  {
    hide Decide, Reserve, Update, InChain, ApplyTx, BroadcastReply, SendLabels, Admissible, Deliver;
    var ls := SendLabels(w, q, token, nonce, hash, birth);
    var tx := PreparedTx(d.call, d.signer, nonce, hash, birth);
    var t := Run(s, ls);
    SendRunsTo(s, w, q, d, token, nonce, hash, birth, find, Chain("lost"));
    RunSnoc(s, ls, Finalize(block));
    RunSnoc(s, ls + [Finalize(block)], Reply(w, |s.blocks|, i));
    var u := Exec(t, Finalize(block));
    assert u == t.(blocks := t.blocks + [block]);
    assert u.blocks[|s.blocks|] == block;
    StepReplies(u, w, |s.blocks|, i);
    DeliverAfterLoss(s.db, d.rec, d.action, d.call, d.signer, token, tx, BroadcastReply(tx, block.hash, block.exts[i].events), find);
  }

  /** The reply is all that separates an answered send from a lost one. */
  lemma DeliverAfterLoss(db: Db, rec: Record, action: Action, call: ChainCall, signer: Address, token: Token,
                         tx: PreparedTx, reply: Result<FinalizedTx>, find: Result<PendingOutcome>)
    requires rec.pending.None?
    requires SendJournaled(db, rec, action, call, signer, token, Rpc(Ok(tx), Err(Chain("lost")), find)).1.pending.Some?
    ensures var lost := SendJournaled(db, rec, action, call, signer, token, Rpc(Ok(tx), Err(Chain("lost")), find));
      SendJournaled(db, rec, action, call, signer, token, Rpc(Ok(tx), reply, find)).2 == Deliver(lost.2, lost.1, reply).2
  {
    hide Reserve, CancelPreparation, JournalPrepared;
    var db1 := Reserve(db, signer, rec.id, Some(rec.version), token).1;
    JournalThenReply(db1, rec, action, call, token, tx, reply, Rpc(Ok(tx), Err(Chain("lost")), find), Rpc(Ok(tx), reply, find));
  }

  lemma JournalThenReply(db: Db, rec: Record, action: Action, call: ChainCall, token: Token, tx: PreparedTx,
                         reply: Result<FinalizedTx>, losing: Rpc, replying: Rpc)
    requires rec.pending.None? && losing.broadcast == Err(Chain("lost")) && replying.broadcast == reply
    ensures var lost := JournalPrepared(db, rec, action, call, token, tx, losing);
      lost.1.pending.Some? ==>
        JournalPrepared(db, rec, action, call, token, tx, replying).2 == Deliver(lost.2, lost.1, reply).2
  {
    hide Update, Deliver;
  }

  /** A failed preparation is the run of two steps. */
  lemma FailedPreparationIsRun(s: System, w: nat, q: Reads, d: Decision, token: Token, err: Error,
                               broadcast: Result<FinalizedTx>, find: Result<PendingOutcome>)
    requires AboutToSend(s, w, q, d)
    ensures Run(s, [Step(w, q, token)] + [PrepareFails(w, err)]).db
      == SendJournaled(s.db, d.rec, d.action, d.call, d.signer, token, Rpc(Err(err), broadcast, find)).2
  {
    hide Decide, Reserve, Update, CancelPreparation;
    RunOne(s, Step(w, q, token));
    RunSnoc(s, [Step(w, q, token)], PrepareFails(w, err));
    StepReserves(s, w, q, d, token);
  }

  // ---------------------------------------------------------------- reconciling and plain writes

  /** Resolving a journal against a finalized prefix is the run of the scan and the write. */
  lemma ReconcileIsRun(s: System, w: nat, seen: nat, now: nat, prepare: Result<PreparedTx>, broadcast: Result<FinalizedTx>)
    requires w < |s.workers| && s.workers[w].Holding? && MayScan(s.workers[w]) && 0 < seen <= |s.blocks|
    ensures var wk := s.workers[w]; var p := wk.r.pending.value;
      Run(s, [Scan(w, seen)] + [StoreOutcome(w, now)]).db
      == ReconcileJournaled(s.db, wk.r, p, wk.cfg.maxAttempts, now, Rpc(prepare, broadcast, Lookup(s.blocks[..seen], p))).2
  {
    hide Update, Lookup, Resolved, Exec;
    RunOne(s, Scan(w, seen));
    RunSnoc(s, [Scan(w, seen)], StoreOutcome(w, now));
    StepScans(s, w, seen);
    if Exec(s, Scan(w, seen)).workers[w].Scanned? {
      StepStores(Exec(s, Scan(w, seen)), w, now);
    } else {
      IdleStoresNothing(Exec(s, Scan(w, seen)), w, now);
    }
  }

  lemma StepScans(s: System, w: nat, seen: nat)
    requires w < |s.workers| && s.workers[w].Holding? && MayScan(s.workers[w]) && 0 < seen <= |s.blocks|
    ensures var wk := s.workers[w]; var verdict := Lookup(s.blocks[..seen], wk.r.pending.value); var t := Exec(s, Scan(w, seen));
      t == With(s, w, if verdict.Err? || verdict.value.Wait? then Idle else Scanned(wk.cfg, wk.r, wk.r.pending.value, verdict.value))
  {
    hide Lookup;
  }

  lemma StepStores(s: System, w: nat, now: nat)
    requires w < |s.workers| && s.workers[w].Scanned?
    ensures var wk := s.workers[w];
      Exec(s, StoreOutcome(w, now)).db == Update(s.db, Resolved(wk.r, wk.p, wk.outcome, wk.cfg.maxAttempts, now)).1
  {
    hide Update, Resolved;
  }

  lemma IdleStoresNothing(s: System, w: nat, now: nat)
    requires w < |s.workers| && s.workers[w].Idle?
    ensures Exec(s, StoreOutcome(w, now)) == s
  {
  }

  /** A step that only writes is one step of the protocol. */
  lemma WriteIsRun(s: System, w: nat, q: Reads, token: Token, rpc: Rpc)
    requires w < |s.workers| && s.workers[w].Holding?
    requires var d := Decide(s.workers[w].cfg, s.workers[w].r, q); !d.Send? && !d.Resolve?
    ensures Run(s, [Step(w, q, token)]).db == Carry(s.db, Decide(s.workers[w].cfg, s.workers[w].r, q), token, rpc).1
  {
    hide Decide, Update;
    RunOne(s, Step(w, q, token));
  }

  // ---------------------------------------------------------------- a whole step

  lemma {:induction false} RunConcat(s: System, ls: seq<Label>, more: seq<Label>)
    ensures Run(s, ls + more) == Run(Run(s, ls), more)
  {
    hide Exec;
    if more == [] {
      assert ls + more == ls;
    } else {
      var n := |more| - 1;
      RunConcat(s, ls, more[..n]);
      assert (ls + more)[..|ls + more| - 1] == ls + more[..n];
    }
  }

  /** Answers the node can give to a send: signed bytes are fresh, and an inline reply comes from a
      block the chain may finalize next. Preparing or broadcasting may fail in any way. */
  ghost predicate SendAnswers(s: System, call: ChainCall, signer: Address, rpc: Rpc, block: Block, i: nat) {
    rpc.prepare.Ok? && rpc.prepare.value.signer == signer ==>
      var tx := rpc.prepare.value;
      && tx.call == call && tx.txHash !in s.signed && !InChain(s.blocks, tx.txHash)
      && (rpc.broadcast.Ok? ==>
            && i < |block.exts| && block.exts[i].hash == tx.txHash
            && Admissible(s.(signed := s.signed[tx.txHash := tx], sent := s.sent + {tx.txHash}), block)
            && rpc.broadcast == BroadcastReply(tx, block.hash, block.exts[i].events))
  }

  /** A position `step_swept` skips. */
  predicate Skips(cfg: EngineConfig, r: Record, d: Decision) {
    r.state == Swept && cfg.consolidate && r.consolidated < |r.positions| && d.Save?
  }

  /** The decision a step ends with, after the skips it stores on the way. */
  function EndDecision(cfg: EngineConfig, r: Record, q: Reads): Decision
    decreases |r.positions| - r.consolidated
  {
    var d := Decide(cfg, r, q);
    if Skips(cfg, r, d) then EndDecision(cfg, d.rec.(version := d.rec.version + 1), q) else d
  }

  /** Answers the node can give to a step: a lookup sees some finalized prefix. */
  ghost predicate StepAnswers(s: System, cfg: EngineConfig, r: Record, q: Reads, rpc: Rpc, seen: nat, block: Block, i: nat) {
    && (r.pending.Some? ==>
          rpc.find.Err? || (0 < seen <= |s.blocks| && rpc.find == Lookup(s.blocks[..seen], r.pending.value)))
    && (EndDecision(cfg, r, q).Send? ==>
          SendAnswers(s, EndDecision(cfg, r, q).call, EndDecision(cfg, r, q).signer, rpc, block, i))
  }

  lemma AdmissibleSame(s: System, t: System, block: Block)
    requires Admissible(s, block) && t.blocks == s.blocks && t.signed == s.signed && t.sent == s.sent
    ensures Admissible(t, block)
  {
  }

  /** Without a stored journal no reply matters. */
  lemma NoJournalNoReply(db: Db, d: Decision, token: Token, tx: PreparedTx, rpc: Rpc)
    requires d.Send? && d.rec.pending.None? && rpc.prepare == Ok(tx)
    requires SendJournaled(db, d.rec, d.action, d.call, d.signer, token, Rpc(Ok(tx), Err(Chain("lost")), rpc.find)).1.pending.None?
    ensures SendJournaled(db, d.rec, d.action, d.call, d.signer, token, rpc).2
         == SendJournaled(db, d.rec, d.action, d.call, d.signer, token, Rpc(Ok(tx), Err(Chain("lost")), rpc.find)).2
  {
    hide Reserve, Update, ApplyTx;
  }

  lemma MismatchCancels(db: Db, d: Decision, token: Token, rpc: Rpc)
    requires d.Send? && !(rpc.prepare.Ok? && rpc.prepare.value.signer == d.signer)
    ensures SendJournaled(db, d.rec, d.action, d.call, d.signer, token, rpc).2
         == SendJournaled(db, d.rec, d.action, d.call, d.signer, token, Rpc(Err(Chain("lost")), rpc.broadcast, rpc.find)).2
  {
    hide Reserve, CancelPreparation, JournalPrepared;
  }

  /** Every send, whatever the node answers, is a run. */
  lemma SendCallIsRun(s: System, w: nat, q: Reads, d: Decision, token: Token, rpc: Rpc, block: Block, i: nat) returns (ls: seq<Label>)
    requires AboutToSend(s, w, q, d) && SendAnswers(s, d.call, d.signer, rpc, block, i)
    ensures Run(s, ls).db == SendJournaled(s.db, d.rec, d.action, d.call, d.signer, token, rpc).2
  {
    hide Run, SendJournaled, Decide, BroadcastReply, Admissible, SendLabels;
    if rpc.prepare.Ok? && rpc.prepare.value.signer == d.signer {
      var tx := rpc.prepare.value;
      var lost := Rpc(Ok(tx), Err(Chain("lost")), rpc.find);
      var labels := SendLabels(w, q, token, tx.nonce, tx.txHash, tx.birthBlock);
      SendRunsTo(s, w, q, d, token, tx.nonce, tx.txHash, tx.birthBlock, rpc.find, Chain("lost"));
      if SendJournaled(s.db, d.rec, d.action, d.call, d.signer, token, lost).1.pending.None? {
        NoJournalNoReply(s.db, d, token, tx, rpc);
        ls := labels;
      } else if rpc.broadcast.Err? {
        LostSendIsRun(s, w, q, d, token, tx.nonce, tx.txHash, tx.birthBlock, rpc.find, rpc.broadcast.error);
        assert rpc == Rpc(Ok(tx), Err(rpc.broadcast.error), rpc.find);
        ls := labels;
      } else {
        AdmissibleSame(s.(signed := s.signed[tx.txHash := tx], sent := s.sent + {tx.txHash}), Run(s, labels), block);
        AnsweredSendIsRun(s, w, q, d, token, tx.nonce, tx.txHash, tx.birthBlock, block, i, rpc.find);
        assert rpc == Rpc(Ok(tx), BroadcastReply(tx, block.hash, block.exts[i].events), rpc.find);
        ls := labels + [Finalize(block)] + [Reply(w, |s.blocks|, i)];
      }
    } else {
      MismatchCancels(s.db, d, token, rpc);
      FailedPreparationIsRun(s, w, q, d, token, Chain("lost"), rpc.broadcast, rpc.find);
      ls := [Step(w, q, token)] + [PrepareFails(w, Chain("lost"))];
    }
  }

  /** One decision carried out is a run. */
  lemma CarryIsRun(s: System, w: nat, q: Reads, token: Token, rpc: Rpc, block: Block, i: nat) returns (ls: seq<Label>)
    requires w < |s.workers| && s.workers[w].Holding?
    requires var d := Decide(s.workers[w].cfg, s.workers[w].r, q);
      !d.Resolve? && (d.Send? ==> SendAnswers(s, d.call, d.signer, rpc, block, i))
    ensures Run(s, ls).db == Carry(s.db, Decide(s.workers[w].cfg, s.workers[w].r, q), token, rpc).1
  {
    hide Decide, Run, SendJournaled, SendAnswers, Update;
    var wk := s.workers[w];
    var d := Decide(wk.cfg, wk.r, q);
    if d.Send? {
      DecidedSendIsOk(wk.cfg, wk.r, q);
      ls := SendCallIsRun(s, w, q, d, token, rpc, block, i);
    } else {
      WriteIsRun(s, w, q, token, rpc);
      ls := [Step(w, q, token)];
    }
  }

  /** A step stored a record and goes on with it. */
  lemma StepGoesOn(s: System, w: nat, q: Reads, token: Token)
    requires w < |s.workers| && s.workers[w].Holding?
    requires var d := Decide(s.workers[w].cfg, s.workers[w].r, q); d.Save? && d.goOn && Update(s.db, d.rec).0.Ok?
    ensures var wk := s.workers[w]; var (res, db) := Update(s.db, Decide(wk.cfg, wk.r, q).rec);
      Exec(s, Step(w, q, token)) == With(s.(db := db), w, Holding(wk.cfg, res.value))
  {
    hide Decide, Update;
  }

  /** A record `step` works on: the engine's own, nothing outstanding, policy complete. */
  predicate Workable(cfg: EngineConfig, r: Record) {
    && r.identity == Some(Identity(cfg)) && r.quarantined.None? && r.pending.None?
    && r.autoRequired.Some? && (r.autoRequired == Some(true) ==> r.budget.Some?)
  }

  lemma SkipShape(cfg: EngineConfig, r: Record, q: Reads)
    requires Workable(cfg, r) && r.state == Swept
    ensures Decide(cfg, r, q) == DecideSwept(cfg, r, q)
    ensures Skips(cfg, r, Decide(cfg, r, q)) ==>
      Decide(cfg, r, q) == Save(r.(consolidated := r.consolidated + 1), true)
  {
    hide DecideBuyback;
  }

  lemma BuybackGoesOn(cfg: EngineConfig, r: Record, q: Reads)
    ensures var d := DecideBuyback(cfg, r, q);
      d.Save? && d.goOn ==> Workable(cfg, d.rec) == Workable(cfg, r) && d.rec.state == Settled
  {
  }

  /** Only settling goes on once nothing is left to skip, and a settled job is announced next. */
  lemma SettlesNext(cfg: EngineConfig, r: Record, q: Reads)
    requires Workable(cfg, r) && r.state == Swept && !Skips(cfg, r, DecideSwept(cfg, r, q))
    ensures var d := DecideSwept(cfg, r, q);
      d.Save? && d.goOn ==> Workable(cfg, d.rec) && d.rec.state == Settled
  {
    hide DecideBuyback;
    BuybackGoesOn(cfg, r, q);
    BuybackGoesOn(cfg, r.(dustReturned := true), q);
  }

  lemma SettledDecision(cfg: EngineConfig, r: Record, q: Reads)
    requires Workable(cfg, r) && r.state == Settled
    ensures Decide(cfg, r, q) == Save(if q.webhookFails then r.(nextAttemptAt := q.now + 30) else r.(notified := true), false)
  {
  }

  /** Storing the settled job and announcing it are two steps. */
  lemma FinishIsRun(s: System, w: nat, q: Reads, token: Token, rpc: Rpc, block: Block, i: nat) returns (ls: seq<Label>)
    requires w < |s.workers| && s.workers[w].Holding? && Workable(s.workers[w].cfg, s.workers[w].r) && s.workers[w].r.state == Swept
    requires var wk := s.workers[w]; var d := DecideSwept(wk.cfg, wk.r, q);
      !Skips(wk.cfg, wk.r, d) && (d.Send? ==> SendAnswers(s, d.call, d.signer, rpc, block, i))
    ensures Run(s, ls).db == Finish(s.db, DecideSwept(s.workers[w].cfg, s.workers[w].r, q), q, token, rpc).1
  {
    hide DecideSwept, Decide, Update, Carry, Exec, SendAnswers;
    var wk := s.workers[w];
    var d := DecideSwept(wk.cfg, wk.r, q);
    SkipShape(wk.cfg, wk.r, q);
    SettlesNext(wk.cfg, wk.r, q);
    NeverResolves(wk.cfg, wk.r, q);
    if d.Save? && d.goOn {
      ls := [Step(w, q, token)];
      RunOne(s, ls[0]);
      if Update(s.db, d.rec).0.Ok? {
        StepGoesOn(s, w, q, token);
        var t := Exec(s, ls[0]);
        SettledDecision(wk.cfg, t.workers[w].r, q);
        AnnounceIsStep(t, w, q, token);
        RunSnoc(s, ls, Step(w, q, token));
        ls := ls + [Step(w, q, token)];
      } else {
        WriteIsRun(s, w, q, token, rpc);
        CarrySave(s.db, d, token, rpc);
      }
    } else {
      ls := CarryIsRun(s, w, q, token, rpc, block, i);
    }
  }

  lemma NeverResolves(cfg: EngineConfig, r: Record, q: Reads)
    requires Workable(cfg, r)
    ensures !Decide(cfg, r, q).Resolve?
  {
  }

  lemma CarrySave(db: Db, d: Decision, token: Token, rpc: Rpc)
    requires d.Save?
    ensures Carry(db, d, token, rpc).1 == Update(db, d.rec).1
  {
    hide Update;
  }

  lemma AnnounceIsStep(s: System, w: nat, q: Reads, token: Token)
    requires w < |s.workers| && s.workers[w].Holding? && Workable(s.workers[w].cfg, s.workers[w].r)
    requires s.workers[w].r.state == Settled
    ensures Exec(s, Step(w, q, token)).db == Notify(s.db, s.workers[w].r, q).1
  {
    hide Update, Decide;
    SettledDecision(s.workers[w].cfg, s.workers[w].r, q);
  }

  /** `step_swept` as a run, by induction on the positions it skips. */
  lemma {:induction false} SweptStepIsRun(s: System, w: nat, q: Reads, token: Token, rpc: Rpc, block: Block, i: nat) returns (ls: seq<Label>)
    requires w < |s.workers| && s.workers[w].Holding? && Workable(s.workers[w].cfg, s.workers[w].r) && s.workers[w].r.state == Swept
    requires var end := EndDecision(s.workers[w].cfg, s.workers[w].r, q);
      end.Send? ==> SendAnswers(s, end.call, end.signer, rpc, block, i)
    ensures Run(s, ls).db == SweptStep(s.db, s.workers[w].cfg, s.workers[w].r, q, token, rpc).1
    decreases |s.workers[w].r.positions| - s.workers[w].r.consolidated
  {
    hide DecideSwept, Decide, Update, Finish, Exec, SendAnswers;
    var wk := s.workers[w];
    SkipShape(wk.cfg, wk.r, q);
    var d := Decide(wk.cfg, wk.r, q);
    if Skips(wk.cfg, wk.r, d) {
      var l := Step(w, q, token);
      RunOne(s, l);
      if Update(s.db, d.rec).0.Ok? {
        StepGoesOn(s, w, q, token);
        var t := Exec(s, l);
        if EndDecision(wk.cfg, wk.r, q).Send? {
          AnswersCarryOver(s, t, EndDecision(wk.cfg, wk.r, q).call, EndDecision(wk.cfg, wk.r, q).signer, rpc, block, i);
        }
        var rest := SweptStepIsRun(t, w, q, token, rpc, block, i);
        RunConcat(s, [l], rest);
        ls := [l] + rest;
      } else {
        WriteIsRun(s, w, q, token, rpc);
        CarrySave(s.db, d, token, rpc);
        ls := [l];
      }
    } else {
      ls := FinishIsRun(s, w, q, token, rpc, block, i);
    }
  }

  lemma AnswersCarryOver(s: System, t: System, call: ChainCall, signer: Address, rpc: Rpc, block: Block, i: nat)
    requires SendAnswers(s, call, signer, rpc, block, i) && t.blocks == s.blocks && t.signed == s.signed && t.sent == s.sent
    ensures SendAnswers(t, call, signer, rpc, block, i)
  {
  }

  /** A failure is counted on the record read again; a journal found there stops the count. */
  lemma CountFailureIsRun(s: System, w: nat, cfg: EngineConfig, id: string, e: Error, now: nat) returns (ls: seq<Label>)
    requires w < |s.workers| && Keyed(s.db)
    ensures Run(s, ls).db == CountFailure(s.db, id, e, cfg.maxAttempts, now).1
  {
    hide Update, RecordFailure, Exec;
    if e.Conflict? || id !in s.db.payments || s.db.payments[id].pending.Some? {
      ls := [];
    } else {
      ls := [Crash(w)] + [Read(w, cfg, id)] + [Fault(w, e)] + [Reread(w)] + [Count(w, now)];
      RunOne(s, Crash(w));
      RunSnoc(s, [Crash(w)], Read(w, cfg, id));
      RunSnoc(s, [Crash(w)] + [Read(w, cfg, id)], Fault(w, e));
      RunSnoc(s, [Crash(w)] + [Read(w, cfg, id)] + [Fault(w, e)], Reread(w));
      RunSnoc(s, [Crash(w)] + [Read(w, cfg, id)] + [Fault(w, e)] + [Reread(w)], Count(w, now));
      CrashIdles(s, w);
      var t := Exec(s, Crash(w));
      ReadThenFails(t, w, cfg, id, e);
      RereadThenCounts(Exec(Exec(t, Read(w, cfg, id)), Fault(w, e)), w, now);
    }
  }

  lemma CrashIdles(s: System, w: nat)
    requires w < |s.workers|
    ensures Exec(s, Crash(w)) == With(s, w, Idle)
  {
  }

  lemma ReadThenFails(s: System, w: nat, cfg: EngineConfig, id: string, e: Error)
    requires w < |s.workers| && s.workers[w].Idle? && id in s.db.payments && s.db.payments[id].id == id
    ensures Exec(Exec(s, Read(w, cfg, id)), Fault(w, e)).workers == s.workers[w := Failing(cfg, id, e)]
    ensures Exec(Exec(s, Read(w, cfg, id)), Fault(w, e)).db == s.db
  {
  }

  lemma RereadThenCounts(s: System, w: nat, now: nat)
    requires w < |s.workers| && s.workers[w].Failing?
    requires s.workers[w].id in s.db.payments && s.db.payments[s.workers[w].id].pending.None?
    ensures var wk := s.workers[w];
      Exec(Exec(s, Reread(w)), Count(w, now)).db
      == Update(s.db, RecordFailure(s.db.payments[wk.id], wk.err.text, wk.cfg.maxAttempts, now)).1
  {
    hide Update, RecordFailure;
  }

  /** The part of a step before failures are counted. */
  lemma TriedIsRun(s: System, w: nat, q: Reads, token: Token, rpc: Rpc, seen: nat, block: Block, i: nat) returns (ls: seq<Label>)
    requires w < |s.workers| && s.workers[w].Holding? && Workable(s.workers[w].cfg, s.workers[w].r)
    requires StepAnswers(s, s.workers[w].cfg, s.workers[w].r, q, rpc, seen, block, i)
    ensures var wk := s.workers[w];
      Run(s, ls).db == (if wk.r.state == Swept then SweptStep(s.db, wk.cfg, wk.r, q, token, rpc)
                        else Carry(s.db, Decide(wk.cfg, wk.r, q), token, rpc)).1
  {
    hide Decide, Run, SweptStep, Carry, SendAnswers;
    var wk := s.workers[w];
    NeverResolves(wk.cfg, wk.r, q);
    if wk.r.state == Swept {
      ls := SweptStepIsRun(s, w, q, token, rpc, block, i);
    } else {
      ls := CarryIsRun(s, w, q, token, rpc, block, i);
    }
  }

  /** Every uninterrupted step, whatever the chain shows and the node answers, leaves the tables some
      run of the protocol leaves. */
  lemma StepCallIsRun(s: System, w: nat, q: Reads, token: Token, rpc: Rpc, seen: nat, block: Block, i: nat) returns (ls: seq<Label>)
    requires Inv(s) && w < |s.workers| && s.workers[w].Holding?
    requires StepAnswers(s, s.workers[w].cfg, s.workers[w].r, q, rpc, seen, block, i)
    ensures Run(s, ls).db == StepCall(s.db, s.workers[w].cfg, s.workers[w].r, q, token, rpc).1
  {
    hide Run, Inv, SweptStep, Carry, CountFailure, ReconcileJournaled, EndDecision, SendAnswers, Lookup;
    var wk := s.workers[w];
    if wk.r.pending.Some? && wk.r.identity == Some(Identity(wk.cfg)) && wk.r.quarantined.None? {
      if rpc.find.Err? {
        ls := [];
        NothingFound(s, wk.r, wk.r.pending.value, wk.cfg.maxAttempts, q.now, rpc);
      } else {
        ReconcileIsRun(s, w, seen, q.now, rpc.prepare, rpc.broadcast);
        ls := [Scan(w, seen)] + [StoreOutcome(w, q.now)];
      }
    } else if Workable(wk.cfg, wk.r) {
      var tried := if wk.r.state == Swept then SweptStep(s.db, wk.cfg, wk.r, q, token, rpc)
                   else Carry(s.db, Decide(wk.cfg, wk.r, q), token, rpc);
      ls := TriedIsRun(s, w, q, token, rpc, seen, block, i);
      if tried.0.Err? && Counted(wk.r.state) {
        var t := Run(s, ls);
        RunKeepsInv(s, ls);
        InvKeyed(t);
        WorkersStay(s, ls);
        var more := CountFailureIsRun(t, w, wk.cfg, wk.r.id, tried.0.error, q.now);
        RunConcat(s, ls, more);
        ls := ls + more;
      }
    } else {
      ls := [];
      Refused(s, wk.cfg, wk.r, q, token, rpc);
    }
  }

  lemma InvKeyed(s: System)
    requires Inv(s)
    ensures Keyed(s.db)
  {
  }

  lemma {:induction false} WorkersStay(s: System, ls: seq<Label>)
    ensures |s.workers| <= |Run(s, ls).workers|
  {
    if ls != [] {
      WorkersStay(s, ls[..|ls| - 1]);
      StepKeepsWorkers(Run(s, ls[..|ls| - 1]), ls[|ls| - 1]);
    }
  }

  lemma StepKeepsWorkers(s: System, l: Label)
    ensures |s.workers| <= |Exec(s, l).workers|
  {
    hide ExecWorker, Insert, NewSweepJob, NewPayment, MigrateLegacyPolicy, Admissible;
    if OfWorker(l) && l.w < |s.workers| {
      if Sending(l) { SendingKeepsWorkers(s, l); } else { OthersKeepWorkers(s, l); }
    }
  }

  lemma SendingKeepsWorkers(s: System, l: Label)
    requires OfWorker(l) && l.w < |s.workers| && Sending(l)
    ensures |ExecWorker(s, l, s.workers[l.w]).workers| == |s.workers|
  {
    hide Decide, Update, Reserve, CancelPreparation, ApplyTx, BroadcastReply, InChain, At;
  }

  lemma OthersKeepWorkers(s: System, l: Label)
    requires OfWorker(l) && l.w < |s.workers| && !Sending(l)
    ensures |ExecWorker(s, l, s.workers[l.w]).workers| == |s.workers|
  {
    hide Update, Lookup, Resolved, RecordFailure, Retry, ForceSweep, MayScan;
  }

  lemma NothingFound(s: System, r: Record, p: PendingTx, maxAttempts: nat, now: nat, rpc: Rpc)
    requires rpc.find.Err?
    ensures Run(s, []) == s && ReconcileJournaled(s.db, r, p, maxAttempts, now, rpc).2 == s.db
  {
  }

  lemma Refused(s: System, cfg: EngineConfig, r: Record, q: Reads, token: Token, rpc: Rpc)
    requires !Workable(cfg, r) && !(r.pending.Some? && r.identity == Some(Identity(cfg)) && r.quarantined.None?)
    ensures Run(s, []) == s && StepCall(s.db, cfg, r, q, token, rpc).1 == s.db
  {
  }

  // ---------------------------------------------------------------- operators

  /** `retry` is a read and a write of the protocol. */
  lemma RetryIsRun(s: System, w: nat, cfg: EngineConfig, id: string)
    requires w < |s.workers| && s.workers[w].Idle?
    ensures Run(s, [Read(w, cfg, id)] + [RetryJob(w)]).db == RetryCall(s.db, id).1
  {
    hide Update, Retry;
    RunOne(s, Read(w, cfg, id));
    RunSnoc(s, [Read(w, cfg, id)], RetryJob(w));
  }

  /** So is `force_sweep`. */
  lemma ForceSweepIsRun(s: System, w: nat, cfg: EngineConfig, id: string)
    requires w < |s.workers| && s.workers[w].Idle?
    ensures Run(s, [Read(w, cfg, id)] + [ForceJob(w)]).db == ForceSweepCall(s.db, id).1
  {
    hide Update, ForceSweep;
    RunOne(s, Read(w, cfg, id));
    RunSnoc(s, [Read(w, cfg, id)], ForceJob(w));
  }

  // ---------------------------------------------------------------- what follows for the calls

  /** Tables that satisfy the invariant and follow those of `s`. */
  predicate SoundSuccessor(s: System, db: Db) {
    && Fenced(db) && Keyed(db)
    && (forall j :: j in db.payments ==> RecordOk(db.payments[j]))
    && (forall j :: j in s.db.payments ==> j in db.payments && Follows(s.db.payments[j], db.payments[j]))
  }

  lemma RunsAreSound(s: System, ls: seq<Label>)
    requires Inv(s)
    ensures SoundSuccessor(s, Run(s, ls).db)
  {
    hide Exec, RecordOk, Follows;
    RunKeepsInv(s, ls);
    forall j | j in s.db.payments ensures j in Run(s, ls).db.payments && Follows(s.db.payments[j], Run(s, ls).db.payments[j]) {
      RecordsOnlyMoveForward(s, ls, j);
    }
  }

  /** In any reachable state an uninterrupted step keeps every record sound, every signer fenced and
      every job moving forward only. */
  lemma StepCallIsSound(s: System, w: nat, q: Reads, token: Token, rpc: Rpc, seen: nat, block: Block, i: nat)
    requires Inv(s) && w < |s.workers| && s.workers[w].Holding?
    requires StepAnswers(s, s.workers[w].cfg, s.workers[w].r, q, rpc, seen, block, i)
    ensures SoundSuccessor(s, StepCall(s.db, s.workers[w].cfg, s.workers[w].r, q, token, rpc).1)
  {
    hide Run, Inv, StepCall, StepAnswers, SoundSuccessor;
    var ls := StepCallIsRun(s, w, q, token, rpc, seen, block, i);
    RunsAreSound(s, ls);
  }

  /** So do the operator calls. */
  lemma OperatorCallsAreSound(s: System, w: nat, cfg: EngineConfig, id: string)
    requires Inv(s) && w < |s.workers| && s.workers[w].Idle?
    ensures SoundSuccessor(s, RetryCall(s.db, id).1) && SoundSuccessor(s, ForceSweepCall(s.db, id).1)
  {
    hide Run, Inv, RetryCall, ForceSweepCall, SoundSuccessor;
    RetryIsRun(s, w, cfg, id);
    ForceSweepIsRun(s, w, cfg, id);
    RunsAreSound(s, [Read(w, cfg, id)] + [RetryJob(w)]);
    RunsAreSound(s, [Read(w, cfg, id)] + [ForceJob(w)]);
  }
}
