# Verification of the durable payment protocol

This project models the part of the payment engine where money can be lost or moved twice, and
proves its properties over every run.

A *job* is one payment record. A worker reads a job, decides on at most one chain action, reserves
the action's signer in the store, signs the extrinsic, stores a journal entry (`pending`), and only
then broadcasts. The answer may come back inline, or get lost; then a later pass looks the
extrinsic up in finalized blocks and stores the outcome. Any number of engines share one SQLite
store and one treasury signer, and each can stall or crash between any two of these operations.

## Structure

| file | content |
|---|---|
| `Basics.dfy`, `Calls.dfy` | values, errors, text, addresses; calls, events, receipts, journal entries |
| `Units.dfy` | amount parser and printer, fee and price arithmetic |
| `State.dfy` | the payment record, its state machine, and the live record object |
| `Store.dfy` | the two tables, each immediate transaction as a function, and the store object proved against them |
| `ChainScan.dfy` | finalized blocks, event summaries, the pending lookup |
| `Engine.dfy` | what a step decides, what applying and reconciling compute |
| `Decisions.dfy` | exactly when a step takes each decision |
| `EngineCalls.dfy` | the same calls in imperative form over the record and store objects |
| `Outcomes.dfy` | exactly what each call leaves behind: jobs created, resumed, reopened, applied, resolved, counted, sent |
| `Accounting.dfy` | the invariant of every record the engine stores |
| `Protocol.dfy`, `ProtocolSteps.dfy` | the step system (workers, store, chain) and the proof that every step keeps its invariant |
| `Safety.dfy`, `Progress.dfy` | what follows for every run |
| `CallsAreRuns.dfy` | every uninterrupted step and operator call is a run of the step system |
| `Recovery.dfy`, `ReplaySoundness.dfy`, `ReplayCompleteness.dfy` | manifest validation and replay, against the engine's own `apply` |
| `Archive.dfy`, `RecoverLegacy.dfy` | the archive scan, and recovery as one store transaction |
| `RecoveredRuns.dfy` | recovered jobs join the step system, their old transactions in the log |
| `History.dfy` | record histories under arbitrary store transactions |

The functions in `Store`, `Engine`, `Recovery` and `Archive` specify the imperative methods beside
them; the same functions are the steps of the protocol, so a change to a method body breaks its
contract and a change to a function breaks the run-level theorems.

## The protocol as a step system

`Protocol.System` holds the store tables, the finalized chain, and one program counter per worker.
A worker keeps the copy of the record it read, however old. `Exec` performs one labelled step and
`Run` a whole sequence; every interleaving is some sequence. A crash is a label that puts a worker
back to idle anywhere, a lost reply is a fault or a crash while waiting, and a worker that has
journaled can broadcast arbitrarily late. `signed`, `journal` and `sent` are history only.

Chain assumptions (`Protocol.Admissible`): an engine-signed extrinsic enters a block only if its
bytes were sent, unaltered, at most once, and in blocks `birth..=birth+64`; finalized blocks never
change; transaction hashes of different signed extrinsics differ and are not on chain before
signing. A lookup may see any finalized prefix, so nodes may lag. Reservation tokens need no
freshness assumption beyond the UNIQUE column. Every chain read and clock value a step uses is
arbitrary. The store starts empty, and the wallet's signer is the record's address. A job recovered
from an older version joins later; for its old extrinsics the further assumption is
`RecoveredRuns.OldHashesFresh`: each is on chain once, under a hash no engine has signed.

Where the repository's prose and code disagree, the code is modelled: the table in README.md:89-95
resolves a journal by comparing nonces, while the code (src/chain.rs:814-816) never does; it scans
the whole window and declares a journal dead only past `birth+65`.

## What the proofs turned up

Each point has an exact theorem, and a concrete input at which the code does what one would not expect.

* Replay compares the purchase's hotkey with the budget's text, which validation only parses. A job
  with a full purchase is rejected when its budget spells the hotkey under another SS58 prefix. It
  also rejects every history with a skipped consolidation, a skipped dust return or a partial move
  (`ReplayCompleteness.ReplayAcceptsExactly`; inputs: `SpellingRejected`, `SkipRejected`).
* A manifest whose treasury hotkey is spelled under another prefix is accepted, but then no engine
  steps the job (`ReplaySoundness.RecoveredStepsExactly`; input: `ForeignHotkeyAccepted`).
* Replay accepts a `move_stake` from a hotkey to itself, which the engine never sends. An accepted
  history is the engine's own if and only if it holds none
  (`ReplaySoundness.AcceptedIsSentExactly`; input: `SelfMoveAccepted`).
* Replay does not look at `failed_from`. A recovered record is sound if and only if that field is one
  the state machine leaves (`ReplaySoundness.RecoveredRecordOk`; input: `StaleFailureAccepted`).
* `retry` is documented to resume failed jobs. It also moves an unpaid waiting job, or an expired one,
  to detection (`Outcomes.RetriedElsewhereExactly`; input: `RetryDetectsUnpaid`).
* Positions at or above the sweep floor are worth the minimum stake at every price up to 10^15; at
  1.6 * 10^15 they need not be (`Units.SweptWorthExactly`; input: `SweptBelowMinimumAtExtremePrice`).

## Model

| member | source | states |
|---|---|---|
| `Safety.AtMostOneSuccessPerSlot` | src/engine.rs:1028-1130 | over every run, a job has at most one successful Fund, ReturnDust, BuyStake and Destroy on chain, and at most one successful Sweep and one Consolidate per hotkey, kind and hotkey read off the included calls |
| `Safety.NextBlockIsJournaled` | src/engine.rs:1060-1071 | whatever engine-signed extrinsic the chain can include next has a stored journal |
| `Safety.PossibleIsPendingAndFenced` | src/store.rs:515-542 | every journaled transaction the chain could still include is the present journal of its job, whose signer row carries that job and that journal's token |
| `Safety.PossibleSignersDiffer` | src/store.rs:330-365 | two transactions the chain could still include never share a signer |
| `Safety.PurchasesStayWithinBudgets` | src/engine.rs:623-689 | the TAO requested by all successful purchases on chain equals the sum of the frozen budgets of the jobs that bought, each once, so it never exceeds the sum of all budgets |
| `Safety.RecordsOnlyMoveForward` | src/store.rs:489-561 | over any continuation of a run a job keeps its policy, never loses rank, positions, consolidations, dust return, purchase or receipts, and a version number names one record |
| `Safety.NoGoingBack` | src/state.rs:55-67 | no run lowers a job's rank, so a swept job never re-enters an earlier step |
| `Safety.QuarantineFreezesJob` | src/engine.rs:1114-1126 | after a receipt mismatch no run of ticks, retries and forced sweeps journals for that job again |
| `Safety.QuarantineFreesSigner` | src/store.rs:528-541 | the write that quarantines a job removes its signer row, and any job at its current version can then reserve the signer |
| `Safety.TaoPaymentIsReturned` | src/engine.rs:445-482 | once a job is stored as detected by TAO, it settles in no continuation without its wallet emptied into the treasury |
| `Safety.SettledJobsAreComplete` | src/engine.rs:554-621 | after every run a settled job has consolidated, returned its dust and spent, bought and destroyed exactly what its frozen identity and budget ask for |
| `Safety.AccountsAlwaysBalance` | src/engine.rs:726-789 | after every run receipts reproduce the totals, one-off receipts occur at most once, and a failed job has no journal |
| `ProtocolSteps.ExecKeeps` | src/engine.rs:391-443 | every single step of any worker, operator or the chain keeps the invariant and only advances records |
| `ProtocolSteps.RunKeepsInv` | src/engine.rs:344-378 | the invariant holds after every run |
| `ProtocolSteps.JournalCommits` | src/engine.rs:1060-1070 | a journal is stored only over the version the step decided on, for bytes no other journal uses |
| `ProtocolSteps.ScanIsRight` | src/chain.rs:807-837 | a verdict reached on any finalized prefix holds on the whole chain |
| `Progress.JobsRunOutOfWork` | src/engine.rs:525-621 | over n hotkeys at most 2n+8 things happen to a job in any run (a receipt applied, a stage change, a consolidation or dust return done or skipped, a buyback completed), and it has at most 2n+4 applied receipts |
| `Progress.StepUsesWork` | src/engine.rs:391-443 | no step of anyone adds work to a job, and any step in which something happens to it leaves less |
| `Progress.HappeningUsesWork` | src/engine.rs:726-789 | whatever happens to a stored record uses up work |
| `Progress.StoredSaveHappens` | src/engine.rs:445-621 | a stored silent write counts as happening, expiry and delivery apart |
| `Progress.StoredReplyHappens` | src/engine.rs:1071-1076 | a stored inline reply counts |
| `Progress.StoredOutcomeHappens` | src/engine.rs:1087-1130 | a stored successful outcome counts |
| `Progress.ApplyUsesWork` | src/engine.rs:726-789 | every applied result happens and strictly lowers the work left |
| `Progress.SaveUsesWork` | src/engine.rs:445-621 | so does every silent write except expiry and delivery bookkeeping |
| `Progress.WorkNeverGrows` | src/state.rs:186-219 | no stored version adds work |
| `CallsAreRuns.StepCallIsRun` | src/engine.rs:391-443 | every uninterrupted step, whatever the chain shows and the node can answer, the consolidation loop and failure counting included, leaves the tables of some run |
| `CallsAreRuns.SweptStepIsRun` | src/engine.rs:554-621 | so does `step_swept`, by induction on the positions it skips |
| `CallsAreRuns.FinishIsRun` | src/engine.rs:602-621 | so do settling and announcing |
| `CallsAreRuns.CountFailureIsRun` | src/engine.rs:423-442 | so does counting a failure |
| `CallsAreRuns.SendCallIsRun` | src/engine.rs:1028-1076 | so does a send under any answers |
| `CallsAreRuns.RetryIsRun` | src/engine.rs:284-301 | so does a retry |
| `CallsAreRuns.ForceSweepIsRun` | src/engine.rs:304-312 | so does a forced sweep |
| `CallsAreRuns.StepCallIsSound` | src/engine.rs:391-443 | hence an uninterrupted step keeps every record sound, every signer fenced and every job moving forward only |
| `CallsAreRuns.OperatorCallsAreSound` | src/engine.rs:284-312 | and so do the operator calls |
| `CallsAreRuns.LostSendIsRun` | src/engine.rs:1028-1070 | a send whose reply is lost, or which fails to reserve or journal, leaves the tables its protocol steps leave |
| `CallsAreRuns.AnsweredSendIsRun` | src/engine.rs:1071-1076 | so does a send finalized in the next block and answered |
| `CallsAreRuns.FailedPreparationIsRun` | src/engine.rs:1041-1060 | so does a failed preparation |
| `CallsAreRuns.ReconcileIsRun` | src/engine.rs:1077-1130 | so does a reconciliation |
| `CallsAreRuns.WriteIsRun` | src/engine.rs:445-525 | so does a step that only writes |
| `Engine.LostReplyEquivalence` | src/engine.rs:1028-1130 | losing the reply of a successful broadcast and reconciling later gives the same record, version included, and the same tables |
| `Engine.DecidedSendIsOk` | src/engine.rs:485-689 | whatever the chain answers, a step only signs a call that fits the record's state, its frozen identity and its frozen budget |
| `Decisions.DispatchedExactly` | src/engine.rs:391-443 | which step runs for which record, what is refused uncounted, and how a settled job is announced |
| `Decisions.DetectedExactly` | src/engine.rs:445-482 | a waiting job is detected if and only if its wallet holds enough alpha or TAO, expires if and only if it was unpaid past the deadline, and otherwise waits; detection notes the alpha and, if it suffices, the TAO held |
| `Decisions.FundedExactly` | src/engine.rs:485-522 | a detected job goes on unfunded if and only if it holds nothing, can pay every sweep or holds the largest u64 balance; otherwise it is sent the least amount that lets it pay, which works if and only if some u64 balance pays; the most alpha ever seen is noted |
| `Decisions.SweptExactly` | src/engine.rs:525-551 | a funded job leaves its stage if and only if no unswept position is worth sweeping; otherwise it sweeps all of the first one that is |
| `Decisions.ConsolidatedExactly` | src/engine.rs:556-590 | the next position is consolidated if and only if the treasury holds stake under its hotkey and it is not the treasury hotkey, and then all that stake moves there; otherwise it is skipped and nothing else changes |
| `Decisions.BadPositionStops` | src/engine.rs:560 | a position that does not parse stops the step, counted |
| `Decisions.DustReturnedExactly` | src/engine.rs:591-601 | the wallet is emptied if and only if dust is due and it holds anything |
| `Decisions.BoughtExactly` | src/engine.rs:667-689 | a purchase is signed if and only if the whole budget fits beside both reserves, and then for the whole budget at the least limit price that allows the slippage |
| `Decisions.DestroyedExactly` | src/engine.rs:623-663 | with a purchase on file, when the buyback completes, when it destroys exactly what was bought and by which call, and when it stops |
| `Decisions.BuybackExactly` | src/engine.rs:602-614 | without a complete policy, or with a completed buyback that does not validate, the step stops, counted |
| `Decisions.BadBudgetStops` | src/engine.rs:624-628 | a missing or invalid budget stops the buyback, counted |
| `Decisions.CompletedExactly` | src/engine.rs:1132-1161 | a completed buyback validates if and only if its purchase is the budgeted one, in a block, and all of it was destroyed in a block by the budgeted call unless kept |
| `Decisions.SettledRecord` | src/engine.rs:615-616 | settling is a plain move to the last stage |
| `Decisions.WrongWalletStops` | src/engine.rs:791-804 | a wallet that does not open stops every step that needs it, counted |
| `Decisions.SettledExactly` | src/engine.rs:554-621 | a swept job settles if and only if nothing is left to consolidate or return and its required buyback is done and proved |
| `Decisions.HoldingsAreAll` | src/chain.rs:496-508 | the positions a step works on are exactly the nonzero ones on the job's subnet |
| `Engine.ActionNamesItsCall` | src/engine.rs:913-923 | the journaled action describes the signed call, hotkey included, and the receipt name rebuilt from it is that call's name |
| `EngineCalls.Apply` | src/engine.rs:726-789 | the field-by-field update is the function the invariants are proved about |
| `EngineCalls.SendJournaledCall` | src/engine.rs:1028-1076 | result, record and tables of the whole send, every error path included |
| `EngineCalls.ReconcileJournaledCall` | src/engine.rs:1077-1130 | result, record and tables of the whole reconciliation |
| `EngineCalls.Resolve` | src/engine.rs:1087-1126 | the record written for a dead, failed, applied or mismatched journal |
| `EngineCalls.PaymentEngine.Step` | src/engine.rs:391-443 | result and tables of one step, failure counting included |
| `EngineCalls.PaymentEngine.StepPending` | src/engine.rs:445-482 | detection by alpha or TAO, expiry |
| `EngineCalls.PaymentEngine.StepDetected` | src/engine.rs:485-522 | the fee loop and the funding transfer |
| `EngineCalls.PaymentEngine.StepFunded` | src/engine.rs:525-551 | the next unswept position worth sweeping, or the move to swept |
| `EngineCalls.PaymentEngine.StepSwept` | src/engine.rs:554-621 | the consolidation loop, dust return, buyback and settling |
| `EngineCalls.PaymentEngine.StepAutoBuyback` | src/engine.rs:623-689 | purchase of the whole budget, destruction of exactly what was bought |
| `EngineCalls.PaymentEngine.SettleOrBuy` | src/engine.rs:602-621 | a job settles only past its required buyback |
| `EngineCalls.PaymentEngine.NoteStepFailure` | src/engine.rs:423-442 | a failure is counted on the re-read record, never over an unresolved journal |
| `EngineCalls.PaymentEngine.RetryJob` | src/engine.rs:284-301 | resumes the failed step, refuses quarantined jobs |
| `EngineCalls.PaymentEngine.ForceSweepJob` | src/engine.rs:304-312 | reopens an expired job |
| `EngineCalls.PaymentEngine.EstimateFees` | src/engine.rs:494-502 | saturating total of the fees of the positions worth sweeping |
| `EngineCalls.PaymentEngine.FindPosition` | src/engine.rs:531-534 | the first position at the floor whose hotkey is not swept |
| `Accounting.ApplyKeeps` | src/engine.rs:726-789 | applying a result keeps the record invariant, files the receipt and uses up the action's slot |
| `Accounting.QuarantineKeeps` | src/engine.rs:1114-1123 | a result that cannot be applied freezes the job with its receipt on file |
| `Accounting.ResolvedKeeps` | src/engine.rs:1087-1126 | whatever reconciliation writes keeps the invariant and clears the journal |
| `Accounting.SaveKeeps` | src/engine.rs:445-621 | whatever a step writes without signing keeps the invariant |
| `Accounting.JournalKeeps` | src/engine.rs:1060-1070 | the journal of a permitted send fits the record |
| `Accounting.RetryKeeps` | src/engine.rs:284-301 | a retry keeps the invariant |
| `Accounting.PendingSlotIsFree` | src/engine.rs:525-551 | a journaled action has not happened yet: a pending Sweep hotkey is unswept, and so on |
| `Accounting.UsedForever` | src/engine.rs:726-789 | what happened once stays on record |
| `Accounting.ReceiptBound` | src/engine.rs:525-689 | at most 2n+4 applied receipts for n positions |
| `Accounting.ReceiptsMatchFlags` | src/engine.rs:726-789 | receipt counts per call name agree with the record's flags and sums |
| `Accounting.SettledIsComplete` | src/engine.rs:1132-1161 | a settled record meets its whole policy and its receipts show it |
| `State.TransitionExactly` | src/state.rs:55-67 | which moves the state machine has, and what an accepted one changes |
| `State.TransitionNeverGoesBack` | src/state.rs:186-207 | an accepted transition raises the rank by at most one and never lowers it |
| `State.FailureKeepsProgress` | src/state.rs:211-219 | a failure counts one attempt, notes the first 500 characters, schedules the next by the backoff, fails the job exactly when attempts run out in a state that can fail, and changes nothing else |
| `State.BackoffDoubles` | src/state.rs:209-214 | the wait starts at 10 seconds and doubles up to 600 |
| `State.BudgetValidExactly` | src/state.rs:101-116 | which budgets are valid |
| `Outcomes.PaymentCreatedExactly` | src/engine.rs:135-195 | when a payment is created, and the whole new record |
| `Outcomes.SweepJobCreatedExactly` | src/engine.rs:205-273 | when a sweep job is created, and the whole new record |
| `Outcomes.RetriedExactly` | src/engine.rs:284-301 | a failed job resumes if and only if it is not quarantined and `failed_from` names a step, in that step, detection standing in for waiting |
| `Outcomes.RetriedElsewhereExactly` | src/engine.rs:284-301 | of jobs that did not fail exactly the waiting and the expired ones are moved by a retry, to detection |
| `Outcomes.RetryDetectsUnpaid` | src/engine.rs:283-301 | a payment fresh from its creation becomes detected by a retry |
| `Outcomes.ForcedExactly` | src/engine.rs:303-312 | a forced sweep reopens exactly expired and waiting jobs and those that failed before funding |
| `Outcomes.OperatorStoresExactly` | src/engine.rs:299-311 | an operator call stores the changed job at its next version or changes nothing |
| `Outcomes.AppliedExactly` | src/engine.rs:726-789 | a result is applied if and only if its events deliver what the action is for, and then books, files and clears exactly this |
| `Outcomes.RepliedExactly` | src/chain.rs:722-753 | a broadcast reports success if and only if the extrinsic did not fail, its events decode and one shows the call, and what it reports |
| `Outcomes.ExpectedExactly` | src/chain.rs:1114-1126 | a summary holds a call's expected event if and only if some event shows the call |
| `Outcomes.JournaledExactly` | src/engine.rs:1060-1069 | what a journal entry records |
| `Outcomes.FailedOnChainExactly` | src/engine.rs:1106-1112 | a failed extrinsic costs one attempt and the journal and nothing more |
| `Outcomes.DeadExactly` | src/engine.rs:1089-1094 | a dead journal is dropped and nothing else changes |
| `Outcomes.SucceededExactly` | src/engine.rs:1095-1126 | a successful extrinsic is applied if it delivers, and otherwise quarantines and fails the job at once |
| `Outcomes.ReconciledExactly` | src/engine.rs:1077-1130 | when reconciling stores something, and what |
| `Outcomes.CountedExactly` | src/engine.rs:423-442 | when a failed step is counted against the stored job, and what is reported |
| `Outcomes.PreparedExactly` | src/engine.rs:1041-1070 | a send that cannot be prepared leaves everything as it was; a prepared one stores its journal under its reservation first |
| `Outcomes.ReportedExactly` | src/engine.rs:391-443 | a step that returns without an error reports a change if and only if the job has a later version, and otherwise the tables are as they were |
| `Outcomes.SentExactly` | src/engine.rs:1028-1076 | a send succeeds if and only if every part of it does, and what success and failure leave in the tables |
| `State.PaymentRecord.MoveTo` | src/state.rs:186-207 | the in-place transition, unchanged on error |
| `State.PaymentRecord.NoteFailure` | src/state.rs:211-219 | the in-place failure count |
| `Store.SqliteStore.ReserveSigner` | src/store.rs:330-365 | reservation: version check, pending journals, unique signer and token |
| `Store.SqliteStore.Cancel` | src/store.rs:381-396 | only the holder's token, and only without a journal, gives a reservation back |
| `Store.SqliteStore.InsertRecord` | src/store.rs:439-453 | insert never overwrites |
| `Store.SqliteStore.Write` | src/store.rs:489-561 | compare-and-swap write with policy freeze, journal checks and row deletion in one transaction |
| `Store.SqliteStore.Migrate` | src/store.rs:397-438 | policy migration of pristine legacy records, versions beyond the column refused |
| `Store.OneJournalPerSigner` | src/store.rs:515-542 | under the fence one job at most has a journal for a signer |
| `Store.UpdateKeepsFence` | src/store.rs:489-561 | a write keeps the fence |
| `Store.CancelKeepsFence` | src/store.rs:381-396 | a cancel keeps the fence |
| `Store.ReserveKeepsFence` | src/store.rs:330-365 | a reservation keeps the fence |
| `Store.MigrateKeepsFence` | src/store.rs:62-99 | a migration keeps the fence |
| `Store.ReserveSucceedsExactly` | src/store.rs:330-365 | a signer can be reserved if and only if its row is free, the token new and the version, when named, current; a version beyond the column names an absent job; the effect is that row alone |
| `Store.CancelSucceedsExactly` | src/store.rs:381-396 | a reservation can be given back if and only if the row is the job's under the token and the job has no journal; the row goes and nothing else |
| `Store.CancelUndoesReserve` | src/store.rs:330-396 | cancelling what was just reserved restores the tables |
| `Store.InsertSucceedsExactly` | src/store.rs:439-453 | an id is inserted once |
| `Store.UpdateSucceedsExactly` | src/store.rs:489-561 | when a write goes through, all it changes, and which refusals are lost races |
| `Store.MigrateSucceedsExactly` | src/store.rs:62-99 | when a policy can be set by hand, and all it changes |
| `ChainScan.FromEvents` | src/chain.rs:158-209 | the event loop computes the summary, and fails exactly on an undecodable event |
| `ChainScan.SummaryIsFaithful` | src/chain.rs:138-209 | a summary says what the events say: names in order, failure, last stake, burn and move, total transfer |
| `ChainScan.FindPending` | src/chain.rs:807-837 | the block and extrinsic loops compute the lookup |
| `ChainScan.LookupIsExact` | src/chain.rs:807-837 | dead, waiting and included each hold if and only if the window and the head say so, and included names the block and events found |
| `ChainScan.LookupIsStable` | src/chain.rs:807-837 | dead and included never change as the chain grows |
| `ChainScan.DeadIsForever` | src/chain.rs:247 | under the mortality assumption no extension includes a transaction declared dead |
| `Recovery.CheckList` | src/recovery.rs:126-142 | one pass with last position, hash set and nonce set decides pairwise order and uniqueness |
| `Recovery.ManifestAcceptedExactly` | src/recovery.rs:60-148 | when a manifest is accepted, condition by condition |
| `Recovery.ValidateManifest` | src/recovery.rs:60-148 | the manifest conditions, error by error |
| `Recovery.Replay` | src/recovery.rs:171-377 | the transaction loop, the checked total and the final comparison |
| `Recovery.AuditOne` | src/recovery.rs:189-319 | the accounts after one transaction, or rejection |
| `ReplaySoundness.ReplayIsSound` | src/recovery.rs:171-377 | an accepted job's receipts are engine sends, self-moves apart, that folded with `apply` from the freshly detected job end in exactly the stored accounts |
| `ReplaySoundness.AcceptedIsSentExactly` | src/recovery.rs:232-247 | every turn of an accepted history is a send the engine makes if and only if no entry moves stake from a hotkey to itself |
| `ReplaySoundness.SelfMoveAccepted` | src/recovery.rs:232-247 | an accepted history with such an entry |
| `ReplaySoundness.ReplayedOrder` | src/recovery.rs:171-377 | the receipts come in the order Fund? Sweep* Move* Dust? Buy? Destroy? and as a ledger are exactly the stored accounts |
| `ReplaySoundness.RecoveredRecordOk` | src/recovery.rs:356-366 | a recovered record satisfies the engine's whole record invariant if and only if its `failed_from` is one the state machine leaves |
| `ReplaySoundness.StaleFailureAccepted` | src/recovery.rs:87-98 | an accepted record for which it is not |
| `ReplaySoundness.RecoveredStepsExactly` | src/engine.rs:396-400 | some engine steps the recovered job instead of refusing its identity if and only if the treasury hotkey is spelled the generic way |
| `ReplaySoundness.ForeignHotkeyAccepted` | src/recovery.rs:114-120 | for every other prefix an accepted manifest whose job no engine steps |
| `ReplayCompleteness.ReplayAcceptsExactly` | src/recovery.rs:60-377 | over all engine histories with a well-formed manifest, acceptance if and only if nothing was skipped, every extrinsic did in full what its call says, every move carried its swept amount, and a purchase's budget spells its hotkey the generic way |
| `ReplayCompleteness.SkipRejected` | src/recovery.rs:335-355 | an engine history with a skipped dust return that is rejected |
| `ReplayCompleteness.SpellingRejected` | src/recovery.rs:276-285 | for every valid budget spelled otherwise there is such a history that is rejected |
| `ReplayCompleteness.SavesAreMoves` | src/engine.rs:485-621 | every unsigned write of the engine is a quiet move, or a skip followed by one |
| `ReplayCompleteness.SendsAreMoves` | src/engine.rs:485-689 | every send is decided on the record as it is, or after a dust skip |
| `ReplayCompleteness.FailuresAndRetriesAreQuiet` | src/state.rs:186-219 | failures, retries and forced sweeps change no account |
| `Archive.VerifyLegacyArchive` | src/chain.rs:840-929 | the nested scan computes its specification, error paths included |
| `Archive.ArchiveIsComplete` | src/chain.rs:840-929 | the scan accepts if and only if the manifest is exactly the ordered list of both signers' extrinsics in the interval, fully described, with consecutive nonces |
| `Archive.NothingComesLater` | src/chain.rs:854-863 | under the attested mortality no later block contains an old emission the manifest lacks |
| `RecoverLegacy.RecoverInStore` | src/store.rs:275-328 | recovery as one transaction, error paths included |
| `RecoverLegacy.RecoverSucceedsExactly` | src/store.rs:275-328 | when recovery succeeds, what it reports and all it changes |
| `RecoverLegacy.RecoveryStores` | src/store.rs:275-328 | a success adds identity and policy to one record and changes nothing else, and the record is sound if and only if its `failed_from` is one the state machine leaves |
| `RecoverLegacy.RecoveryIsComplete` | src/store.rs:275-328 | a recovered job's receipts are, in order, everything its two signers signed in the interval |
| `RecoverLegacy.RecoverKeepsFence` | src/store.rs:275-328 | recovery keeps the fence |
| `RecoverLegacy.RecoverRefused` | src/recovery.rs:70-71 | no job an engine created can be recovered |
| `RecoveredRuns.RecoveredJobJoins` | src/store.rs:275-328 | a recovered job joins any reachable system, its old transactions in the log, and the invariant holds |
| `RecoveredRuns.RecoveredAtMostOnce` | src/engine.rs:1028-1130 | over every run after recovery a job has at most one success of each kind and hotkey, its old transactions counted |
| `RecoveredRuns.ReplayedSlots` | src/recovery.rs:189-319 | the receipts of an accepted history are for pairwise different actions |
| `History.HistoriesAreLinear` | src/store.rs:489-561 | a job's version counts its successful writes, identity and policy are written at most once, and the budget never changes once policy is set |
| `History.StepSucceeds` | src/store.rs:62-99 | each transaction leaves a record alone or replaces the version it names |
| `History.HistoryFenced` | src/store.rs:330-365 | the fence holds over every sequence of transactions |
| `Units.FormatParseRoundTrip` | src/units.rs:14-38 | parsing a printed amount gives it back, for every u64 |
| `Units.ParseIsExact` | src/units.rs:14-33 | a text is accepted with value v if and only if it is a plain decimal with at most nine decimals denoting exactly v rao within u64 |
| `Units.FormatShape` | src/units.rs:36-38 | printed amounts have nine decimals, no superfluous zero, and read as the amount without the point |
| `Units.AddBpsCeilIsLeast` | src/units.rs:41-44 | the rounded margin is the least value covering it |
| `Units.BuyLimitIsLeast` | src/units.rs:62-64 | the limit price is the least u64 of at least one rao that allows the slippage, and the largest u64 when none does |
| `Units.SweepFloorExactly` | src/engine.rs:693-698 | the floor is the configured dust or the most alpha worth at most 1.5 times the minimum stake |
| `Units.FundingIsEnoughAndLeast` | src/units.rs:49-58 | free plus funding covers fees, margin and deposit if and only if some u64 balance does, and one rao less never does |
| `Units.SpendableLeavesReserves` | src/units.rs:73-76 | an amount is spendable exactly when both reserves stay |
| `Units.FixedBitsIsFloor` | src/chain.rs:977-984 | the conversion is the exact floor, capped at u64 |
| `Units.SweptWorthExactly` | src/engine.rs:693-698 | when every position at the floor is worth the minimum stake |
| `Units.SweptWorthMinimum` | src/engine.rs:693-698 | it always is at prices up to 10^15 |
| `Units.SweptBelowMinimumAtExtremePrice` | src/engine.rs:693-698 | it is not at 1.6 * 10^15 |

## Left out

- RPC connections, metadata checks, SCALE encoding, payload building and endpoint handling: the chain is a sequence of finalized blocks with extrinsics, addresses, nonces and events, and its answers are parameters.
- Keys, sealing, derivation and SS58 checksums: accounts are opaque, an address is an account and a prefix, and a wallet opens exactly when the address is spelled the generic way.
- HTTP, webhooks, command line, logging and broadcast channels: `notify` stores a flag or a later attempt time.
- Wallet secrets, callback fields and creation or update times of a record: no modelled decision reads them.
- SQL text, JSON encoding and the `legacy_recoveries` audit table: each immediate transaction is its effect on the two tables.
- The file store: it refuses to sign, so it takes no part in the protocol.
- The treasury lock inside one process: the proofs do not need it.
- `tick` itself: its skip filter and its order of jobs only restrict which runs happen.
- Liveness: a crash or a failed journal write leaves the signer fenced on purpose, so only safety is proved.
- Freshness of `spendable` across processes: the balance is read before the reservation, so no global fee reserve holds.
- Overflow of the u64 sums `funded_tao` and `swept_alpha`: they are unbounded here, as the token supply fits u64; replay's own checked sum is modelled.
- Legacy journals without a token in the step system: runs start from an empty store and recovered jobs carry no journal; `History` covers arbitrary tables.
- RecoveredRuns.RecoveredJobJoins: asks that the legacy record's `failed_from` is one the state machine leaves, for the reason found above.
- The disabled standalone buyback functions: one constant error.
- State.PaymentRecord: the live record is one owned value updated field by field, because nothing in the source aliases a single field.
- EngineCalls.PaymentEngine.Step: chain reads made during one step are given at once, per hotkey where the source reads per hotkey; interference between store operations is the business of the step system.
- Progress.JobsRunOutOfWork: bounds how often a job can advance; it does not claim that a job does advance.
- Units.AddBpsCeilIsLeast: `bps` stays below `u64::MAX - 10000`, above which the source's own addition overflows.
- Units.FixedBitsIsFloor: shifts up to 98, above which the source's u128 product can overflow; the callers use 32.
- Store.SqliteStore.ReserveSigner: the token is a parameter; only the UNIQUE column is relied on.
