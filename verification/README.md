# QSDM: verified models

Dafny models of the state machines, protocols, allocators, parsers and layouts
of the QSDM tools, with proofs about all their runs and inputs. Imperative code
is modelled as classes and loops that are proved equal to specification
functions; what the code is for is proved about those functions.

| file | what it models |
|---|---|
| `PayoutSigner.dfy`, `PayoutSafety.dfy`, `PayoutDelays.dfy`, `PayoutValidator.dfy`, `PayoutRecords.dfy` | the treasury payout signer against a node that applies at once and against a validator that queues transfers for the next block, with lost, late and repeated messages: exactly-once payment, nonce and reserve invariants, and what each applied transfer says |
| `EdgeController.dfy` | Edge Control's start/stop/settings machine, one method per critical section, and all interleavings of those sections |
| `RefTable.dfy` | the Go/JavaScript reference table: counted ids, free list, inverse map |
| `CellSim.dfy`, `CellEconomics.dfy`, `CellUtilization.dfy` | the reward-pool simulator: loops in place, conservation and bounds over any number of epochs, the exact condition for its utilisation range |
| `Ceremony.dfy` | the genesis commit-reveal ceremony: producer, verifier, binding |
| `WalletExtension.dfy` | the wallet extension: page provider, content script, background call |
| `NativeHost.dfy` | native-message framing and the serving loop |
| `TailFile.dfy` | the backward chunked `tailFile` |
| `KvBlock.dfy` | promtool's map parser and the quoting printer |
| `Promql.dfy`, `Dashboard.dfy` | the PromQL comparison scanner; panel ids, grouping and grid layout |
| `PeerKeys.dfy`, `TrayMonitor.dfy` | the peer-profile trust gate and the tray monitor, over whole histories |
| `Text.dfy`, `Sorting.dfy`, `Options.dfy` | shared text facts (hex, decimal, ordering, lines, blanks), sorting by a text key, the option type |

## Where the code departs from its stated intent

* **Paying once.** The comment at `QSDM/source/cmd/qsdm-game-signer/main.go:448-450`
  relies on the node to know a transfer by its id. A validator of this repository
  knows an id only while the transfer is queued
  (`QSDM/source/pkg/mempool/mempool.go:132-174`), and a block checks nonce and
  balance alone (`QSDM/source/pkg/chain/account.go:216-247`). So a request that is
  paid, mined and asked for again is paid again (`MinedRequestIsPaidAgain`).
  `OnceQueuedExactlyWhen` is the exact condition: the validator would have to
  remember the ids of its blocks. The storage path, kept for tools that are not
  validators, does remember (`ExactlyOncePerRequest`).
* **Duplicate answers.** A validator also answers duplicate when another transfer
  holds the nonce (`QSDM/source/pkg/api/handlers.go:1440-1446`), and the signer
  reports the request as paid although nothing was queued
  (`QueuedNonceMisreports`, `DuplicateIsTrueExactlyWhen`).
* **Payout retry.** Line 361 has already overwritten the id with the empty string
  when line 366 retries. A node that refuses an empty id, as this repository's
  does, never accepts that retry, and the client has to call again
  (`BlankedIdNeedsASecondCall`, `CalmAnswerAsWritten`). A node that took it could
  pay a request twice, and could spend the reserve if the lost reply to an applied
  transfer leaves an error text that mentions a nonce (`BlankIdPaysTwice`,
  `BlankIdSpendsReserve`, `ReserveNeedsMistake`). `OnceExactlyWhenSafe` and
  `ReserveExactlyWhenSafe` give the exact conditions.
* **Reserve check.** The balance is read once, before the first submission. On a
  validator a block can come between, and two transfers pass one check
  (`ReserveQueuedExactlyWhen`). On a node that applies at once, a submission that
  timed out can still arrive after the read, and then a retry that keeps its id
  takes a second transfer past the same check (`LateReserveExactlyWhen`). The
  check also comes before the duplicate is noticed, so the retry of a request
  that was paid can be answered as blocked by the reserve (`AppliedRetryReports`).
* **Frozen settings.** The refusal text at `QSDM/source/cmd/qsdm-edge-control/controller.go:161`
  means settings not to change under a live run. Check and write are separate
  critical sections, so they can, exactly when a change that passed its
  check is still in flight (`ChangesExactlyWhenPending`,
  `FrozenForLifeExactlyWhen`); and a run can start from a snapshot that is no
  longer stored (`MatchesForLifeExactlyWhen`).
* **Settling.** The provider clears a request's timer before it runs the page's
  `accountsChanged` listeners and settles the promise after them. A listener
  that throws leaves the request unsettled for good (`ThrowingListenerStrands`,
  `AllSettleExactlyWhen`).
* **Set operators.** `scripts/gen_grafana_dashboards.py:154` says the scan is true
  exactly when a set operator appears at the top level. It misses one that
  follows a bracket without a blank, and a threshold is then read from a compound
  expression (`FoundExactlyWhenSpaced`, `GluedOperatorIsMissed`).
* **Panel ids.** `scripts/gen_grafana_dashboards.py:28-31` says ids stay stable
  when alerts are added elsewhere. A new name shifts every id that sorts after it
  (`NewNameShifts`).
* **Commit root.** The ceremony's verifier does not refuse ids that contain a
  newline. Every accepted bundle of three or more participants, whatever its own
  ids, therefore has an accepted rival with the same commit root and one
  participant fewer (`NewlineIdUnbinds`); a bundle of two is bound if its ids hold
  no end of line (`BoundExactlyWhenTwo`).
* **Unsigned profiles.** The decision tree at `QSDM/source/cmd/qsdm/peer_keys.go:277-281`
  says an unsigned profile never passes once any key is pinned. A lenient gate
  passes one from a signer that is not pinned (`UnsignedPassesExactlyWhen`).
* **Quoting.** Carriage returns and other control characters do not survive
  printing and parsing (`RoundTripExactlyWhenClean`).
* **Utilisation.** The simulator's summary describes utilisation as about 0 to 1.
  Recycled spend, or a seed, takes it above one (`TwoEpochsOverOne`);
  `NeverOverOneExactlyWhen` gives the exact condition on the parameters and
  `DistributionBound` the bound that always holds.

## Model

| member | source | states |
|---|---|---|
| `PayoutLedger.Node.Receive` | QSDM/source/pkg/storage/sqlite_v041.go:273-420 | one submit-signed call on a node without a transfer queue, which applies at once and remembers every id: the checks of shape, nonce, duplicate id and balance in the handler's order, and the debit and log entry in one step |
| `PayoutSigner.Signer.Attempt` | QSDM/source/cmd/qsdm-game-signer/main.go:451-498 | signing and submitting under a given id and nonce, for every fate of the request and the reply: applied and answered, applied and lost, or never applied; later arrivals are in PayoutDelays and PayoutValidator |
| `PayoutSigner.Signer.HandlePay` | QSDM/source/cmd/qsdm-game-signer/main.go:309-388 | the whole handler under its lock: admission, reserve check, first attempt, one resync and one retry on a nonce error, and the nonce the signer keeps afterwards; equal to the pure step that all the run lemmas quantify over |
| `PayoutSigner.Signer.HandleResync` | QSDM/source/cmd/qsdm-game-signer/main.go:390-398 | an answered resync sets the cached nonce to the node's next one; an unanswered one changes nothing |
| `PayoutSafety.SubmissionEffect` | QSDM/source/cmd/qsdm-game-signer/main.go:451-498 | a submission applies exactly its own envelope at the node's next nonce under an id not seen before, or nothing; success is reported only in the first case or as a duplicate |
| `PayoutSafety.PayEffect` | QSDM/source/cmd/qsdm-game-signer/main.go:343-388 | a payout by a signer whose retry is safe applies nothing or exactly the transfer asked for, once, under the request's own id and within the reserve, even though the handler may submit twice |
| `PayoutSafety.PayKeepsCoherent` | QSDM/source/cmd/qsdm-game-signer/main.go:343-378 | one payout, whatever is lost, keeps the cached nonce at or below the node's next nonce, ids unique and nonces increasing |
| `PayoutSafety.RunKeepsCoherent` | QSDM/source/cmd/qsdm-game-signer/main.go:343-378 | the same over every run of payouts, client retries, resyncs and deposits, for both forms of the retry |
| `PayoutSafety.EntriesOnlyGrow` | QSDM/source/cmd/qsdm-game-signer/main.go:343-388 | no run ever removes or rewrites an applied transfer |
| `PayoutSafety.ExactlyOncePerRequest` | QSDM/source/cmd/qsdm-game-signer/main.go:448-450 | against a node that applies at once and remembers ids: over every run of a safe signer, started on an empty wallet or on one whose log is already in order, no two applied transfers answer the same request for the same purpose |
| `PayoutSafety.ExactlyOnceForRole` | QSDM/source/cmd/qsdm-game-signer/main.go:309-341 | against such a node, for a signer bound to a role on a wallet used for that role only, the guarantee is per request id alone |
| `PayoutSafety.SuccessMeansApplied` | QSDM/source/cmd/qsdm-game-signer/main.go:366-388 | against such a node a success answer names a transfer that is in the log, and unless it says duplicate this call put it there |
| `PayoutSafety.RetryIsDuplicate` | QSDM/source/cmd/qsdm-game-signer/main.go:448-498 | against such a node, once a request's transfer is in the log, whether or not anybody was told, paying it again after any further run moves no money and a success answer says duplicate |
| `PayoutSafety.BlankIdPaysTwice` | QSDM/source/cmd/qsdm-game-signer/main.go:361-366 | the retry as written, against a node that takes an empty id, pays one request twice: one lost reply, one refused nonce, one client retry |
| `PayoutSafety.OnceExactlyWhenSafe` | QSDM/source/cmd/qsdm-game-signer/main.go:343-388 | against such a node at-most-once over every run from every wallet in order holds if and only if the retry keeps its id, or the node refuses empty ids, or the configuration can pay nothing at all |
| `PayoutSafety.RunKeepsReserve` | QSDM/source/cmd/qsdm-game-signer/main.go:343-352 | over every run the balance stays at or above the reserve it started above, if the retry is safe or the reserve is not positive |
| `PayoutSafety.BlankIdSpendsReserve` | QSDM/source/cmd/qsdm-game-signer/main.go:361-366 | the retry as written can spend below a positive reserve: a first transfer is applied, its lost reply leaves an error text that mentions a nonce, and the retry spends a second one under the same check |
| `PayoutSafety.ReserveExactlyWhenSafe` | QSDM/source/cmd/qsdm-game-signer/main.go:343-378 | the reserve is kept over every run if and only if the retry is safe or the reserve is not positive |
| `PayoutSafety.ReserveNeedsMistake` | QSDM/source/cmd/qsdm-game-signer/main.go:361-366 | without a first submission that is applied while its lost reply mentions a nonce, every configuration keeps its reserve over every run |
| `PayoutSafety.KeptIdRecoversInOneCall` | QSDM/source/cmd/qsdm-game-signer/main.go:523-540 | from any reachable state, with the network up, one call that keeps its id pays, or reports the duplicate exactly if its id is in the log, and leaves both nonces equal; with or without a request id |
| `PayoutSafety.BlankedIdNeedsASecondCall` | QSDM/source/cmd/qsdm-game-signer/main.go:355-378 | as written, against a node that refuses empty ids, a call succeeds if and only if the cached nonce was right; otherwise it moves nothing, repairs the nonce, and the same call made again succeeds, as a duplicate exactly if its id is in the log |
| `PayoutSafety.AppliedRetryReports` | QSDM/source/cmd/qsdm-game-signer/main.go:347-378 | with the network up, the retry of an applied request is answered as a duplicate if and only if the reserve would allow the payment that is no longer needed; otherwise as blocked by the reserve, which is checked first |
| `PayoutSafety.AppliedRetryAsWritten` | QSDM/source/cmd/qsdm-game-signer/main.go:347-378 | the same for the retry as written against a node that refuses empty ids: with a stale nonce the first call fails and the second reports the duplicate |
| `PayoutDelays.PromptPay` | QSDM/source/cmd/qsdm-game-signer/main.go:343-388 | the handler with late arrivals between its calls, when none arrive, is the handler |
| `PayoutDelays.PromptRun` | QSDM/source/cmd/qsdm-game-signer/main.go:343-388 | and the same for whole runs |
| `PayoutDelays.FirstPartKeeps` | QSDM/source/cmd/qsdm-game-signer/main.go:347-361 | between the balance read and the first submission either nothing was applied, and the reserve check covers the envelope, or the envelope's nonce is too old to be applied |
| `PayoutDelays.LateRunKeeps` | QSDM/source/cmd/qsdm-game-signer/main.go:343-388 | the invariants of nonces, ids and reserve over every run in which any envelope ever sent may reach the node later, between any two calls, any number of times |
| `PayoutDelays.LateOnceExactlyWhenSafe` | QSDM/source/cmd/qsdm-game-signer/main.go:448-450 | against a node that applies at once and remembers ids, late and repeated arrivals never pay a request twice, for exactly the configurations that are safe without them |
| `PayoutDelays.LateArrivalSpendsReserve` | QSDM/source/cmd/qsdm-game-signer/main.go:347-366 | a retry that keeps its id lets two transfers pass one reserve check: the first request times out and arrives between the balance read and the submission of the second |
| `PayoutDelays.LateReserveExactlyWhen` | QSDM/source/cmd/qsdm-game-signer/main.go:347-378 | with late arrivals the reserve is kept over every run if and only if it is not positive, or nothing is ever paid, or the retry is the one as written against a node that refuses its empty id |
| `PayoutValidator.Validator.SubmitSigned` | QSDM/source/pkg/api/handlers.go:1372-1464 | one submit-signed call on a validator: shape, nonce against the last block, balance against the last block, then the queue, which answers duplicate for a queued id and for a queued nonce; nothing is applied yet |
| `PayoutValidator.Validator.ProduceBlock` | QSDM/source/pkg/chain/block.go:293-371 | a block drains the queue and applies the transfers whose nonce and balance are right |
| `PayoutValidator.Validator.Remove` | QSDM/source/pkg/mempool/mempool.go:255-272 | a transfer dropped from the queue |
| `PayoutValidator.QueueSigner.Attempt` | QSDM/source/cmd/qsdm-game-signer/main.go:451-498 | one submission to a validator over a network that keeps every envelope |
| `PayoutValidator.QueueSigner.HandlePay` | QSDM/source/cmd/qsdm-game-signer/main.go:309-388 | the same handler against a validator, with blocks, evictions, credits and late arrivals between any two of its calls |
| `PayoutValidator.SealApplies` | QSDM/source/pkg/chain/account.go:216-247 | in every reachable state a block applies the wallet's queued transfer, of which there is at most one |
| `PayoutValidator.BlocksNeverOverdraw` | QSDM/source/pkg/chain/account.go:230-233 | whatever is queued, a block never overdraws the wallet |
| `PayoutValidator.QueueRunKeeps` | QSDM/source/cmd/qsdm-game-signer/main.go:343-388 | over every run against a validator: at most one transfer queued, the cached nonce at most one ahead of the next one, mined nonces increasing |
| `PayoutValidator.CalmAnswer` | QSDM/source/cmd/qsdm-game-signer/main.go:343-388 | the exact answer to a retry that keeps its id, from every reachable state: duplicate if and only if anything of the wallet is queued or the id is remembered |
| `PayoutValidator.CalmAnswerAsWritten` | QSDM/source/cmd/qsdm-game-signer/main.go:343-388 | the same for the retry as written: with the right nonce that answer, otherwise a failure that repairs the nonce |
| `PayoutValidator.DuplicateIsTrueExactlyWhen` | QSDM/source/pkg/api/handlers.go:1438-1446 | a duplicate answer names a transfer the validator knows if and only if no transfer with another id is queued, or this one is mined |
| `PayoutValidator.OtherQueuedMisreports` | QSDM/source/pkg/api/handlers.go:1438-1446 | while another transfer is queued, a request the validator never heard of is reported as paid, and the next block does not pay it |
| `PayoutValidator.QueuedNonceMisreports` | QSDM/source/pkg/api/handlers.go:1438-1446 | a run from a new wallet in which that happens |
| `PayoutValidator.QueuedIsApplied` | QSDM/source/pkg/chain/block.go:293-371 | a queued transfer is applied by the next block whatever else happens, unless it is dropped from the queue |
| `PayoutValidator.MinedRequestIsPaidAgain` | QSDM/source/pkg/mempool/mempool.go:132-174 | a validator that forgets the ids of its blocks pays a request twice: paid, mined, asked for again, in either form of the retry and with nothing lost |
| `PayoutValidator.BlankIdIsPaidAgain` | QSDM/source/cmd/qsdm-game-signer/main.go:361-366 | a retry under a blank id that is not refused pays twice even against a validator that remembers |
| `PayoutValidator.OnceQueuedExactlyWhen` | QSDM/source/cmd/qsdm-game-signer/main.go:448-450 | at-most-once over every run against a validator holds if and only if nothing is ever paid, or the validator remembers the ids of its blocks and the retry is safe |
| `PayoutValidator.BlockBetweenSpendsReserve` | QSDM/source/cmd/qsdm-game-signer/main.go:347-361 | a block between the balance read and the submission takes two transfers past one reserve check, with nothing lost or late |
| `PayoutValidator.ReserveQueuedExactlyWhen` | QSDM/source/cmd/qsdm-game-signer/main.go:347-378 | against a validator the reserve is kept over every run if and only if it is not positive or nothing is ever paid |
| `PayoutRecords.PayPaysTheRequest` | QSDM/source/cmd/qsdm-game-signer/main.go:309-388 | field by field: whatever one payout applies goes from the operator wallet to the request's recipient, with its amount, purpose and request id, the configured fee, an id of its own and within the signer's limits; the balance falls by exactly amount and fee for each |
| `PayoutRecords.RunPaysWhatWasAsked` | QSDM/source/cmd/qsdm-game-signer/main.go:309-388 | over every run each transfer applied is one that some payout of the run asked for, field by field, and the balance is the start plus deposits minus what the transfers cost |
| `PayoutRecords.DeniedExactlyWhen` | QSDM/source/cmd/qsdm-game-signer/main.go:319-341 | a request is turned away if and only if its recipient, amount, purpose, request id or lengths break one of the listed limits |
| `PayoutRecords.PayLateSendsTheRequest` | QSDM/source/cmd/qsdm-game-signer/main.go:309-388 | with late arrivals: a payout sends only envelopes for its request, only what was sent is applied, and the balance falls by exactly what was applied |
| `PayoutRecords.LateRunPaysWhatWasAsked` | QSDM/source/cmd/qsdm-game-signer/main.go:309-388 | over every run with late arrivals each transfer applied is one that some payout of the run asked for |
| `PayoutRecords.PayQueuedSendsTheRequest` | QSDM/source/cmd/qsdm-game-signer/main.go:309-388 | against a validator: a payout sends only envelopes for its request, and only what was sent is ever queued or mined |
| `PayoutRecords.QueueRunPaysWhatWasAsked` | QSDM/source/cmd/qsdm-game-signer/main.go:309-388 | over every run against a validator each transfer queued or mined is one that some payout of the run asked for |
| `PayoutRecords.BlockCosts` | QSDM/source/pkg/chain/account.go:216-247 | a block that applies a queued transfer takes exactly its amount and fee from the wallet, or only the fee if the wallet pays itself |
| `EdgeController.Controller.CheckIdle` | QSDM/source/cmd/qsdm-edge-control/controller.go:181-190 | the first critical section of start, settings change and pairing: refused while running, otherwise a snapshot of the settings |
| `EdgeController.Controller.CommitStart` | QSDM/source/cmd/qsdm-edge-control/controller.go:211-226 | the committing section: refused if another start won, otherwise a new run id with every handle naming that run |
| `EdgeController.Controller.RetireRun` | QSDM/source/cmd/qsdm-edge-control/controller.go:229-244 | the runner's last section: clears the handles if the run id is still its own, and keeps the error of a run that was not cancelled |
| `EdgeController.Controller.ObserveRun` | QSDM/source/cmd/qsdm-edge-control/controller.go:261-277 | the only section of stop: which run to cancel and which to wait for |
| `EdgeController.Controller.StoreSettings` | QSDM/source/cmd/qsdm-edge-control/controller.go:153-179 | the writing section of a settings change, which does not look at the running flag |
| `EdgeController.EventLog.Write` | QSDM/source/cmd/qsdm-edge-control/controller.go:33-49 | one write adds at most one trimmed message and keeps the last hundred |
| `EdgeController.LogIsLastHundred` | QSDM/source/cmd/qsdm-edge-control/controller.go:33-49 | after any sequence of writes the log is the last hundred of all messages ever kept: trimming at each write loses nothing |
| `EdgeController.KeptIsTrimmed` | QSDM/source/cmd/qsdm-edge-control/controller.go:33-42 | a write keeps its first 2048 characters without the newlines at their end, and nothing if that leaves nothing |
| `EdgeInterleavings.EveryInterleaving` | QSDM/source/cmd/qsdm-edge-control/controller.go:181-277 | the invariant of all the others, under every interleaving of starts, stops, settings changes, pairings and runner exits |
| `EdgeInterleavings.AtMostOneLiveRun` | QSDM/source/cmd/qsdm-edge-control/controller.go:181-226 | at most one committed run is unretired, and the running flag holds exactly when one is |
| `EdgeInterleavings.RetiringRunIsCurrent` | QSDM/source/cmd/qsdm-edge-control/controller.go:229-244 | a retiring run always finds the controller's run id equal to its own, so the guard never fails |
| `EdgeInterleavings.StopOutlivesItsRun` | QSDM/source/cmd/qsdm-edge-control/controller.go:261-277 | a stop that returns through the finished channel has cancelled exactly the run it observed, and that run has ended for good |
| `EdgeInterleavings.FrozenExactlyWhenRechecked` | QSDM/source/cmd/qsdm-edge-control/controller.go:153-179 | what a recheck would give: of the variants of the code, exactly those whose writing section checks the running flag again never change the settings under a live run |
| `EdgeInterleavings.LiveMatchesExactlyWhen` | QSDM/source/cmd/qsdm-edge-control/controller.go:181-226 | of the variants of the code, exactly those that also read the settings again when committing keep every live run on the stored settings |
| `EdgeInterleavings.ChangesExactlyWhenPending` | QSDM/source/cmd/qsdm-edge-control/controller.go:153-179 | of the code as written, in every reachable state with a live run: some step can change the settings if and only if a change that passed its check is still pending with another value |
| `EdgeInterleavings.QuietStep` | QSDM/source/cmd/qsdm-edge-control/controller.go:153-179 | while a run is live no operation becomes a writer: with no differing change pending, no step changes the settings or makes one pending |
| `EdgeInterleavings.FrozenForLifeExactlyWhen` | QSDM/source/cmd/qsdm-edge-control/controller.go:153-226 | from any moment of a run's life, its commit included, the settings are frozen for the rest of it if and only if no differing change was in flight at that moment |
| `EdgeInterleavings.SnapshotIsFromCheck` | QSDM/source/cmd/qsdm-edge-control/controller.go:181-226 | through any other steps a start keeps the snapshot of its check until it commits |
| `EdgeInterleavings.MatchesForLifeExactlyWhen` | QSDM/source/cmd/qsdm-edge-control/controller.go:181-226 | a start runs on the stored settings for its whole life if and only if the settings at its commit are those at its check and no differing change is pending at the commit |
| `EdgeInterleavings.OvertakenRuns` | QSDM/source/cmd/qsdm-edge-control/controller.go:153-190 | the interleaving that breaks it: a settings change passes its check, a start commits, the change is still pending |
| `EdgeInterleavings.StaleStartRuns` | QSDM/source/cmd/qsdm-edge-control/controller.go:181-226 | the second interleaving: a start commits a snapshot older than the stored settings |
| `EdgeInterleavings.ActiveRoleIsValidated` | QSDM/source/cmd/qsdm-edge-control/controller.go:181-226 | what holds as written, under every interleaving: each run came from a snapshot that passed validation and was once the stored settings, and the active role is that snapshot's |
| `EdgeInterleavings.LiveRoleIsKnown` | QSDM/source/cmd/qsdm-edge-control/controller.go:194-203 | under every interleaving the role of a live run is agent or relay |
| `EdgeInterleavings.ErrorKeptUnlessCancelled` | QSDM/source/cmd/qsdm-edge-control/controller.go:229-244 | under every interleaving, when a live run exits with an error the error is kept if and only if the run was not cancelled |
| `EdgeInterleavings.ErrorChangesOnlyBy` | QSDM/source/cmd/qsdm-edge-control/controller.go:153-244 | only an exiting run and a start that fails to prepare leave an error, a commit and a settings change clear it, and nothing else touches it |
| `EdgeInterleavings.SuccessClearsError` | QSDM/source/cmd/qsdm-edge-control/controller.go:153-226 | a start that commits and a settings change that is stored leave no error |
| `EdgeInterleavings.PairingStores` | QSDM/source/cmd/qsdm-edge-control/controller.go:422-451 | a pairing stores the snapshot it took as an agent of the paired relay |
| `RefTable.GoRuntime.constructor` | QSDM/deploy/landing/wasm_exec.js:485-503 | the seven preset slots with infinite counts, their inverse map, an empty pool |
| `RefTable.GoRuntime.StoreValue` | QSDM/deploy/landing/wasm_exec.js:147-195 | storing a value: numbers and undefined by value, everything else by a counted id, reused, popped from the pool or fresh, with a flag that says object, string, symbol, function or none of these |
| `RefTable.GoRuntime.LoadValue` | QSDM/deploy/landing/wasm_exec.js:134-145 | loading a word |
| `RefTable.GoRuntime.FinalizeRef` | QSDM/deploy/landing/wasm_exec.js:313-323 | finalising a reference: one count less, and at zero the slot, its inverse entry and the pool change together |
| `RefTable.StoreKeepsSound` | QSDM/deploy/landing/wasm_exec.js:147-195 | storing keeps presets, exact counts, a duplicate-free pool disjoint from live ids, and the inverse map, with one more reference held |
| `RefTable.FinalizeKeepsSound` | QSDM/deploy/landing/wasm_exec.js:313-323 | finalising a held reference keeps all of these with one reference fewer |
| `RefTable.NextKeepsGood` | QSDM/deploy/landing/wasm_exec.js:134-195 | one store or finalisation keeps the invariant and the exact table length |
| `RefTable.After` | QSDM/deploy/landing/wasm_exec.js:134-195 | the invariant holds after every run of stores and of finalisations of held references |
| `RefTable.HeldReferencesLoad` | QSDM/deploy/landing/wasm_exec.js:134-195 | over every run each held reference loads back the value it was given for, and two held references share an id exactly when they share a value |
| `RefTable.StoreThenLoad` | QSDM/deploy/landing/wasm_exec.js:134-195 | after any run, loading the word a store returns gives the stored value, for every JavaScript value |
| `RefTable.LiveCount` | QSDM/deploy/landing/wasm_exec.js:147-195 | ids in use and distinct live values correspond one to one |
| `RefTable.TableIsAsLongAsThePeak` | QSDM/deploy/landing/wasm_exec.js:147-195 | over every run the table has exactly seven slots plus the peak number of live values; pooled ids are distinct, unheld and never preset |
| `RefTable.StoredWordTells` | QSDM/deploy/landing/wasm_exec.js:147-195 | after any run the word a store returns tells the kind of the value: zero for undefined, the number itself, or a reference whose flag is that of the value it loads |
| `RefTable.HeldFlagTells` | QSDM/deploy/landing/wasm_exec.js:175-193 | over every run each held reference's flag tells the kind of value it loads |
| `RefTable.PresetWords` | QSDM/deploy/landing/wasm_exec.js:485-502 | after any run the seven preset values are stored under the ids 0 to 6 that Go knows them by |
| `RefTable.FreedSlotIsReused` | QSDM/deploy/landing/wasm_exec.js:313-323 | freeing the last reference to a slot clears it, and the next new value gets that slot |
| `Ceremony.VerifyBundle` | QSDM/source/cmd/genesis-ceremony/main.go:341-452 | the verifier accepts a bundle if and only if it is consistent: every check, in the code's order, with early returns |
| `Ceremony.CheckOrder` | QSDM/source/cmd/genesis-ceremony/main.go:361-367 | the ordering loop decides strictly ascending ids |
| `Ceremony.CheckReveals` | QSDM/source/cmd/genesis-ceremony/main.go:379-394 | the reveal loop succeeds if and only if every reveal decodes to 32 bytes and opens its commit, and then returns their concatenation |
| `Ceremony.CheckSignatures` | QSDM/source/cmd/genesis-ceremony/main.go:417-437 | the signature loop decides that every key and signature decodes and verifies |
| `Ceremony.MakeDrafts` | QSDM/source/cmd/genesis-ceremony/main.go:228-247 | the loop that fills in the participants |
| `Ceremony.ConcatReveals` | QSDM/source/cmd/genesis-ceremony/main.go:260-263 | the concatenation loop gives what a verifier recomputes from the published hex |
| `Ceremony.SignDrafts` | QSDM/source/cmd/genesis-ceremony/main.go:305-314 | the signing loop |
| `Ceremony.RunCeremony` | QSDM/source/cmd/genesis-ceremony/main.go:218-336 | for every number of participants from two up, all keys, reveals and supplies that add up in 64 bits, the producer's bundle is consistent, hence accepted; it refuses exactly otherwise |
| `Ceremony.SealIsConsistent` | QSDM/source/cmd/genesis-ceremony/main.go:254-323 | sealing any honest participants in id order gives a consistent bundle |
| `Ceremony.SortedIsUnique` | QSDM/source/cmd/genesis-ceremony/main.go:249-252 | two id-sorted arrangements of the same participants are the same sequence, so any sort gives the same bundle |
| `Ceremony.SubmissionOrderIsIrrelevant` | QSDM/source/cmd/genesis-ceremony/main.go:249-252 | permuting the participants before the sort changes nothing after it |
| `Ceremony.SealIgnoresOrder` | QSDM/source/cmd/genesis-ceremony/main.go:249-264 | hence neither commit root nor seed nor any other field depends on the order of submission |
| `Ceremony.ContributionsAreDistinct` | QSDM/source/cmd/genesis-ceremony/main.go:240-240 | the generated ids are distinct for every count, including those of three and more digits |
| `Text.DecimalStandsFor` | QSDM/source/cmd/genesis-ceremony/main.go:240-240 | the number in a generated id reads back, most significant digit first |
| `Text.LessAtFirstDifference` | QSDM/source/cmd/genesis-ceremony/main.go:249-252 | ids are ordered by their first difference, a proper prefix coming first |
| `Text.HexDigitsAt` | QSDM/source/cmd/genesis-ceremony/main.go:458-462 | hexadecimal text has the high digit of each byte first |
| `Ceremony.CommitTextInjective` | QSDM/source/cmd/genesis-ceremony/main.go:254-258 | with ids on both sides that hold no end of line, one-line ids among them, the committed text determines all ids and commits |
| `Ceremony.CommitRootBinds` | QSDM/source/cmd/genesis-ceremony/main.go:370-401 | a bundle of two participants whose ids hold no end of line is bound by its commit root against every accepted bundle, a larger one against those with such ids: same ids, commits, raw reveals and seed, or a named pair of hashed texts is a collision |
| `Ceremony.GenesisHashBinds` | QSDM/source/cmd/genesis-ceremony/main.go:403-415 | a bundle with one-line header fields is bound by its genesis hash against every accepted bundle: same ceremony id, network, treasury address, parameters, commit root and seed, or the two genesis texts collide |
| `Ceremony.BundleHashBinds` | QSDM/source/cmd/genesis-ceremony/main.go:317-323 | two accepted bundles with one-line ids and finishing times and equal bundle hashes have the same genesis hash, finishing time and, participant by participant, ids and signatures, or the two texts collide |
| `Ceremony.RevealsAt` | QSDM/source/cmd/genesis-ceremony/main.go:260-263 | the concatenation holds each participant's reveal at its place |
| `Ceremony.SupplyAddsUpExactlyWhen` | QSDM/source/cmd/genesis-ceremony/main.go:222-225 | the supply check passes if and only if the sum is right or wraps around to the total at 64 bits |
| `Ceremony.NewlineIdUnbinds` | QSDM/source/cmd/genesis-ceremony/main.go:361-377 | every accepted bundle of three or more participants has a rival that anybody can make: accepted, with the same commit text and root and one participant fewer, whatever the hash |
| `Ceremony.OtherReadingIsCoarser` | QSDM/source/cmd/genesis-ceremony/main.go:370-377 | whatever reads the text of participants with such ids has at most as many participants, and the same ones if it has as many |
| `Ceremony.BoundExactlyWhenTwo` | QSDM/source/cmd/genesis-ceremony/main.go:361-377 | for an accepted bundle whose ids hold no end of line, every accepted bundle with its commit text has its ids and commits if and only if it has exactly two participants |
| `CellSim.TotalScore` | QSDM/source/cmd/qsdm-cell-sim/main.go:117-127 | the loop over the active set: score total and head count |
| `CellSim.ShareOf` | QSDM/source/cmd/qsdm-cell-sim/main.go:131-141 | one account's share: proportional, capped, floored to eight decimals |
| `CellSim.Distribute` | QSDM/source/cmd/qsdm-cell-sim/main.go:128-145 | the payout loop in place: holdings, distributed total and capped count |
| `CellSim.PayActive` | QSDM/source/cmd/qsdm-cell-sim/main.go:117-146 | the guarded payout: nobody is paid from an empty pool or for no score |
| `CellSim.Market` | QSDM/source/cmd/qsdm-cell-sim/main.go:152-166 | the marketplace loop in place: who is no active buyer keeps its holding, and a buyer gives up a whole basket, or all it has if that is less |
| `CellSim.SumHeld` | QSDM/source/cmd/qsdm-cell-sim/main.go:171-173 | the holdings total |
| `CellSim.RunEpoch` | QSDM/source/cmd/qsdm-cell-sim/main.go:107-175 | one epoch end to end |
| `CellSim.Simulate` | QSDM/source/cmd/qsdm-cell-sim/main.go:93-178 | the whole simulation, epoch by epoch |
| `CellEconomics.EpochMoves` | QSDM/source/cmd/qsdm-cell-sim/main.go:107-175 | an epoch moves money between pool, players and studio, and only funding adds any |
| `CellEconomics.EpochPurchases` | QSDM/source/cmd/qsdm-cell-sim/main.go:152-166 | in every epoch, whoever is no active buyer keeps what it has with its payout, and a buyer gives up a whole basket of it, or all |
| `CellEconomics.EpochSpentWithinBaskets` | QSDM/source/cmd/qsdm-cell-sim/main.go:152-166 | what an epoch spends is at most a basket for every active buyer |
| `CellEconomics.FundingBuysAtPrice` | QSDM/source/cmd/qsdm-cell-sim/main.go:110-114 | the funding times the price is the pool's share of the revenue; without a price there is none |
| `CellEconomics.RowAddsUp` | QSDM/source/cmd/qsdm-cell-sim/main.go:107-175 | how the columns of a row hang together: pool before and after, carry-over, holdings, spend, head count and average |
| `CellEconomics.NobodyCappedExactlyWhen` | QSDM/source/cmd/qsdm-cell-sim/main.go:131-136 | no account is counted as capped if and only if every active account's proportional share is within the cap |
| `CellEconomics.Conservation` | QSDM/source/cmd/qsdm-cell-sim/main.go:93-178 | after any number of epochs and for all parameters, seed plus funding is pool plus holdings plus studio take |
| `CellEconomics.ConservationInPrint` | QSDM/source/cmd/qsdm-cell-sim/main.go:93-178 | the same in the printed columns: last PoolAfter, last Recycled, last PlayerHeld and total StudioTake |
| `CellEconomics.PayoutsWithinPool` | QSDM/source/cmd/qsdm-cell-sim/main.go:128-146 | an epoch never pays out more than the pool |
| `CellEconomics.PayoutsWithinCap` | QSDM/source/cmd/qsdm-cell-sim/main.go:131-141 | no account is paid above the cap or below nothing |
| `CellEconomics.RemainderIsDust` | QSDM/source/cmd/qsdm-cell-sim/main.go:128-146 | with no capped account the undistributed remainder is below active players times 1e-8 |
| `CellEconomics.AlwaysSolvent` | QSDM/source/cmd/qsdm-cell-sim/main.go:93-178 | pool and every holding stay non-negative over every run |
| `CellEconomics.RunningTotals` | QSDM/source/cmd/qsdm-cell-sim/main.go:93-178 | pool and holdings in closed form from the column totals, over every run |
| `CellEconomics.TotalsOrdered` | QSDM/source/cmd/qsdm-cell-sim/main.go:93-178 | players never spend more than was distributed, nor the pool more than it received |
| `CellEconomics.DistributionBound` | QSDM/source/cmd/qsdm-cell-sim/main.go:93-178 | with 0 <= SRR < 1 the total distributed over all epochs is at most (seed + funded) / (1 - SRR) |
| `CellEconomics.Summarize` | QSDM/source/cmd/qsdm-cell-sim/main.go:240-279 | the accumulating loop: totals, averages, utilisation and verdict from the column totals; the empty run gives the zero summary |
| `CellEconomics.VerdictExactlyWhen` | QSDM/source/cmd/qsdm-cell-sim/main.go:268-277 | when each verdict is given, in terms of the totals |
| `CellUtilization.WithinFunding` | QSDM/source/cmd/qsdm-cell-sim/main.go:93-178 | without recycling, and with a seed that never completes a unit of dust, no run distributes more than was funded |
| `CellUtilization.SeedIsPaidOut` | QSDM/source/cmd/qsdm-cell-sim/main.go:93-178 | a seed that does complete one is paid out beyond the funding by some run |
| `CellUtilization.RecyclingIsPaidOut` | QSDM/source/cmd/qsdm-cell-sim/main.go:93-178 | with any recycling, funding and spending at all, and a cap of at least a unit of dust, some run distributes more than was funded |
| `CellUtilization.NeverOverOneExactlyWhen` | QSDM/source/cmd/qsdm-cell-sim/main.go:235-235 | over all players, epochs and draws utilisation never passes one if and only if nothing is funded, or the cap is below a unit of dust, or nothing is recycled and the seed never completes a unit of dust |
| `CellUtilization.TwoEpochsOverOne` | QSDM/source/cmd/qsdm-cell-sim/main.go:235-235 | two epochs of one player with half of its spend recycled: 2.5 distributed against 2 funded |
| `WalletPage.Provider.Request` | apps/qsdm-hive-wallet-extension/provider.js:46-64 | a request with a proper method name becomes pending with an armed timer; any other is refused |
| `WalletPage.Provider.OnMessage` | apps/qsdm-hive-wallet-extension/provider.js:16-41 | a response deletes the pending request it names, clears its timer, runs the page's listeners for an announced success, and settles the promise unless a listener threw |
| `WalletPage.FalsyValues` | apps/qsdm-hive-wallet-extension/provider.js:29-29 | the values that count as not ok |
| `WalletPage.Provider.OnTimeout` | apps/qsdm-hive-wallet-extension/provider.js:54-57 | an armed timer rejects its request |
| `WalletNative.NativeCall.FinishWith` | apps/qsdm-hive-wallet-extension/background.js:25-31 | the first answer wins and disarms the timer; later ones are ignored |
| `WalletNative.NativeCall.OnEvent` | apps/qsdm-hive-wallet-extension/background.js:15-58 | reply, disconnect, thrown error and timeout in any order settle the call once |
| `WalletProtocol.AlwaysOrderly` | apps/qsdm-hive-wallet-extension/provider.js:16-64 | over every run each request is pending with its timer armed, or settled once, or lost to a throwing listener, never two of these, and the lost ones are exactly those whose good reply met a throwing listener |
| `WalletProtocol.SettlesOnce` | apps/qsdm-hive-wallet-extension/provider.js:16-64 | for any order of replies, disconnects, errors, losses, timeouts and throwing listeners each request settles at most once, and one without a timer has settled if and only if no good reply to it met a throwing listener |
| `WalletProtocol.AllSettleExactlyWhen` | apps/qsdm-hive-wallet-extension/provider.js:25-40 | when no timer is left, every request has settled if and only if no good reply to QSD_requestAccounts or QSD_disconnect met a throwing listener |
| `WalletProtocol.ThrowingListenerStrands` | apps/qsdm-hive-wallet-extension/provider.js:25-35 | the run: a listener throws when the accounts arrive, and the request is neither pending nor timed nor ever settled |
| `WalletProtocol.PageMessageFields` | apps/qsdm-hive-wallet-extension/content.js:15-19 | the content script's id and source win over whatever the response carries |
| `WalletProtocol.AlwaysCorrelated` | apps/qsdm-hive-wallet-extension/background.js:15-95 | over every run each truthy response in flight stems from the port of the request it names |
| `WalletProtocol.ResolvesWithOwnReply` | apps/qsdm-hive-wallet-extension/content.js:15-75 | a promise resolves only with the result its own port replied, even if that reply carries another id or source |
| `WalletProtocol.MessageSettles` | apps/qsdm-hive-wallet-extension/provider.js:25-40 | a message that names a pending request adds exactly one settlement: resolved with its result if its ok is truthy and no listener throws, rejected if its ok is falsy |
| `WalletProtocol.ReplyReachesItsPromise` | apps/qsdm-hive-wallet-extension/background.js:15-95 | end to end: if the port of a request replies with truthy ok, the answer is not lost, the request is still pending when it arrives and no listener throws, the promise is settled with that result for good |
| `WalletProtocol.SixMethodsPass` | apps/qsdm-hive-wallet-extension/content.js:44-64 | each of the six wallet methods gets to the background, and any other name is answered with a rejection |
| `TailFile.Tail` | QSDM/source/cmd/qsdm-local-gui/main.go:883-920 | the backward chunked loop returns what the whole-file reader returns, for every file, count and chunk size, and terminates; at most n lines, the last of them not blank |
| `TailFile.SplitIsExact` | QSDM/source/cmd/qsdm-local-gui/main.go:911-911 | the reference split loses nothing and leaves no newline inside a piece |
| `TailFile.SplitInFront` | QSDM/source/cmd/qsdm-local-gui/main.go:900-912 | reading further back changes no piece but the first |
| `TailFile.SuffixDecides` | QSDM/source/cmd/qsdm-local-gui/main.go:900-915 | a suffix with more than n pieces already determines the last n, so stopping there is right |
| `TailFile.OnlyBlankEndIsDropped` | QSDM/source/cmd/qsdm-local-gui/main.go:916-918 | the result is a prefix of the last n pieces, ends in no blank line, and lacks only blank ones |
| `KvBlock.MatchName` | scripts/gen_promtool_tests.py:325-329 | the longest identifier at a position |
| `KvBlock.ReadQuoted` | scripts/gen_promtool_tests.py:336-358 | the quoted-value loop with its escapes, including a value that is never closed |
| `KvBlock.ParseBlock` | scripts/gen_promtool_tests.py:312-359 | the parser terminates on every input and equals the recursive reader |
| `KvBlock.YamlQuoted` | scripts/gen_promtool_tests.py:399-425 | the printing loop |
| `KvBlock.UnquotePrinted` | scripts/gen_promtool_tests.py:336-425 | a printed value is read back up to its own closing quote, whatever follows |
| `KvBlock.EchoedExactlyWhenClean` | scripts/gen_promtool_tests.py:399-425 | a value survives printing and reading if and only if its only control characters are newline and tab |
| `KvBlock.ParsePrinted` | scripts/gen_promtool_tests.py:312-425 | parsing printed entries stores each entry's echo, the last of a repeated name winning |
| `KvBlock.ParseStopsAt` | scripts/gen_promtool_tests.py:325-327 | reading stops at anything that is not an identifier |
| `KvBlock.RoundTripExactlyWhenClean` | scripts/gen_promtool_tests.py:312-425 | a map with identifier keys, printed in any order with any separators, parses back to itself if and only if all its values are clean |
| `Promql.Scan` | scripts/gen_grafana_dashboards.py:209-245 | one scan collects exactly the comparison tokens of an independent definition over quoting state and bracket depth |
| `Promql.TokensAreComparisons` | scripts/gen_grafana_dashboards.py:209-245 | every token is an unquoted comparison at depth zero, and tokens do not overlap |
| `Promql.LastTokenReaches` | scripts/gen_grafana_dashboards.py:246-249 | no comparison starts after the last token ends |
| `Promql.TokenExactlyWhenComparison` | scripts/gen_grafana_dashboards.py:246-247 | there is a token if and only if there is an unquoted comparison at depth zero |
| `Promql.OperatorByCharacters` | scripts/gen_grafana_dashboards.py:236-240 | longest match by characters: two if an equals sign follows one of the four, one for a bare less-than or greater-than, nothing otherwise |
| `Promql.BareOperatorCompares` | scripts/gen_grafana_dashboards.py:235-240 | after text without quotes and brackets a comparison operator is a comparison |
| `Promql.BracketsHide` | scripts/gen_grafana_dashboards.py:227-234 | inside brackets of any of the three kinds nothing compares |
| `Promql.QuotesHide` | scripts/gen_grafana_dashboards.py:215-226 | inside quotes of either kind nothing compares |
| `Promql.SplitAtRightmost` | scripts/gen_grafana_dashboards.py:199-249 | None if and only if there is no top-level comparison; otherwise the split is at the last token of the scan, prefix, operator and suffix rebuild the text, no comparison starts after it, and the sides are their stripped forms |
| `Promql.HasTopLevelSetOp` | scripts/gen_grafana_dashboards.py:153-196 | true if and only if a set operator stands unquoted at depth zero at the start or after whitespace, and at the end or before whitespace or an opening bracket |
| `Promql.FoundExactlyWhenSpaced` | scripts/gen_grafana_dashboards.py:181-195 | of the whole words `and`, `or` and `unless` at the top level, the scan finds exactly those that are spaced this way |
| `Promql.GluedOperatorIsMissed` | scripts/gen_grafana_dashboards.py:153-154 | an expression with a set operator right after a bracket: it is at the top level, it is not found, and the expression is split at its comparison |
| `Promql.ParseThreshold` | scripts/gen_grafana_dashboards.py:252-288 | a threshold comes only from the last token of the scan, when no set operator is found, the operator orders and the right side is a number; in every other case the whole expression is returned, and one of these reasons holds |
| `Dashboard.StablePanelIds` | scripts/gen_grafana_dashboards.py:298-305 | the ids are the counts of names up to each name, repeated names included; they are distinct and at most the number of alerts, and with distinct names each is one plus the number of names sorting before it |
| `Dashboard.IdsIgnoreFileOrder` | scripts/gen_grafana_dashboards.py:298-305 | every rearrangement of the alerts file, repeated names included, gives the same id map |
| `Dashboard.NewNameShifts` | scripts/gen_grafana_dashboards.py:28-31 | a name added anywhere in the file moves up by one exactly the ids of the names sorting at or after it, and no other |
| `Dashboard.GroupByRunbook` | scripts/gen_grafana_dashboards.py:116-121 | each mentioned runbook gets its alerts in file order, and no others |
| `Dashboard.OfRunbookAppend` | scripts/gen_grafana_dashboards.py:116-121 | picking a runbook's alerts keeps the order of the file and picks exactly those |
| `Dashboard.LayoutPanels` | scripts/gen_grafana_dashboards.py:486-506 | four panels of six by six to a row, and the next free row |
| `Dashboard.GridIsFourAcross` | scripts/gen_grafana_dashboards.py:486-506 | panel by panel: six by six, four across from the left edge, the next four six rows below, each with its alert's name and id |
| `Dashboard.SectionBegins` | scripts/gen_grafana_dashboards.py:534-555 | a section is a full-width row with the runbook's name, and its panels from the next row on |
| `Dashboard.SectionsAreTidy` | scripts/gen_grafana_dashboards.py:486-557 | for any groups, rows and panels neither overlap nor leave the grid |
| `Dashboard.FlattenPermutes` | scripts/gen_grafana_dashboards.py:116-121 | grouping by distinct keys that cover all runbooks rearranges the alerts and loses none |
| `Dashboard.LayoutSections` | scripts/gen_grafana_dashboards.py:527-557 | the row-by-row loop of the overview |
| `Dashboard.BuildMaster` | scripts/gen_grafana_dashboards.py:527-557 | for every alert list each alert is shown as often as listed, nothing overlaps or leaves the 24 columns, and all ids differ if and only if all names do |
| `NativeHost.LengthRoundTrip` | QSDM/source/cmd/qsdm-hive-wallet-host/main.go:109-136 | the four-byte length reads back |
| `NativeHost.ReadsFrame` | QSDM/source/cmd/qsdm-hive-wallet-host/main.go:109-125 | reading a written frame gives its payload and what follows |
| `NativeHost.ServeMessages` | QSDM/source/cmd/qsdm-hive-wallet-host/main.go:195-213 | the loop's output and ending, as a function of the input stream and the wallet's replies |
| `NativeHost.AnswersInOrder` | QSDM/source/cmd/qsdm-hive-wallet-host/main.go:195-213 | any sequence of valid requests is answered one frame each, in order, and what follows is served as if it came first |
| `NativeHost.EndsQuietly` | QSDM/source/cmd/qsdm-hive-wallet-host/main.go:197-200 | input ending between frames, or exactly after a good length header, adds no frame |
| `NativeHost.BreaksOnce` | QSDM/source/cmd/qsdm-hive-wallet-host/main.go:201-203 | the first malformed frame adds one error frame and ends the service, whatever follows |
| `NativeHost.BrokenExactlyWhen` | QSDM/source/cmd/qsdm-hive-wallet-host/main.go:109-125 | which bytes are a malformed frame: one to three of them; an announced length of zero or above the limit; some payload but less than announced; a payload that is not JSON |
| `NativeHost.LeastSignificantFirst` | QSDM/source/cmd/qsdm-hive-wallet-host/main.go:109-113 | the announced length has its least significant byte first |
| `NativeHost.BadReplyStops` | QSDM/source/cmd/qsdm-hive-wallet-host/main.go:205-211 | a reply that is out of range ends the service with nothing more written |
| `NativeHost.FramesInjective` | QSDM/source/cmd/qsdm-hive-wallet-host/main.go:127-136 | the output decodes uniquely: equal streams carry equal replies |
| `PeerKeys.Registry.constructor` | QSDM/source/cmd/qsdm/peer_keys.go:149-154 | no keys, lenient, freshness off, five minutes of skew, all counters zero |
| `PeerKeys.Registry.Judge` | QSDM/source/cmd/qsdm/peer_keys.go:310-387 | the decision tree: each outcome, and acceptance if and only if the profile is trusted and fresh |
| `PeerKeys.Registry.VerifyAndAcceptAt` | QSDM/source/cmd/qsdm/peer_keys.go:310-387 | one call counts its outcome in exactly one counter, leaves the settings alone and is appended to the history |
| `PeerKeys.Registry.Add` | QSDM/source/cmd/qsdm/peer_keys.go:203-218 | a key is pinned, under the trimmed id, if and only if that id has the prefix and the key 16 bytes; otherwise nothing changes |
| `PeerKeys.Registry.SetStrict` | QSDM/source/cmd/qsdm/peer_keys.go:227-231 | sets the strict flag and nothing else |
| `PeerKeys.Registry.SetWindow` | QSDM/source/cmd/qsdm/peer_keys.go:161-179 | sets the freshness window and nothing else |
| `PeerKeys.ExplanationIsUnique` | QSDM/source/cmd/qsdm/peer_keys.go:310-387 | the conditions on the outcomes leave no choice: they determine the answer |
| `PeerKeys.OutcomeByFields` | QSDM/source/cmd/qsdm/peer_keys.go:310-387 | each outcome in terms of the profile's and the gate's own fields |
| `PeerKeys.CountersAddUp` | QSDM/source/cmd/qsdm/peer_keys.go:389-401 | over every history the six counters add up to the verify calls that were given a profile |
| `PeerKeys.ReplayStaysRejected` | QSDM/source/cmd/qsdm/peer_keys.go:345-374 | with a positive maximum age a profile is accepted only from issue minus skew to issue plus age plus skew; once too old it stays rejected, whatever keys are pinned or flags flipped later |
| `PeerKeys.UnsignedPassesExactlyWhen` | QSDM/source/cmd/qsdm/peer_keys.go:310-343 | with any key pinned an unsigned profile passes if and only if its signer is not pinned, the gate is lenient and the profile is fresh |
| `PeerKeys.UnsignedPasses` | QSDM/source/cmd/qsdm/peer_keys.go:277-281 | a setting that refutes the documented promise that no unsigned profile passes once any key is pinned |
| `TrayMonitor.ChainMonitor.UpdateChainProgress` | apps/qsdm-tray-monitor/Program.cs:431-456 | the stored height is the maximum ever seen, dated by its first sighting, and both answers are closed-form statements about the whole history of samples |
| `TrayMonitor.GatewayMonitor.StableGatewayPublic` | apps/qsdm-tray-monitor/Program.cs:414-429 | the gateway counts as public if and only if one of the last three probes was good and, if an earlier one, under two minutes ago |

## Left out

- Hashing of transaction ids: an id is the value the hash is taken of, so the 16-digit truncation and the `%.8f` rendering of amounts are not modelled; requests are taken after trimming and lower-casing; amounts are reals; the nonce does not wrap at 64 bits.
- PayoutLedger.Node.Receive: does not model the node's bounds on amounts, its geotag and submesh policies or its storage errors; to the signer they are refusals that apply nothing, which are among the fates of a submission.
- Other spenders of the wallet, other validators' blocks, a queue that is full for other senders' transfers (a refusal among the fates) and pushes transfers out by fee (an eviction). A restart of the signer is a resync event.
- EdgeInterleavings: the 250 ms wait at the end of start and the inside of preparing an agent or relay are one flag each; validation beyond the role is one verdict; run ids do not wrap at 64 bits.
- RefTable: the bit layout of a boxed word is an abstract word with a type flag and an id; the argument and string layout in linear memory (`strPtr`, the argv block) is not modelled; only held references are finalised.
- Ceremony: SHA3-256 (FIPS 202), Ed25519 (section 5.1 of RFC 8032) and the JSON text are parameters with the stated laws; binding is stated up to a named collision pair; reveals are compared as bytes, since the hex text may differ in letter case; the ceremony id and finishing time are inputs; a missing bundle, StartedAt, ProducedBy, Notes and the scrubbing of keys are left out.
- CellSim: reals in place of floating point; the scores and each epoch's choices are inputs in place of the random generator, so a participation rate of zero or one restricts nothing.
- WalletPage.Provider.Request: does not model parameters that cannot be cloned, on which posting the request throws after the entry and the timer are set; the promise is then rejected at once and the timer later removes the entry.
- WalletExtension: origins and other security questions, what listeners do beside throwing, and the popup's own messages; request ids are fresh and nobody else posts responses; the page treats an array reply as a record.
- TailFile.Tail: read errors and files that change while being read; the chunk size is any positive number and blankness any test that holds of the empty line; a negative count is not modelled.
- Promql: the conversion of the right side to a number is a parameter.
- Dashboard: panel contents (queries, colours, links), the alert count in a row's title and the per-runbook dashboards, which are one block of the same layout.
- NativeHost: the wallet's replies and the error text are parameters; partial writes are not modelled.
- PeerKeys: parsing keys from the environment, the telemetry signature check (a parameter) and 64-bit wrap of counters and durations.
- TrayMonitor: polling, icons and process scanning; counters do not wrap.
- HTTP handlers, sockets, TLS, process and service control, settings files and deployment scripts, which hold no state worth a proof.
- The rest of the ledger packages under `QSDM/source/pkg`.
