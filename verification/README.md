# Rally, verified

Rally is a governed multi-agent runner with a cloud control plane. Agents propose; small deterministic
state machines decide. This project models those machines and proves what they guarantee over whole
runs, crashes and interleavings, for every proposal, message and request.

| part | files | what is proved |
|---|---|---|
| The checklist | `Envelope`, `EnvelopeLaws` | an order-free table of grants; scope, custody and verification for arbitrary proposals |
| The governed run | `RunState`, `Runner`, `RunLaws`, `SecondWindLaws`, `TurnLaws`, `RejectionLaws`, `ProgressLaws`, `Console` | independent verification over whole runs, round robin, how a turn ends, the exact dispatch bound, the Second Wind ledger, what "complete" means |
| The connector vault | `Vault`, `VaultLaws`, `MemoryVault`, `GoogleVault`, `Executor`, `VaultProgress` | which verdicts and claims take effect, certification, lease fencing, the unreachable fallback, the disconnect latch; the two vaults against each other; an execution and its lease |
| The commission store | `CommissionStore`, `CommissionLaws`, `ReclaimLaws` | when an attempt may be resumed, fencing under every interleaving; the Firestore store refines the memory store |
| Inbox to report | `Delivery`, `DeliveryLaws`, `MailLaws`, `Commands`, `CoordinatorLaws`, `Intake`, `IntakeLaws` | crash safety, what is submitted and when not, one run per key, one text per idempotency key, concurrent intake |
| Ledgers and one-use stores | `SendLedger`, `Approvals`, `ApprovalLaws`, `ApprovalTerms`, `OAuthFlows`, `OAuthLaws`, `MagicLinks`, `SignInLaws` | who is let in and until when, limits against the full history, conservation, single use, equal backends |
| The mail scanner | `AuthResults` | both automata against the grammar of comments and quoted strings |

Objects that the source updates in place are classes whose methods are proved against a function of the
old state. The laws are about those functions and about sequences of steps. Protocols with several
processes, or with crashes between durable writes, are state machines whose steps are the atomic
accesses: one locked section, transaction, database statement or file replacement each.

Hashes and signatures are injective. Random tokens are numbers never drawn before, recorded in a ghost
set of used ones. Clocks, agents, providers and coordinators are parameters that may take any value.

Five properties the design leads one to expect are not true of the code. Each has a lemma with a
concrete run in which it fails and one that says exactly when it holds:

- A run that halted and is resumed keeps its old halt, so a loop that ends "complete" may not be shown
  as complete (`Console.StaleHaltHidesCompletion`, `Console.CompleteMeansVerified`). Before resuming, a
  caller can tell: with no halt recorded, or "complete", it is always shown, and where no hand-off is
  possible only then (`Console.ShownCompleteWhen`).
- After a lost create the task digest is not compared, so a caller may be told that its request
  duplicates another task (`CommissionLaws.LostCreateSkipsDigest`); this never happens if and only if
  nobody reuses a key for another task (`CommissionLaws.OwnTaskExactlyWhen`).
- A required coordinator is meant to accept a run before any agent works on it (src/runner.py:984). A run
  that it has not accepted is handed to `loop` exactly when a commission replays a run whose coordinator
  failed, or a note, `--retry` or `--resume`, none of which asks the coordinator, finds a run that it
  refused or was never asked about (`CoordinatorLaws.FailsOpenExactlyWhen`). Concrete runs: a crash between saving
  the failure and recording the report (`CoordinatorLaws.CrashOpensTheLoop`,
  `CoordinatorLaws.StrandsExactlyWhen`), an answer to the failure report (`CoordinatorLaws.NoteOpensTheLoop`), a
  note after a commission failed early (`CoordinatorLaws.NoteBeforeAskingOpensTheLoop`), and a retry or resume
  (`CoordinatorLaws.RetryAndResumeOpenTheLoop`).
- The sign-in limits count fixed windows. An interval keeps the limit, for every sequence of requests, if
  and only if it lies within one window (`MagicLinks.LimitHoldsExactlyWhen`); across an edge twice the
  limit is reached (`MagicLinks.EdgeDoubles`), and in 900 seconds never more (`MagicLinks.IntervalIsLimited`).
- The two connector vaults answer every call alike, but after a mark that is not to ready and carries a
  tool count only the Google vault keeps the count. Readers see the same records throughout if and only if no
  such mark takes effect (`GoogleVault.ReadersSeeTheSame`, `GoogleVault.IdleCountSplitsReaders`).

## Model

| member | source | states |
|---|---|---|
| `Envelope.Reconcile` | src/envelope.py:89-239 | the in-place loops over proposals and dropped items compute exactly the ruling the laws below are about |
| `Envelope.RestoreDropped` | src/envelope.py:233-237 | every recorded item the agent left out is put back, in dictionary order, each with a violation |
| `EnvelopeLaws.JudgeFollowsTable` | src/envelope.py:145-231 | a proposal about an existing item is accepted if and only if an order-free table of transitions grants it; otherwise the item is untouched |
| `EnvelopeLaws.JudgeKeepsTheRest` | src/envelope.py:140-228 | evidence is never lost, a rejected proposal replaces nothing, descriptions change only while state and owner stay, and no proposal chooses its verifier |
| `EnvelopeLaws.GrantsAreCarriedOut` | src/envelope.py:140-228 | what an accepted proposal makes of owner, verifier, rejections, evidence and description, by transition and not by the order of the tests |
| `EnvelopeLaws.RefusalsAreNamed` | src/envelope.py:170-231 | a refused proposal has one violation, which names its reason |
| `EnvelopeLaws.NewItemsAreAdmitted` | src/envelope.py:112-136 | in open scope a new item is kept, as proposed or opened again with a violation; in closed scope nothing of its id is kept and the violation says so |
| `EnvelopeLaws.KeysInOrderOfAppearance` | src/envelope.py:104-106 | the recorded ids are gone through once each, in the order of their first appearance |
| `EnvelopeLaws.CleanTurn` | src/envelope.py:104-239 | a turn has no violation if and only if the table grants every proposal and no recorded id is dropped |
| `EnvelopeLaws.AcceptedProvenance` | src/envelope.py:110-239 | for arbitrary proposals, duplicate ids included, every kept item is a legal successor of the recorded item of its id or a new open or claimed one admitted while scope was open |
| `EnvelopeLaws.ScopeIsKept` | src/envelope.py:105-136 | no id is lost; with scope closed the id set is frozen; ids stay unique if the proposal's ids are |
| `RunLaws.EveryRunIsSound` | src/envelope.py:140-228 | over any sequence of replies, notes and outside halts, every done item has an owner and a different verifier from the fleet, and the owner is the agent that last submitted it |
| `RunLaws.CreatedRunsAreSound` | src/runner.py:205-277 | so does every run from its creation on, whatever happens to it |
| `RunLaws.CustodyIsKept` | src/runner.py:834-839 | once an item is owned and past open, its owner changes only when a note finds it blocked or disputed, or in an accepted turn by the target of a live recovery that lists it |
| `RunLaws.ReopeningEndsCustody` | src/runner.py:1187-1193 | a note ends custody of an item if and only if it is no STOP and finds a copy blocked or disputed |
| `RunLaws.ScopeOverRuns` | src/runner.py:839 | over whole runs no id is lost, agents add none from turn 2 on, and ids stay unique while proposals name each id once |
| `RunLaws.FreshIdIsFresh` | src/runner.py:1205-1210 | the id a human revision appends occurs on no checklist, whatever ids it holds |
| `RunLaws.LoopIsARun` | src/runner.py:935-947 | `loop` is such a sequence of events, so every run-wide law holds when it returns |
| `RejectionLaws.AcceptCounts` | src/envelope.py:186-206 | for every proposal, duplicate ids included, the copy that counts next turn has one rejection more exactly when the last proposal naming it is another agent's rejection of submitted work, and is then disputed exactly past the maximum |
| `RejectionLaws.RuledLatest` | src/envelope.py:104-231 | when an id is proposed several times, the ruling on the last one is the copy that counts |
| `RejectionLaws.RejectionsAreCounted` | src/envelope.py:186-206 | over whole runs, whatever is proposed and noted, the count is the admission value plus the accepted rejections |
| `ProgressLaws.ReorderingIsNoProgress` | src/envelope.py:250-255 | the progress fingerprint is the same for every ordering of distinct items |
| `ProgressLaws.EveryChangeIsProgress` | src/envelope.py:250-255 | between checklists whose fields hold no separator, the fingerprint stays the same only if every item keeps its id, state and owner and none is added or lost |
| `ProgressLaws.NamelessOwnerGoesUnnoticed` | src/envelope.py:250-255 | an owner called "None" has the fingerprint of a missing owner |
| `TurnLaws.ActorFollowsTheFleet` | src/runner.py:102-106 | round robin: after any run the actor stands as many places further in the fleet as turns were passed on, by accepted turns and hand-offs alike |
| `TurnLaws.EveryoneActsOnce` | src/runner.py:102-106 | in as many passed-on turns as the fleet has members every member acts exactly once, in fleet order |
| `RunLaws.NextInOrder` | src/runner.py:102-106 | the agent at any place is followed by the one at the next place, the last by the first |
| `TurnLaws.AcceptedTurnEnds` | src/runner.py:828-901 | an accepted, mailed turn is counted and then completes, hands off, halts as stuck, at the budget or for lack of progress, or goes on, each exactly on its condition on the checklist |
| `TurnLaws.RecoveryClosesAs` | src/runner.py:496-512 | the target's own turn closes a recovery as unresolved exactly if the last copy of a listed item is still blocked or disputed |
| `TurnLaws.NoteDoes` | src/runner.py:1175-1229 | a note reopens every stuck item, or else appends to a finished checklist one open item of nobody's, numbered one above the highest, or changes no item |
| `TurnLaws.LoopStaysInLimit` | src/runner.py:935-947 | `loop` stays within its own limit, or the configured one, and dispatches nobody exactly if it starts there |
| `Runner.LoopIsBounded` | src/runner.py:935-947 | `loop` ends, after at most the dispatches its measure allows, although reprompts and hand-offs leave `turn` unchanged |
| `Runner.DispatchBound` | src/runner.py:770-828 | that is at most (K+1)*((limit-t)+(R-u)) times for K reprompts and R-u recoveries left |
| `SecondWindLaws.SilentFleet` | src/runner.py:802-826 | a fleet that never answers is dispatched exactly K+1 times for each recovery left and once more over, and the checklist is unchanged |
| `SecondWindLaws.BoundIsAttained` | src/runner.py:802-826 | with one turn to go that number equals the dispatch bound |
| `SecondWindLaws.BoundIsReached` | src/runner.py:935-947 | for every number of turns, recoveries and reprompts left some replies make `loop` dispatch exactly the bound, so it is the best possible |
| `Runner.GovernedRun.constructor` | src/runner.py:205-277 | a new run starts with the first agent of the fleet and an empty checklist |
| `Runner.GovernedRun.SetRecoveryStatus` | src/runner.py:441-447 | the last record with the id gets the status, no other changes |
| `Runner.GovernedRun.StartSecondWind` | src/runner.py:450-493 | a hand-off happens if and only if it is enabled and under the cap; the whole new state |
| `Runner.GovernedRun.FinishSecondWind` | src/runner.py:496-512 | only the recovery's own target closes it, as unresolved exactly if a listed item is still stuck |
| `Runner.GovernedRun.TakeTurn` | src/runner.py:742-901 | all the ways a turn ends, as the turn function the laws are about |
| `Runner.GovernedRun.AcceptTurn` | src/runner.py:828-901 | the accepted path: record, send, advance, then the halting tests in their order |
| `Runner.GovernedRun.Loop` | src/runner.py:935-947 | `loop` computes the loop function: final state, returned reason and number of dispatches |
| `Runner.GovernedRun.ApplyHumanNote` | src/runner.py:1175-1229 | a note reopens stuck items or appends one revision, and approves nothing |
| `RunState.ContinuityPolicy` | src/runner.py:113-129 | the cap lies between 0 and 8, and recovery is on only with a positive cap |
| `SecondWindLaws.LedgerOverRuns` | src/runner.py:450-526 | in every reachable state the history length is the recoveries used, within the cap; ids are sw-1 to sw-n; one record is active exactly if a recovery is live, targeting the current actor; every target follows the agent that failed in the fleet's order |
| `SecondWindLaws.CreatedRunsKeepTheirLedger` | src/runner.py:113-129 | from its creation on, for any configuration, a run keeps that ledger, its blocked recoveries have disjoint item sets, and no recovery goes to the agent that failed |
| `SecondWindLaws.RecoveryIdsDiffer` | src/runner.py:467 | different recoveries of a run have different ids |
| `SecondWindLaws.NoItemIsRecoveredTwice` | src/runner.py:515-526 | the item sets of blocked recoveries stay pairwise disjoint over whole runs |
| `Console.CompleteMeansVerified` | src/console.py:142-156 | whenever `loop` returns complete, every item passes the console's test and nothing counts as self-approved; the run is shown complete if and only if no other halt was recorded before, or a hand-off cleared it |
| `Console.ReceiptCounts` | src/console.py:328-344 | for done items of a sound run, self-approved is 0 and verified counts all |
| `Console.CountsExactly` | src/console.py:328-344 | the two counts are the numbers of done items whose printed owner and verifier differ, or are one and the same |
| `Console.LabelExactly` | src/console.py:328-344 | a name is printed trimmed and cut at forty characters, and a blank one not at all |
| `Console.TestPassesExactlyWhen` | src/console.py:142-156 | on every checklist a run can reach the test passes exactly if there are items and all are done |
| `Console.SelfApprovedNeverPasses` | src/console.py:142-156 | no checklist passes with an item that is not done, has no owner or verifier, or was verified by its owner |
| `Console.CompleteLoop` | src/runner.py:935-947 | the recorded halt says complete exactly when no other halt was there before or a hand-off inside the loop cleared it |
| `Console.StaleHaltHidesCompletion` | src/runner.py:1541-1542 | a resumed run whose old halt was not cleared completes but is not shown as complete |
| `Console.ShownCompleteWhen` | src/console.py:142-156 | a completed loop that started with no halt, or with complete, is always shown complete; where no hand-off is possible, exactly then |
| `VaultLaws.EveryRecordIsSound` | cloud/credential_vault.py:126-157 | after any operations, ready means a consistent count, canary, digest and manifest, and any other status means none of them |
| `VaultLaws.RechecksNeverFire` | cloud/control_plane.py:825-861 | the console never downgrades a ready record, and the executor's recheck after a claim (cloud/hosted_connector_execution.py:824-835) always passes |
| `VaultLaws.StoredLeaseMeansUndisturbed` | cloud/credential_vault.py:582-604 | while a granted lease is still stored, no other claim, verification, disconnect, mark, release, verdict or deletion took effect since the grant |
| `VaultLaws.GuardedEffectIsFenced` | cloud/credential_vault.py:413-619 | a rotate, quarantine, verdict or release guarded by a lease takes effect only if nobody else changed the record since the lease was granted |
| `VaultLaws.HolderKnows` | cloud/hosted_connector_execution.py:699-749 | while its lease is stored, the holder's idea of generation and secret is what the vault holds |
| `VaultLaws.LostRotationHasNoWinner` | cloud/hosted_connector_execution.py:730-749 | after a claim, a rotation that loses its compare-and-swap never finds another request's rotation to adopt: that fallback is unreachable |
| `VaultLaws.LatchOnlyYieldsToDelete` | cloud/credential_vault.py:621-654 | apart from mark, a pending disconnect is left only by deletion |
| `VaultLaws.DisconnectLatches` | cloud/credential_vault.py:621-654 | a disconnect that takes effect sets the latch |
| `MemoryVault.MemoryConnectorVault.Put` | cloud/credential_vault.py:379-395 | stores once; a second put of the same connection is refused |
| `MemoryVault.MemoryConnectorVault.Rotate` | cloud/credential_vault.py:413-442 | replaces the secret and generation only under the full guard; the whole new map |
| `MemoryVault.MemoryConnectorVault.Quarantine` | cloud/credential_vault.py:444-483 | demotes under the same guard and clears every proof field |
| `MemoryVault.MemoryConnectorVault.BeginVerification` | cloud/credential_vault.py:485-522 | takes a lease unless ready, disconnecting or leased; clears the old proof |
| `MemoryVault.MemoryConnectorVault.FinishVerification` | cloud/credential_vault.py:524-580 | stores a verdict only for the same generation, lease and verifying status |
| `MemoryVault.MemoryConnectorVault.ClaimExecution` | cloud/credential_vault.py:582-604 | leases a ready connection, and says busy while another lease runs |
| `MemoryVault.MemoryConnectorVault.ReleaseExecution` | cloud/credential_vault.py:606-619 | drops exactly the lease presented |
| `MemoryVault.MemoryConnectorVault.BeginDisconnect` | cloud/credential_vault.py:621-654 | latches the disconnect unless an execution lease runs |
| `MemoryVault.MemoryConnectorVault.Mark` | cloud/credential_vault.py:656-706 | stores a validated status whatever the lease |
| `MemoryVault.MemoryConnectorVault.Delete` | cloud/credential_vault.py:708-728 | removes the entry only under the conditions asked for |
| `GoogleVault.VaultsAgree` | cloud/credential_vault.py:751-1315 | on every sequence of calls both vaults give the same answers, and their records are alike but for the tool count of one that is not ready |
| `GoogleVault.ReadersSeeTheSame` | cloud/credential_vault.py:1259-1276 | a reader sees the same record in both vaults at every moment if and only if no mark to another status than ready that carries a tool count takes effect |
| `GoogleVault.IdleCountSplitsReaders` | cloud/credential_vault.py:1259-1276 | a new connection marked as needing attention with one tool is read with a count of 1 from the Google vault and of 0 from the memory vault |
| `GoogleVault.ReadyDocumentsAreCertified` | cloud/credential_vault.py:1317-1363 | from an empty collection a ready document, however its fields are filled in, is certified, and the console never downgrades it |
| `GoogleVault.GoogleConnectorVault.Put` | cloud/credential_vault.py:751-782 | creates a document without any proof field, once |
| `GoogleVault.GoogleConnectorVault.Rotate` | cloud/credential_vault.py:817-889 | the transaction replaces secret and generation only under the full guard; the whole new collection |
| `GoogleVault.GoogleConnectorVault.Quarantine` | cloud/credential_vault.py:891-958 | the transaction demotes under the same guard |
| `GoogleVault.GoogleConnectorVault.BeginVerification` | cloud/credential_vault.py:960-1006 | the transaction takes a lease unless ready, disconnecting or leased |
| `GoogleVault.GoogleConnectorVault.FinishVerification` | cloud/credential_vault.py:1008-1084 | the transaction stores a verdict for the same generation, lease and verifying status only |
| `GoogleVault.GoogleConnectorVault.ClaimExecution` | cloud/credential_vault.py:1086-1133 | the transaction leases a ready document, and says busy while another lease runs |
| `GoogleVault.GoogleConnectorVault.ReleaseExecution` | cloud/credential_vault.py:1135-1165 | the transaction drops exactly the lease presented |
| `GoogleVault.GoogleConnectorVault.BeginDisconnect` | cloud/credential_vault.py:1167-1223 | the transaction latches the disconnect unless an execution lease runs |
| `GoogleVault.GoogleConnectorVault.Mark` | cloud/credential_vault.py:1225-1278 | stores a validated status and the tool count as given |
| `GoogleVault.GoogleConnectorVault.Delete` | cloud/credential_vault.py:1280-1314 | deletes the document only under the conditions asked for |
| `Executor.AllowedMeansUndisturbed` | cloud/hosted_connector_execution.py:952-979 | a call is reported as allowed only if nobody else disconnected, verified, marked, claimed, rotated or deleted the connection between the claim and the release |
| `Executor.LeaseLeftExactlyWhen` | cloud/hosted_connector_execution.py:807-960 | whatever ends an execution, its lease is left stored if and only if its claim was committed without an answer or its release never reached the vault, and nobody else took the lease away |
| `Executor.GivenUpForGood` | cloud/hosted_connector_execution.py:927-960 | after every other execution nothing guarded by its lease ever takes effect again |
| `Executor.LeaseRunsOut` | cloud/credential_vault.py:582-604 | a lease left behind keeps nobody out from 90 seconds after the claim on |
| `VaultProgress.NormalizeExactly` | cloud/credential_vault.py:92-117 | a list of tools is accepted if and only if every name and digest is well formed and no name is listed twice, and then exactly the listed pairs are kept |
| `VaultProgress.FinishTakesEffectExactlyWhen` | cloud/credential_vault.py:524-580 | a verdict takes effect if and only if its claim is consistent, said of the claim's fields, and the record is being verified under its generation and lease; what is stored is what was claimed |
| `VaultProgress.DocumentFinishesExactlyWhen` | cloud/credential_vault.py:1008-1084 | the same of the Firestore vault |
| `VaultProgress.MarkTakesEffectExactlyWhen` | cloud/credential_vault.py:656-706 | a mark takes effect exactly on a stored connection, for a known status, a count from 0 to 128 and a claim that may be stored |
| `VaultProgress.ClaimTakesEffectExactlyWhen` | cloud/credential_vault.py:582-604 | an execution is let in exactly if the connection is ready and no lease runs, and told it is busy exactly if it is ready and one runs |
| `VaultProgress.BeginTakesEffectExactlyWhen` | cloud/credential_vault.py:485-522 | a verification begins exactly on its generation and unless the connection is ready, disconnecting or leased |
| `VaultProgress.LeaseExcludesOthers` | cloud/credential_vault.py:582-654 | for 90 seconds from its claim, while its lease is stored, an execution keeps out every other claim, disconnect and verification |
| `VaultProgress.RotationTakesEffectExactlyWhen` | cloud/hosted_connector_execution.py:699-728 | whatever others do, the executor's rotation takes effect exactly if its lease is still stored |
| `VaultProgress.QuarantineTakesEffectExactlyWhen` | cloud/hosted_connector_execution.py:751-771 | so does its quarantine, which leaves no certificate and no lease |
| `VaultProgress.VerdictTakesEffectExactlyWhen` | cloud/credential_vault.py:485-580 | a consistent verdict takes effect exactly if the verification's lease is still stored |
| `VaultProgress.ConnectionBecomesReady` | cloud/credential_vault.py:379-604 | a stored credential that is verified with a consistent claim is ready and lets the first execution in |
| `VaultProgress.DamagedRecordsAreNotReady` | cloud/control_plane.py:825-861 | any record at all is shown as ready, or executed upon, exactly if its proof fields hold together |
| `VaultProgress.AllowedExactlyWhen` | cloud/hosted_connector_execution.py:952-979 | a call is allowed exactly if its work did not fail and its release found the lease |
| `VaultProgress.ReportedExactly` | cloud/hosted_connector_execution.py:927-1015 | which failure an execution under a lease reports, for every outcome of its cleanup |
| `CommissionStore.MemoryRunStore.Create` | cloud/store.py:52-59 | creates under an unused request key only |
| `CommissionStore.MemoryRunStore.Update` | cloud/store.py:61-77 | writes only under the expected attempt, if one is given |
| `CommissionStore.MemoryRunStore.Reclaim` | cloud/store.py:87-111 | raises the attempt of a failed or abandoned coordination, else nothing |
| `CommissionStore.FirestoreRunStore.Create` | cloud/store.py:127-142 | writes both documents of an unused request key |
| `CommissionStore.FirestoreRunStore.Update` | cloud/store.py:144-169 | writes both documents under the expected attempt |
| `CommissionStore.FirestoreRunStore.Reclaim` | cloud/store.py:179-211 | writes both documents of the raised attempt |
| `CommissionStore.BackendsAgree` | cloud/store.py:127-211 | on every call sequence that keeps request keys and run ids one-to-one, Firestore answers as the memory store does and both documents of a commission stay equal |
| `CommissionStore.ReusedRunIdSplitsBackends` | cloud/store.py:133-140 | a second request key on a used run id makes the two stores answer differently |
| `CommissionLaws.EveryInterleaving` | cloud/service.py:252-325 | under every interleaving of creators, reclaimers, crashed workers and late writers: attempts is 1 plus the successful reclaims, each attempt belongs to one worker, and checked answers are about the caller's own task |
| `CommissionLaws.RunsEvolve` | cloud/service.py:174-215 | run id, request key and digest never change, attempts only grow, and a record that is ready for Rally never changes again |
| `CommissionLaws.SessionsDiffer` | cloud/service.py:137-145 | different attempts never share an ADK session id |
| `CommissionLaws.LostCreateSkipsDigest` | cloud/service.py:310-315 | two workers race under one key with different tasks, and the loser is told it duplicates the other task |
| `CommissionLaws.OwnTaskExactlyWhen` | cloud/service.py:252-325 | every answer is about the caller's own task if and only if nobody reuses a key for another task |
| `CommissionLaws.FirestoreAnswersWorkersAlike` | cloud/store.py:127-211 | in every interleaving Firestore answers each of the workers' calls as the memory store does, and its documents are the records these laws speak of |
| `ReclaimLaws.MemoryReclaimsExactlyWhen` | cloud/store.py:87-111 | a reclaim succeeds exactly if the stored attempt failed, or is coordinating without a lease or past it; else nothing changes |
| `ReclaimLaws.FirestoreReclaimsExactlyWhen` | cloud/store.py:179-211 | the same of the Firestore store |
| `ReclaimLaws.LiveLeaseIsRespected` | cloud/service.py:252-325 | in every interleaving, while a granted lease has not run out and its worker has not written back a failure, no further attempt of that run is granted |
| `ReclaimLaws.GrantIsProtected` | cloud/service.py:270-325 | every attempt is granted under the lease its worker asked for |
| `ReclaimLaws.FirstRequestCoordinates` | cloud/service.py:252-325 | the first request for a commission creates it, coordinates it once and answers with the ready record, or with the failure that is stored |
| `ReclaimLaws.LaterRequestIsAnswered` | cloud/service.py:252-325 | under a used key another task is a conflict; the same task is granted the next attempt if the stored one is abandoned, and else given the stored commission |
| `ReclaimLaws.WriteBackIsFenced` | cloud/service.py:174-215 | a write back is stored exactly while its attempt is the current one, and else changes nothing |
| `ReclaimLaws.OvertakenIsGivenTheRecord` | cloud/service.py:174-215 | a worker that was overtaken is given the commission as it then stands |
| `ReclaimLaws.LoserIsGivenTheWinner` | cloud/service.py:310-315 | a worker that lost the create is given the commission that won |
| `DeliveryLaws.OneRunPerKey` | src/runner.py:254-316 | however the process crashes, a durable request key never has two runs |
| `DeliveryLaws.OneRunPerMessage` | src/runner.py:306-313 | an e-mail delivered again, even under a new queue id after an acknowledgement, never gets a second run |
| `DeliveryLaws.AcknowledgedMeansSettled` | src/runner.py:1250-1293 | a commission leaves the queue only after a report of its run was submitted and saved as delivered, or needed no delivery |
| `MailLaws.AcknowledgedMeansDelivered` | src/runner.py:1250-1293 | a commission that left the queue has a report of its run that was submitted as recorded and saved as delivered, unless a step found that nobody was to be told of that report |
| `MailLaws.NotRequiredMeansWaived` | src/runner.py:684-690 | over whole runs a report counts as not to be delivered only if such a step was taken for it |
| `MailLaws.MailDoes` | src/runner.py:682-739 | a pending report that somebody is to be told of is submitted as it is under its key and stays pending; one that nobody is to be told of is settled; a settled one is left alone |
| `MailLaws.SaveDoes` | src/runner.py:713-739 | the provider's answer is saved as a delivery of the report that was submitted |
| `MailLaws.CommissionGoesThrough` | src/runner.py:1058-1119 | a new commission that nothing interrupts gets one run, under its own id, key and thread, whose first report is submitted once, delivered and acknowledged |
| `MailLaws.NoteGoesThrough` | src/runner.py:1122-1172 | the commissioner's note starts the run again, and its next report goes out in the same way |
| `MailLaws.SettledReplayIsAcknowledged` | src/runner.py:1067-1078 | a message delivered again after its report is settled is acknowledged and changes nothing else |
| `MailLaws.PendingReplayIsResubmitted` | src/runner.py:1067-1085 | one delivered again while its report is pending has that report submitted under the same key, and nothing is run |
| `MailLaws.RecordedReportIsRecognised` | src/runner.py:636-657 | a recorded report names the message it answers, so that a replay of it is recognised |
| `MailLaws.EntriesAreCounted` | src/runner.py:1105-1114 | the count behind the law on replays goes up exactly when a coordination hands the run to `loop` |
| `DeliveryLaws.OneTextPerKey` | src/runner.py:636-657 | all submissions under one idempotency key are the same report of the same run and generation |
| `DeliveryLaws.KeyNamesTheReport` | src/runner.py:643 | an idempotency key determines its run and generation |
| `DeliveryLaws.SettledIsNotResubmitted` | src/runner.py:682-683 | a report whose delivery is settled is never submitted again, and only the current recorded report ever is |
| `DeliveryLaws.ReplaysReuseTheKey` | src/runner.py:1073-1085 | once a report is recorded, until a note is applied, whatever is submitted for its run is that report under the same key |
| `DeliveryLaws.ReportedRunsDoNotLoop` | src/runner.py:1067-1085 | once a report is recorded, no replay of a commission enters the loop of its run |
| `DeliveryLaws.NothingIsDropped` | src/worker/index.js:1830-1852 | a message is in the queue until it is acknowledged |
| `DeliveryLaws.ActKeeps` | src/runner.py:1058-1172 | every step between two durable writes, a crash, a failure or a lost answer included, keeps the invariant behind these laws and loses nothing durable |
| `CoordinatorLaws.StartsExactlyWhen` | src/runner.py:1103-1168 | `serve` and the operator's commands hand a run to `loop` by a coordination, of a commission or of `--run`, that did not just fail, an applied note that is no STOP, a retry of a halted and incomplete run, or a resume (src/runner.py:1349-1375, 1541-1562), and in no other way |
| `CoordinatorLaws.FailsOpenExactlyWhen` | src/runner.py:983-1018 | where a coordinator is required, a run that it refused or was never asked about is handed to `loop` if and only if a commission replays a run whose coordinator failed, or a note, a retry or a resume finds such a run |
| `CoordinatorLaws.StrandsExactlyWhen` | src/runner.py:997-1004 | `serve` leaves a run stranded, its coordinator failed and no report recorded, exactly by a crash or failure between saving that failure and recording the report |
| `CoordinatorLaws.UninterruptedFailsOpenOnlyByBypass` | src/runner.py:1103-1111 | over runs of `serve` and the commands without such an interruption, an unaccepted run is handed to `loop` exactly by a note, a retry or a resume |
| `CoordinatorLaws.StepKeepsOffice` | src/runner.py:1349-1375 | the commands, whose reports are recorded under no request key, keep the invariant behind the delivery laws at every step |
| `CoordinatorLaws.CrashOpensTheLoop` | src/runner.py:985-986 | a concrete crash and replay after which the agents start without the required coordinator |
| `CoordinatorLaws.NoteOpensTheLoop` | src/runner.py:1146-1168 | a run without any interruption in which the commissioner's answer to the failure report does the same |
| `CoordinatorLaws.NoteBeforeAskingOpensTheLoop` | src/runner.py:1146-1168 | a run in which a commission fails early and a note starts the agents although the coordinator was never asked |
| `CoordinatorLaws.RetryAndResumeOpenTheLoop` | src/runner.py:1349-1366 | a run without any interruption after which a retry or a resume (src/runner.py:1541-1562) starts the agents on the refused run |
| `CoordinatorLaws.LocalRunAsksFirst` | src/runner.py:1543-1553 | `--run` asks the coordinator before anything else, and a required one that fails halts the run unstarted |
| `CoordinatorLaws.CommandReports` | src/runner.py:1364-1371 | a run of the inbox that a command runs again reports under its next generation, and the report goes out |
| `CoordinatorLaws.RetryAfterLoopExactlyWhen` | src/runner.py:1349-1363 | after a command's loop a run may be retried exactly if it left a halt other than "complete" |
| `CoordinatorLaws.RetryAfterServeExactlyWhen` | src/runner.py:1349-1363 | so after a loop of the serving process that was reported, raised or died |
| `CoordinatorLaws.StoppedRunIsRetriedOnce` | src/runner.py:1336-1366 | a stopped run may be retried, once |
| `CoordinatorLaws.StopNoteHalts` | src/runner.py:1146-1168 | a STOP from the commissioner is a halt on disk |
| `Intake.AcceptancesAgree` | src/worker/index.js:871-1037 | over any interleaving of requests, failures and acknowledgements, all 202 answers for one workspace and idempotency key name one run and were given for one job body |
| `Intake.QueuedOnce` | src/worker/index.js:984-1004 | intake inserts at most one message for a key, and a queued job and its receipt name the same run |
| `Intake.RunsAreNotShared` | src/worker/index.js:984-1004 | different keys are never answered with the same run |
| `Intake.RacersAreAnsweredExactly` | src/worker/index.js:884-1037 | for a key with no older message, in every interleaving, every request is answered as the stored receipt says, 202 with its run for the same body and 409 for another, or by 503, or 404 for a missing source run |
| `IntakeLaws.MissingSourceIsNeverQueued` | src/worker/index.js:956-969 | if every request for a key names a missing source run, no row is ever written for it and every answer is 404, or 503 |
| `IntakeLaws.InsertedHasSource` | src/worker/index.js:956-1004 | every job queued was asked for by a request with that body whose source run exists, and 404 is told only to requests without theirs |
| `IntakeLaws.UnbrokenRequestsAreAnswered` | src/worker/index.js:884-1037 | a request whose own statements do not fail is never answered 503: it gets 404 for its source, or what the stored receipt says |
| `IntakeLaws.FourStepsAnswer` | src/worker/index.js:871-1037 | whatever else happens, a request is answered after four statements of its own |
| `IntakeLaws.FirstRequestIsQueued` | src/worker/index.js:954-1037 | the first request for a key, left alone, is queued with its receipt, or told of its missing source |
| `IntakeLaws.OldMessageDecides` | src/worker/index.js:912-924 | how a message older than the receipts decides: 503, 409, or on with the very same job |
| `IntakeLaws.OldMessageIsRestored` | src/worker/index.js:925-946 | and then the job gets a receipt for the run it was accepted under |
| `Intake.LaterRequestsReplay` | src/worker/index.js:900-907 | also for a key with an older message, a request that starts once a receipt exists gets that run for the same body, 409 for another one, and 503 at worst, whatever is acknowledged meanwhile |
| `Intake.OldMessageMisleads` | src/worker/index.js:912-924 | with an older message one request is refused by comparison with it, and after its acknowledgement the very same request is accepted |
| `Intake.RestoreKeeps` | src/worker/index.js:912-946 | converging an older message onto a receipt keeps every answer given consistent |
| `SendLedger.Ledger.CheckAndReserve` | src/transport.py:531-565 | the pruned file decides exactly as the full history would, and the history stays one whose every reservation was allowed by all before it |
| `SendLedger.EveryWindowIsLimited` | src/transport.py:531-565 | in such a history any 24-hour window holds at most per_day in total and per_run of one run, any 1-hour window at most per_hour, and each run and reservation key is charged at most once in 24 hours |
| `SendLedger.ReservationFits` | src/transport.py:531-565 | a reservation the history allows breaks no limit in any window, whenever it ends |
| `SendLedger.FileDecides` | src/transport.py:531-565 | forgetting day-old sends changes no decision |
| `SendLedger.PruneIsSuffix` | src/transport.py:531-565 | with a non-decreasing clock, pruning drops exactly a prefix of day-old sends |
| `SendLedger.Judge` | src/transport.py:531-565 | the tests run in the source's order and give its first failing verdict |
| `SendLedger.ReservedExactlyWhen` | src/transport.py:531-565 | a reservation is refused exactly if its key was charged within a day or it would break a ceiling in a window that ends with it, and the verdict names one that it breaks |
| `SendLedger.CountIsSize` | src/transport.py:531-565 | a count is the number of sends that the window sees |
| `Approvals.Expire` | cloud/connector_approvals.py:256-265 | every due record and no other becomes expired, and a change is reported exactly if there was one |
| `Approvals.SortedTerminal` | cloud/connector_approvals.py:280-287 | the ended records, each once, by the time they ended and then by id |
| `Approvals.MakeSpace` | cloud/connector_approvals.py:275-291 | evicts only ended records, as many as needed if there are that many, each older than every ended one kept |
| `Approvals.EvictionIsUnique` | cloud/connector_approvals.py:275-291 | that rule determines the evicted set |
| `Approvals.RoomUnlessAllLive` | cloud/connector_approvals.py:290-291 | the limit error is raised if and only if the live requests alone fill the ledger |
| `Approvals.ApprovalLedger.RequestApproval` | cloud/connector_approvals.py:333-370 | the new file and answer of a request, on every error path |
| `Approvals.ApprovalLedger.Create` | cloud/connector_approvals.py:294-311 | a refused request still writes what the sweep expired, and nothing else |
| `Approvals.ApprovalLedger.ApproveRequest` | cloud/connector_approvals.py:415-442 | only a pending, unexpired request is approved; the new file and answer on every path |
| `Approvals.ApprovalLedger.ConsumeApproval` | cloud/connector_approvals.py:445-492 | the new file and answer of a consumption on every path |
| `Approvals.CallAllowedTool` | cloud/connector_gateway.py:516-639 | the remote call follows if and only if the tool is a read within policy, or a human-approval tool whose approval of that very call was just consumed |
| `ApprovalLaws.Conservation` | cloud/connector_gateway.py:581-641 | for each exact call, over every interleaving: executions <= consumptions <= approvals <= requests |
| `ApprovalLaws.SpentExactlyWhen` | cloud/connector_approvals.py:466-490 | a consumption succeeds if and only if the approval is approved, unexpired and of the same run, connector, tool and arguments |
| `ApprovalTerms.AskedExactlyWhen` | cloud/connector_approvals.py:334-370 | a request gets a place exactly if its lifetime is 1 to 3600 seconds, its call is well formed and fewer than 1024 records are live; its record ends with that lifetime |
| `ApprovalTerms.SpentWithinLifetime` | cloud/connector_approvals.py:334-490 | over whole runs, an approval is spent only before its requested lifetime is over, and only on the call that was asked for |
| `ApprovalTerms.ApprovedExactlyWhen` | cloud/connector_approvals.py:415-442 | an approval succeeds exactly if the request is pending and unexpired and the human is named |
| `ApprovalTerms.ApprovedAs` | cloud/connector_approvals.py:415-442 | what every approval is answered, the reason of a refusal included |
| `ApprovalTerms.ConsumedAs` | cloud/connector_approvals.py:445-492 | what every consumption is answered, and the record of one that succeeds |
| `ApprovalTerms.OldestEndedGoFirst` | cloud/connector_approvals.py:275-291 | after any run, what is evicted ended no later than any ended record that stays |
| `Approvals.BytesOfCharacter` | cloud/connector_approvals.py:334-370 | arguments are measured in UTF-8, each character as section 3 of RFC 3629 has it |
| `ApprovalLaws.SpentOnce` | cloud/connector_approvals.py:472-490 | each approval is consumed at most once in any run of all processes |
| `ApprovalLaws.EndedIsFinal` | cloud/connector_approvals.py:427-490 | a consumed or expired record never changes, never comes back, and is never spent |
| `ApprovalLaws.LiveIsNeverEvicted` | cloud/connector_approvals.py:275-291 | a live record survives every run that neither spends it nor outlasts it |
| `ApprovalLaws.LedgerIsBounded` | cloud/connector_approvals.py:275-311 | the ledger never exceeds its limit, the raise-and-still-write path included |
| `OAuthFlows.MemoryOAuthFlowStore.PutFlow` | cloud/connector_oauth.py:196-209 | reserves a tenant's connector unless an unexpired flow holds it |
| `OAuthFlows.MemoryOAuthFlowStore.ConsumeFlow` | cloud/connector_oauth.py:211-234 | takes a flow out of both indexes and yields it only if unexpired |
| `OAuthFlows.MemoryOAuthFlowStore.CancelFlow` | cloud/connector_oauth.py:236-249 | removes the reserved flow from both indexes |
| `OAuthFlows.FirestoreOAuthFlowStore.PutFlow` | cloud/connector_oauth.py:276-325 | replaces an expired reservation, leaving its flow behind |
| `OAuthFlows.FirestoreOAuthFlowStore.ConsumeFlow` | cloud/connector_oauth.py:327-386 | deletes the flow, and the reservation only if it is still this flow's |
| `OAuthFlows.FirestoreOAuthFlowStore.CancelFlow` | cloud/connector_oauth.py:388-419 | deletes the reservation and its flow |
| `OAuthFlows.IndexesStayPaired` | cloud/connector_oauth.py:187-249 | each tenant and connector has at most one stored flow, and the store never finds itself inconsistent |
| `OAuthFlows.EachStateYieldsOnce` | cloud/connector_oauth.py:211-234 | each state yields its flow at most once over any call sequence |
| `OAuthFlows.FreshBackendsAgree` | cloud/connector_oauth.py:276-419 | from empty stores both backends give the same answers on every call sequence, expired orphans notwithstanding |
| `OAuthFlows.FirestoreIsOneUse` | cloud/connector_oauth.py:252-419 | in Firestore each tenant and connector has at most one unexpired flow, and each state yields its flow at most once |
| `OAuthLaws.FlowGoesToItsBrowser` | cloud/connector_oauth.py:211-234 | in either store a flow that no call took since goes to the browser binding and issuer it was stored for, if they come before it expires, and to nobody else |
| `OAuthLaws.StaysUntilTaken` | cloud/connector_oauth.py:196-249 | a stored flow stays exactly until it is consumed by its own browser, cancelled, or replaced after it expired |
| `OAuthLaws.PutIsStoredExactlyWhen` | cloud/connector_oauth.py:196-209 | a flow is stored exactly if its tenant has no unexpired one |
| `MagicLinks.YieldsOnce` | cloud/magic_links.py:253-272 | in either store, over any redeliveries, activations and invalidations, a token yields at most one identity |
| `SignInLaws.SignInExactlyWhen` | cloud/magic_links.py:253-272 | over every call sequence, in either store, a sign-in yields exactly for a link that was issued, activated, not disabled since, never used, of this workspace and not at its end |
| `SignInLaws.IssuedExactlyWhen` | cloud/magic_links.py:214-242 | a link is issued exactly under an expiry within the next ten minutes, which is the default, and under the token of its delivery |
| `MagicLinks.StoresSignInTheSame` | cloud/magic_links.py:303-426 | every sign-in attempt is answered alike by both stores |
| `MagicLinks.AnswersDifferWhen` | cloud/magic_links.py:214-426 | the stores answer an operation differently exactly when a stored token is issued again without a delivery id, a spent link is activated, or an unknown link is invalidated |
| `MagicLinks.IntervalIsLimited` | cloud/magic_links.py:201-212 | any 900 seconds permit at most 2*5 requests of one address and 2*10000 of all |
| `MagicLinks.LimitHoldsExactlyWhen` | cloud/magic_links.py:201-212 | an interval keeps the limit, of one address or of all, for every sequence of requests if and only if it lies within one window |
| `MagicLinks.EdgeDoubles` | cloud/magic_links.py:201-212 | across an edge a sequence of requests in order of time, from a new store, is permitted twice the limit |
| `MagicLinks.MemoryMagicLinkStore.ReserveRequest` | cloud/magic_links.py:201-212 | allowed exactly when both counters are under their limits; both rise either way |
| `MagicLinks.MemoryMagicLinkStore.IssueLink` | cloud/magic_links.py:214-242 | a redelivery returns the same token and keeps the stored link |
| `MagicLinks.MemoryMagicLinkStore.ActivateLink` | cloud/magic_links.py:244-251 | activates any stored link that is not spent |
| `MagicLinks.MemoryMagicLinkStore.ConsumeLink` | cloud/magic_links.py:253-272 | spends a usable link |
| `MagicLinks.MemoryMagicLinkStore.InvalidateLink` | cloud/magic_links.py:274-280 | disables any stored link that is not spent |
| `MagicLinks.FirestoreMagicLinkStore.ReserveRequest` | cloud/magic_links.py:306-335 | the same limit in one transaction |
| `MagicLinks.FirestoreMagicLinkStore.IssueLink` | cloud/magic_links.py:337-372 | a redelivery resumes the stored link; a repeated random token is an error |
| `MagicLinks.FirestoreMagicLinkStore.ActivateLink` | cloud/magic_links.py:374-380 | marks any stored link active, spent or not |
| `MagicLinks.FirestoreMagicLinkStore.ConsumeLink` | cloud/magic_links.py:382-418 | spends a usable link of a complete identity |
| `MagicLinks.FirestoreMagicLinkStore.InvalidateLink` | cloud/magic_links.py:420-426 | marks any stored link disabled, spent or not |
| `AuthResults.WithoutComments` | src/ingress.py:464-502 | the automaton as a loop |
| `AuthResults.ScannerMeetsGrammar` | src/ingress.py:464-502 | a value is accepted if and only if it is a field of the grammar of sections 3.2.2 and 3.2.4 of RFC 5322, and the result is that field without its comments |
| `AuthResults.ScannerIsIdempotent` | src/ingress.py:464-502 | removing comments twice changes nothing more |
| `AuthResults.AuthSegments` | src/ingress.py:505-534 | the segment loop computes the trimmed pieces |
| `AuthResults.SegmentsPartitionTheText` | src/ingress.py:505-534 | the segments are pieces trimmed of their space; the pieces joined by semicolons are the comment-free text, none has a semicolon outside its quoted strings, and only the comment scanner ever rejects |
| `AuthResults.SegmentsAreTrimmed` | src/ingress.py:526-533 | each segment is its piece without the space in front of its first and behind its last other character |
| `AuthResults.CutField` | src/ingress.py:514-533 | a comment-free field is cut exactly at its semicolons outside quoted strings |

## Left out

- Agents, subprocesses, HTTP, databases and their clients, cryptography, rendering, media and git: a turn
  is any proposal, no envelope or an error, and every transaction is one step.
- Item ids and owners that are JSON values other than strings and null, rejection counts that are not
  integers, and digits outside ASCII in item ids.
- Run fields that decide nothing: violations kept on the run, problems, containment, logs, mail
  threading of turns, commit hashes, and the detail and outcome texts of recoveries. Their item lists are sets.
- The text of a human note: a STOP is a flag of the note, and its whitespace is already folded.
- Changing the configured agents of a run that has started: its fleet is fixed here.
- A negative reprompt limit, and the stub replies of a dry run.
- Console: artifacts and the other completion tests; the checklist half is modelled.
- `GoogleKmsConnectorVault`: sealing and opening are taken to give the secret back, a document is its tenant's,
  and mark's read and write (cloud/credential_vault.py:1252-1277) are one step at the write.
- Listing and reading connections, and the timestamps of vault records.
- The executor: its lease, refresh, readiness, reconnect and release logic as a client of the vault, between whose
  calls other clients act; not `execute` as one method, nor its tool policy, deadlines and receipts.
- Commission workers, the delivery process and job intake are state machines over atomic steps and not
  classes, because a crash or another process may come between any two of them.
- The operator's commands take turns with the serving process; two of them at work on one run at a time, dry
  runs, the mail that reports a `--run`, and a commission that names such a run by its Message-ID are left out.
- What stops `loop` before its first dispatch, as a STOP or a limit may: the coordinator laws end where a run is
  handed over.
- The name of a coordinator's error is fixed, and an empty request key is never sent.
- DeliveryLaws.ReplaysReuseTheKey: claimed up to the next applied note, because a note replayed before its
  report is recorded is applied again (src/runner.py:1135-1146).
- The subject and headers of a report, and a workspace mismatch beyond the fact that it raises.
- The trimming and case folding of a note's sender before it is compared with the commissioner.
- Intake.QueuedOnce: counts what this intake inserts; a message accepted before receipts existed may have
  been acknowledged before the first retry, which then queues the job anew.
- Intake.RacersAreAnsweredExactly: not claimed for a key whose message is older than receipts, because
  racing requests may compare themselves with that message after another job took the key
  (`Intake.OldMessageMisleads` is such a run).
- Malformed stored receipts, which answer 503.
- SendLedger.Ledger.CheckAndReserve: limits are fixed for the life of the ledger and the clock never runs
  backwards; a stored key that is empty counts as none.
- Corrupt approval files, timestamps without a zone, and approval identifiers that need trimming.
- The policy checks of the gateway on arguments: whether they are violated is a parameter.
- Consuming a link reads the clock once here and up to three times in the memory store.
- The aligned-domain and property checks on mail segments, which would only add easy members.
- Sessions of signed-in users, teammates and the hosted transport: they repeat the one-use and cap patterns above.
