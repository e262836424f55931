# Verification of the capacity harness, the paid canaries and the client protocols

Dafny 4.11 models, with proofs, of five parts of this repository:

* **The capacity load harness** (`scripts/capacity-extension-load-harness.ts`): the in-memory
  admission store with rising fences, the promise-chain transaction queue in front of it, the eight
  fenced Gemini slots, and the worker pool that drains two growing queues of duplicate, retried and
  expiring deliveries.
* **The paid canaries** (`scripts/canary-instagram-profile-provider.ts`, its finaliser and recovery
  sweep, `scripts/canary-apify-profile-repair.ts`): invocations over a durable journal that may stop
  between any two writes or effects and be run again. The journal is modelled from its SQL functions.
* **Runner provisioning** (`scripts/account-ledger-rollout.ts`): keychain, auth and ledger calls that
  fail before or after their effect.
* **The client request protocols** (`hooks/useAnalysisV2Preflight.ts`, `hooks/useAnalysisProgress.ts`).
* **The parity comparison** (`scripts/backfill-account-deletion-canonical.ts`).

`dafny verify dfyconfig.toml` checks everything.

## How it is modelled

Objects that update fields in place are classes: `Admission.Store`, `GeminiSlots.SlotTable`,
`RequestCoordinator.Coordinator`, `ProgressReads.Reads`, `CanaryFinaliser.Cleaner`,
`RunnerProvisioning.Rollout`. Each of the first four is proved to do what a value-level function
`Apply` says, reply included; the lemmas over whole runs are about that function. Loops over rows, maps,
slots, polls and plans are loops with invariants.

Asynchronous code is a state machine over its suspensions. `Delivery.Resume` is one delivery of
`processItem` from one `await` to the next, with the admission checkpoint and the Gemini lease store
around it; `Drain.Step` is one turn of one worker; `DrainSystem` interleaves both drains with everything
else that touches the shared stores (renewal timers, probes, relationship leases, the clock), in any
order. `CanaryProcesses` and `RepairCanary` do the same for invocations of the canaries, with crashes,
failed writes and lost responses at every step. What the outside answers (random tokens, provider
verdicts, costs, failures) is a parameter of the step and arbitrary.
Most theorems are about every run; beside them stand runs that are built: drains that return
(`DrainRaces`, `DrainCrowds`), and invocations that, run alone, reach the end of their experiment
(`CanaryCompletion`, `CanaryCleanup`, `RepairCompletion`).

Hashes (admission ids, content hashes, the SHA-256 digest) are taken to be functions of their input,
and admission ids to be injective. Money is in micro-dollars. Fields named as observers (`apifyStarts`,
`erased`, `taken`, `starts`, `regranted` and the like) are read by no operation.

## Results where the code does less than it is expected to

* The harness expects active leases to stay within the approved ceilings. The re-grant branch does not
  test capacity. A run keeps a ceiling in all its states if and only if it never re-grants into the full
  group: `RoleBoundExactly` for every role and provider, `RelationshipBoundExactly` for every relationship
  budget. Both can fail: `OvershootExceedsRole` gives, for every role and provider, a run with one lease too
  many, `OvershootExceedsBudget` one with five leases in a budget of four. `CapacityHolds` proves the
  ceilings for leases that were never re-granted.
* The harness expects no duplicate terminal effect. For every drain launched with first deliveries on fresh
  stores and every id, no run counts two if and only if the id was queued once at most, or one worker drains
  alone, or it is a preflight id outside the expiry path (`TerminalOnceExactly`). In all other cases a run
  is built in which two deliveries meet and both have the effect; there are never more effects than queued
  copies (`NoMoreThanQueued`).
* Clearing the start mark before a rejection may erase another delivery's mark. No run calls Apify twice
  for an id if and only if the id was queued once at most, or one worker drains alone, or the id cannot take
  the expiry path (`CalledOnceExactly`); no run ever calls it three times (`ApifyAtMostTwice`).
* The harness takes a completed delivery to have used up its admission. Its lease is released as terminal
  only in time: a lease that runs out during the call is recovered and resolved as rejected before start, and
  the delivery completes all the same (`LateSuccessIsRegrantable`). In every run in which no lease runs out a
  completed id's admissions end for good (`SucceededIsReleased`, `ReturnedDrainReleased`).
* The canary script's gate looks at restricted access and not at cost. The verdict recorded in the journal
  looks at neither, so a repetition can be recorded as succeeded although the script's gate fails: exactly
  on evidence that lacks nothing but restricted access (`VerdictAndGate`). Only the journal's final gate
  looks at both (`GatesAgree`).
* A mark of a storage of repetition 1 that comes while repetition 2 is reserved puts the experiment back to
  waiting for the repetition it has: exactly such a mark (`ReopensExactly`). If repetition 2 is ambiguous
  then, which happens (`StuckIsReachable`), it can no longer be resolved as never started and no cleanup can
  begin, unless a provider run is adopted for it (`StuckUntilAdopted`).

## Model

| member | source | states |
|---|---|---|
| Admission.Store.Acquire | scripts/capacity-extension-load-harness.ts:381-445 | Acquiring in place leaves exactly the whole state and reply of the transaction `Apply`, in its replay, conflict, re-grant, denial and grant branches. |
| Admission.Store.RecordBudgetActive | scripts/capacity-extension-load-harness.ts:365-371 | The high-water mark of a budget becomes the larger of itself and the active leases of that budget now. |
| Admission.Store.Renew | scripts/capacity-extension-load-harness.ts:447-464 | Only the exact leased token and fence renew; anything else is a fence mismatch that changes nothing. |
| Admission.Store.Release | scripts/capacity-extension-load-harness.ts:466-496 | The exact release is idempotent, a changed fence or token is refused, an expired lease is refused with its own error. |
| Admission.Store.RecoverExpired | scripts/capacity-extension-load-harness.ts:498-518 | Only an expired lease is rotated into recovery, once, under a new token and the next fence. |
| Admission.Store.Resolve | scripts/capacity-extension-load-harness.ts:520-534 | Only a lease under recovery is resolved, to a replayable pre-start rejection. |
| Admission.Store.Expire | scripts/capacity-extension-load-harness.ts:549-571 | The synthetic expiry moves only the expiry time, and fails for an unknown identity. |
| AdmissionRuns.ListedIsRecovered | scripts/capacity-extension-load-harness.ts:498-547 | The recovery page lists exactly the identities for which recovery answers true and rotates; the fence it lists is then raised by one, and the identity leaves the page. |
| AdmissionRuns.RecoveryClearsPage | scripts/capacity-extension-load-harness.ts:498-547 | Recovering identities in any order and any number of times takes exactly these off the page and counts each overdue one of them once. |
| AdmissionRuns.CapacityHolds | scripts/capacity-extension-load-harness.ts:348-445 | In every reachable state the active leases never re-granted number at most 32 preflight Apify, 8 paid Apify, 8 Gemini per role, and 4 non-Gemini in any relationship budget, expired and recovering ones included; without re-grants this bounds all active leases per role. |
| AdmissionBounds.PlainBoundExactly | scripts/capacity-extension-load-harness.ts:381-445 | The bound on all active leases of a role survives an acquire if and only if that acquire is not a re-grant into the full role. |
| AdmissionBounds.BudgetBoundExactly | scripts/capacity-extension-load-harness.ts:381-445 | The bound on all active leases of a budget survives an acquire if and only if that acquire is not a re-grant into the full budget. |
| AdmissionBounds.RoleBoundExactly | scripts/capacity-extension-load-harness.ts:348-445 | Over every run from an empty store all states keep the ceiling of a role and provider if and only if the run never re-grants into it when it is full. |
| AdmissionBounds.RelationshipBoundExactly | scripts/capacity-extension-load-harness.ts:348-445 | The same for every relationship budget and its limit of four non-Gemini leases. |
| AdmissionBounds.OvershootExceedsBudget | scripts/capacity-extension-load-harness.ts:400-415 | A concrete run of seven calls ends with five active leases in a relationship budget of four. |
| AdmissionBounds.OvershootExceedsRole | scripts/capacity-extension-load-harness.ts:400-415 | For every role and provider a concrete run ends with one active lease more than its ceiling. |
| AdmissionRuns.RunIsFenced | scripts/capacity-extension-load-harness.ts:400-518 | Over every run no lease disappears, no fence falls, and every change of token strictly raises the fence. |
| AdmissionRuns.SupersededIsRefused | scripts/capacity-extension-load-harness.ts:447-496 | A token and fence once superseded are refused by renew and release in every later state, which they leave unchanged. |
| AdmissionRuns.OnlyTheHolderIsServed | scripts/capacity-extension-load-harness.ts:447-496 | A release or renewal under any other token or fence than the lease's own is refused and changes nothing. |
| AdmissionRuns.LeaseLivesForItsSeconds | scripts/capacity-extension-load-harness.ts:400-518 | A lease granted or renewed for some seconds can be released and not recovered before they pass, and recovered and never again released by its holder from then on. |
| AdmissionRuns.RenewalRevives | scripts/capacity-extension-load-harness.ts:447-464 | A lease that nobody has recovered can be renewed however long it has run out, and can then be released and is not recovered before the new seconds have passed. |
| AdmissionRuns.RenewalsAreCounted | scripts/capacity-extension-load-harness.ts:447-464 | The renewal counter is the number of renewals of the run that were answered. |
| AdmissionBounds.GrantReportsUse | scripts/capacity-extension-load-harness.ts:381-445 | A grant reports the leases active after it, and a first grant keeps its budget within the limit it reports. |
| AdmissionRuns.TerminalIsAbsorbing | scripts/capacity-extension-load-harness.ts:381-571 | An identity released as terminal keeps that status, its fence and its token under every later sequence of operations. |
| AdmissionRuns.TerminalReplies | scripts/capacity-extension-load-harness.ts:381-486 | After any later operations the exact release of a terminal identity is a successful no-op and acquiring it is a conflict. |
| AdmissionRuns.ObservedIsPeak | scripts/capacity-extension-load-harness.ts:354-371 | The observed maximum of a budget is the maximum, over all states of the run, of its active leases. |
| AdmissionRuns.CountersConserved | scripts/capacity-extension-load-harness.ts:381-518 | Rotations are the sum of fence minus one over the leases, rotations minus recoveries are the re-grants of the run, and the pending total is the sum by role. |
| AdmissionRuns.DenialsAreCounted | scripts/capacity-extension-load-harness.ts:417-428 | The pending total is the number of acquires of the run that were told to wait and whose identity had no lease; each counter is the number of those of its own kind. |
| AdmissionRuns.ReleaseMakesRoom | scripts/capacity-extension-load-harness.ts:417-445 | After a lease is released in time an identity without a lease is granted exactly if its role and its budget, the released lease not counted, are below their limits; otherwise it is told to wait, and it is never refused as a conflict. |
| AdmissionRuns.DeniedIsGrantedLater | scripts/capacity-extension-load-harness.ts:417-445 | Of two identities that want the last place of a role and budget, the one told to wait is granted once the other is released. |
| TransactionQueue.HistoryIsSequential | scripts/capacity-extension-load-harness.ts:321-346 | Whatever the interleaving with the synthetic expiry and the clock, which act outside the queue, the store is that of one sequence of operations in which the served calls stand in arrival order, each with the reply it gets there, and otherwise only expiries and clock ticks; at most one call is in flight; the queued counter is the calls arrived and not begun; and exactly the next call can move. |
| TransactionQueue.CountersAreExact | scripts/capacity-extension-load-harness.ts:321-346 | The transactions counted are the calls, the contention events are the calls that arrived while an earlier one had not begun, and the largest number in flight is one as soon as a call has begun. |
| GeminiSlots.RunKeepsValid | scripts/capacity-extension-load-harness.ts:949-1017 | In every run an identity has at most one of the eight slots, a claim is absent exactly when the identity is, and no slot's fence falls. |
| GeminiSlots.GrantFencesRise | scripts/capacity-extension-load-harness.ts:978-1009 | Every new grant of a slot carries a larger fence than all earlier grants of that slot. |
| GeminiSlots.StaleGiveIsRefused | scripts/capacity-extension-load-harness.ts:957-971 | A release under an earlier fence changes nothing at any later time, so it never frees a later holder. |
| GeminiSlots.HolderKeepsSlot | scripts/capacity-extension-load-harness.ts:957-1016 | Through every sequence of operations that does not give back exactly its slot, claim and fence a holder keeps its slot; asked again its identity finds the same slot, and the exact release frees it. |
| GeminiSlots.TakeExactly | scripts/capacity-extension-load-harness.ts:972-1016 | An identity is told to wait exactly when it holds no slot and all eight are claimed; otherwise it has one afterwards. |
| GeminiSlots.SlotTable.Acquire | scripts/capacity-extension-load-harness.ts:972-1016 | The in-place search and claim does exactly what the table transaction does, reply included. |
| GeminiSlots.SlotTable.Release | scripts/capacity-extension-load-harness.ts:957-971 | The in-place release frees the slot under the exact claim and fence only. |
| DrainRuns.FinishIsCovered | scripts/capacity-extension-load-harness.ts:1070-1197 | A delivery that ends without a retry leaves its id terminal, or another delivery of it in flight, or a delivery has thrown. |
| DrainRuns.StepKeeps | scripts/capacity-extension-load-harness.ts:1070-1232 | Every turn of every worker keeps the pool and ledger invariants, for any content of the shared stores. |
| DrainAdmissions.DeniedIsQueuedAgain | scripts/capacity-extension-load-harness.ts:1112-1124 | At the acquire a delivery throws exactly if its identity has completed or is held under other claims; it is denied exactly if its identity is under recovery or is new and its role or budget is full, and its worker's next turn queues the item again, whatever happens until then. |
| DrainAdmissions.RecoveryIsEarned | lib/services/analysis/provider-admission-checkpoint.ts:191-307 | A delivery whose release came too late goes on exactly if its lease has run out or is under recovery at its next turn, and after that exactly if it is under recovery. |
| DrainAdmissions.SucceededIsReleased | lib/services/analysis/provider-admission-checkpoint.ts:191-307 | For any content of the stores at the start and any interleaving: if no lease of an id ran out under its completion and none was rejected in time, an id recorded as succeeded has its Apify admission released as terminal, so it is never granted again. |
| DrainReleases.GeminiIsNeverRejected | scripts/capacity-extension-load-harness.ts:1134-1195 | An id none of whose Gemini leases ran out and was recovered, or was rejected from outside, has at no time a Gemini admission that could be granted again. |
| DrainReleases.ReturnedDrainReleased | scripts/capacity-extension-load-harness.ts:1070-1232 | Under these conditions a drain that returned has the Apify admission of every accepted id, and a Gemini admission of every paid one, released as terminal, and no Gemini admission of it can be granted again. |
| DrainLateness.LateSuccessIsRegrantable | lib/services/analysis/provider-admission-checkpoint.ts:191-307 | The conditions are needed: every drain whose first item is outside the expiry path has a run in which that id is recorded as succeeded while its admission can be granted again. |
| DrainLateness.LateExactly | scripts/capacity-extension-load-harness.ts:750-811 | The lease of a delivery is out exactly when two minutes have passed since its grant for a preflight Apify call, half a minute for a paid one, four minutes for a Gemini call. |
| DrainSlots.SlotIsOwn | scripts/capacity-extension-load-harness.ts:949-1017 | Under every interleaving a delivery holds its Gemini slot, from its grant until it frees it, under its own claim and the slot's current fence, and no two deliveries hold the same slot. |
| DrainSlots.SlotsAreReturned | scripts/capacity-extension-load-harness.ts:1134-1195 | Unless a delivery threw, every claimed slot is that of a delivery in its Gemini stage, so a paid drain that returned has left all eight slots free. |
| DrainSlots.FullIsQueuedAgain | scripts/capacity-extension-load-harness.ts:1145-1182 | A paid delivery that finds all slots claimed by others is queued again by its worker's next turn; it fails exactly if its identity holds a slot under another claim. |
| DrainSlots.FreeingExactly | scripts/capacity-extension-load-harness.ts:957-971 | A delivery past its Gemini call completes exactly if nobody has been granted its slot since. |
| DrainSystem.NoLostWork | scripts/capacity-extension-load-harness.ts:1199-1232 | Under every interleaving a drain that returns with no delivery having thrown reports a drained queue, and its terminal ids are exactly the accepted ids, so none is lost. |
| DrainSystem.NothingForgotten | scripts/capacity-extension-load-harness.ts:1070-1232 | At every moment an accepted id is terminal, queued, in flight, or a delivery has thrown. |
| DrainSystem.PoolIsLive | scripts/capacity-extension-load-harness.ts:1199-1232 | The cursor never passes the queue, each position was taken once and in order, `active` counts the busy workers, and unless all workers have ended one can step, so no wake-up is lost. |
| DrainSystem.ParkedSleeps | scripts/capacity-extension-load-harness.ts:1207-1228 | A worker that finds nothing to take while another is busy cannot move until a delivery of its role has ended. |
| DrainSystem.ExitIsFinal | scripts/capacity-extension-load-harness.ts:1207-1228 | Once a worker has returned nobody is active, the queue is consumed, and nothing is queued, taken or recorded again. |
| DrainSystem.GeminiAtMostOnce | scripts/capacity-extension-load-harness.ts:1134-1195 | Gemini is called at most once per id over all deliveries, retries and capacity denials, and a terminal paid id has had its call and a succeeded ledger. |
| DrainSystem.ApifyAtMostTwice | scripts/capacity-extension-load-harness.ts:750-811 | No id is terminal without an Apify call; an id outside the expiry path gets at most one, an eligible id at most two; each preflight effect has its own call. |
| DrainDuplicates.CalledOnceExactly | scripts/capacity-extension-load-harness.ts:750-811 | For every launched drain and id, no run calls Apify twice for the id if and only if it was queued once at most, or one worker drains alone, or the id cannot take the expiry path. |
| DrainRaces.DrainCanReturn | scripts/capacity-extension-load-harness.ts:1199-1232 | However many items and workers a drain is launched with, some run ends with the drain returned, exactly the accepted ids terminal, and every admission of theirs released as terminal, a Gemini one of every paid id among them. |
| DrainCrowds.DeniedIsServed | scripts/capacity-extension-load-harness.ts:417-428 | Every drain launched with more workers than its role may have leases, over as many different ids and one more, has a run that denies exactly one delivery, queues it again, and returns with every accepted id terminal and its admissions released as terminal. |
| DrainDuplicates.TerminalOnceExactly | scripts/capacity-extension-load-harness.ts:1070-1197 | For every launched drain and id, no run counts two terminal effects of the id if and only if it was queued once at most, or one worker drains alone, or it is a preflight id that cannot take the expiry path. |
| DrainEffects.NoMoreThanQueued | scripts/capacity-extension-load-harness.ts:1070-1197 | Whatever denials and rejections queue again, an id is called at Apify and has terminal effects at most as often as it was queued at the start; with one worker at most once. |
| DrainEffects.RetriesAreLater | scripts/capacity-extension-load-harness.ts:1104-1182 | Over every run what is queued again is never a first delivery, unless its id may take the expiry path. |
| CanaryJournal.CommitOk | supabase/migrations/20260719120000_add_profile_provider_canary_journal.sql:553-1723 | Every journal transaction keeps the lifecycle constraints and only adds facts: ids, costs, evidence, flags and gates never change once set, and begun cleanup is never left. |
| CanaryJournal.WaitingLasts | supabase/migrations/20260719120000_add_profile_provider_canary_journal.sql:1455-1512 | An experiment that waits for its second repetition can be closed as expired exactly once an hour has passed since the first one ended. |
| CanaryJournal.CleanupLeaseLasts | supabase/migrations/20260719120000_add_profile_provider_canary_journal.sql:1330-1512 | A cleanup just begun or taken over can be taken over by somebody else exactly once ten minutes have passed. |
| CanaryJournal.GatesAgree | scripts/canary-instagram-profile-provider.ts:181-188 | The journal's final gate holds if and only if the script's gate holds on the evidence and the reconciled usage is within one run's ceiling. |
| CanaryJournal.VerdictAndGate | scripts/canary-instagram-profile-provider.ts:181-188 | The script's gate is the recorded verdict together with restricted access, and the two disagree exactly on valid evidence that lacks nothing but restricted access. |
| CanaryReopening.ReopensExactly | supabase/migrations/20260719120000_add_profile_provider_canary_journal.sql:1072-1124 | Of all transactions exactly a late mark of repetition 1 makes an experiment wait for a second repetition it already has. |
| CanaryReopening.StuckUntilAdopted | supabase/migrations/20260719120000_add_profile_provider_canary_journal.sql:1226-1520 | If that repetition is ambiguous then, no sequence of transactions begins cleanup, resolves it as never started or leaves the waiting, unless one adopts a provider run for it. |
| CanaryReopening.StuckIsReachable | supabase/migrations/20260719120000_add_profile_provider_canary_journal.sql:553-1124 | A concrete sequence of transactions from an empty journal gets there. |
| CanaryRuns.StartsOnce | scripts/canary-instagram-profile-provider.ts:348-438 | Over any crashes and re-invocations each repetition is started afresh at most once, by the invocation whose reservation created it; at most two runs start and their authorised charge is at most 0.10. |
| CanaryRuns.OnlyResumes | scripts/canary-instagram-profile-provider.ts:348-438 | Only the creator of a never-started repetition is ever about to start it; any other invocation drives the run the journal names. |
| CanaryRuns.SecondNeedsFirst | scripts/canary-instagram-profile-provider.ts:338-456 | Repetition 2 exists only after repetition 1 succeeded, passed its gate with settled cost within the ceiling, and had all three storages removed; it was reserved within the hour after repetition 1 ended. |
| CanaryRuns.CleanupIsOrdered | scripts/canary-instagram-profile-provider.ts:220-273 | Over every interleaving of canary, finaliser, recovery and crashes a cleaned flag implies absence, for a source flag on all eight runs; no canary storage is deleted before its cost is settled, no source storage before terminalization began. |
| CanaryRuns.TerminalIsClean | scripts/finalize-profile-provider-canary.ts:161-212 | When the experiment is terminal every source storage is gone and every repetition is closed, settled and without storages. |
| CanaryRuns.ReasonIsTrue | supabase/migrations/20260719120000_add_profile_provider_canary_journal.sql:1330-1446 | The reason under which an experiment is cleaned up is true of it; completed means both repetitions passed the script's gate with settled costs of at most 0.10 together, expired that an hour has passed since repetition 1 ended. |
| CanaryCompletion.ScriptConcludes | scripts/canary-instagram-profile-provider.ts:314-468 | Run alone with every call working, from any reachable state whose journal can be resumed, the script makes the experiment terminal, as completed exactly if both gates are true and as a strict failure otherwise; each repetition is as recorded before and otherwise as the provider answered. |
| CanaryCompletion.AnswersDecide | scripts/canary-instagram-profile-provider.ts:444-468 | From nothing some run of the script ends terminal, as completed exactly if the answers for both repetitions pass the gate at a cost within the ceiling of one run. |
| CanaryCleanup.ScriptResumesCleanup | scripts/canary-instagram-profile-provider.ts:318-339 | A script invoked while cleanup is under way takes it to its end under its own reason and claim. |
| CanaryCleanup.RecoveryConcludes | lib/services/analysis/profile-provider-canary-recovery.ts:83-143 | The recovery takes cleanup to its end exactly if the waiting has expired or the cleanup lease has run out, as expired or under the reason it had; otherwise it changes nothing. |
| CanaryCleanup.FinaliserResumesCleanup | scripts/finalize-profile-provider-canary.ts:144-212 | A finaliser invoked while cleanup is under way takes it to its end. |
| CanaryCleanup.FinaliserAborts | scripts/finalize-profile-provider-canary.ts:144-212 | A finaliser invoked while the experiment waits for a second repetition that has not come closes it as aborted. |
| CanaryEvidence.JournalIsObserved | scripts/canary-instagram-profile-provider.ts:396-442 | Over every run a repetition is recorded as succeeded or failed only if evidence observed of its own provider run says so, and a recorded cost is one answered for that run, or zero for a repetition attested to have none; repetition 2 exists only if evidence observed of repetition 1 passed the script's gate at an answered cost within the ceiling. |
| CanaryEvidence.UnknownStartIsMarked | scripts/canary-instagram-profile-provider.ts:348-416 | An invocation whose start or checkpoint failed or lost its response, or that finds a reservation nobody followed up, records the repetition as ambiguous at its next turn, and it stays ambiguous until an operator resolves one. |
| CanaryRuns.FactsStay | supabase/migrations/20260719120000_add_profile_provider_canary_journal.sql:553-1723 | Over every run the journal only gains facts, cleanup keeps its reason, and while a cleanup lease runs the cleanup stays with its claim. |
| CanaryRuns.FinaliserJustified | scripts/finalize-profile-provider-canary.ts:178-206 | The finaliser's program from a settled context only attempts deletions that are due and writes each flag after the verifications it stands for. |
| CanaryRuns.SweepJustified | lib/services/analysis/profile-provider-canary-recovery.ts:83-143 | The same for the recovery sweep and a resumed terminalization, which redo everything. |
| CanaryFinaliser.Cleaner.Finalise | scripts/finalize-profile-provider-canary.ts:144-212 | An invalid context or unsettled cost is refused before any effect; otherwise the program is performed in order up to the first failure. The effects of a completed call delete, verify and mark, in this order, every storage the context shows as unclean, verify all eight source runs before each source flag, touch nothing else and end with the experiment; the call reports the number of verifications among them, which is the unclean canary flags plus eight per unclean source flag. |
| CanaryEffects.SweepIsComplete | lib/services/analysis/profile-provider-canary-recovery.ts:83-143 | The effects of the recovery sweep delete, verify and mark every storage of its inventory and every source storage, touch nothing else and end with the experiment. |
| CanaryEffects.ClosingIsComplete | scripts/canary-instagram-profile-provider.ts:220-273 | The effects of the script's own end do so for every source storage. |
| CanaryFinaliser.Cleaner.CleanSources | scripts/canary-instagram-profile-provider.ts:261-273 | For each storage kind all eight deletions are verified before the flag is written, in storage order. |
| RepairCanary.StartsOnce | scripts/canary-apify-profile-repair.ts:360-453 | The repair canary starts each repetition at most once, by its creator; at most two runs start, and authorised and recorded charges stay within 0.10. |
| RepairCanary.OnlyResumes | scripts/canary-apify-profile-repair.ts:360-561 | Only a creator is ever about to start; any other call resumes the journal's run; repetition 2 needs repetition 1 succeeded and settled within the ceiling. |
| RepairCanary.RunKeeps | supabase/migrations/20260718123000_add_profile_repair_canary_journal.sql:363-818 | Over every run recorded run ids, verdicts and costs never change. |
| RepairCanary.RecordsAreObserved | scripts/canary-apify-profile-repair.ts:504-561 | A repetition is recorded as succeeded only if a finished call of its own provider run was found to pass its gate, as failed only if one was found not to; a recorded cost was answered for that run; repetition 2 exists only if the observed gate of repetition 1 passed at an answered cost within the ceiling. |
| RepairCanary.UnknownStartIsMarked | scripts/canary-apify-profile-repair.ts:360-453 | An invocation of the repair canary that cannot know whether its repetition was started records it as ambiguous at its next turn, and it stays so for good. |
| RepairCanary.WritesAreGuarded | supabase/migrations/20260718123000_add_profile_repair_canary_journal.sql:363-818 | Whatever the records hold, a cost of repetition 2 is only recorded next to one of repetition 1 with the two within 0.10 together, and a run id only if no other repetition has it. |
| RepairCompletion.InvocationCompletes | scripts/canary-apify-profile-repair.ts:360-561 | Run alone with every call working, from any records that can be resumed, an invocation ends with repetition 1 recorded and with repetition 2 exactly if repetition 1 succeeded, each as recorded before and otherwise as answered, and starts exactly those that were missing. |
| RepairAccounting.ReconcileUsage | scripts/canary-apify-profile-repair.ts:314-358 | The cost is that of the first of 37 polls answered before the deadline with a terminal run finished for 30 seconds and usage in range, if there is one; the wait never exceeds 180 seconds. |
| RequestCoordinator.ControllersAreExact | hooks/useAnalysisV2Preflight.ts:279-328 | In every reachable state the abort set is exactly the unfinished scopes of the current generation, and a scope is current exactly when it is in that set and its preflight matches. |
| RequestCoordinator.OnePollPerLifecycle | hooks/useAnalysisV2Preflight.ts:333-352 | At most one poll is unfinished per lifecycle, and a new one is refused exactly while there is one or the lifecycle or preflight is not current. |
| RequestCoordinator.StaleEndIsHarmless | hooks/useAnalysisV2Preflight.ts:312-352 | Ending a finished scope, a stale poll included, frees no token and removes no controller. |
| RequestCoordinator.LifecycleEndsScopes | hooks/useAnalysisV2Preflight.ts:285-292 | After `beginLifecycle` every earlier scope is finished or aborted, and none is current in any later state. |
| RequestCoordinator.PreflightIsLatest | hooks/useAnalysisV2Preflight.ts:285-303 | The current preflight is at every time that of the last lifecycle begun or of the last attach that named its generation since; nothing else touches it. |
| RequestCoordinator.StaleAttachIsRefused | hooks/useAnalysisV2Preflight.ts:285-303 | An attach from before a `beginLifecycle` is refused in every later state and leaves the current preflight alone; one of the current generation is what a request for its id then finds. |
| RequestCoordinator.Coordinator.BeginLifecycle | hooks/useAnalysisV2Preflight.ts:285-292 | The loop over the abort set aborts exactly its members, and the whole new state is that of the specification. |
| RequestCoordinator.Coordinator.BeginPoll | hooks/useAnalysisV2Preflight.ts:333-352 | A poll takes the token together with an ordinary request scope, or changes nothing. |
| ProgressReads.OneLiveRead | hooks/useAnalysisProgress.ts:169-183 | In every reachable state at most one read is unaborted and unsettled; it is the one in flight for the active request, and no other unsettled read passes the guard under which results are applied. |
| ProgressReads.RequestChangeReads | hooks/useAnalysisProgress.ts:359-383 | A request change always starts one read of the new request, which is in flight, and leaves no earlier read that has neither settled nor been aborted. |
| ProgressReads.SupersededSettlesQuietly | hooks/useAnalysisProgress.ts:345-354 | The settling of a superseded read leaves its successor in flight with its queue flag. |
| ProgressReads.RefreshIsFollowedUp | hooks/useAnalysisProgress.ts:169-183 | A refresh during a read is followed by another read of the same request when it settles, whatever happens in between, unless the request changed, the hook unmounted or the read ended 401, 403 or 404. |
| ProgressReads.HardFailureEndsIt | hooks/useAnalysisProgress.ts:323-354 | A live read that ends 401, 403 or 404 withdraws a queued refresh: unless one is asked for or the request changes after that, retries start nothing and its settling leads to no read. |
| ProgressReads.RetryStartsAtMostOne | hooks/useAnalysisProgress.ts:391-395 | A manual retry never queues a read: it shares the unaborted one of its request, starts one if there is none, and does nothing for a request that is not active. |
| ProgressReads.Reads.Refetch | hooks/useAnalysisProgress.ts:391-395 | A manual retry shares an unaborted read of its request without queuing another one, and otherwise fetches. |
| ProgressReads.Reads.CommitRequest | hooks/useAnalysisProgress.ts:359-383 | A request change runs the cleanup, installs the new closure, aborts the old read and starts a new one. |
| ProgressReads.Reads.OnSettled | hooks/useAnalysisProgress.ts:345-354 | The settling handler refetches through the latest closure exactly when a refresh is queued and the request is still active. |
| RunnerProvisioning.AnyNumberOfRuns | scripts/account-ledger-rollout.ts:336-418 | Running any sequence of provision runs, each with its own failures and generated credentials, leaves everything stored earlier in place, and of all the auth users that were not there at the beginning there is at most one for each plan. |
| RunnerProvisioning.Rollout.ResolveRunnerUser | scripts/account-ledger-rollout.ts:318-374 | However its calls fail, stored emails and ids never change, an id is only stored for the user with that email and plan, and a plan that was resolvable still is; when all calls work it succeeds exactly when the plan is resolvable, which a stored id is only if its user exists with that email and plan metadata. |
| RunnerProvisioning.Rollout.Provision | scripts/account-ledger-rollout.ts:394-418 | A completed run leaves every plan provisioned with the user its credential names and reports how many were new; when every call works it completes if both plans are resolvable under different emails and the ledger names no other runner. |
| Parity.Compare | scripts/backfill-account-deletion-canonical.ts:240-288 | Each mismatch field is reported if and only if its declarative condition holds of the two tables. |
| Parity.MatchIsMultisetEquality | scripts/backfill-account-deletion-canonical.ts:240-288 | The status is match exactly when keys are unique on both sides and the tables are permutations of each other up to key, kind, state, content hash and payload. |
| Parity.PayloadEqualityIsObjectEquality | scripts/backfill-account-deletion-canonical.ts:224-238 | Comparing sorted entries is equality of the two objects. |
| ParityChecksum.ChecksumIsExact | scripts/backfill-account-deletion-canonical.ts:211-222 | For unique keys two tables have the same checksum input exactly when they are permutations of each other up to key, kind, state and content hash; row order is irrelevant. |
| ParityChecksum.EncodeExactly | scripts/backfill-account-deletion-canonical.ts:216-220 | The length-framed input determines the key, kind, state and content hash of every row. |
| ParityChecksum.MatchHasEqualChecksums | scripts/backfill-account-deletion-canonical.ts:240-288 | A parity match implies equal checksums. |
| ParityChecksum.ProjectionChecksum | scripts/backfill-account-deletion-canonical.ts:211-222 | The digest loop feeds exactly the encoding of the sorted rows, and an empty table has no checksum. |

## Left out

- Renewal timers are outside operations of the shared stores; a delivery keeps the token and fence of its grant, which renewal does not change.
- The transaction queue is proved separately; a delivery's database call is then one step of its own, in arrival order of the steps.
- The probes, saturation barriers, provider activity counters and fixed pass numbers of the harness, and its task-enqueueing clients.
- Exceptions of a delivery end its worker; what a drain rejected by one reports is not modelled, and the no-loss result is about drains that return.
- Termination of a drain: capacity denials can be retried forever.
- DrainSlots.SlotIsOwn: is about drains that alone use the eight slots, with a preflight queue of preflight ids, as the harness launches them.
- Reservation tokens of both canary journals: the scripts reload the token before each write, so it never distinguishes invocations.
- The ordered-set HMAC, the operator identity and the replay of the source bundle: a changed or unreadable source is a failed step.
- Provider call internals: a call makes at most one fresh start per invocation, may lose the response, and may fail before or after it.
- An operator adopts only runs the provider issued for the canary; time windows and evidence hashes of adoption are not modelled.
- Journal validations of fixed counts and identifiers, which every call of the scripts satisfies.
- The finaliser's report text and the canaries' sanitised reports.
- CanaryFinaliser.Cleaner.Finalise: does not model `beginTerminalization`, which is a step of `CanaryProcesses.FinStep` proved there.
- Auth emails are unique, as the auth service guarantees; concurrent provision runs are not modelled.
- The audit, plan and apply modes of the account-ledger rollout, and the tests of confirmation and rollout state before a provision run.
- React state setters, analytics, payload parsing, revision and cursor handling of the two hooks.
- Parity.Compare: reports the mismatch fields as a set; the source sorts their names.
- ParityChecksum.ChecksumIsExact: asks kinds and states to hold no line end, as their fixed values do, because they are not length-framed.
- Key order in the checksum is code-point order; the source's locale order agrees on the hexadecimal keys it is given.
- Row projection and normalisation, the archive manifest and the batch reader of the parity script.
- `scripts/check-capacity-identity-epoch-exclusion.ts`, the concierge scripts, SQL generators, argument parsers, and all of `app/` and `components/`.
