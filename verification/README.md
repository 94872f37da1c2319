# Verification of the transaction service's sequence-number protocol

The service accepts Move calls over HTTP, stores each as a record, and submits every sender's
records to the chain in creation order.  The chain accepts exactly one sequence number per sender
at a time, so the service keeps a counter per sender, hands a number to each record it claims,
signs several records ahead in a pipeline, and repairs the counter after every kind of failure.
This project models that protocol, and the components that share its store, and proves:

* **At most once.**  Over every interleaving of handler, producer, consumer, poller, recovery loop
  and crashes, the chain never accepts a record twice, and an accepted record is never queued again
  (`AtMostOnce`).  A broadcast that a crash cuts off may still reach the chain at any later time; its
  record is never queued either.  Two things are assumed of a run, and each is shown to be needed by
  a run that goes wrong without it (`AtMostOnceLimits`).
* **First in, first out.**  For any pipeline depth, a calm run - one worker at a time, any number of
  shutdowns and restarts of it but no crash, an increasing creation clock, only transient failures -
  refines a one-at-a-time queue: the chain accepts the records in creation order at consecutive
  numbers, and every failure and every graceful stop unwinds the counter exactly (`Fifo`).  Calm also
  means that no live claim is recovered as stale, that nothing but the submitter touches an unaccepted
  record, that the store calls which give claims back succeed, that the answer to a committed claim
  is lost only to a worker that is stopping, and that the chain is read no further than it is.
* **Progress.**  In every reachable state a worker can take a step that needs no fault, so the
  bounded channel never deadlocks; and once its context is cancelled, by a failure or a shutdown, the
  worker ends within a bounded number of steps, whatever fails and however they interleave
  (`Progress`).
* **Reconciliation converges.**  From any counter and chain, at most two sequence rejections come
  before every further claim is accepted the first time (`Reconcile`).
* **The counters are exact.**  A counter equals a fixed base plus the records that hold a number; a
  forced reset is safe if and only if every other broadcast record at or above the chain is a
  submitted one and these leave no gap; a shift gives every record its old number back
  (`QueueLaws`, `Reconcile`).  The SQL transactions agree with the in-memory operations, with exact
  conditions for the four that can differ: shift, raise, forced reset and recovery (`SqlTwin`).
* **The components around it.**  The store's idempotency index stays in bijection with the keys
  (`MemoryStore`); a poller sweep visits every record of a status exactly once and settles each
  exactly once even among competing pollers (`Poller`, `PollRace`); an archive sweep takes exactly
  what is eligible (`Archive`); competing requests with one key create one record (`Enqueue`); the
  dispatcher is oldest first and runs one worker per sender (`Dispatch`); both caches hold exactly
  the most recently used keys that fit (`Recency`, `Caches`); the argument encoder is undone by a
  decoder (`Bcs`).

## How the model is built

The store, the submitter's failure paths, the poller, the archiver, the handler, the dispatcher,
the caches and the encoder are imperative: classes and methods with the loops of the program, each
proved against functions on values.  Concurrency is modelled by step systems on those same
functions (`Pipeline`, `PollRace`, `Enqueue`), in which each access to the store, the chain or the
channel is one step.  In `Submitter`, lemmas tie the submitter's methods to the steps of the
pipeline: a submission with any answer, the failure paths, the reconciliation and the sweep are what
the pipeline's steps and scripts do when nothing comes between them.  `Outside` does the same for
the poller, the handler and the archiver.  What the functions on values mean is stated again field by
field, without those functions, in the lemmas named `...Outcome`, `RecoversExactlyAged` and the like.

The chain is a log that accepts exactly the sequence number equal to its length.  Ids and addresses
are ranks in their order, with 0 for the empty string; times are naturals; the iteration order of a
Go map is an arbitrary choice.  Signing, network answers and clock readings are parameters or
nondeterministic outcomes.

Assumptions that the program itself relies on, and that the theorems state: one process, so at most
one live worker per sender; a submission that returns an error has put nothing on chain; while the
consumer is still submitting, no record is claimed that still sits in the pipeline (the conditional
write checks only the status); no broadcast record lies above the number of a permanent failure.

Where the program and its documentation disagree, the model follows the program:

* `internal/store/mysql/queue.go:143-146` says that the counter is never lowered based on chain
  state; `applyReconcile` does lower it when the chain is behind
  (`internal/submitter/submitter.go:865-886`).
* `internal/store/memory_queue.go:91-94` says that a forced reset cannot collide with in-flight
  broadcasts; it does not count a broadcast claim whose status update failed, and can give that
  claim's number out again (`QueueLaws.ForceResetCollidesOnHashedClaim`).
* `internal/store/mysql/queue.go:233-235` and `:402` say that the counter is bounded at zero; the
  column is unsigned (`internal/db/migrations/000001_init.up.sql:6`), so in MySQL's default mode
  subtracting more than it holds is an error, which rolls the transaction back before `GREATEST`
  applies.  One sender's short counter thus undoes the recovery of every sender
  (`SqlTwin.RecoveryCanStrand`).
* `internal/archive/archiver.go:42-44` says that non-positive settings are rejected; `New` replaces
  them by defaults.
* `internal/submitter/submitter.go:668-673` says that the shift prevents a permanent gap; the
  counter ends one above the failed number, so the gap stays until a forced reset.
* `internal/submitter/submitter.go:514-522` says that a broadcast record is settled without being
  signed again; the shift requeues such a record if it lies above the failed number
  (`AtMostOnce.ShiftUnsettlesIff`).

## Model

| member | source | states |
|---|---|---|
| `MemoryStore.MemoryStore.constructor` | internal/store/memory.go:23-33 | a new store is empty and its index valid |
| `MemoryStore.MemoryStore.Create` | internal/store/memory.go:38-63 | exactly when an id or a non-empty key is taken the write is refused and changes nothing; otherwise the record is added and the index stays in bijection |
| `MemoryStore.MemoryStore.Update` | internal/store/memory.go:68-96 | refused exactly for an unknown id or a key owned by another record, changing nothing; otherwise it replaces the record and keeps the bijection |
| `MemoryStore.MemoryStore.UpdateIfStatus` | internal/store/memory.go:103-131 | writes exactly when the stored status is the expected one and the key is free; otherwise nothing changes |
| `MemoryStore.MemoryStore.Get` | internal/store/memory.go:134-143 | the stored record, if any |
| `MemoryStore.MemoryStore.GetByIdempotencyKey` | internal/store/memory.go:146-162 | finds a record with the key exactly when one exists and the key is not empty |
| `MemoryStore.MemoryStore.ListByStatus` | internal/store/memory.go:165-176 | every record of the status once, in any order |
| `MemoryStore.MemoryStore.ListByStatusPaged` | internal/store/memory.go:181-210 | the records strictly after the cursor, in (updated_at, id) order, cut at the limit; what is cut comes later |
| `MemoryStore.PageGoesByUpdate` | internal/store/memory.go:181-210 | a page goes by the time of the last update and by the id where these agree, and starts strictly after the cursor in that order |
| `MemoryStore.MemoryStore.PurgeTerminalOlderThan` | internal/store/memory.go:216-238 | deletes aged terminal records only, as many as there are up to the limit, whatever the scan order, and reports the exact number |
| `MemoryStore.MemoryStore.ClearIdempotencyOlderThan` | internal/store/memory.go:242-265 | clears keys of aged terminal records only, as many as there are up to the limit, and changes nothing else |
| `MemoryStore.MemoryStore.Evict` | internal/store/memory.go:291-304 | keeps exactly the records younger than the time to live, and the bijection |
| `MemoryStore.MemoryStore.ClaimNextQueuedForSender` | internal/store/memory_queue.go:17-49 | claims the oldest queued record of the sender and gives it the counter's value; nothing happens exactly when none is queued |
| `MemoryStore.MemoryStore.ListQueuedSenders` | internal/store/memory_queue.go:53-78 | exactly the senders with queued records, without repeats, by creation time of their oldest record |
| `MemoryStore.MemoryStore.ReconcileSequence` | internal/store/memory_queue.go:82-89 | the counter is raised to the chain's number and never lowered |
| `MemoryStore.MemoryStore.ForceResetSequenceToChain` | internal/store/memory_queue.go:95-110 | the counting loop counts exactly the submitted records at or above the chain |
| `MemoryStore.MemoryStore.RecoverStaleProcessing` | internal/store/memory_queue.go:116-148 | requeues exactly the unbroadcast numbered claims last touched more than the age ago, and lowers each sender's counter by its own number of them |
| `MemoryStore.MemoryStore.ShiftSenderSequences` | internal/store/memory_queue.go:153-182 | requeues exactly the live records above the failed number and lowers the counter by their number |
| `MemoryStore.MemoryStore.ReleaseSequence` | internal/store/memory_queue.go:186-193 | lowers the counter by one, not below zero |
| `QueueSpec.ClaimsAreConsecutive` | internal/store/memory_queue.go:36-41 | k claims hand out the k numbers from the counter on, in order, and change nothing else of a claimed record but its status and time |
| `QueueSpec.ClaimsTouchOnlyTheirRows` | internal/store/memory_queue.go:36-48 | claims change no record that was not queued and no other counter |
| `QueueLaws.CountersAreConserved` | internal/store/memory_queue.go:17-193 | over every run of claims, paired give-backs, recoveries, shifts and status updates, each counter is its base plus the records holding a number |
| `QueueLaws.RecoverIsExact` | internal/store/memory_queue.go:116-148 | each sender's counter falls by exactly its own recovered records, so the bound at zero never acts |
| `QueueLaws.RecoversExactlyAged` | internal/store/memory_queue.go:116-148 | a row changes exactly if it is an unbroadcast numbered claim last touched more than the age ago, and is then queued without a number, otherwise as it was |
| `QueueLaws.RecoveryLowersBy` | internal/store/memory_queue.go:139-146 | whatever it stood at, each counter falls by the sender's own aged claims, but not below zero |
| `QueueLaws.ClaimIsKeptUntilAged` | internal/submitter/submitter.go:164-182 | a fresh claim is recovered by a later recovery exactly if more than the stale age has passed since |
| `QueueLaws.ShiftIsExact` | internal/store/memory_queue.go:153-182 | the counter falls by exactly the shifted records, so the bound at zero never acts |
| `QueueLaws.GapFreeIffWithinCount` | internal/store/mysql/queue.go:165-175 | pigeonhole: distinct submitted numbers from the chain on are gap-free exactly when they lie within their own count of it |
| `QueueLaws.ForceResetIsSafeIff` | internal/store/mysql/queue.go:165-175 | after a forced reset no number from the counter on is held by a submitted record or a hashed claim, exactly when there is no hashed claim at or above the chain and the submitted numbers leave no gap |
| `QueueLaws.ForceResetNeverCollides` | internal/store/memory_queue.go:91-110 | under that condition the next k claims get consecutive numbers from the first free one on, each held by no other submitted record or hashed claim |
| `QueueLaws.ForceResetCollidesOnGap` | internal/store/memory_queue.go:95-110 | a concrete gap with which the reset counter is a broadcast number |
| `QueueLaws.ForceResetCollidesOnHashedClaim` | internal/store/memory_queue.go:99-108 | a concrete hashed claim whose number the reset gives out again |
| `QueueLaws.ShiftIsExactAbove` | internal/store/mysql/queue.go:349-393 | after a permanent failure at f the counter is f + 1 and exactly the records above f have changed, to queued ones without a number |
| `QueueLaws.ShiftIsStable` | internal/store/mysql/queue.go:349-393 | claiming again gives every shifted record its old number back |
| `SqlTwin.SelectionsAgree` | internal/store/mysql/queue.go:77-83 | the ordered query finds exactly the oldest queued record of the scan |
| `SqlTwin.ClaimsAgree` | internal/store/mysql/queue.go:64-137 | the SQL claim and the in-memory claim take the same record and leave the same records and counters |
| `SqlTwin.ReleasesAgree` | internal/store/mysql/queue.go:403-409 | both releases leave the same counter; the SQL one is refused exactly when a counter row stands at zero |
| `SqlTwin.ShiftsAgreeIff` | internal/store/mysql/queue.go:353-393 | the shifts agree exactly when the counter, if there is one, covers the shifted records; otherwise the SQL one rolls back |
| `SqlTwin.RaisesAgreeIff` | internal/store/mysql/queue.go:147-152 | the raises agree exactly when the sender has a counter row or the chain is at zero |
| `SqlTwin.ForceResetsAgreeIff` | internal/store/mysql/queue.go:176-213 | the resets agree exactly when the sender has a counter row or the target is zero |
| `SqlTwin.RecoveriesAgreeIff` | internal/store/mysql/queue.go:236-347 | for any age, if no counter falls short the recoveries agree exactly when rounding the age to whole seconds moves no unhashed claim across the cutoff and no stale claim lacks a number; if one falls short, exactly when the in-memory form finds nothing stale |
| `SqlTwin.WholeSecondRecoveriesAgreeIff` | internal/store/mysql/queue.go:236-347 | for an age of whole seconds they agree exactly when every stale claim holds a number and every counter covers its sender's stale claims |
| `SqlTwin.WholeSecondsRound` | internal/store/mysql/queue.go:237-237 | the SQL age is the greatest number of whole seconds in the age, but at least one |
| `SqlTwin.RecoveryCanStrand` | internal/store/mysql/queue.go:331-347 | a concrete store whose stale claim the SQL recovery leaves in processing while the in-memory one requeues it |
| `SqlTwin.BalancedNeverRollsBack` | internal/store/mysql/queue.go:236-409 | while every counter is its base plus the records holding a number, no recovery or shift falls short of a counter, nor does the release of a held number |
| `SqlTwin.CountsAgree` | internal/store/mysql/queue.go:248-286 | with the same cutoff, a recovery that commits releases the same numbers as the in-memory one, also when it alone rescues a claim without one |
| `AtMostOnce.StepKeepsSafe` | internal/submitter/submitter.go:199-295 | every step of handler, producer, consumer, poller, recovery, crash and late acceptance keeps the records that are accepted, or may still be, settled and out of the worker's hands |
| `AtMostOnce.AcceptedAtMostOnce` | internal/submitter/submitter.go:523-639 | over every run, no record is accepted twice, and neither an accepted record nor one whose broadcast a crash cut off is queued again |
| `AtMostOnce.ShiftUnsettlesIff` | internal/store/memory_queue.go:157-174 | the shift makes a broadcast claim signable again exactly when one lies above the failed number |
| `AtMostOnceLimits.ClaimAssumptionIsNeeded` | internal/store/memory.go:103-131 | a run, legal but for re-claiming a record that still sits in the pipeline, after which an accepted record is queued |
| `AtMostOnceLimits.ShiftAssumptionIsNeeded` | internal/store/memory_queue.go:157-174 | a run, legal but for a shift over a broadcast record, after which an accepted record is queued |
| `Fifo.CalmStepKeepsOrderly` | internal/submitter/submitter.go:199-295 | every step of a calm run keeps the line of unaccepted records, their numbers and the counter consistent |
| `Fifo.AcceptedInCreationOrder` | internal/submitter/submitter.go:184-198 | for any depth the chain has accepted exactly the oldest records, in creation order, at consecutive numbers |
| `Fifo.EveryBroadcastIsNext` | SEQUENCE_NUMBERS.md:9-15 | every number sent to the chain is the chain's next one and belongs to the oldest unaccepted record |
| `Fifo.NumberIsRank` | internal/submitter/submitter.go:247-295 | a held record has the number of its place in creation order, so a re-claim gives the number it had before |
| `Fifo.FailureUnwindsExactly` | internal/submitter/submitter.go:220-235 | when a worker has cleaned up after a failure, a shutdown or the end of its work, the counter is exactly the chain's number and every unaccepted record is queued without one |
| `Fifo.CleanupLeavesAccepted` | internal/submitter/submitter.go:944-996 | no step of a failed worker touches an accepted record |
| `Fifo.RefinesOneAtATime` | internal/submitter/submitter.go:184-198 | each step is, to an observer of the chain and the queue, an enqueue, the acceptance of the head, or nothing |
| `Progress.StepKeepsSound` | internal/submitter/submitter.go:199-295 | every step keeps records under their ids, numbers on the records in preparation, and the drain after the cancellation |
| `Progress.WorkerNeverStuck` | internal/submitter/submitter.go:199-295 | for any depth of at least one, in every state that any run reaches a live worker can take a step that needs no fault |
| `Progress.StoppingIsBounded` | internal/submitter/submitter.go:199-236 | after its context is cancelled, by a failure or from outside, a worker takes at most four steps for each item in the channel, two for each claim that it lists, and a constant |
| `Progress.CancellationStops` | internal/submitter/submitter.go:199-236 | from the shutdown or the consumer's first failure on, the worker takes at most its potential and two steps for each claim that it lists |
| `Progress.ProducerEndsOnlyIf` | internal/submitter/submitter.go:247-295 | a producer ends only if it is cancelled or nothing is queued, and at its next check if it is cancelled; no fault ends it |
| `Progress.FaultsCanStrike` | internal/submitter/submitter.go:199-295 | every store call, signing and broadcast may fail whenever it is made, and a recovery, an outside transaction, a shutdown and a crash may come at any moment |
| `Progress.PotentialIsSmall` | internal/submitter/submitter.go:199-236 | that constant is at most 18 for a worker that has not failed |
| `Reconcile.ReconcilePostcondition` | internal/submitter/submitter.go:844-921 | the counter goes down to the chain's number plus the submitted rows from it on exactly if the rejected number was ahead of the chain, is raised to it if below, and else stays; the other unbroadcast claims lose their numbers, the rejected record counts an attempt, and everything else is unchanged |
| `Reconcile.ReconciledIsSafeIff` | internal/submitter/submitter.go:865-921 | after a reconciliation with the chain behind, no number from the counter on is held by a broadcast record, exactly when the rejected record was the only hashed claim at or above the chain and the submitted numbers leave no gap |
| `Reconcile.OfferBringsInStep` | internal/submitter/submitter.go:865-886 | one fresh claim, accepted or rejected, brings the counter in step with the chain |
| `Reconcile.FreshClaimsConverge` | internal/submitter/submitter.go:844-921 | among fresh claims exactly one is rejected if the counter disagreed with the chain at first, and none otherwise |
| `Reconcile.ReconciliationConverges` | internal/submitter/submitter.go:802-921 | starting with any claim in hand, at most two rejections occur, and none after the first fresh claim |
| `Reconcile.TwoRejectionsOccur` | internal/submitter/submitter.go:844-921 | the bound of two is reached |
| `Submitter.FailurePathsAreScripts` | internal/submitter/submitter.go:678-785 | the give-back and the permanent failure are the scripts that the pipeline runs |
| `Submitter.GivenBackOutcome` | internal/submitter/submitter.go:772-785 | a record given back is queued without a number, and its sender's counter falls by one, not below zero, exactly if it held one |
| `Submitter.TerminatedOutcome` | internal/submitter/submitter.go:678-713 | the record is failed; exactly the queued and claimed records of its sender above its number are queued without one, and the counter falls by their count |
| `Submitter.SubmissionIsSteps` | internal/submitter/submitter.go:523-639 | an undisturbed accepted submission is the pipeline's persist, accept and record steps |
| `Submitter.RejectionIsSteps` | internal/submitter/submitter.go:538-609 | for every other answer, the pipeline's persist and reject steps and the script they leave, run undisturbed, have the effect of the submission |
| `Submitter.AcceptedOutcome` | internal/submitter/submitter.go:611-636 | an accepted record is submitted under the server's hash, or its own if the server names none; unrecorded, it stays a claim with its hash; nothing else changes |
| `Submitter.SequenceErrorOutcome` | internal/submitter/submitter.go:802-921 | after a sequence error the counter goes down to the chain, past the submitted rows, exactly if the record's number was ahead of it, and is raised to it if below |
| `Submitter.OtherErrorOutcome` | internal/submitter/submitter.go:602-608 | an aged record is failed for good; any other, also when the account cannot be read, is given back with one more attempt |
| `Submitter.BroadcastIsSubmission` | internal/submitter/submitter.go:523-639 | a broadcast of the convergence theorem is a submission, accepted exactly at the chain's number |
| `Submitter.ProducerRoundIsSteps` | internal/submitter/submitter.go:247-295 | an undisturbed round of the producer claims the oldest record and sends it, as stored, under the hash it was signed with, behind what the channel holds |
| `Submitter.ProducerFailuresAreScripts` | internal/submitter/submitter.go:280-295 | a transient failure in preparation gives the claim back with one more attempt, a permanent one fails it, and a cancelled send gives it back uncounted and ends the producer |
| `Submitter.ConsumerFailuresAreScripts` | internal/submitter/submitter.go:538-546 | a failed persist gives the claim back with one more attempt, a drained item goes back uncounted |
| `Submitter.EveryFailureStops` | internal/submitter/submitter.go:220-229 | whatever keeps a submission from success ends the worker's submissions and leaves the channel to the drain |
| `Submitter.EndScriptsSweep` | internal/submitter/submitter.go:944-996 | a worker's last script, run undisturbed, raises the counter to a chain read by the drain and sweeps every orphan |
| `Submitter.DrainReturnsAll` | internal/submitter/submitter.go:944-947 | a drain queues every item's record without a number and releases one number for each, whatever the order |
| `Submitter.SweptOutcome` | internal/submitter/submitter.go:979-996 | exactly the sender's unbroadcast claims are queued without a number, and the counter falls by those that held one |
| `Submitter.MismatchScriptReconciles` | internal/submitter/submitter.go:844-921 | the pipeline's script for a sequence error, run undisturbed and in any listing order, is the reconciliation |
| `Submitter.SweepScriptSweeps` | internal/submitter/submitter.go:979-996 | the pipeline's last script, run undisturbed and in any listing order, is the sweep |
| `Submitter.Submitter.RequeueTransient` | internal/submitter/submitter.go:732-766 | the record is queued without a number, counted as an attempt, and its number released if it held one |
| `Submitter.Submitter.RequeueRecord` | internal/submitter/submitter.go:772-785 | the same without counting an attempt |
| `Submitter.Submitter.RequeueWithoutRelease` | internal/submitter/submitter.go:927-934 | the record is queued without a number and no counter changes |
| `Submitter.Submitter.MarkPermanentFailure` | internal/submitter/submitter.go:678-713 | the record fails, its siblings shift if it held a number, and exactly one notice is sent |
| `Submitter.Submitter.ApplyReconcile` | internal/submitter/submitter.go:844-921 | whatever the listing order, the result is the reconciled queue |
| `Submitter.Submitter.DrainPipeline` | internal/submitter/submitter.go:944-968 | every item is given back in order, then the counter is raised to the chain if it could be read |
| `Submitter.Submitter.SweepOrphanedProcessing` | internal/submitter/submitter.go:979-996 | whatever the listing order, exactly the sender's unbroadcast claims are queued, releasing one number for each that held one |
| `Submitter.Submitter.UpdateWithRetry` | internal/submitter/submitter.go:646-666 | succeeds exactly when fewer than five calls fail and the write is not refused; otherwise nothing changes |
| `Submitter.Submitter.SubmitSigned` | internal/submitter/submitter.go:523-639 | nothing is broadcast unless the hash was persisted on a claimed row; each answer leads to its own outcome, and success is reported exactly when the status was recorded |
| `Poller.Poller.constructor` | internal/poller/poller.go:59-92 | a non-positive page size becomes 500 |
| `Poller.Poller.ConfirmRecord` | internal/poller/poller.go:197-256 | a committed transaction makes its record confirmed if it succeeded and failed if not; a record without a hash, or that cannot be looked up, expires exactly if it is overdue; the verdict is written and notified once, exactly when the status is still the expected one and the key is free |
| `Poller.Poller.ProcessPage` | internal/poller/poller.go:167-192 | for any page, also one gone stale: visits exactly its records with the required hash, and writes and notifies each verdict exactly if the record still has the expected status |
| `Poller.Poller.SweepStatus` | internal/poller/poller.go:123-160 | terminates, visits every record that was in the status exactly once and in (updated_at, id) order, settles exactly those with a verdict, and notifies once for each |
| `Poller.Poller.Poll` | internal/poller/poller.go:108-117 | exactly the submitted records and the claims that carry a hash are visited; both sweeps together leave the verdicts of what was visited and nothing else |
| `PollRace.StepKeepsSound` | internal/poller/poller.go:197-256 | each step of any number of pollers keeps transitions single and notices owed or sent |
| `PollRace.UndisturbedJobIsVisit` | internal/poller/poller.go:197-256 | a lookup and the write after it, with nothing in between, do what the sequential poller does |
| `PollRace.OneTransitionOneNotice` | internal/store/memory.go:103-131 | with any number of pollers and stale reads, a record makes at most one terminal transition, and exactly one notice is issued for each |
| `Archive.Archiver.constructor` | internal/archive/archiver.go:54-79 | non-positive settings become 30 days, 7 days and 1000 |
| `Archive.Archiver.ClearAll` | internal/archive/archiver.go:102-121 | the batches together clear exactly the eligible keys |
| `Archive.Archiver.PurgeAll` | internal/archive/archiver.go:123-139 | the batches together delete exactly the eligible records |
| `Archive.Archiver.Sweep` | internal/archive/archiver.go:99-148 | terminates; exactly the terminal records last touched more than the retention ago are gone, and exactly those past the key retention have lost their key; reports exact totals and makes floor(E/B) + 1 calls in each stage |
| `Enqueue.Handler.Execute` | internal/handler/execute.go:73-248 | a stored key is replayed and nothing is created, also when the owner appears after the first lookup; otherwise a well-formed request with a new id creates exactly its record |
| `Enqueue.StepKeepsSound` | internal/handler/execute.go:84-103 | every step of any number of requests keeps keys unique and every answer truthful |
| `Enqueue.UndisturbedRequestIsExecute` | internal/handler/execute.go:73-248 | a request whose steps nothing disturbs has the answer and the effect of the handler |
| `Enqueue.OneRecordPerKey` | internal/handler/execute.go:206-232 | for one key at most one record exists, every success carries its id, and at most one success is not a replay |
| `Outside.PollerWriteIsStep` | internal/poller/poller.go:241-256 | a poller's write of a verdict is a step of the pipeline's environment |
| `Outside.CreateIsStep` | internal/handler/execute.go:206-232 | so is the creation of a record, which joins the sender's history |
| `Outside.PurgeIsSteps` | internal/store/memory.go:216-238 | a purge is the deletion of its records one by one, in any order |
| `Outside.CutOffMayBeAccepted` | internal/submitter/submitter.go:557-580 | a broadcast under way when the process dies may be accepted afterwards, exactly at its number and at most once |
| `Dispatch.HeadClaimsOldest` | internal/store/memory_queue.go:53-78 | the claim for the head of the listing takes a record at least as old as every queued one |
| `Dispatch.Dispatcher.Tick` | internal/submitter/submitter.go:117-154 | starts the longest prefix of the idle listed senders that fits, keeping one worker per sender and the cap |
| `Dispatch.Dispatcher.WorkerReturns` | internal/submitter/submitter.go:146-148 | a returned worker is still registered |
| `Dispatch.Dispatcher.Unregister` | internal/submitter/submitter.go:148-151 | removing the entry frees the sender for a later tick |
| `Recency.Lru.constructor` | internal/aptos/abi.go:48-56 | a new cache is empty |
| `Recency.Lru.MoveToFront` | internal/aptos/abi.go:80-85 | a hit makes its key the most recent; map and list stay in bijection |
| `Recency.Lru.Store` | internal/aptos/abi.go:103-125 | a stored key is the most recent; the cache holds the most recent keys that fit, with their values |
| `Recency.Lru.EvictOldest` | internal/circle/pubkey_cache.go:117-125 | eviction keeps the front of the list and exactly its entries |
| `Recency.RecentIsByLastUse` | internal/aptos/abi.go:103-125 | the recency list orders the used keys by their last use |
| `Recency.HeldIffFewUsedSince` | internal/circle/pubkey_cache.go:105-126 | a key is held exactly when fewer distinct keys than the capacity were used since its last use |
| `Recency.LargerHoldsSmaller` | internal/aptos/abi.go:114-124 | after the same uses a larger cache holds whatever a smaller one does |
| `Caches.AbiCache.constructor` | internal/aptos/abi.go:48-56 | a new module cache is empty |
| `Caches.AbiCache.GetModule` | internal/aptos/abi.go:75-99 | serves without fetching exactly the entries younger than the time to live, as last fetched; only successful calls count as uses |
| `Caches.PublicKeyCache.constructor` | internal/circle/pubkey_cache.go:43-50 | a new key cache is empty |
| `Caches.PublicKeyCache.Resolve` | internal/circle/pubkey_cache.go:66-101 | serves the cached key, or caches and returns the wallet's non-blank key with its prefix; the other entries keep their values |
| `Caches.PublicKeyCache.Set` | internal/circle/pubkey_cache.go:129-135 | a blank key changes nothing; any other is stored with its prefix, and the other entries keep their values |
| `Caches.Ensure0xPrefix` | internal/circle/pubkey_cache.go:52-61 | blank input gives the empty string; any other gives its trimmed core behind exactly one prefix |
| `Caches.TrimSpaceIsCore` | internal/circle/pubkey_cache.go:53-53 | trimming removes white space only, and all of it at both ends |
| `Caches.TrimmedIsStable` | internal/circle/pubkey_cache.go:77-81 | trimming twice is trimming once, so the second trim loses nothing |
| `Bcs.SerializeArgument` | internal/aptos/args.go:39-64 | the dispatch on type strings computes the encoding at the type that the string names |
| `Bcs.IntegerTypeIffNamed` | internal/aptos/args.go:43-54 | a string names the integer type of k bytes exactly if it is u and the width 8k in decimal, for k = 1, 2, 4, 8, 16 and 32 |
| `Bcs.ScalarTypeIffNamed` | internal/aptos/args.go:41-56 | addresses are named by "address" or an object path, truth values and texts by their one name each |
| `Bcs.VectorTypeIsNamed` | internal/aptos/args.go:57-58 | "vector<" + t + ">" names the vectors of what t names, at any nesting |
| `Bcs.SerializeUint` | internal/aptos/args.go:124-179 | an integer is encoded in its width or rejected |
| `Bcs.SerializeVector` | internal/aptos/args.go:189-209 | the loop produces the length and the elements in order, or the first element's error with its index |
| `Bcs.EncodesIffMeaningful` | internal/aptos/args.go:104-248 | encoding succeeds exactly for the values that have a meaning at the type |
| `Bcs.RoundTrip` | internal/aptos/args.go:39-64 | at any nesting, decoding the bytes followed by anything gives the value's meaning and what followed |
| `Bcs.PrefixFree` | internal/aptos/args.go:39-64 | no encoding is a proper prefix of another of the same type, and equal encodings have equal meanings |
| `Bcs.IntegersInRangeOnly` | internal/aptos/args.go:124-179 | an integer type takes exactly the numbers below two to its width, fills its width, and reports others as out of range |
| `Bcs.DecimalReads` | internal/aptos/args.go:218-221 | a numeric string stands for the number that it shows, with or without a sign |
| `Bcs.NumbersStandForThemselves` | internal/aptos/args.go:211-218 | a natural JSON number below 2^64 stands for itself, a negative or fractional one for none |
| `Bcs.LittleEndianAt` | internal/aptos/args.go:143-154 | byte i of an integer is its i-th digit in base 256 |
| `Bcs.Uleb128At` | internal/aptos/args.go:204-204 | byte i of a length is its i-th digit in base 128, with the high bit exactly on all but the last |
| `Bcs.Uleb128IsShortest` | internal/aptos/args.go:204-204 | and there are no more bytes than the length needs |
| `Bcs.ScalarBytes` | internal/aptos/args.go:104-187 | true is 1 and false is 0; an address is its own bytes; a text is its length and then its bytes in order |
| `Bcs.VectorBytes` | internal/aptos/args.go:203-208 | a vector is its length, then its first element, then the others |
| `Bcs.ElementErrorIsFirst` | internal/aptos/args.go:196-202 | the error of a vector is that of its first bad element, with its index |
| `Bcs.ErrorsAre` | internal/aptos/args.go:39-64 | every other error names exactly what is wrong: the type, the kind of the value, or the address |
| `Bcs.ObjectIsAddress` | internal/aptos/args.go:84-102 | a struct path with any parameters is an address exactly if it names the framework's Object at 0x1 |
| `Bcs.ObjectIsPath` | internal/aptos/args.go:84-102 | nothing else is an object type: it has this path, parameters or none, and an address of 31 zero bytes and a one |

## Left out

- HTTP servers and clients, transaction building, signing and hashing: foreign calls; signing and submission are outcomes, a hash is an opaque string.
- Address parsing, type tags and `EntryFunctionFromAbi`: inside the Aptos SDK, which is not part of this model; parsing an address is a parameter of the encoder.
- MySQL rows, locks, migrations and NULL handling: each transaction is one atomic step, in MySQL's default mode.
- More than one process per database: the sweep lists every claim of a sender, so the single-worker theorems do not extend to it.
- Simulation before submission, gas calibration, timeouts, jitter and sleeps: the pipeline is modelled with simulation off, because a reconciliation by the producer can re-claim records that are still in the channel.
- The string classifiers of node errors: they are outcome tags here.
- 64-bit wrap-around of counters and sequence numbers: they are unbounded naturals.
- Text fields of a record (error messages, payload, wallet and fee-payer fields): no property depends on them.
- Clock readings inside one critical section: one reading per section.
- The order in which the lookups of one page run: the workers of a page are a loop in page order; `PollRace` covers any interleaving of the writes.
- Singleflight and concurrent misses of the caches: cache calls run one after another.
- White space beyond ASCII in `Caches.TrimSpace`; a bare `vector<`, on which the program panics, is an unsupported type here.
- Webhook delivery, rate limiting, authentication, configuration, command line and examples: I/O or one-branch members.
- Gap-freeness after a permanent failure, exact counters when a permanent failure of the consumer is followed by a drain, and terminal statuses against the submitter's unconditional update: the program does not provide them.
- Bcs.RoundTrip: lengths are below 2^32, since the program cuts longer ones to 32 bits; numbers from 2^64 on are converted by a parameter.
- PollRace.OneTransitionOneNotice: the rest of the service is assumed not to revive a terminal record.
- Enqueue.OneRecordPerKey: ids are fresh, and no purge, clear or eviction runs meanwhile.
- Archive.Archiver.Sweep: the store is otherwise quiet and returns no errors.
- Whole-second SQL stamps: `created_at` and `updated_at` are `TIMESTAMP` columns without a fraction. A claim touched within a second of the cutoff may be stale in one form only, and records created in the same second tie and go by id, which the increasing clock of `Fifo` excludes.
- A shutdown over the SQL store: the give-backs run under the cancelled context and fail there; calm runs let them succeed, as the in-memory store does. A claim that nobody gives back is left to the stale recovery.
- Poller.Poller.SweepStatus: it is called with a status that is not terminal, as the program does; the store is otherwise quiet; a record with the zero time and an empty id, which the first cursor skips, is not visited.
