# Autograder hub: a verified model

A Dafny model of the part of the autograder that hands submissions to graders and brings their results
back. `dafny verify dfyconfig.toml` checks all of it.

- **The hub** (`HubModel`, `HubInvariant`, `HubEffects`, `SchedulePass`, `HubWakeups`, `HubRuns`, `HubHazards`,
  `GraderHubService`, `PendingQueue`, `Scheduling`): the list of waiting submissions with its index and
  published ranks, the running table, the outboxes, the claims, briefs and unfinished markers in the
  store, and the threads that are between two of their writes. `HubModel` is a transition system; the
  classes of `GraderHubService` carry out its steps in place, with the loops of the program, and equal
  them. A step keeps the invariant if and only if it is *orderly*. Only two kinds of steps can fail to
  be: running a submission again while something of its last run is left, and writing a brief that was
  decided on earlier. `HubEffects` says field by field what each step changes and that nothing else
  does, and `HubWakeups` that no step of a producer but a registration makes a waiting request fit a
  grader without a wake-up. `HubHazards` has reachable states in which a step that is not orderly loses
  or duplicates a submission.
- **The scheduler** (`SchedulerWakeup`, `SchedulerRest`): the scheduler and its producers step by step, with
  the one-slot wake channel, snapshots that go stale, and outboxes with identities; and how the scheduler
  comes to rest when it is left alone.
- **The report path** (`ReportMailbox`, `SubscriberRegistry`, `SubmissionStream`, `SubmissionReporter`):
  the coalescing mailbox against any reader, the registry of subscribers, one client's stream against
  any number of hub threads, and the reporter that resumes over broken streams.
- **The store** (`KeyPrefix`, `KeyText`, `GraderClaims`, `SubmissionReports`, `KVMerge`, `Manifest`,
  `ManifestKeys`, `KVSequencer`): keys as byte strings in order, prefix scans, the two-way claim index,
  the merge operator and the size counter built on it, and the id sequencer with crashes.
- **Two self-contained pieces** (`Base30`, `Truncation`): join codes and cutting UTF-8.

The store is an ordered map from byte strings to byte strings whose single writes and batches are atomic
and succeed, except where a crash or an error is part of the model. Whether an outbox refuses a push,
how a network call ends, when a reader reads and what is random are parameters, and every theorem holds
for all of them. Where the code and its comments differ, the model follows the code: a stream may end on
its own with a status that is not terminal (`LateCancelEndsUnfinished`), and submission ids of 2^63 or
more are left out of a grader's load (`LoadIsOwned`).

## Model

| member | source | states |
|---|---|---|
| `HubRuns.StepInv` | pkg/grader/grpc/graderhub_service.go:920-1009 | the exact condition for every step of the hub, with the owner check of a report, the stages of a cancel request, the test and the push of a requeue, and each brief write as steps of their own: a step keeps the hub invariant if and only if it is orderly (no second run while something of the last one is left; no terminal brief over a submission on the list or on its way to it; no other brief over one that is over) |
| `HubRuns.NothingLostOrDuplicated` | pkg/grader/grpc/graderhub_service.go:245-298 | in every state of every orderly run a submission that is not over is in exactly one of list, claims, requeue set, cleared for the list, arriving, ready or being cancelled, and has its marker; one that is over and has no thread at work on it is in neither list nor running table; the running ones are the claimed ones and those a finishing thread is about to remove, apart from the waiting ones; listed submissions are distinct, in order, with exact and last published ranks |
| `HubRuns.BriefOfPush` | pkg/grader/grpc/graderhub_service.go:675-678 | the Queued brief that follows a push keeps the invariant as long as the submission is not over |
| `HubRuns.RunInv` | pkg/grader/grpc/graderhub_service.go:137-1009 | the invariant holds in every state of a run, with restarts anywhere, if and only if every step of the run is orderly |
| `HubRuns.RestartRecovers` | pkg/grpc/submission.go:464-482 | crash at any point: after the restart no claim is left, every submission that is not over is marked, and running the marked ones again, in any order, puts exactly those on the list with the invariant intact |
| `HubRuns.RestartInvariant` | pkg/grader/grpc/graderhub_service.go:1050 | clearing the claims and starting from the store alone re-establishes the invariant |
| `HubRuns.EnqueueAllQueues` | pkg/grpc/submission.go:440-462 | marked submissions run one after the other in any order are exactly added to the list, and the invariant holds |
| `HubRuns.WriteMarkerInv` | pkg/grpc/submission.go:452-454 | the marker write keeps the invariant if and only if nothing of an earlier run is left |
| `HubInvariant.ReportKeeps` | pkg/grader/grpc/graderhub_service.go:936-945 | the owner check alone changes nothing that the invariant is about; reports of others do nothing |
| `HubInvariant.WriteBriefKeeps` | pkg/grader/grpc/graderhub_service.go:755-764 | a brief that a report, a cancel request or a push has decided on keeps the invariant if and only if its write is orderly |
| `HubInvariant.TerminalBrief` | pkg/grader/grpc/graderhub_service.go:948-955 | a terminal brief keeps the invariant if and only if the submission is neither on the list nor on its way to it |
| `HubInvariant.OpenBrief` | pkg/grader/grpc/graderhub_service.go:794-802 | any other brief keeps the invariant if and only if the submission is not over, or arriving |
| `HubInvariant.CancelLookupKeeps` | pkg/grader/grpc/graderhub_service.go:998-1002 | looking up the owner, outside the queue lock, keeps the invariant |
| `HubInvariant.CancelAskKeeps` | pkg/grader/grpc/graderhub_service.go:1003-1008 | asking what was the owner at the look-up keeps the invariant, whoever owns the submission by now |
| `HubInvariant.CancelPendingInv` | pkg/grader/grpc/graderhub_service.go:986-993 | taking a waiting submission off the list to cancel it keeps the invariant |
| `HubInvariant.FinaliseCancelledKeeps` | pkg/grader/grpc/graderhub_service.go:783-792 | the Cancelled brief of a submission taken off the list keeps the invariant |
| `HubInvariant.DeleteMarkerKeeps` | pkg/grader/grpc/graderhub_service.go:766-771 | deleting the marker after the terminal brief keeps the invariant: a missing marker implies that the submission is over |
| `HubInvariant.ReleaseClaimKeeps` | pkg/grader/grpc/graderhub_service.go:772-775 | releasing the claim keeps the invariant, also while another thread finishes the same submission |
| `HubInvariant.DropRunningKeeps` | pkg/grader/grpc/graderhub_service.go:777-780 | and so does removing the running entry after that |
| `HubInvariant.TestRequeueKeeps` | pkg/grader/grpc/graderhub_service.go:294 | testing a collected submission clears it for the list unless it is over, and keeps the invariant |
| `HubInvariant.PushRequeuedInv` | pkg/grader/grpc/graderhub_service.go:295 | pushing what was cleared keeps the invariant |
| `HubInvariant.CollectKeeps` | pkg/grader/grpc/graderhub_service.go:255-292 | collecting the work of a lost owner keeps the invariant: each of its submissions moves to the requeue set once, with the request it was submitted with |
| `HubInvariant.EnqueueGradeInv` | pkg/grader/grpc/graderhub_service.go:675-678 | pushing an arriving submission keeps the invariant |
| `HubInvariant.AssignInv` | pkg/grader/grpc/graderhub_service.go:641-659 | claiming, pushing to the outbox and taking off the list keeps the invariant: no two outboxes ask for the same submission |
| `HubInvariant.RestartInv` | pkg/grader/grpc/graderhub_service.go:1011-1067 | a restart keeps the invariant |
| `HubHazards.TerminalOverBound` | pkg/grader/grpc/graderhub_service.go:293-297 | in every state: a terminal brief over a submission on the list or on its way to it leaves it there without a marker |
| `HubHazards.OpenOverFinished` | pkg/grader/grpc/graderhub_service.go:794-802 | in every state: a brief that is not terminal over one whose finishing is under way loses the submission |
| `HubHazards.LateQueuedLoses` | pkg/grader/grpc/graderhub_service.go:675-678 | a reachable state in which the Queued brief of a push came after the final report and lost the submission |
| `HubHazards.LateCancelLoses` | pkg/grader/grpc/graderhub_service.go:1003-1006 | a reachable state in which a late cancel request has lost a submission: not over, nowhere, and without a marker |
| `HubHazards.CancelDuringRequeue` | pkg/grader/grpc/graderhub_service.go:293-297 | a reachable run in which a cancel between the terminal test and the push of a requeue leaves a waiting submission without a marker |
| `HubHazards.CancelAfterOwnerLost` | pkg/grader/grpc/graderhub_service.go:998-1008 | a reachable run in which the owner is lost and its submission requeued between look-up and request: Cancelled is written over the listed submission |
| `HubHazards.StaleReportUnmarks` | pkg/grader/grpc/graderhub_service.go:936-955 | a reachable run in which a report passes the owner check and is written after the submission is back on the list |
| `HubHazards.RegradeQueuesTwice` | pkg/grpc/submission.go:532-538 | a reachable state in which a regraded submission runs and waits at once |
| `HubHazards.EarlyCancelUnmarks` | pkg/grpc/submission.go:452-461 | a reachable state in which a cancel between marker and push leaves a waiting submission without a marker |
| `HubHazards.CollectInsidePass` | pkg/grader/grpc/graderhub_service.go:638-656 | for every state: a collection between the claim and the refused push of a pass keeps the invariant if and only if it is not of the owner the request was claimed for |
| `HubHazards.CollectAroundAssign` | pkg/grader/grpc/graderhub_service.go:264-292 | for every state: a collection that read the claims before a pass assigned a request, and drains the outbox after it, keeps the invariant if and only if the request went to another grader |
| `HubInvariant.WriteMarkerKeeps` | pkg/grpc/submission.go:452-454 | an orderly marker write keeps the invariant |
| `HubInvariant.WriteMarkerBreaks` | pkg/grpc/submission.go:532-538 | a marker write over what is left of an earlier run breaks it |
| `HubInvariant.WriteQueuedKeeps` | pkg/grpc/submission.go:455-458 | the first Queued brief keeps the invariant |
| `HubInvariant.EmptiedKeeps` | pkg/grader/grpc/graderhub_service.go:704-711 | draining an outbox, or replacing it when a heartbeat stream starts, keeps the invariant |
| `HubInvariant.RegisterKeeps` | pkg/grader/grpc/graderhub_service.go:546-554 | registering keeps the invariant |
| `SchedulePass.ChooseChosen` | pkg/grader/grpc/graderhub_service.go:623-661 | the retry loop for one request: it gives it to the least (running, id) of those left that have an outbox and accept it, or leaves it and then nobody left is eligible; only graders without an outbox or with a refused push are dropped |
| `SchedulePass.PassInv` | pkg/grader/grpc/graderhub_service.go:613-663 | a whole pass keeps the hub invariant |
| `SchedulePass.PassConservesWork` | pkg/grader/grpc/graderhub_service.go:613-663 | after a pass no waiting request fits an online grader that has an outbox, was not lost meanwhile, has the tags and owns fewer submissions than its concurrency |
| `SchedulePass.PassAssigns` | pkg/grader/grpc/graderhub_service.go:638-659 | what leaves the list went to an online grader with its tags that accepted it, within its concurrency; what stays keeps its element and is unclaimed |
| `SchedulePass.PassKeepsPriority` | pkg/grader/grpc/graderhub_service.go:621-625 | when a later submission is given away while an earlier one stays, its new owner lacks one of the tags of the earlier one |
| `SchedulePass.PassFromAccurate` | pkg/grader/grpc/graderhub_service.go:172-194 | at every iteration the count of each grader still in the loads equals its number of claims |
| `SchedulePass.PassFromCapacity` | pkg/grader/grpc/graderhub_service.go:226-241 | nobody ends above the larger of its starting count and its concurrency |
| `SchedulePass.PassFromMaximal` | pkg/grader/grpc/graderhub_service.go:624-627 | a request left on the list fits no grader left in the loads |
| `SchedulePass.PassFromNoInversion` | pkg/grader/grpc/graderhub_service.go:621-662 | no priority inversion, by positions of the visited list |
| `SchedulePass.PassFromGrants` | pkg/grader/grpc/graderhub_service.go:641-659 | whoever leaves the list in a pass had been granted: eligible, with an outbox, and accepted |
| `SchedulePass.PassFromDrops` | pkg/grader/grpc/graderhub_service.go:631-636 | only a grader without an outbox or with a refused push is dropped from the loads |
| `SchedulePass.PassDelivers` | pkg/grader/grpc/graderhub_service.go:645-659 | what a pass gives away is delivered: every outbox holds exactly what it held before, followed by one request for each submission that left the list and is now claimed for its grader, in the order of the list |
| `SchedulePass.PassFromDelivers` | pkg/grader/grpc/graderhub_service.go:621-662 | the same for the rest of a pass, from the entries still to visit |
| `SchedulePass.VisitDelivers` | pkg/grader/grpc/graderhub_service.go:638-659 | one visit puts the request behind what is in the outbox of its new owner, and touches no other outbox |
| `SchedulePass.NothingGiven` | pkg/grader/grpc/graderhub_service.go:621-662 | the outbox of a grader that was given nothing is as it was |
| `SchedulePass.PassFromFrame` | pkg/grader/grpc/graderhub_service.go:613-663 | a pass writes nothing to the store but claims, and touches no brief, marker or thread |
| `HubEffects.StepChanges` | pkg/grader/grpc/graderhub_service.go:137-1067 | for every step of the hub: which fields it may touch, what it puts there, and that every other field stays as it is |
| `HubEffects.BriefsAfter` | pkg/grader/grpc/graderhub_service.go:755-802 | a brief is exactly what was written last: Queued for a run, Cancelled for a submission taken off the list, and else the status that was decided on; no other step and no restart changes one |
| `HubEffects.DecisionsAfter` | pkg/grader/grpc/graderhub_service.go:936-1008 | what is decided to be written: the reported status if the sender owns the submission, Queued after a push, Cancelling when the owner can be asked to stop, Cancelled when there is nobody to ask |
| `HubEffects.MarkersAfter` | pkg/grpc/submission.go:452-454 | markers appear with a run and go only with its finishing |
| `HubEffects.OnlineAfter` | pkg/grader/grpc/graderhub_service.go:546-554 | who is online changes by registration, loss and restart only |
| `HubEffects.OutboxesAfter` | pkg/grader/grpc/graderhub_service.go:39-68 | outside of passes an outbox grows by requests to stop, at its end, and is emptied only by its sender, a new stream, the loss of its grader and a restart |
| `HubEffects.WakeAfter` | pkg/grader/grpc/graderhub_service.go:597-606 | the slot is filled by a push, by the end of a finishing thread and by a new stream; nothing but the scheduler and a restart empties it |
| `HubEffects.DroppingAfter` | pkg/grader/grpc/graderhub_service.go:772-780 | a released claim leaves a thread that is to remove the running entry, and only that removal ends it |
| `HubEffects.ClaimsAfter` | pkg/grader/grpc/graderhub_service.go:772-775 | outside of passes a claim goes with its release, with its owner and with a restart, and only then |
| `HubEffects.RunningAfter` | pkg/grader/grpc/graderhub_service.go:264-280 | outside of passes a running entry goes at the end of its submission, with its owner and with a restart, and only then |
| `HubEffects.ListAfter` | pkg/grader/grpc/graderhub_service.go:161-170 | the list grows by one at its end, by the request that was submitted, at a push, and is otherwise changed by passes and cancels only |
| `HubWakeups.NewFitWakes` | pkg/grader/grpc/graderhub_service.go:597-606 | in every state: when a step of a producer makes a waiting request fit an online grader with an outbox, spare capacity and the tags, the slot is full or a finishing thread is about to fill it |
| `HubWakeups.WakeComes` | pkg/grader/grpc/graderhub_service.go:777-780 | a wake-up that is coming comes: the slot stays full, and a thread that ends its finishing leaves it full |
| `HubWakeups.ProductionAttended` | pkg/grader/grpc/graderhub_service.go:592-595 | over every sequence of producer steps from a state in which nothing fits: whenever a waiting request fits, a wake-up is there or coming |
| `HubWakeups.PassServes` | pkg/grader/grpc/graderhub_service.go:613-663 | after a pass a waiting request fits only a grader that refused a push in it |
| `HubWakeups.PassAttended` | pkg/grader/grpc/graderhub_service.go:613-663 | a pass whose pushes are all accepted leaves nothing that fits |
| `HubWakeups.WokenAfterPass` | pkg/grader/grpc/graderhub_service.go:584-595 | after such a pass and until the next one, no interleaving of producers makes a waiting request fit without a wake-up |
| `HubWakeups.RegisterFits` | pkg/grader/grpc/graderhub_service.go:546-554 | a registration makes a request fit exactly when its grader has an outbox, capacity and the tags as registered now, and wakes nobody |
| `Scheduling.GraderHasTags` | pkg/grader/grpc/graderhub_service.go:196-210 | true exactly when every requested tag is present |
| `Scheduling.SortIds` | pkg/grader/grpc/graderhub_service.go:219-223 | all ids, strictly increasing |
| `Scheduling.Pick` | pkg/grader/grpc/graderhub_service.go:212-217 | 0 exactly when nobody is eligible, and otherwise the eligible grader least by (running, id) |
| `Scheduling.PickGrader` | pkg/grader/grpc/graderhub_service.go:217-243 | the loop finds that one, and counts its load up by one |
| `Scheduling.LeastUnique` | pkg/grader/grpc/graderhub_service.go:223-238 | the choice is unique |
| `PendingQueue.PushOk` | pkg/grader/grpc/graderhub_service.go:161-170 | a push keeps list, ranks and index consistent if and only if the submission is not listed already |
| `PendingQueue.RemoveOk` | pkg/grader/grpc/graderhub_service.go:137-149 | a removal takes out the one entry of the submission, keeps the others in order with their elements, and leaves every rank and last published rank exact |
| `PendingQueue.WithoutRanked` | pkg/grader/grpc/graderhub_service.go:142-146 | promoting what is behind the removed entry makes ranks 1-based positions again and publishes them |
| `PendingQueue.WithoutIndexed` | pkg/grader/grpc/graderhub_service.go:147-148 | the index names exactly the entries that are left |
| `PendingQueue.PublishSets` | pkg/grader/grpc/graderhub_service.go:561-570 | publishing ranks front to back sets the last published rank of exactly the listed submissions |
| `PendingQueue.SubsDistinct` | pkg/grader/grpc/graderhub_service.go:161-170 | no submission is listed twice |
| `GraderHubService.GraderHub.RemovePendingGradeRequest` | pkg/grader/grpc/graderhub_service.go:137-149 | the loop over the entries behind, and the removal, do what the queue operation says |
| `GraderHubService.GraderHub.PromoteBehind` | pkg/grader/grpc/graderhub_service.go:142-146 | every entry behind moves up one rank and its subscribers are told, front to back |
| `GraderHubService.GraderHub.GetPendingRank` | pkg/grader/grpc/graderhub_service.go:151-159 | the rank is the position in the list, 0 of 0 when not listed |
| `GraderHubService.GraderHub.PushPendingGradeQueue` | pkg/grader/grpc/graderhub_service.go:161-170 | appends with the next rank, publishes it, indexes it and wakes the scheduler |
| `GraderHubService.GraderHub.QueueRequest` | pkg/grader/grpc/graderhub_service.go:675-678 | the request at the end of the list with the next rank, exactly the Queued brief, and the wake-up |
| `GraderHubService.GraderHub.GetSubmissionsByGrader` | pkg/grader/grpc/graderhub_service.go:186 | the claimed submissions of one owner, each once |
| `GraderHubService.GraderHub.SnapshotGraderLoads` | pkg/grader/grpc/graderhub_service.go:183-194 | the concurrency, tags and number of claims of every online grader |
| `GraderHubService.GraderHub.Offer` | pkg/grader/grpc/graderhub_service.go:638-656 | an accepted offer puts the request behind what is in the outbox, claims it and enters it as running; a refused one leaves the whole state as it was |
| `GraderHubService.GraderHub.ScheduleOne` | pkg/grader/grpc/graderhub_service.go:624-661 | the retry loop for one request equals its specification, state and loads, about which `VisitDelivers` says what the outboxes hold |
| `GraderHubService.GraderHub.SchedulePass` | pkg/grader/grpc/graderhub_service.go:613-663 | the loop over the list equals the pass step; progress is reported exactly when something left the list; every outbox holds what it held and then one request for each submission its grader was given, in list order |
| `GraderHubService.GraderHub.SchedulerRound` | pkg/grader/grpc/graderhub_service.go:574-583 | one round with the lock held: progress exactly when the list got shorter, and afterwards a waiting request fits only a grader that refused a push |
| `GraderHubService.GraderHub.Scheduler` | pkg/grader/grpc/graderhub_service.go:570-595 | from a wake-up to the next park: it parks, after at most one round more than submissions were handed out, and then a waiting request fits only a grader that refused a push in the last round |
| `GraderHubService.Delivered` | pkg/grader/grpc/graderhub_service.go:645-659 | over the list of a whole pass: what is given away is in the outboxes, behind what was there |
| `GraderHubService.GraderHub.TakeRunning` | pkg/grader/grpc/graderhub_service.go:267-274 | the running requests of the lost owner are taken off the table, each once |
| `GraderHubService.GraderHub.TakeUnsent` | pkg/grader/grpc/graderhub_service.go:275-287 | what its outbox holds beyond them is taken once, stream-log and cancel items skipped |
| `GraderHubService.GraderHub.TakeOffline` | pkg/grader/grpc/graderhub_service.go:245-288 | offline and outbox gone, and everything taken off the running table |
| `GraderHubService.GraderHub.CollectOffline` | pkg/grader/grpc/graderhub_service.go:255-292 | the collection equals the collect step, and lists each request once |
| `GraderHubService.GraderHub.IsSubmissionTerminal` | pkg/grader/grpc/graderhub_service.go:302-315 | true exactly for Finished, Failed and Cancelled; false without a brief |
| `GraderHubService.GraderHub.RequeueOne` | pkg/grader/grpc/graderhub_service.go:293-297 | test, push and brief, unless the submission is over; then the brief is Queued and the scheduler woken |
| `GraderHubService.GraderHub.RequeueCollected` | pkg/grader/grpc/graderhub_service.go:293-297 | each collected request in order, without an interruption |
| `GraderHubService.GraderHub.OnGraderOffline` | pkg/grader/grpc/graderhub_service.go:245-298 | equals the collect step followed by test, push and brief for each submission taken, each once; the briefs of exactly the submissions that are not over become Queued, no other brief changes, and the scheduler is woken |
| `GraderHubService.OfflineRecovers` | pkg/grader/grpc/graderhub_service.go:245-298 | when an owner is gone, everything it ran and everything unsent in its outbox waits again exactly once unless it is over; none of it is owned any more; nothing else on the list changes; the invariant holds |
| `GraderHubService.OfflineBriefs` | pkg/grader/grpc/graderhub_service.go:293-297 | when an owner is gone its submissions that are not over get exactly the brief Queued, no other brief changes, and the scheduler is woken if there is one |
| `GraderHubService.RequeueAllEffect` | pkg/grader/grpc/graderhub_service.go:293-297 | requeueing a list of submissions in any order queues exactly those that are not over |
| `GraderHubService.GraderHub.GradeCallback` | pkg/grader/grpc/graderhub_service.go:936-972 | only the owner of the claim may report, and then exactly the reported status is the new brief of the submission; no other brief changes, and none when it is not the owner; exactly a terminal one starts the finishing |
| `GraderHubService.GraderHub.OnSubmissionFinished` | pkg/grader/grpc/graderhub_service.go:766-781 | marker first, then the claim, then the running table, then the wake-up; nothing else of the maps changes |
| `GraderHubService.GraderHub.ReleaseSubmission` | pkg/grader/grpc/graderhub_service.go:772-775 | refines the release of the claim |
| `GraderHubService.GraderHub.TakeOffList` | pkg/grader/grpc/graderhub_service.go:986-989 | a waiting submission is taken off the list to be cancelled |
| `GraderHubService.CancelDecides` | pkg/grader/grpc/graderhub_service.go:996-1008 | an uninterrupted cancel request off the list changes the outbox of a reachable owner and the brief, or finishes the submission as cancelled, and nothing else |
| `GraderHubService.GraderHub.CancelGrade` | pkg/grader/grpc/graderhub_service.go:983-1009 | waiting: off the list, exactly Cancelled, finished; owned and reachable: asked to stop and exactly Cancelling; otherwise exactly Cancelled, and finished; as the sequence of its steps |
| `GraderHubService.GraderHub.Enqueue` | pkg/grader/grpc/graderhub_service.go:467-469 | the push of a run and its brief |
| `GraderHubService.GraderHub.OnSubmissionCancelled` | pkg/grader/grpc/graderhub_service.go:783-792 | exactly the Cancelled brief, then the finishing with its wake-up |
| `GraderHubService.GraderHub.GraderHeartbeat` | pkg/grader/grpc/graderhub_service.go:704-711 | a heartbeat stream brings a fresh outbox and wakes the scheduler |
| `GraderHubService.GraderHub.RegisterGrader` | pkg/grader/grpc/graderhub_service.go:546-554 | registering records concurrency and tags |
| `GraderHubService.GraderHub.RunSubmission` | pkg/grpc/submission.go:452-461 | marker, then the Queued brief, then the push with its wake-up |
| `GraderHubService.GraderHub.constructor` | pkg/grader/grpc/graderhub_service.go:1050 | a new hub on the store of the last process equals the restart step |
| `GraderHubService.GraderHub.PushGradeRequest` | pkg/grader/grpc/graderhub_service.go:645-659 | the request is at the end of the outbox and off the list |
| `GraderHubService.GraderHub.TakeAll` | pkg/grader/grpc/graderhub_service.go:264-288 | first the running requests, then the unsent ones beyond them, each once |
| `GraderHubService.GraderHub.ReleaseSubmissions` | pkg/grader/grpc/graderhub_service.go:290-292 | exactly the listed claims are released |
| `GraderHubService.GraderHub.DeleteUnfinishedSubmission` | pkg/grader/grpc/graderhub_service.go:766-771 | the marker is deleted, the claim still to release |
| `GraderHubService.GraderHub.MarkUnfinishedSubmission` | pkg/grpc/submission.go:452-454 | the marker write of a run |
| `GraderHubService.GraderHub.UpdateSubmissionBriefReport` | pkg/grpc/submission.go:455-458 | the first Queued brief of a run |
| `GraderHubService.GradeRequestQueue.Push` | pkg/grader/grpc/graderhub_service.go:50-59 | accepted exactly when the outbox is open; accepted items are appended |
| `GraderHubService.GradeRequestQueue.Drain` | pkg/grader/grpc/graderhub_service.go:62-68 | everything accepted is drained once, in order |
| `GraderHubService.GradeRequestQueue.Close` | pkg/grader/grpc/graderhub_service.go:42-47 | a closed outbox keeps what it holds |
| `SchedulerWakeup.NoLostWakeup` | pkg/grader/grpc/graderhub_service.go:572-606 | in every state of every run in which the scheduler is parked, the slot is empty and no producer owes a wake-up, no waiting request fits an online grader with spare capacity, the tags and an outbox as new as its registration |
| `SchedulerWakeup.EventKeeps` | pkg/grader/grpc/graderhub_service.go:572-595 | every event of the scheduler and of its producers, in the middle of a pass over a stale snapshot too, keeps the wake-up invariant |
| `SchedulerWakeup.CoveredKept` | pkg/grader/grpc/graderhub_service.go:613-663 | as long as no wake-up is on its way the scheduler's snapshot stays true and what it has passed fits nobody in it |
| `SchedulerWakeup.PassedAll` | pkg/grader/grpc/graderhub_service.go:572-590 | a pass that visited everything without a wake-up leaves nothing that fits |
| `SchedulerWakeup.DeliverCovered` | pkg/grader/grpc/graderhub_service.go:645-658 | an accepted push and an undone claim keep the snapshot true |
| `SchedulerWakeup.ShrunkCovered` | pkg/grader/grpc/graderhub_service.go:245-258 | producers that wake nobody make no grader available |
| `SchedulerWakeup.RegisterExact` | pkg/grader/grpc/graderhub_service.go:546-554 | registering a grader that has an outbox needs no wake-up if and only if it is harmless where the scheduler is: nothing waiting fits its new load, or the snapshot has that load already |
| `SchedulerWakeup.RegisterWakesNobody` | pkg/grader/grpc/graderhub_service.go:704-740 | a run in which a heartbeat stream of an unregistered grader leaves an outbox behind, and the registration that follows makes a request fit while the scheduler sleeps |
| `SchedulerRest.ComesToRest` | pkg/grader/grpc/graderhub_service.go:570-595 | whatever was going on when its producers stopped, with every wake-up they owed given: every run of the scheduler alone comes to the point where it is parked with an empty slot, and then nothing that waits fits anybody |
| `SchedulerRest.GoesOn` | pkg/grader/grpc/graderhub_service.go:570-595 | in every sound state the scheduler can take a step of its own, unless it is parked with an empty slot |
| `SchedulerRest.OwnNearer` | pkg/grader/grpc/graderhub_service.go:613-663 | every step of the scheduler brings it nearer to its rest: fewer wake-ups, passes, phases, rounds or moves are left |
| `SchedulerRest.HandsOut` | pkg/grader/grpc/graderhub_service.go:638-659 | a request leaves the list only when an open outbox accepted it; a claim is made only for the request visited, and undone only after a refusal; nothing else changes |
| `ReportMailbox.FoldIsLastSet` | pkg/grader/grpc/subscription.go:70-93 | field by field, what a sequence of reports amounts to is the last value that was set, and nil only if it never was |
| `ReportMailbox.FoldConcat` | pkg/grader/grpc/subscription.go:70-93 | coalescing is associative over sequences of reports |
| `ReportMailbox.MergedFold` | pkg/grader/grpc/subscription.go:9-16 | folding the received reports and the slot equals folding all published reports |
| `ReportMailbox.ReportMailbox.Publish` | pkg/grader/grpc/subscription.go:35-56 | against any reader: two rounds at most; nothing when closed; otherwise the same as if the reader had read before or not at all and the report was then put into the slot; every published report stays accounted for |
| `ReportMailbox.ReportMailbox.MakeRoom` | pkg/grader/grpc/subscription.go:50-54 | the slot is emptied by the reader or by the publisher, who merges |
| `ReportMailbox.ReportMailbox.Receive` | pkg/grader/grpc/subscription.go:27-31 | a buffered report is delivered even after the close, and only then the end |
| `ReportMailbox.ReportMailbox.Close` | pkg/grader/grpc/subscription.go:58-68 | closing twice is harmless and keeps the buffered report |
| `SubscriberRegistry.SubscriberRegistry.Subscribe` | pkg/grader/grpc/graderhub_service.go:402-410 | a fresh open mailbox is added |
| `SubscriberRegistry.SubscriberRegistry.Unsubscribe` | pkg/grader/grpc/graderhub_service.go:412-430 | exactly this mailbox is taken out and closed; nobody else is touched |
| `SubscriberRegistry.SubscriberRegistry.SendGradeReport` | pkg/grader/grpc/graderhub_service.go:804-812 | every open mailbox of the submission gets the report, and no other one |
| `SubscriberRegistry.SubscriberRegistry.CloseAllSubmissionSubscribers` | pkg/grader/grpc/graderhub_service.go:814-822 | all mailboxes of the submission are taken out and closed, with what they hold still readable |
| `SubmissionStream.NeverLeftWaiting` | pkg/grpc/submission.go:297-340 | in every state of every interleaving a client that waits on an open mailbox means that the submission is not over or a thread is still going to close the mailbox |
| `SubmissionStream.EndsWithTerminalStatus` | pkg/grpc/submission.go:300-316 | a stream that ends on its own ends with a terminal status, when no brief that is not terminal is written after a terminal one |
| `SubmissionStream.RunFinal` | pkg/grader/grpc/graderhub_service.go:948-955 | the brief stays final throughout a run if and only if every write of the run respects that condition |
| `SubmissionStream.EventFinal` | pkg/grader/grpc/graderhub_service.go:755-781 | the same for one event, as an if and only if |
| `SubmissionStream.UnsettledWriteMisleads` | pkg/grader/grpc/graderhub_service.go:1003-1006 | in every state in which a client follows a submission that is over, any published brief that is not terminal has a continuation in which the stream ends on its own with that status |
| `SubmissionStream.EventAttended` | pkg/grader/grpc/graderhub_service.go:814-822 | every event keeps: a listening client is registered, or a thread that took its mailbox is about to close it |
| `SubmissionStream.LateCancelEndsUnfinished` | pkg/grader/grpc/graderhub_service.go:1003-1006 | a reachable stream that ended on its own with Cancelling as its last status |
| `SubmissionStream.ClientEnds` | pkg/grpc/submission.go:297-340 | when the hub is done with a submission, at most six steps of the client lead to the end, with a terminal last status |
| `SubmissionStream.ToldWasSaid` | pkg/grpc/submission.go:300-340 | in every run every status a client was told is Queued or the one of a report that a thread of the hub had started to tell before |
| `SubmissionStream.TellsOne` | pkg/grpc/submission.go:300-340 | each event tells at most one status: the one it read, the one of the report received, or Queued for a rank alone; the stream ends there exactly when it is terminal |
| `SubmissionStream.SlotAfter` | pkg/grader/grpc/graderhub_service.go:804-812 | a published report is in the mailbox of every client that was registered when the list was copied and whose mailbox is open, with what it says over what was not received yet; nothing but the client takes it out |
| `SubmissionReporter.ReportBuffer.Send` | cmd/autograder-grader/main.go:227-236 | appended when open, dropped when closed |
| `SubmissionReporter.ReportBuffer.WaitAndDrain` | cmd/autograder-grader/main.go:199-225 | everything that is there in order; the end exactly when closed and empty; a timeout exactly when open and empty |
| `SubmissionReporter.ReportBuffer.Close` | cmd/autograder-grader/main.go:188-193 | a closed buffer keeps what it holds |
| `SubmissionReporter.SubmissionReporter.SendReports` | cmd/autograder-grader/main.go:263-281 | sends a prefix in order and keeps exactly the rest; it fails only with the error of the last answer, and is cut short only without an answer |
| `SubmissionReporter.SubmissionReporter.SendReport` | cmd/autograder-grader/main.go:351-384 | metadata is not sent on the stream; a probe is not a report |
| `SubmissionReporter.SubmissionReporter.SendInOrder` | cmd/autograder-grader/main.go:263-281 | the loop: which reports were sent before one failed, and with which answer it failed |
| `SubmissionReporter.SubmissionReporter.Turn` | cmd/autograder-grader/main.go:422-467 | everything retained is sent and then what is there is taken over; with the buffer closed there are two turns at most |
| `SubmissionReporter.SubmissionReporter.Await` | cmd/autograder-grader/main.go:443-467 | taking over, the end, or a probe; and which answer the buffer was closed with |
| `SubmissionReporter.SubmissionReporter.Probe` | cmd/autograder-grader/main.go:452-462 | a probe is no report, and breaks the stream only with an error |
| `SubmissionReporter.SubmissionReporter.Broken` | cmd/autograder-grader/main.go:435-442 | a failed send asks for another stream or is the end, by the status the hub closed with |
| `SubmissionReporter.SubmissionReporter.ReportSession` | cmd/autograder-grader/main.go:420-467 | one stream keeps sent + retained + buffered = accepted; it stops only after a permanent refusal or with the buffer closed and everything sent; it asks for another stream only after an error, and is cut short only when fewer than two answers are left |
| `SubmissionReporter.SubmissionReporter.Run` | cmd/autograder-grader/main.go:402-415 | over any number of broken streams: it stops without a permanent refusal only when the buffer is closed and every non-metadata report was sent exactly once, in order; it never gives up while two answers are left; and once the buffer is closed, a good end of the script with six answers more than there are reports makes it stop with everything sent, however often the connection broke before |
| `SubmissionReporter.SubmissionReporter.TakePending` | cmd/autograder-grader/main.go:443-465 | what the buffer holds is taken over; the end only when it is closed and empty |
| `SubmissionReporter.SubmissionReporter.AfterFailure` | cmd/autograder-grader/main.go:435-442 | the status the hub closed the stream with decides, if there is one |
| `SubmissionReporter.SubmissionReporter.Finish` | cmd/autograder-grader/main.go:444-450 | a stream that the hub closed well, or with EOF, is the end |
| `SubmissionReporter.SubmissionReporter.Accounted` | cmd/autograder-grader/main.go:386-389 | sent, retained and buffered reports together are the accepted ones, in order |
| `SubmissionReporter.SubmissionReporter.ShouldRetryCallback` | cmd/autograder-grader/main.go:473-486 | no retry exactly for PermissionDenied and Unauthenticated |
| `KeyPrefix.PrefixScanExact` | pkg/repository/prefix.go:20-25 | for all byte strings p and k: k is in the range from p to its upper bound exactly when p is a prefix of k |
| `KeyPrefix.KeyUpperBound` | pkg/repository/prefix.go:8-18 | counting up in a copied buffer with carries gives the upper bound, and none when all bytes are 255 or there are none |
| `KeyPrefix.UpperBoundFront` | pkg/repository/prefix.go:8-18 | the bound of a prefix from its front |
| `KeyPrefix.Uint64RoundTrip` | pkg/repository/prefix.go:33-37 | 8 big-endian bytes decode to the number |
| `KeyPrefix.EightBytes` | pkg/repository/prefix.go:33-37 | and any 8 bytes are the encoding of a number |
| `KeyPrefix.DecodeOrder` | pkg/repository/prefix.go:39-51 | the order of keys of the same length is the order of the numbers |
| `KeyPrefix.Iterate` | pkg/repository/prefix.go:46 | an iterator visits the keys of a range, each once, in order |
| `KeyPrefix.ScanIds` | pkg/repository/prefix.go:39-51 | exactly the stored ids, strictly increasing; a panic exactly when a key is too short |
| `KeyText.AtoiDecimal` | pkg/repository/grader.go:111-115 | a printed number is read back exactly when it fits a signed 64-bit integer |
| `KeyText.ColonEndsNumber` | pkg/repository/grader.go:173-179 | behind a number and a colon anything may follow without two numbers being mixed up |
| `GraderClaims.PrefixesApart` | pkg/repository/grader.go:173-183 | the prefix of one grader is a prefix of its own keys only |
| `GraderClaims.GraderKeysDiffer` | pkg/repository/grader.go:177-179 | different pairs have different keys |
| `GraderClaims.SubmissionKeysDiffer` | pkg/repository/grader.go:181-183 | different submissions have different keys |
| `GraderClaims.OwnerAfter` | pkg/repository/grader.go:220-229 | what claim, release and clear do to the owner of each submission |
| `GraderClaims.HoldsAfter` | pkg/repository/grader.go:193-202 | and what they do to the reverse direction |
| `GraderClaims.OthersKept` | pkg/repository/grader.go:88-98 | for every key that does not start with the prefix of the claims: no operation adds, removes or changes it, not even half way |
| `GraderClaims.ClearedExactly` | pkg/repository/grader.go:88-98 | clearing leaves exactly the keys that do not start with the prefix, with their values |
| `GraderClaims.RunAgrees` | pkg/repository/grader.go:220-229 | over every run the owner of a submission holds it |
| `GraderClaims.RunExact` | pkg/repository/grader.go:193-229 | the two directions are exact inverses throughout a run if and only if no claim of the run is over another owner |
| `GraderClaims.ApplyExact` | pkg/repository/grader.go:220-229 | the same for one operation, as an if and only if |
| `GraderClaims.CrashHealed` | pkg/repository/grader.go:88-98 | a crash between the two writes of an operation, or in the middle of the clearing, is healed by the clearing at the next start |
| `GraderClaims.LoadIsOwned` | pkg/repository/grader.go:100-119 | a scan lists exactly the submissions of their owner if and only if none of them has an id of 2^63 or more |
| `GraderClaims.StoreRefinesMap` | pkg/repository/grader.go:193-239 | the keys follow the map of claims the hub works with through every operation |
| `GraderClaims.ApplyClaimKeys` | pkg/repository/grader.go:177-179 | every key under the prefix stays one made by a claim |
| `GraderClaims.KVGraderRepository.ClaimSubmission` | pkg/repository/grader.go:220-229 | the two writes equal the claim operation, and no key outside of the claims changes |
| `GraderClaims.KVGraderRepository.ReleaseSubmission` | pkg/repository/grader.go:193-202 | reading the owner and deleting both keys equals the release operation; nothing without an owner; no key outside of the claims changes |
| `GraderClaims.KVGraderRepository.ClearRunning` | pkg/repository/grader.go:88-98 | deleting key after key: exactly the keys that do not start with the prefix are left, each with its value |
| `GraderClaims.KVGraderRepository.GetSubmissionsByGrader` | pkg/repository/grader.go:100-119 | each held submission with an id below 2^63, once |
| `SubmissionReports.KVSubmissionReportRepository.MarkUnfinishedSubmission` | pkg/repository/submission_report.go:32-34 | adds the marker and leaves every other key of the store alone |
| `SubmissionReports.KVSubmissionReportRepository.DeleteUnfinishedSubmission` | pkg/repository/submission_report.go:36-38 | removes exactly this marker and leaves every other key alone |
| `SubmissionReports.KVSubmissionReportRepository.GetUnfinishedSubmissions` | pkg/repository/submission_report.go:40-56 | exactly the marked submissions with their assignments, once each, in the order of their ids |
| `SubmissionReports.KVSubmissionReportRepository.UpdateSubmissionBriefReport` | pkg/repository/submission_report.go:66-76 | changes the brief of this submission and no other key of the store |
| `SubmissionReports.KVSubmissionReportRepository.UpdateSubmissionReport` | pkg/repository/submission_report.go:104-114 | changes the report of this submission and no other key of the store |
| `SubmissionReports.ReportsApart` | pkg/repository/submission_report.go:58-102 | markers, briefs and reports never share a key |
| `KVMerge.GroupingIrrelevant` | pkg/repository/merger.go:14-66 | however the store groups operands of one kind, the value is their fold from old to new: lists in order, counters as 64-bit sums |
| `KVMerge.SideMatters` | pkg/repository/merger.go:16-28 | across kinds two operands agree from both sides exactly when both are lists or neither is |
| `KVMerge.FoldConcat` | pkg/repository/merger.go:14-48 | merging the newer run into the older one, or the older into the newer, gives the fold of both |
| `KVMerge.KVMerge.MergeNewer` | pkg/repository/merger.go:14-30 | appends, adds or adopts; panics exactly on a list with an operand of another kind |
| `KVMerge.KVMerge.MergeOlder` | pkg/repository/merger.go:32-48 | the same from the other side |
| `Manifest.Manifest.AddFileToManifest` | pkg/repository/manifest.go:262-285 | file and operand together: the counter grows by the size, and what is overwritten stays counted |
| `Manifest.Manifest.DeleteFileInManifest` | pkg/repository/manifest.go:179-204 | file and operand together: the counter shrinks by the size; nothing when the file is not there |
| `Manifest.Manifest.GetManifestFilesize` | pkg/repository/manifest.go:239-260 | the 64-bit sum of all operands in any grouping, clamped at 0 |
| `Manifest.Manifest.InitUpload` | pkg/grpc/file.go:144-157 | the decision in unsigned 64-bit arithmetic; while nothing overflows, exactly whether the size is not 0 and fits with all files but the one replaced |
| `Manifest.Manifest.CheckUpload` | pkg/grpc/file.go:307-327 | the file of the same name is deleted first; while the balance is below 2^63, the upload is let through exactly when its size fits with what is left |
| `Manifest.CounterExact` | pkg/repository/manifest.go:254-259 | the counter reads as the true balance if and only if that is below 2^63, so that the clamp is unreachable then |
| `Manifest.CounterBounds` | pkg/grpc/file.go:152-154 | the counter is at least the size of the files, equal exactly when nothing was overwritten, and the subtraction never wraps |
| `Manifest.InitUploadExact` | pkg/grpc/file.go:152-157 | it decides as it should under every limit if and only if the new total fits 64 bits |
| `Manifest.MayUploadExact` | pkg/grpc/file.go:144-157 | in terms of the files: while nothing overflows it lets through exactly what is not empty and fits with all files but the one replaced |
| `Manifest.AcceptsExact` | pkg/grpc/file.go:307-327 | the check decides as it should under every limit if and only if the balance without the file to be replaced is below 2^63 |
| `Manifest.EventSafe` | pkg/grpc/file.go:302-348 | one event keeps every upload under way safe if and only if a check that lets an upload through is coordinated: its name is not under way, and there is room beside all those under way |
| `Manifest.RunSafe` | pkg/grpc/file.go:302-348 | over every run of uploads, overlapping or not: all states are safe if and only if all checks are coordinated |
| `Manifest.SafeMeans` | pkg/grpc/file.go:339-348 | safe means that when everything under way is recorded, nothing is overwritten and the limit is kept, and conversely |
| `Manifest.RunPositive` | pkg/grpc/file.go:287-290 | no file of size 0 is ever recorded |
| `Manifest.SerialUploadsWithinLimit` | pkg/grpc/file.go:302-348 | so uploads that do not overlap keep the files within the limit and the counter equal to their size, over every run |
| `Manifest.OverlappingUploadsExceed` | pkg/grpc/file.go:302-348 | for every limit a run of two overlapping uploads that ends with twice the limit |
| `Manifest.OverlappingUploadsOfOneName` | pkg/grpc/file.go:302-348 | a run of two overlapping uploads of one name that leaves the counter too high |
| `ManifestKeys.FilesApart` | pkg/repository/manifest.go:139-145 | the files prefix of one manifest is a prefix of its own file keys only, whatever the names |
| `ManifestKeys.DeleteManifestExact` | pkg/repository/manifest.go:287-308 | deleting a manifest deletes exactly its own keys: whatever the names, every key of another manifest and every other key of the store stays with its value |
| `ManifestKeys.GetFilesInManifest` | pkg/repository/manifest.go:206-220 | exactly the file names of the manifest, each once, in order |
| `KVSequencer.IdsNeverRepeat` | pkg/repository/sequencer.go:24-36 | over every run with crashes and failed writes anywhere ids strictly increase, start at 1 or above and stay below the persisted limit |
| `KVSequencer.SkippedIds` | pkg/repository/sequencer.go:53-72 | between two ids at most one batch is skipped for each restart in between, and none without a restart |
| `KVSequencer.BatchExact` | pkg/repository/sequencer.go:42-50 | in 64-bit arithmetic the next batch keeps the invariant if and only if the new limit does not wrap around |
| `KVSequencer.KVSequencer.GetNextId` | pkg/repository/sequencer.go:24-36 | the next id above all before it and below the persisted limit; an error exactly when a new batch is needed and cannot be persisted |
| `KVSequencer.KVSequencer.RequestNextBatch` | pkg/repository/sequencer.go:38-51 | the limit is raised only after it is persisted |
| `KVSequencer.NewKVSequencer` | pkg/repository/sequencer.go:53-72 | starts at the persisted limit, or at 1, with a batch of its own |
| `Base30.RoundTrip` | pkg/utils/encode.go:21-59 | every code of every 64-bit id decodes to it, whatever marker and padding, without an overflow on the way |
| `Base30.CodesDiffer` | pkg/utils/encode.go:21-42 | codes of different ids never collide |
| `Base30.Base30Encode` | pkg/utils/encode.go:21-42 | digits least significant first; below 8 of them a marker and letters up to 8 |
| `Base30.Base30Decode` | pkg/utils/encode.go:44-59 | for every code: the digits before the first marker, weighted by what the program takes for the powers of 30, modulo 2^64 |
| `Base30.WeightedIsNumber` | pkg/utils/encode.go:53-57 | up to 14 digits the powers are exact and the weighted digits are the number |
| `Base30.EncodeAndDecode` | pkg/utils/encode.go:21-59 | decoding the result of encoding any 64-bit id gives the id |
| `Base30.BuildReverse` | pkg/utils/encode.go:14-19 | the table maps each letter to its position and nothing else |
| `Truncation.TruncateOutput` | pkg/grader/programming.go:90-109 | never longer than allowed; prefix, prompt and suffix when there is room; valid UTF-8 stays valid if and only if nothing is cut, or there is room, or the plain cut falls between characters |
| `Truncation.TruncatedIsValid` | pkg/grader/programming.go:98-108 | both cuts of valid output are valid and give up three bytes at most |
| `Truncation.Utf8Cut` | pkg/grader/programming.go:101-107 | a cut of valid UTF-8 (section 4 of RFC 3629) is valid on either side exactly when it falls on the start of a character |
| `Truncation.StartsNearby` | pkg/grader/programming.go:101-107 | in valid text a character starts within four bytes in either direction |
| `Truncation.PlainCutValid` | pkg/grader/programming.go:95-97 | without room for the prompt the cut is valid exactly when it falls between characters |
| `Truncation.LogTail` | pkg/grader/programming.go:455-462 | a suffix within the limit; valid input stays valid and loses at most three bytes more |

## Left out

- A pass is one step for the hub's invariant: a grader that vanishes during a pass shows up as a missing outbox or a refused push. So is the collection of a lost owner's work, up to the release of its claims. `HubHazards.CollectInsidePass` and `HubHazards.CollectAroundAssign` say exactly when the two may overlap; `SchedulerWakeup` takes the pass apart, but without the running table.
- The two directions of a claim are written in one step of the hub; `GraderClaims` takes that apart.
- The recovery at start runs every marked submission; new submissions that arrive during the recovery scan are not interleaved with it.
- Restarting keeps the stored submission and assignment, from which the same request is built; a submission or assignment that cannot be read is not modelled.
- Outboxes of the hub model are values; an outbox that a new heartbeat replaces is dropped with what it holds, as in the program, where nobody drains it any more. Blocking until there is something to send is not modelled.
- Ranks are published with their position; the total published along with it is not tracked.
- Heartbeat timers and clock comparisons: a grader may be collected at any moment.
- A grader that was registered, with something new, while it had an outbox is not waited for until it connects again: `SchedulerWakeup.RegisterExact` says when that makes a difference. In the wake-up model there is no running table, and a requeue is a release and a later push.
- Checks of file names and of tokens around an upload.
- Log streams, container metadata, sessions, tokens, permissions and user management; stream-log and cancel requests are outbox items that are skipped when an outbox is collected.
- Scores and the contents of reports are carried along but not computed.
- The reporter's pauses between streams, and the upload of test outputs after a final report.
- The client's stream reads the rank along with the brief; only the status it sends is modelled.
- Protobuf encoding: operands, briefs and reports are values.
- The lock of a manifest is one atomic section; its removal from the lock table, and the expiry sweep, are not modelled.
- KVSequencer.GetNextId: ids are unbounded in runs; `BatchExact` says that the wrap-around is the only thing this leaves out.
- Base30.Base30Decode: the powers that floating point gives for exponents of 14 and more are left open; no code of a 64-bit id has that many digits.
- Truncation.TruncateOutput: a negative length, for which the program panics, is excluded.
- Directory trees, leaderboards, course and user repositories, and submission limits: simple writes and checks.
