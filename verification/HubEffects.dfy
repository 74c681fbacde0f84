/** What each step of the hub changes, field by field, and what it leaves alone. Each lemma is about every
    step: nothing but the steps it names touches the field. */
module HubEffects {
  import opened Options
  import opened PendingQueue
  import opened Scheduling
  import opened HubModel
  import opened SubmissionStatus
  import opened SchedulePass

  // ---------- The fields a step may touch ----------

  lemma WriteMarkerFrame(h: Hub, req: Request)
    ensures var n := WriteMarker(h, req); n == h.(unfinished := h.unfinished + {req.sub}, arriving := n.arriving, accepted := n.accepted)
  {
  }

  lemma WriteQueuedFrame(h: Hub, s: nat)
    ensures var n := WriteQueued(h, s); n == h.(brief := h.brief[s := Queued], arriving := n.arriving, ready := n.ready)
  {
  }

  lemma EnqueueGradeFrame(h: Hub, s: nat)
    requires s in h.accepted
    ensures var n := EnqueueGrade(h, s); n == h.(queue := n.queue, wake := true, ready := n.ready, writes := h.writes + multiset{(h.accepted[s].sub, Queued)})
  {
    hide Push;
  }

  lemma ReportFrame(h: Hub, g: nat, s: nat, report: Option<Status>)
    ensures var n := Report(h, g, s, report); n == h.(writes := if s in h.claim && h.claim[s] == g && report.Some? then h.writes + multiset{(s, report.value)} else h.writes)
  {
  }

  lemma WriteBriefFrame(h: Hub, s: nat, status: Status)
    ensures var n := WriteBrief(h, s, status); n == h.(brief := h.brief[s := status], writes := h.writes - multiset{(s, status)},
               unmarking := if Terminal(status) then h.unmarking + multiset{s} else h.unmarking)
  {
  }

  lemma DeleteMarkerFrame(h: Hub, s: nat)
    ensures var n := DeleteMarker(h, s); n == h.(unfinished := h.unfinished - {s}, unmarking := h.unmarking - multiset{s}, releasing := h.releasing + multiset{s})
  {
  }

  lemma ReleaseClaimFrame(h: Hub, s: nat)
    ensures var n := ReleaseClaim(h, s); n == h.(claim := h.claim - {s}, releasing := h.releasing - multiset{s}, dropping := h.dropping + multiset{s})
  {
  }

  lemma DropRunningFrame(h: Hub, s: nat)
    ensures var n := DropRunning(h, s); n == h.(running := h.running - {s}, wake := true, dropping := h.dropping - multiset{s})
  {
  }

  lemma CancelPendingFrame(h: Hub, s: nat)
    ensures var n := CancelPending(h, s); n == h.(queue := n.queue, cancelling := n.cancelling)
  {
    hide Remove;
  }

  lemma FinaliseCancelledFrame(h: Hub, s: nat)
    ensures var n := FinaliseCancelled(h, s); n == h.(brief := h.brief[s := Cancelled], cancelling := n.cancelling, unmarking := h.unmarking + multiset{s})
  {
  }

  lemma CancelMissFrame(h: Hub, s: nat)
    ensures var n := CancelMiss(h, s); n == h.(cancels := n.cancels)
  {
  }

  lemma CancelLookupFrame(h: Hub, s: nat)
    ensures var n := CancelLookup(h, s); n == h.(cancels := n.cancels, writes := if s in h.claim then h.writes else h.writes + multiset{(s, Cancelled)})
  {
  }

  lemma CancelAskFrame(h: Hub, s: nat, g: nat)
    ensures var n := CancelAsk(h, s, g); n == h.(cancels := n.cancels,
               outbox := if g in h.outbox then h.outbox[g := h.outbox[g] + [CancelGrading(s)]] else h.outbox,
               writes := h.writes + multiset{(s, if g in h.outbox then Cancelling else Cancelled)})
  {
  }

  lemma CollectFrame(h: Hub, g: nat)
    ensures var n := Collect(h, g); n == h.(online := h.online - {g}, outbox := h.outbox - {g}, running := n.running, claim := n.claim, requeueing := n.requeueing)
  {
    hide Taken, Owned, GradeSubs;
  }

  lemma TestRequeueFrame(h: Hub, s: nat)
    requires s in h.requeueing
    ensures var n := TestRequeue(h, s); n == h.(requeueing := n.requeueing, cleared := n.cleared)
  {
  }

  lemma PushRequeuedFrame(h: Hub, s: nat)
    requires s in h.cleared
    ensures var n := PushRequeued(h, s); n == h.(queue := n.queue, wake := true, cleared := n.cleared, writes := h.writes + multiset{(h.cleared[s].sub, Queued)})
  {
    hide Push;
  }

  lemma SendRequestsFrame(h: Hub, g: nat)
    ensures var n := SendRequests(h, g); n == h.(outbox := h.outbox[g := []])
  {
  }

  lemma ConnectFrame(h: Hub, g: nat)
    ensures var n := Connect(h, g); n == h.(outbox := h.outbox[g := []], wake := true)
  {
  }

  lemma RegisterFrame(h: Hub, g: nat, info: GraderInfo)
    ensures var n := Register(h, g, info); n == h.(online := h.online[g := info])
  {
  }

  lemma PassFrame(h: Hub, accepts: (nat, nat) -> bool)
    requires 0 !in h.online
    ensures var n := Pass(h, accepts).0;
            n == h.(queue := n.queue, running := n.running, outbox := n.outbox, claim := n.claim)
  {
    hide PassFrom;
    PassFromFrame(h, Snapshot(h), h.queue.list, accepts);
  }

  /** What may be different after a step. */
  ghost predicate Changed(h: Hub, step: Step, n: Hub)
    requires Enabled(h, step)
  {
    match step
    case DoWriteMarker(req) => n == h.(unfinished := h.unfinished + {req.sub}, arriving := n.arriving, accepted := n.accepted)
    case DoWriteQueued(s) => n == h.(brief := h.brief[s := Queued], arriving := n.arriving, ready := n.ready)
    case DoEnqueueGrade(s) => n == h.(queue := n.queue, wake := true, ready := n.ready, writes := h.writes + multiset{(h.accepted[s].sub, Queued)})
    case DoReport(g, s, report) => n == h.(writes := if s in h.claim && h.claim[s] == g && report.Some? then h.writes + multiset{(s, report.value)} else h.writes)
    case DoWriteBrief(s, status) => n == h.(brief := h.brief[s := status], writes := h.writes - multiset{(s, status)},
               unmarking := if Terminal(status) then h.unmarking + multiset{s} else h.unmarking)
    case DoDeleteMarker(s) => n == h.(unfinished := h.unfinished - {s}, unmarking := h.unmarking - multiset{s}, releasing := h.releasing + multiset{s})
    case DoReleaseClaim(s) => n == h.(claim := h.claim - {s}, releasing := h.releasing - multiset{s}, dropping := h.dropping + multiset{s})
    case DoDropRunning(s) => n == h.(running := h.running - {s}, wake := true, dropping := h.dropping - multiset{s})
    case DoCancelPending(s) => n == h.(queue := n.queue, cancelling := n.cancelling)
    case DoFinaliseCancelled(s) => n == h.(brief := h.brief[s := Cancelled], cancelling := n.cancelling, unmarking := h.unmarking + multiset{s})
    case DoCancelMiss(s) => n == h.(cancels := n.cancels)
    case DoCancelLookup(s) => n == h.(cancels := n.cancels, writes := if s in h.claim then h.writes else h.writes + multiset{(s, Cancelled)})
    case DoCancelAsk(s, g) => n == h.(cancels := n.cancels,
               outbox := if g in h.outbox then h.outbox[g := h.outbox[g] + [CancelGrading(s)]] else h.outbox,
               writes := h.writes + multiset{(s, if g in h.outbox then Cancelling else Cancelled)})
    case DoCollect(g) => n == h.(online := h.online - {g}, outbox := h.outbox - {g}, running := n.running, claim := n.claim, requeueing := n.requeueing)
    case DoTestRequeue(s) => n == h.(requeueing := n.requeueing, cleared := n.cleared)
    case DoPushRequeued(s) => n == h.(queue := n.queue, wake := true, cleared := n.cleared, writes := h.writes + multiset{(h.cleared[s].sub, Queued)})
    case DoSendRequests(g) => n == h.(outbox := h.outbox[g := []])
    case DoConnect(g) => n == h.(outbox := h.outbox[g := []], wake := true)
    case DoRegister(g, info) => n == h.(online := h.online[g := info])
    case DoPass(_) => n == h.(queue := n.queue, running := n.running, outbox := n.outbox, claim := n.claim)
    case DoRestart => n == INITIAL.(brief := h.brief, unfinished := h.unfinished, accepted := h.accepted, arriving := n.arriving)
  }

  /** The steps of a submission that was pushed. */
  predicate AfterPush(step: Step) {
    || step.DoReport?
    || step.DoWriteBrief?
    || step.DoDeleteMarker?
    || step.DoReleaseClaim?
    || step.DoDropRunning?
    || step.DoFinaliseCancelled?
    || step.DoCancelMiss?
    || step.DoCancelLookup?
    || step.DoCancelAsk?
    || step.DoCollect?
  }

  lemma StepChanges(h: Hub, step: Step)
    requires Enabled(h, step)
    ensures Changed(h, step, Next(h, step))
  {
    hide Next, Changed, Enabled;
    if AfterPush(step) {
      LaterStepChanges(h, step);
    } else {
      EarlierStepChanges(h, step);
    }
  }

  lemma LaterStepChanges(h: Hub, step: Step)
    requires Enabled(h, step) && AfterPush(step)
    ensures Changed(h, step, Next(h, step))
  {
    hide WriteMarker, WriteQueued, EnqueueGrade, Report, WriteBrief, DeleteMarker, ReleaseClaim, DropRunning;
    hide CancelPending, FinaliseCancelled, CancelMiss, CancelLookup, CancelAsk, Collect, TestRequeue, PushRequeued, SendRequests, Connect, Register, Pass;
    match step
    case DoReport(g, s, report) => ReportFrame(h, g, s, report);
    case DoWriteBrief(s, status) => WriteBriefFrame(h, s, status);
    case DoDeleteMarker(s) => DeleteMarkerFrame(h, s);
    case DoReleaseClaim(s) => ReleaseClaimFrame(h, s);
    case DoDropRunning(s) => DropRunningFrame(h, s);
    case DoFinaliseCancelled(s) => FinaliseCancelledFrame(h, s);
    case DoCancelMiss(s) => CancelMissFrame(h, s);
    case DoCancelLookup(s) => CancelLookupFrame(h, s);
    case DoCancelAsk(s, g) => CancelAskFrame(h, s, g);
    case DoCollect(g) => CollectFrame(h, g);
  }

  lemma EarlierStepChanges(h: Hub, step: Step)
    requires Enabled(h, step) && !AfterPush(step)
    ensures Changed(h, step, Next(h, step))
  {
    hide WriteMarker, WriteQueued, EnqueueGrade, Report, WriteBrief, DeleteMarker, ReleaseClaim, DropRunning;
    hide CancelPending, FinaliseCancelled, CancelMiss, CancelLookup, CancelAsk, Collect, TestRequeue, PushRequeued, SendRequests, Connect, Register, Pass;
    match step
    case DoWriteMarker(req) => WriteMarkerFrame(h, req);
    case DoWriteQueued(s) => WriteQueuedFrame(h, s);
    case DoEnqueueGrade(s) => EnqueueGradeFrame(h, s);
    case DoCancelPending(s) => CancelPendingFrame(h, s);
    case DoTestRequeue(s) => TestRequeueFrame(h, s);
    case DoPushRequeued(s) => PushRequeuedFrame(h, s);
    case DoSendRequests(g) => SendRequestsFrame(h, g);
    case DoConnect(g) => ConnectFrame(h, g);
    case DoRegister(g, info) => RegisterFrame(h, g, info);
    case DoPass(accepts) => PassFrame(h, accepts);
    case DoRestart =>
  }

  // ---------- Field by field ----------

  /** A brief is exactly what was written last: Queued for a run, Cancelled for a submission taken off the
      list, and else what the thread has decided on. Nothing else writes briefs, and no restart loses
      one. */
  lemma BriefsAfter(h: Hub, step: Step)
    requires Enabled(h, step)
    ensures Next(h, step).brief ==
            match step
            case DoWriteQueued(s) => h.brief[s := Queued]
            case DoWriteBrief(s, status) => h.brief[s := status]
            case DoFinaliseCancelled(s) => h.brief[s := Cancelled]
            case _ => h.brief
  {
    hide Next, Enabled;
    StepChanges(h, step);
  }

  /** What a thread has decided to write: the status a report carries, if its sender owns the submission;
      Queued after a push; Cancelling when the owner could be asked to stop, and Cancelled when there is
      nobody to ask. */
  lemma DecisionsAfter(h: Hub, step: Step)
    requires Enabled(h, step)
    ensures Next(h, step).writes ==
            match step
            case DoEnqueueGrade(s) => h.writes + multiset{(h.accepted[s].sub, Queued)}
            case DoPushRequeued(s) => h.writes + multiset{(h.cleared[s].sub, Queued)}
            case DoReport(g, s, Some(status)) =>
              if s in h.claim && h.claim[s] == g then h.writes + multiset{(s, status)} else h.writes
            case DoCancelLookup(s) => if s in h.claim then h.writes else h.writes + multiset{(s, Cancelled)}
            case DoCancelAsk(s, g) => h.writes + multiset{(s, if g in h.outbox then Cancelling else Cancelled)}
            case DoWriteBrief(s, status) => h.writes - multiset{(s, status)}
            case DoRestart => multiset{}
            case _ => h.writes
  {
    hide Next, Enabled;
    StepChanges(h, step);
  }

  /** A marker appears when a submission is run, and goes when a thread finishes it. */
  lemma MarkersAfter(h: Hub, step: Step)
    requires Enabled(h, step)
    ensures Next(h, step).unfinished ==
            match step
            case DoWriteMarker(req) => h.unfinished + {req.sub}
            case DoDeleteMarker(s) => h.unfinished - {s}
            case _ => h.unfinished
  {
    hide Next, Enabled;
    StepChanges(h, step);
  }

  /** A grader is online from its registration until it is lost. */
  lemma OnlineAfter(h: Hub, step: Step)
    requires Enabled(h, step)
    ensures Next(h, step).online ==
            match step
            case DoRegister(g, info) => h.online[g := info]
            case DoCollect(g) => h.online - {g}
            case DoRestart => map[]
            case _ => h.online
  {
    hide Next, Enabled;
    StepChanges(h, step);
  }

  /** An outbox holds what was put in since it was drained last, in order: the requests of passes, and the
      requests to stop. */
  lemma OutboxesAfter(h: Hub, step: Step)
    requires Enabled(h, step) && !step.DoPass?
    ensures Next(h, step).outbox ==
            match step
            case DoCancelAsk(s, g) => if g in h.outbox then h.outbox[g := h.outbox[g] + [CancelGrading(s)]] else h.outbox
            case DoCollect(g) => h.outbox - {g}
            case DoSendRequests(g) => h.outbox[g := []]
            case DoConnect(g) => h.outbox[g := []]
            case DoRestart => map[]
            case _ => h.outbox
  {
    hide Next, Enabled;
    StepChanges(h, step);
  }

  /** Who wakes the scheduler. Only a restart empties the slot. */
  lemma WakeAfter(h: Hub, step: Step)
    requires Enabled(h, step)
    ensures Next(h, step).wake ==
            match step
            case DoEnqueueGrade(_) => true
            case DoPushRequeued(_) => true
            case DoDropRunning(_) => true
            case DoConnect(_) => true
            case DoRestart => false
            case _ => h.wake
  {
    hide Next, Enabled;
    StepChanges(h, step);
  }

  /** The last of the threads that finish a submission. */
  lemma DroppingAfter(h: Hub, step: Step)
    requires Enabled(h, step)
    ensures Next(h, step).dropping ==
            match step
            case DoReleaseClaim(s) => h.dropping + multiset{s}
            case DoDropRunning(s) => h.dropping - multiset{s}
            case DoRestart => multiset{}
            case _ => h.dropping
  {
    hide Next, Enabled;
    StepChanges(h, step);
  }

  /** A claim is made by a pass, and it goes with its release, its owner, or a restart. */
  lemma ClaimsAfter(h: Hub, step: Step, s: nat)
    requires Enabled(h, step) && !step.DoPass?
    ensures var n := Next(h, step);
            && (s in n.claim <==>
                  && s in h.claim
                  && (match step
                      case DoReleaseClaim(t) => s != t
                      case DoCollect(g) => h.claim[s] != g
                      case DoRestart => false
                      case _ => true))
            && (s in n.claim ==> n.claim[s] == h.claim[s])
  {
    hide Next, Enabled;
    StepChanges(h, step);
    if step.DoCollect? {
      CollectClaims(h, step.g, s);
    }
  }

  lemma CollectClaims(h: Hub, g: nat, s: nat)
    ensures var n := Next(h, DoCollect(g));
            && (s in n.claim <==> s in h.claim && h.claim[s] != g)
            && (s in n.claim ==> n.claim[s] == h.claim[s])
  {
    hide Taken, GradeSubs;
  }

  /** The running table loses an entry at the end of a submission, and with the owner. */
  lemma RunningAfter(h: Hub, step: Step, s: nat)
    requires Enabled(h, step) && !step.DoPass?
    ensures var n := Next(h, step);
            && (s in n.running <==>
                  && s in h.running
                  && (match step
                      case DoDropRunning(t) => s != t
                      case DoCollect(g) => !(s in h.claim && h.claim[s] == g) && s !in GradeSubs(Box(h, g))
                      case DoRestart => false
                      case _ => true))
            && (s in n.running ==> n.running[s] == h.running[s])
  {
    hide GradeSubs;
    hide Next, Enabled;
    StepChanges(h, step);
    if step.DoCollect? {
      CollectRunning(h, step.g, s);
    }
  }

  lemma CollectRunning(h: Hub, g: nat, s: nat)
    ensures var n := Next(h, DoCollect(g));
            && (s in n.running <==> s in h.running && !(s in h.claim && h.claim[s] == g) && s !in GradeSubs(Box(h, g)))
            && (s in n.running ==> n.running[s] == h.running[s])
  {
    hide Taken, GradeSubs;
  }

  /** The list gets longer by one request at its end. */
  ghost predicate Appended(before: seq<Entry>, after: seq<Entry>, req: Request) {
    |after| == |before| + 1 && after[..|before|] == before && after[|before|].req == req
  }

  /** The list grows by pushes, each of the request that was submitted, and shrinks by passes and
      cancels. */
  lemma ListAfter(h: Hub, step: Step)
    requires Enabled(h, step) && !step.DoPass? && !step.DoCancelPending?
    ensures var list := Next(h, step).queue.list;
            match step
            case DoEnqueueGrade(s) => Appended(h.queue.list, list, h.accepted[s])
            case DoPushRequeued(s) => Appended(h.queue.list, list, h.cleared[s])
            case DoRestart => list == []
            case _ => list == h.queue.list
  {
    hide Next, Enabled;
    StepChanges(h, step);
    if step.DoEnqueueGrade? || step.DoPushRequeued? {
      PushedAppends(h, step);
    }
  }

  lemma PushedAppends(h: Hub, step: Step)
    requires Enabled(h, step) && (step.DoEnqueueGrade? || step.DoPushRequeued?)
    ensures Appended(h.queue.list, Next(h, step).queue.list,
                     if step.DoEnqueueGrade? then h.accepted[step.sub] else h.cleared[step.sub])
  {
  }
}
