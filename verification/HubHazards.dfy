/** What happens when a step is not orderly: runs that end with a submission lost, in two places, or
    without the marker that a restart needs. Each run is one the code allows. */
module HubHazards {
  import opened Options
  import opened PendingQueue
  import opened Scheduling
  import opened HubModel
  import opened SubmissionStatus
  import opened HubInvariant
  import opened SchedulePass
  import opened HubRuns

  const REQUEST := Request(1, [])
  const INFO := GraderInfo(1, [])
  /** After one grader came online and one submission was queued. */
  ghost function Waiting(): Hub {
    EnqueueGrade(WriteQueued(WriteMarker(Connect(Register(INITIAL, 1, INFO), 1), REQUEST), 1), 1)
  }

  /** ... and a pass gave the one to the other. */
  ghost function Working(): Hub {
    Pass(Waiting(), (s, g) => true).0
  }

  lemma WaitingReachable()
    ensures Reachable(Waiting()) && Inv(Waiting())
  {
    hide Inv, Reachable, WriteQueued, EnqueueGrade;
    ReachInitial();
    InitialInv();
    var h1 := Register(INITIAL, 1, INFO);
    ReachNext(INITIAL, DoRegister(1, INFO));
    StepInv(INITIAL, DoRegister(1, INFO));
    var h2 := Connect(h1, 1);
    ReachNext(h1, DoConnect(1));
    StepInv(h1, DoConnect(1));
    var h3 := WriteMarker(h2, REQUEST);
    ReachNext(h2, DoWriteMarker(REQUEST));
    StepInv(h2, DoWriteMarker(REQUEST));
    MarkedReachable(h3);
  }

  lemma MarkedReachable(h: Hub)
    requires Reachable(h) && Inv(h) && 1 in h.arriving && 1 in h.accepted
    ensures Reachable(EnqueueGrade(WriteQueued(h, 1), 1)) && Inv(EnqueueGrade(WriteQueued(h, 1), 1))
  {
    hide Inv, Reachable, EnqueueGrade;
    ReachNext(h, DoWriteQueued(1));
    StepInv(h, DoWriteQueued(1));
    ReachNext(WriteQueued(h, 1), DoEnqueueGrade(1));
    StepInv(WriteQueued(h, 1), DoEnqueueGrade(1));
  }

  lemma WorkingReachable()
    ensures Reachable(Working()) && Inv(Working())
  {
    hide Inv, Reachable, Pass, Waiting;
    WaitingReachable();
    var pass := DoPass((s, g) => true);
    assert 0 !in Waiting().online by { ListUntouched(Waiting(), Waiting()); }
    ReachNext(Waiting(), pass);
    StepInv(Waiting(), pass);
  }

  lemma WaitingIs()
    ensures Waiting() == INITIAL.(queue := Queue([Entry(0, REQUEST, 1)], map[1 := 0], 1, map[1 := 1]),
              online := map[1 := INFO], outbox := map[1 := []], wake := true, brief := map[1 := Queued],
              unfinished := {1}, writes := multiset{(1, Queued)}, accepted := map[1 := REQUEST])
  {
  }

  lemma WorkingClaimed()
    ensures var h := Working();
            && h.claim == map[1 := 1] && 1 in h.outbox && 1 !in h.queue.index && h.running == map[1 := REQUEST]
            && h.brief == map[1 := Queued] && h.accepted == map[1 := REQUEST]
            && h.arriving == h.ready == h.cancelling == h.unmarking == h.releasing == h.dropping == multiset{}
            && h.requeueing == h.cleared == map[] && h.cancels == multiset{} && h.writes == multiset{(1, Queued)}
  {
    WaitingIs();
    hide Waiting, Publish, Find;
  }

  // ---------- What a disorderly write leads to, in every state ----------

  /** A terminal brief over a submission that is on the list, or about to be pushed to it: it is going to
      be graded, and its marker is gone. A crash would lose it. */
  lemma TerminalOverBound(h: Hub, s: nat, status: Status)
    requires Bound(h, s) && Terminal(status)
    ensures var n := DeleteMarker(WriteBrief(h, s, status), s);
            Bound(n, s) && s !in n.unfinished && s !in Restart(n).arriving
  {
  }

  /** A brief that is not terminal over that of a submission that is being finished: it ends up neither
      terminal nor anywhere, and without a marker. */
  lemma OpenOverFinished(h: Hub, s: nat, status: Status)
    requires Inv(h) && s in h.unmarking && (s in h.claim || Places(h, s) == 0) && !Terminal(status)
    ensures var n := DropRunning(ReleaseClaim(DeleteMarker(WriteBrief(h, s, status), s), s), s);
            Live(n, s) && Places(n, s) == 0 && s !in n.unfinished && s !in Restart(n).arriving
  {
    assert SubOk(h, s);
  }

  // ---------- Single steps ----------

  /** A step that is always orderly. */
  lemma Steps(h: Hub, step: Step)
    requires Reachable(h) && Inv(h) && Enabled(h, step) && !step.DoWriteMarker? && !step.DoWriteBrief?
    ensures Reachable(Next(h, step)) && Inv(Next(h, step))
  {
    hide Inv, Reachable, Next, Enabled;
    ReachNext(h, step);
    StepInv(h, step);
  }

  lemma Collects(h: Hub, g: nat)
    requires Reachable(h) && Inv(h)
    ensures Reachable(Collect(h, g)) && Inv(Collect(h, g))
  {
    hide Inv, Reachable, Collect;
    Steps(h, DoCollect(g));
  }

  lemma Tests(h: Hub, s: nat)
    requires Reachable(h) && Inv(h) && s in h.requeueing
    ensures Reachable(TestRequeue(h, s)) && Inv(TestRequeue(h, s))
  {
    hide Inv, Reachable, TestRequeue;
    Steps(h, DoTestRequeue(s));
  }

  lemma Asks(h: Hub, s: nat, g: nat)
    requires Reachable(h) && Inv(h) && Asking(s, g) in h.cancels
    ensures Reachable(CancelAsk(h, s, g)) && Inv(CancelAsk(h, s, g))
  {
    hide Inv, Reachable, CancelAsk;
    Steps(h, DoCancelAsk(s, g));
  }

  lemma Reports(h: Hub, g: nat, s: nat, report: Option<Status>)
    requires Reachable(h) && Inv(h)
    ensures Reachable(Report(h, g, s, report)) && Inv(Report(h, g, s, report))
  {
    hide Inv, Reachable, Report;
    Steps(h, DoReport(g, s, report));
  }

  /** A brief that was decided on may be written at any time, orderly or not. */
  lemma Writes(h: Hub, s: nat, status: Status)
    requires Reachable(h) && (s, status) in h.writes
    ensures Reachable(WriteBrief(h, s, status))
  {
    hide Reachable, WriteBrief;
    ReachNext(h, DoWriteBrief(s, status));
  }

  lemma Unmarks(h: Hub, s: nat)
    requires Reachable(h) && s in h.unmarking
    ensures Reachable(DeleteMarker(h, s))
  {
    hide Reachable, DeleteMarker;
    ReachNext(h, DoDeleteMarker(s));
  }

  lemma Pushes(h: Hub, s: nat)
    requires Reachable(h) && s in h.cleared
    ensures Reachable(PushRequeued(h, s))
  {
    hide Reachable, PushRequeued;
    ReachNext(h, DoPushRequeued(s));
  }

  /** A terminal brief, and then the marker. */
  lemma WritesAndUnmarks(h: Hub, s: nat, status: Status)
    requires Reachable(h) && (s, status) in h.writes && Terminal(status)
    ensures Reachable(DeleteMarker(WriteBrief(h, s, status), s))
  {
    hide Reachable;
    Writes(h, s, status);
    Unmarks(WriteBrief(h, s, status), s);
  }

  lemma RunsAgain(h: Hub, req: Request)
    requires Reachable(h)
    ensures var n := WriteQueued(WriteMarker(h, req), req.sub);
            req.sub in n.accepted && Reachable(EnqueueGrade(n, req.sub))
  {
    hide Reachable, EnqueueGrade;
    ReachNext(h, DoWriteMarker(req));
    var marked := WriteMarker(h, req);
    ReachNext(marked, DoWriteQueued(req.sub));
    ReachNext(WriteQueued(marked, req.sub), DoEnqueueGrade(req.sub));
  }

  // ---------- Runs that come to such a write ----------

  /** The finishing of a submission is reachable once its terminal brief is. */
  lemma FinishReachable(h: Hub, s: nat)
    requires Reachable(h) && s in h.unmarking
    ensures Reachable(DropRunning(ReleaseClaim(DeleteMarker(h, s), s), s))
  {
    hide Reachable;
    ReachNext(h, DoDeleteMarker(s));
    ReachNext(DeleteMarker(h, s), DoReleaseClaim(s));
    ReachNext(ReleaseClaim(DeleteMarker(h, s), s), DoDropRunning(s));
  }

  /** The only report there is says that the submission is finished. */
  function Finish(h: Hub): Hub {
    WriteBrief(Report(h, 1, 1, Some(Finished)), 1, Finished)
  }

  lemma FinishedReachable(h: Hub)
    requires Reachable(h) && Inv(h) && 1 in h.claim && h.claim[1] == 1
    ensures Reachable(Finish(h)) && Inv(Finish(h))
    ensures 1 in Finish(h).unmarking && Finish(h).claim == h.claim
    ensures forall status :: status != Finished ==> Finish(h).writes[(1, status)] == h.writes[(1, status)]
  {
    var n := Report(h, 1, 1, Some(Finished));
    OwnerUnbound(h, 1);
    hide Inv, Reachable;
    Reports(h, 1, 1, Some(Finished));
    Writes(n, 1, Finished);
    StepInv(n, DoWriteBrief(1, Finished));
  }

  lemma OwnerUnbound(h: Hub, s: nat)
    requires Inv(h) && s in h.claim
    ensures !Bound(h, s) && s !in h.arriving && s in h.running
  {
    assert SubOk(h, s);
  }

  /** The Queued brief of a push comes late: meanwhile the submission was handed out and finished. */
  lemma LateQueuedLoses()
    ensures var finished := Finish(Working());
            var lost := DropRunning(ReleaseClaim(DeleteMarker(WriteBrief(finished, 1, Queued), 1), 1), 1);
            && Reachable(finished) && Inv(finished)
            && Reachable(lost) && Live(lost, 1) && Places(lost, 1) == 0 && 1 !in Restart(lost).arriving
  {
    hide Inv, Reachable, Working, Finish;
    WorkingReachable();
    WorkingClaimed();
    LateWriteLoses(Working(), Queued);
  }

  lemma LateWriteLoses(h: Hub, status: Status)
    requires Reachable(h) && Inv(h) && 1 in h.claim && h.claim[1] == 1 && (1, status) in h.writes && !Terminal(status)
    ensures var finished := Finish(h);
            var lost := DropRunning(ReleaseClaim(DeleteMarker(WriteBrief(finished, 1, status), 1), 1), 1);
            && Reachable(finished) && Inv(finished)
            && Reachable(lost) && Live(lost, 1) && Places(lost, 1) == 0 && 1 !in Restart(lost).arriving
  {
    hide Inv, Reachable, Finish;
    FinishedReachable(h);
    var finished := Finish(h);
    Writes(finished, 1, status);
    OpenOverFinished(finished, 1, status);
    FinishReachable(WriteBrief(finished, 1, status), 1);
  }

  /** A cancel request has looked up the owner of a submission. */
  function LookedUp(h: Hub): Hub {
    CancelLookup(CancelMiss(h, 1), 1)
  }

  lemma LookedUpReachable(h: Hub)
    requires Reachable(h) && Inv(h) && 1 !in h.queue.index
    ensures Reachable(LookedUp(h)) && Inv(LookedUp(h))
  {
    hide Inv, Reachable;
    Steps(h, DoCancelMiss(1));
    Steps(CancelMiss(h, 1), DoCancelLookup(1));
  }

  /** A cancel request asks the owner to stop, who reports the end at that moment: Cancelling is written
      over the final brief. */
  lemma LateCancelLoses()
    ensures var asked := CancelAsk(LookedUp(Working()), 1, 1);
            var lost := DropRunning(ReleaseClaim(DeleteMarker(WriteBrief(Finish(asked), 1, Cancelling), 1), 1), 1);
            && Reachable(asked) && Inv(asked)
            && Reachable(lost) && Live(lost, 1) && Places(lost, 1) == 0 && 1 !in Restart(lost).arriving
  {
    hide Inv, Reachable, Working, Finish;
    WorkingReachable();
    WorkingClaimed();
    LookedUpReachable(Working());
    var h := LookedUp(Working());
    Asks(h, 1, 1);
    LateWriteLoses(CancelAsk(h, 1, 1), Cancelling);
  }

  /** The owner is gone, and its submission is cleared for the list ... */
  function Cleared(h: Hub): Hub
    requires 1 in Collect(h, 1).requeueing
  {
    TestRequeue(Collect(h, 1), 1)
  }

  lemma ClearedReachable(h: Hub)
    requires Reachable(h) && Inv(h) && 1 in h.claim && h.claim[1] == 1 && Live(h, 1)
    ensures 1 in Collect(h, 1).requeueing && Reachable(Cleared(h)) && Inv(Cleared(h))
    ensures 1 in Cleared(h).cleared && 1 !in Cleared(h).queue.index && 1 !in Cleared(h).claim && 1 !in Cleared(h).outbox
    ensures Cleared(h).writes == h.writes && Cleared(h).cancels == h.cancels
  {
    OwnerUnbound(h, 1);
    CollectedOne(h);
    hide Inv, Reachable, Collect;
    Collects(h, 1);
    Tests(Collect(h, 1), 1);
  }

  lemma CollectedOne(h: Hub)
    requires 1 in h.claim && h.claim[1] == 1 && 1 in h.running
    ensures var n := Collect(h, 1);
            && 1 in n.requeueing && 1 !in n.claim && 1 !in n.outbox
            && n.brief == h.brief && n.queue == h.queue && n.writes == h.writes && n.cancels == h.cancels
  {
    assert 1 in Owned(h, 1);
    assert 1 in Taken(h, 1);
    hide Taken;
  }

  /** ... and a cancel request that comes between that test and the push finds it neither listed nor
      owned. It is cancelled, and pushed all the same. */
  lemma CancelDuringRequeue()
    ensures 1 in Collect(Working(), 1).requeueing
    ensures var decided := LookedUp(Cleared(Working()));
            && Reachable(decided) && Inv(decided) && 1 in decided.cleared
            && (var n := DeleteMarker(WriteBrief(decided, 1, Cancelled), 1);
                Reachable(n) && 1 in n.cleared && Reachable(PushRequeued(n, 1)) && 1 !in Restart(PushRequeued(n, 1)).arriving)
  {
    hide Inv, Reachable, Working, Cleared, Push;
    WorkingReachable();
    WorkingClaimed();
    ClearedReachable(Working());
    var h := Cleared(Working());
    LookedUpReachable(h);
    CancelledAndPushed(LookedUp(h));
  }

  lemma CancelledAndPushed(h: Hub)
    requires Reachable(h) && 1 in h.cleared && (1, Cancelled) in h.writes
    ensures var n := DeleteMarker(WriteBrief(h, 1, Cancelled), 1);
            Reachable(n) && 1 in n.cleared && Reachable(PushRequeued(n, 1)) && 1 !in Restart(PushRequeued(n, 1)).arriving
  {
    hide Reachable;
    WritesAndUnmarks(h, 1, Cancelled);
    Pushes(DeleteMarker(WriteBrief(h, 1, Cancelled), 1), 1);
  }

  /** A pushed submission that a terminal brief overtakes. */
  lemma OvertakenReachable(h: Hub, status: Status)
    requires Reachable(h) && 1 in h.cleared && h.cleared[1].sub == 1 && (1, status) in h.writes && Terminal(status)
    ensures var n := DeleteMarker(WriteBrief(PushRequeued(h, 1), 1, status), 1);
            && Reachable(n) && 1 in n.queue.index && 1 !in Restart(n).arriving
  {
    hide Reachable;
    Pushes(h, 1);
    WritesAndUnmarks(PushRequeued(h, 1), 1, status);
  }

  lemma ClearedNamed(h: Hub, s: nat)
    requires Inv(h) && s in h.cleared
    ensures h.cleared[s].sub == s
  {
    assert SubOk(h, s);
  }

  /** A report whose sender was found to be the owner is written after the owner is gone and the
      submission is back on the list: it is listed as finished, without a marker. */
  lemma StaleReportUnmarks()
    ensures var reported := Report(Working(), 1, 1, Some(Finished));
            && Reachable(reported) && Inv(reported) && 1 in Collect(reported, 1).requeueing && 1 in Cleared(reported).cleared
            && (var n := DeleteMarker(WriteBrief(PushRequeued(Cleared(reported), 1), 1, Finished), 1);
                Reachable(n) && 1 in n.queue.index && 1 !in Restart(n).arriving)
  {
    hide Inv, Reachable, Working, Cleared, Push;
    WorkingReachable();
    WorkingClaimed();
    var h := Working();
    Reports(h, 1, 1, Some(Finished));
    var reported := Report(h, 1, 1, Some(Finished));
    ClearedReachable(reported);
    ClearedNamed(Cleared(reported), 1);
    OvertakenReachable(Cleared(reported), Finished);
  }

  /** A cancel request has looked up an owner that is gone when it asks: Cancelled is written over the
      submission that is back on the list by then. */
  lemma CancelAfterOwnerLost()
    ensures var asking := LookedUp(Working());
            && Reachable(asking) && Inv(asking) && 1 in Collect(asking, 1).requeueing && 1 in Cleared(asking).cleared
            && (var refused := CancelAsk(Cleared(asking), 1, 1);
                var n := DeleteMarker(WriteBrief(PushRequeued(refused, 1), 1, Cancelled), 1);
                Reachable(n) && 1 in n.queue.index && 1 !in Restart(n).arriving)
  {
    hide Inv, Reachable, Working, Cleared, Push;
    WorkingReachable();
    WorkingClaimed();
    LookedUpReachable(Working());
    var asking := LookedUp(Working());
    ClearedReachable(asking);
    var cleared := Cleared(asking);
    Asks(cleared, 1, 1);
    ClearedNamed(cleared, 1);
    OvertakenReachable(CancelAsk(cleared, 1, 1), Cancelled);
  }

  /** A cancel that comes between the marker and the push deletes the marker of a submission that is
      then queued after all. */
  lemma EarlyCancelUnmarks()
    ensures var marked := WriteMarker(INITIAL, REQUEST);
            var cancelled := DeleteMarker(WriteBrief(LookedUp(marked), 1, Cancelled), 1);
            var queued := EnqueueGrade(WriteQueued(cancelled, 1), 1);
            && Reachable(queued) && 1 in queued.queue.index && Live(queued, 1) && 1 !in Restart(queued).arriving
  {
    hide Inv, Reachable;
    ReachInitial();
    InitialInv();
    ReachNext(INITIAL, DoWriteMarker(REQUEST));
    StepInv(INITIAL, DoWriteMarker(REQUEST));
    var marked := WriteMarker(INITIAL, REQUEST);
    LookedUpReachable(marked);
    var decided := LookedUp(marked);
    WritesAndUnmarks(decided, 1, Cancelled);
    var cancelled := DeleteMarker(WriteBrief(decided, 1, Cancelled), 1);
    ReachNext(cancelled, DoWriteQueued(1));
    ReachNext(WriteQueued(cancelled, 1), DoEnqueueGrade(1));
  }

  // ---------- A second run ----------

  /** regradeSubmission does not wait for the owner it asks to stop: the submission is queued again
      while it is still claimed, and is in two places at once. */
  lemma RegradeQueuesTwice()
    ensures var asked := CancelAsk(LookedUp(Working()), 1, 1);
            var again := EnqueueGrade(WriteQueued(WriteMarker(asked, REQUEST), 1), 1);
            && Reachable(asked) && Inv(asked)
            && Reachable(again) && 1 in again.queue.index && 1 in again.claim && Places(again, 1) == 2
  {
    hide Inv, Reachable, Working;
    WorkingReachable();
    WorkingClaimed();
    LookedUpReachable(Working());
    var h := LookedUp(Working());
    Asks(h, 1, 1);
    RunsAgain(CancelAsk(h, 1, 1), REQUEST);
  }

  // ---------- A collection inside a pass ----------

  /** Why a pass is one step here. If a grader's work is collected between the claim of a request
      and its refused push, the invariant survives if and only if it is not the one it was claimed for:
      otherwise the request both stays in the pass and is to be requeued. */
  lemma CollectInsidePass(h: Hub, req: Request, g: nat, k: nat)
    requires Inv(h) && req.sub in h.queue.index && req.sub in h.accepted && h.accepted[req.sub] == req
    ensures Inv(UndoClaim(Collect(ClaimFor(h, req, g), k), req.sub)) <==> k != g
  {
    assert SubOk(h, req.sub);
    if k == g {
      CollectedTwice(h, req, g);
    } else {
      NotUnsentListed(h, req.sub);
      UndoneCollect(h, req, g, k);
      hide Inv, Collect;
      StepInv(h, DoCollect(k));
    }
  }

  lemma NotUnsentListed(h: Hub, s: nat)
    requires Inv(h) && s in h.queue.index
    ensures forall g :: !Unsent(h, g, s)
    ensures s !in h.claim && s !in h.running
  {
    assert SubOk(h, s);
    NotUnsent(h, s);
  }

  lemma CollectedTwice(h: Hub, req: Request, g: nat)
    requires req.sub in h.queue.index
    ensures !Inv(UndoClaim(Collect(ClaimFor(h, req, g), g), req.sub))
  {
    var n := UndoClaim(Collect(ClaimFor(h, req, g), g), req.sub);
    assert req.sub in Owned(ClaimFor(h, req, g), g);
    assert req.sub in n.requeueing && req.sub in n.queue.index;
    assert !SubOk(n, req.sub);
  }

  /** Undoing the claim makes it as if it had never been there. */
  lemma UndoneCollect(h: Hub, req: Request, g: nat, k: nat)
    requires k != g && req.sub !in h.claim && req.sub !in h.running && !Unsent(h, k, req.sub)
    ensures UndoClaim(Collect(ClaimFor(h, req, g), k), req.sub) == Collect(h, k)
  {
    var c := ClaimFor(h, req, g);
    assert Owned(c, k) == Owned(h, k);
    TakenSame(h, c, k, req.sub);
    hide Taken, GradeSubs, Box, Owned;
    assert Box(c, k) == Box(h, k) by { SameBox(h, c, k); }
    Restored(h.running, req.sub, req, Owned(h, k), GradeSubs(Box(h, k)));
    Restored(h.claim, req.sub, g, Owned(h, k), {});
  }

  lemma SameBox(h: Hub, c: Hub, k: nat)
    requires c.outbox == h.outbox
    ensures Box(c, k) == Box(h, k)
  {
  }

  lemma Restored<V>(m: map<nat, V>, s: nat, v: V, a: set<nat>, b: set<nat>)
    requires s !in m
    ensures m[s := v] - a - b - {s} == m - a - b && m[s := v] - a - {s} == m - a
  {
  }

  lemma TakenSame(h: Hub, c: Hub, k: nat, s: nat)
    requires Owned(c, k) == Owned(h, k) && s !in Owned(h, k) && c.outbox == h.outbox && !Unsent(h, k, s)
    requires forall t :: t != s ==> (t in c.running <==> t in h.running)
    requires forall t :: t != s && t in h.running ==> c.running[t] == h.running[t]
    ensures Taken(c, k) == Taken(h, k)
    ensures s !in GradeSubs(Box(h, k))
  {
    hide BoxRequest, Owned;
    assert Taken(c, k).Keys == Taken(h, k).Keys;
  }

  /** A collection that read the claims of its grader earlier. */
  function CollectClaims(h: Hub, g: nat, owned: set<nat>): Hub {
    var box := Box(h, g);
    h.(online := h.online - {g}, outbox := h.outbox - {g}, running := h.running - owned - GradeSubs(box),
       claim := h.claim - owned,
       requeueing := h.requeueing + map s | s in h.running.Keys * owned + GradeSubs(box) ::
         if s in h.running && s in owned then h.running[s] else BoxRequest(box, s))
  }

  /** The other way around: a collection reads the claims before a pass assigns a request, and drains
      the outbox after that. The invariant survives if and only if the request went to another grader:
      otherwise it is to be requeued while its claim stays. */
  lemma CollectAroundAssign(h: Hub, req: Request, g: nat, k: nat)
    requires Inv(h) && req.sub in h.queue.index && req.sub in h.accepted && h.accepted[req.sub] == req && g in h.outbox
    ensures Inv(CollectClaims(Assign(h, req, g), k, Owned(h, k))) <==> k != g
  {
    AssignInv(h, req, g);
    var n := Assign(h, req, g);
    NotUnsentListed(h, req.sub);
    if k == g {
      GradeSubsAppend(Box(h, g), Grade(req));
      DrainedTwice(n, g, Owned(h, g), req.sub);
    } else {
      assert Owned(n, k) == Owned(h, k);
      assert CollectClaims(n, k, Owned(h, k)) == Collect(n, k) by { CollectsOwned(n, k); }
      hide Inv, Collect, CollectClaims, Assign;
      StepInv(n, DoCollect(k));
    }
  }

  lemma CollectsOwned(h: Hub, g: nat)
    ensures CollectClaims(h, g, Owned(h, g)) == Collect(h, g)
  {
    hide BoxRequest, GradeSubs, Owned;
    assert CollectClaims(h, g, Owned(h, g)).requeueing == Collect(h, g).requeueing;
  }

  lemma DrainedTwice(h: Hub, g: nat, owned: set<nat>, s: nat)
    requires s in GradeSubs(Box(h, g)) && s in h.claim && s !in owned
    ensures !Inv(CollectClaims(h, g, owned))
  {
    var n := CollectClaims(h, g, owned);
    assert s in n.requeueing && s in n.claim;
    assert !SubOk(n, s);
  }
}
