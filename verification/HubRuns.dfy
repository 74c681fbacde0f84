/** Whole runs of the hub: the invariant holds in every state of a run exactly when its callers are
    orderly, and a restart at any point recovers everything. */
module HubRuns {
  import opened Options
  import opened PendingQueue
  import opened Scheduling
  import opened HubModel
  import opened SubmissionStatus
  import opened HubInvariant
  import opened SchedulePass

  lemma WriteMarkerInv(h: Hub, req: Request)
    requires Inv(h)
    ensures Inv(WriteMarker(h, req)) <==> Orderly(h, DoWriteMarker(req))
  {
    if Orderly(h, DoWriteMarker(req)) {
      WriteMarkerKeeps(h, req);
      assert req.sub !in h.queue.index;
    } else {
      WriteMarkerBreaks(h, req);
    }
  }

  /** A step that leaves the list and the history alone. */
  lemma ListUntouched(h: Hub, n: Hub)
    requires Inv(h) && SameList(h, n)
    ensures Core(h) && (Inv(n) <==> Core(n))
  {
  }

  ghost predicate Quiet(step: Step) {
    !(step.DoWriteMarker? || step.DoEnqueueGrade? || step.DoCancelPending? || step.DoPushRequeued? || step.DoPass? || step.DoRestart?)
  }

  lemma QuietStepCore(h: Hub, step: Step)
    requires Core(h) && Enabled(h, step) && Quiet(step)
    ensures Core(Next(h, step)) <==> Orderly(h, step)
    ensures SameList(h, Next(h, step))
  {
    hide Core, SameList, Live, Bound, WriteQueued, Report, WriteBrief, DeleteMarker, ReleaseClaim, DropRunning, FinaliseCancelled;
    hide CancelLookup, CancelAsk, Collect, TestRequeue, Register;
    match step
    case DoWriteQueued(s) => WriteQueuedKeeps(h, s);
    case DoReport(g, s, report) => ReportKeeps(h, g, s, report);
    case DoWriteBrief(s, status) => WriteBriefKeeps(h, s, status);
    case DoDeleteMarker(s) => DeleteMarkerKeeps(h, s);
    case DoReleaseClaim(s) => ReleaseClaimKeeps(h, s);
    case DoDropRunning(s) => DropRunningKeeps(h, s);
    case DoFinaliseCancelled(s) => FinaliseCancelledKeeps(h, s);
    case DoCancelMiss(s) => NotedKeeps(h, CancelMiss(h, s));
    case DoCancelLookup(s) => CancelLookupKeeps(h, s);
    case DoCancelAsk(s, g) => CancelAskKeeps(h, s, g);
    case DoCollect(g) => CollectKeeps(h, g);
    case DoTestRequeue(s) => TestRequeueKeeps(h, s);
    case DoSendRequests(g) => EmptiedKeeps(h, SendRequests(h, g), g);
    case DoConnect(g) => EmptiedKeeps(h, Connect(h, g), g);
    case DoRegister(g, info) => RegisterKeeps(h, g, info);
  }

  lemma OtherStepInv(h: Hub, step: Step)
    requires Inv(h) && Enabled(h, step) && !Quiet(step)
    ensures Inv(Next(h, step)) <==> Orderly(h, step)
  {
    hide Inv, Places, Finishing, Unsent, WriteMarker, EnqueueGrade, CancelPending, PushRequeued, Pass, Restart;
    match step
    case DoWriteMarker(req) => WriteMarkerInv(h, req);
    case DoEnqueueGrade(s) => EnqueueGradeInv(h, s);
    case DoCancelPending(s) => CancelPendingInv(h, s);
    case DoPushRequeued(s) => PushRequeuedInv(h, s);
    case DoPass(accepts) => PassInv(h, accepts);
    case DoRestart => RestartInv(h);
  }

  /** The exact condition: an enabled step keeps the invariant if and only if it is orderly. */
  lemma StepInv(h: Hub, step: Step)
    requires Inv(h) && Enabled(h, step)
    ensures Inv(Next(h, step)) <==> Orderly(h, step)
  {
    hide Inv, Core, Orderly, Next, Quiet;
    if Quiet(step) {
      ListUntouched(h, h);
      QuietStepCore(h, step);
      ListUntouched(h, Next(h, step));
    } else {
      OtherStepInv(h, step);
    }
  }

  // ---------- Runs ----------

  ghost predicate IsRun(hs: seq<Hub>, steps: seq<Step>) {
    && |hs| == |steps| + 1 && hs[0] == INITIAL
    && (forall i :: 0 <= i < |steps| ==> Enabled(hs[i], steps[i]) && hs[i + 1] == Next(hs[i], steps[i]))
  }

  ghost predicate Reachable(h: Hub) {
    exists hs: seq<Hub>, steps: seq<Step> :: IsRun(hs, steps) && hs[|steps|] == h
  }

  lemma ReachNext(h: Hub, step: Step)
    requires Reachable(h) && Enabled(h, step)
    ensures Reachable(Next(h, step))
  {
    hide Next, Enabled;
    var hs: seq<Hub>, steps: seq<Step> :| IsRun(hs, steps) && hs[|steps|] == h;
    var hs', steps' := hs + [Next(h, step)], steps + [step];
    forall i | 0 <= i < |steps'| ensures Enabled(hs'[i], steps'[i]) && hs'[i + 1] == Next(hs'[i], steps'[i]) {
      if i < |steps| {
        assert hs'[i] == hs[i] && hs'[i + 1] == hs[i + 1] && steps'[i] == steps[i];
      }
    }
    assert IsRun(hs', steps') && hs'[|steps'|] == Next(h, step);
  }

  lemma ReachInitial()
    ensures Reachable(INITIAL)
  {
    var hs, steps: seq<Step> := [INITIAL], [];
    assert IsRun(hs, steps) && hs[|steps|] == INITIAL;
  }

  /** The invariant holds throughout a run if and only if every step of the run is orderly. */
  lemma RunInv(hs: seq<Hub>, steps: seq<Step>)
    requires IsRun(hs, steps)
    ensures (forall i :: 0 <= i < |hs| ==> Inv(hs[i])) <==> (forall i :: 0 <= i < |steps| ==> Orderly(hs[i], steps[i]))
  {
    hide Inv, Orderly, Next;
    if forall i :: 0 <= i < |steps| ==> Orderly(hs[i], steps[i]) {
      forall i | 0 <= i < |hs| ensures Inv(hs[i]) {
        OrderlyRunInv(hs, steps, i);
      }
    }
    if forall i :: 0 <= i < |hs| ==> Inv(hs[i]) {
      forall i | 0 <= i < |steps| ensures Orderly(hs[i], steps[i]) {
        assert hs[i + 1] == Next(hs[i], steps[i]);
        StepInv(hs[i], steps[i]);
      }
    }
  }

  lemma {:induction false} OrderlyRunInv(hs: seq<Hub>, steps: seq<Step>, i: nat)
    requires IsRun(hs, steps) && i < |hs|
    requires forall i :: 0 <= i < |steps| ==> Orderly(hs[i], steps[i])
    ensures Inv(hs[i])
  {
    hide Inv, Orderly, Next;
    if i == 0 {
      InitialInv();
    } else {
      OrderlyRunInv(hs, steps, i - 1);
      StepInv(hs[i - 1], steps[i - 1]);
    }
  }

  /** Nothing is lost and nothing is queued twice. In every state of an orderly run, a submission whose
      brief is not terminal is in exactly one place and has its marker; one that is terminal and has no
      thread at work on it is not waiting, not running, and without a marker; the running submissions
      are the claimed ones and those a finishing thread is about to remove, none of which waits; and the
      waiting ones are listed once each, in the order of their last push, with their exact and last
      published rank. */
  lemma NothingLostOrDuplicated(hs: seq<Hub>, steps: seq<Step>, i: nat, s: nat)
    requires IsRun(hs, steps) && i < |hs|
    requires forall i :: 0 <= i < |steps| ==> Orderly(hs[i], steps[i])
    ensures var h := hs[i];
            && (Live(h, s) ==> Places(h, s) == 1 && s in h.unfinished)
            && (s in h.brief && !Live(h, s) && !Finishing(h, s) ==>
                  s !in h.queue.index && s !in h.running && (s in h.unfinished ==> s in h.arriving))
            && (s in h.claim ==> s in h.running && s !in h.dropping)
            && (s in h.running ==> s !in h.queue.index && (s in h.claim || s in h.dropping))
            && (s in h.queue.index <==> exists k :: 0 <= k < |h.queue.list| && h.queue.list[k].req.sub == s)
            && (forall k :: 0 <= k < |h.queue.list| && h.queue.list[k].req.sub == s ==>
                  h.queue.list[k].rank == k + 1 && s in h.queue.published && h.queue.published[s] == k + 1)
            && Distinct(h.queue.list) && Ordered(h.queue.list)
  {
    hide Orderly, Next;
    var h := hs[i];
    OrderlyRunInv(hs, steps, i);
    hide Listed;
    assert SubOk(h, s);
    SubsDistinct(h.queue);
    if s in h.queue.index {
      assert h.queue.list[Find(h.queue.list, h.queue.index[s])].req.sub == s;
    }
  }

  // ---------- Restart ----------

  /** A marked submission is run on: the brief, the push, and the brief of the push. */
  function RunOn(h: Hub, s: nat): Hub
    requires s in h.accepted
  {
    WriteBrief(EnqueueGrade(WriteQueued(h, s), s), h.accepted[s].sub, Queued)
  }

  /** Running every submission that arrives, in some order. */
  function EnqueueAll(h: Hub, subs: seq<nat>): Hub
    requires forall i :: 0 <= i < |subs| ==> subs[i] in h.accepted
    decreases |subs|
  {
    if subs == [] then h else EnqueueAll(RunOn(h, subs[0]), subs[1..])
  }

  /** A push is followed by its brief. */
  lemma BriefOfPush(h: Hub, s: nat)
    requires Inv(h) && Live(h, s)
    ensures Inv(WriteBrief(h, s, Queued)) && WriteBrief(h, s, Queued).queue == h.queue
  {
    ListUntouched(h, h);
    WriteBriefKeeps(h, s, Queued);
    hide Inv, Core, Live;
    ListUntouched(h, WriteBrief(h, s, Queued));
  }

  /** One of them. */
  lemma EnqueueOne(h: Hub, s: nat)
    requires Inv(h) && s in h.arriving && s in h.accepted
    ensures var n := RunOn(h, s);
            && Inv(n) && n.unfinished == h.unfinished && n.accepted == h.accepted
            && n.queue.index.Keys == h.queue.index.Keys + {s}
            && (forall t :: t != s && t in h.arriving ==> t in n.arriving)
  {
    assert h.accepted[s].sub == s by { assert SubOk(h, s); }
    hide Inv, Core;
    ListUntouched(h, WriteQueued(h, s));
    WriteQueuedKeeps(h, s);
    EnqueueGradeInv(WriteQueued(h, s), s);
    BriefOfPush(EnqueueGrade(WriteQueued(h, s), s), s);
  }

  /** The submissions in a sequence. */
  function Subs(subs: seq<nat>): (r: set<nat>)
    ensures forall s :: s in r <==> s in subs
  {
    set s | s in subs
  }

  lemma {:induction false} EnqueueAllQueues(h: Hub, subs: seq<nat>)
    requires Inv(h) && forall i, j :: 0 <= i < j < |subs| ==> subs[i] != subs[j]
    requires forall i :: 0 <= i < |subs| ==> subs[i] in h.arriving && subs[i] in h.accepted
    ensures var n := EnqueueAll(h, subs);
            && Inv(n) && n.unfinished == h.unfinished
            && n.queue.index.Keys == h.queue.index.Keys + Subs(subs)
    decreases |subs|
  {
    hide Inv, RunOn;
    if subs != [] {
      EnqueueOne(h, subs[0]);
      var n := RunOn(h, subs[0]);
      var rest := subs[1..];
      assert subs == [subs[0]] + rest;
      EnqueueAllQueues(n, rest);
      assert Subs(subs) == {subs[0]} + Subs(rest);
    }
  }

  lemma RestartInvariant(h: Hub)
    requires Inv(h)
    ensures Inv(Restart(h))
    ensures forall s :: Live(h, s) ==> s in h.unfinished
    ensures forall s :: s in h.unfinished ==> s in h.accepted
  {
    RestartInv(h);
    forall s ensures (Live(h, s) ==> s in h.unfinished) && (s in h.unfinished ==> s in h.accepted) {
      assert SubOk(h, s);
    }
  }

  /** A crash between any two writes loses nothing: after the restart no claim is left, every
      submission that was live is marked, and once every marked submission has been run again, in
      whatever order, exactly those wait on the list and the invariant holds. */
  lemma RestartRecovers(h: Hub, order: seq<nat>)
    requires Inv(h)
    requires forall i, j :: 0 <= i < j < |order| ==> order[i] != order[j]
    requires Subs(order) == h.unfinished
    ensures Inv(Restart(h)) && Restart(h).claim == map[]
    ensures forall s :: Live(h, s) ==> s in order
    ensures forall i :: 0 <= i < |order| ==> order[i] in Restart(h).accepted
    ensures var n := EnqueueAll(Restart(h), order);
            && Inv(n) && n.unfinished == h.unfinished
            && n.queue.index.Keys == h.unfinished
  {
    hide Inv, EnqueueAll;
    RestartInvariant(h);
    assert forall i :: 0 <= i < |order| ==> order[i] in h.unfinished;
    EnqueueAllQueues(Restart(h), order);
  }
}
