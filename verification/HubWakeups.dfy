/** The hub wakes the scheduler whenever there may be something to hand out: a waiting request comes to fit a
    grader only by a step that fills the slot, or one whose thread is about to. */
module HubWakeups {
  import opened Options
  import opened PendingQueue
  import opened Scheduling
  import opened HubModel
  import opened SchedulePass
  import opened HubEffects

  ghost predicate Waits(h: Hub, req: Request) {
    exists i :: 0 <= i < |h.queue.list| && h.queue.list[i].req == req
  }

  /** A waiting request could be handed out to a grader. */
  ghost predicate Fits(h: Hub, req: Request, g: nat) {
    && Waits(h, req) && g in h.online && g in h.outbox
    && |Owned(h, g)| < h.online[g].concurrency && HasTags(h.online[g].tags, req.tags)
  }

  /** The scheduler has been woken, or a thread is about to do so. */
  predicate WakeComing(h: Hub) {
    h.wake || h.dropping != multiset{}
  }

  /** Everything but the scheduler itself, a registration, and a restart, which begins with nothing. */
  predicate Producing(step: Step) {
    !step.DoPass? && !step.DoRegister? && !step.DoRestart?
  }

  /** A grader owns fewer submissions only after a release, or when it is gone. */
  lemma OwnedKept(h: Hub, step: Step, g: nat)
    requires Enabled(h, step) && Producing(step) && !step.DoReleaseClaim? && g in Next(h, step).online
    ensures Owned(Next(h, step), g) == Owned(h, g)
  {
    hide Next, Enabled;
    OnlineAfter(h, step);
    forall s ensures s in Owned(Next(h, step), g) <==> s in Owned(h, g) {
      ClaimsAfter(h, step, s);
    }
  }

  /** A request joins the list only by a push. */
  lemma WaitedBefore(h: Hub, step: Step, req: Request)
    requires Enabled(h, step) && Producing(step) && !step.DoEnqueueGrade? && !step.DoPushRequeued?
    requires Waits(Next(h, step), req)
    ensures Waits(h, req)
  {
    if step.DoCancelPending? {
      RemoveShrinks(h.queue, step.sub, req);
    } else {
      hide Next, Enabled;
      ListAfter(h, step);
    }
  }

  lemma RemoveShrinks(q: Queue, sub: nat, req: Request)
    requires exists k :: 0 <= k < |Remove(q, sub).list| && Remove(q, sub).list[k].req == req
    ensures exists k :: 0 <= k < |q.list| && q.list[k].req == req
  {
    hide Publish, Find, Promote;
    var k :| 0 <= k < |Remove(q, sub).list| && Remove(q, sub).list[k].req == req;
    if sub in q.index && Find(q.list, q.index[sub]) < |q.list| {
      var i := Find(q.list, q.index[sub]);
      assert Remove(q, sub).list[k] == Kept(q.list, i, k);
      assert q.list[if k < i then k else k + 1].req == req;
    }
  }

  /** No producer makes a request fit without a wake-up, in whatever state. */
  lemma NewFitWakes(h: Hub, step: Step, req: Request, g: nat)
    requires Enabled(h, step) && Producing(step)
    requires Fits(Next(h, step), req, g) && !Fits(h, req, g)
    ensures WakeComing(Next(h, step))
    ensures step.DoEnqueueGrade? || step.DoPushRequeued? || step.DoConnect? || step.DoReleaseClaim?
  {
    hide Next, Waits;
    WakeAfter(h, step);
    DroppingAfter(h, step);
    if step.DoReleaseClaim? {
      assert step.sub in Next(h, step).dropping;
    } else if !(step.DoEnqueueGrade? || step.DoPushRequeued? || step.DoConnect?) {
      OnlineAfter(h, step);
      OutboxesAfter(h, step);
      OwnedKept(h, step, g);
      WaitedBefore(h, step, req);
      assert false;
    }
  }

  /** A wake-up that is coming comes: the slot stays full until the scheduler empties it, and a
      finishing thread fills it when it is done. */
  lemma WakeComes(h: Hub, step: Step)
    requires Enabled(h, step) && !step.DoRestart? && WakeComing(h)
    ensures WakeComing(Next(h, step))
    ensures (exists s :: s in h.dropping && Next(h, step).dropping[s] < h.dropping[s]) ==> Next(h, step).wake
  {
    hide Next, Enabled;
    WakeAfter(h, step);
    DroppingAfter(h, step);
  }

  ghost predicate Attended(h: Hub) {
    WakeComing(h) || forall req, g :: !Fits(h, req, g)
  }

  lemma StepAttended(h: Hub, step: Step)
    requires Enabled(h, step) && Producing(step) && Attended(h)
    ensures Attended(Next(h, step))
  {
    hide Next, Enabled, Fits;
    if WakeComing(h) {
      WakeComes(h, step);
    } else {
      hide WakeComing;
      forall req: Request, g: nat | Fits(Next(h, step), req, g) ensures WakeComing(Next(h, step)) {
        NewFitWakes(h, step, req, g);
      }
    }
  }

  /** The part of a run from one state on in which only producers take steps. */
  ghost predicate Production(hs: seq<Hub>, steps: seq<Step>) {
    && |hs| == |steps| + 1
    && (forall i :: 0 <= i < |steps| ==>
          Enabled(hs[i], steps[i]) && Producing(steps[i]) && hs[i + 1] == Next(hs[i], steps[i]))
  }

  /** From a state in which nothing fits, whatever the producers do: as soon as a waiting request fits a
      grader, the slot is full, or a finishing thread is about to fill it. */
  lemma {:induction false} ProductionAttended(hs: seq<Hub>, steps: seq<Step>, i: nat)
    requires Production(hs, steps) && i < |hs| && Attended(hs[0])
    ensures Attended(hs[i])
  {
    hide Next, Enabled, Attended;
    if i > 0 {
      ProductionAttended(hs, steps, i - 1);
      StepAttended(hs[i - 1], steps[i - 1]);
    }
  }

  /** After a pass a waiting request fits only a grader that refused a push. */
  lemma PassServes(h: Hub, accepts: (nat, nat) -> bool, req: Request, g: nat)
    requires Inv(h) && Fits(Pass(h, accepts).0, req, g)
    ensures exists t :: t in h.queue.index && !accepts(t, g)
  {
    var n := Pass(h, accepts).0;
    PassInv(h, accepts);
    WaitingAccepted(n, req);
    hide Inv, Pass;
    PassConservesWork(h, accepts, req.sub, g);
  }

  lemma WaitingAccepted(h: Hub, req: Request)
    requires Inv(h) && Waits(h, req)
    ensures req.sub in h.queue.index && req.sub in h.accepted && h.accepted[req.sub] == req
  {
    hide Core;
  }

  /** A pass whose pushes are all accepted leaves nothing that fits. */
  lemma PassAttended(h: Hub, accepts: (nat, nat) -> bool)
    requires Inv(h) && forall t, k :: accepts(t, k)
    ensures 0 !in h.online && forall req, g :: !Fits(Pass(h, accepts).0, req, g)
  {
    assert 0 !in h.online;
    hide Inv, Pass, Fits;
    forall req: Request, g: nat ensures !Fits(Pass(h, accepts).0, req, g) {
      if Fits(Pass(h, accepts).0, req, g) {
        PassServes(h, accepts, req, g);
        assert false;
      }
    }
  }

  /** So after such a pass, and until the next one, no interleaving of reports, cancels, finishing
      threads, lost graders and new streams makes a waiting request fit without a wake-up. */
  lemma WokenAfterPass(h: Hub, accepts: (nat, nat) -> bool, hs: seq<Hub>, steps: seq<Step>, i: nat)
    requires Inv(h) && 0 !in h.online && (forall t, k :: accepts(t, k)) && i < |hs|
    requires Production(hs, steps) && hs[0] == Pass(h, accepts).0
    ensures WakeComing(hs[i]) || forall req, g :: !Fits(hs[i], req, g)
  {
    PassAttended(h, accepts);
    hide Pass, Inv, Fits, Production;
    ProductionAttended(hs, steps, i);
  }

  /** Registering is what the scheduler is not woken for. It matters exactly when there is an
      outbox already and a waiting request fits it as it is registered now. */
  lemma RegisterFits(h: Hub, g: nat, info: GraderInfo, req: Request)
    ensures Fits(Register(h, g, info), req, g) <==>
            Waits(h, req) && g in h.outbox && |Owned(h, g)| < info.concurrency && HasTags(info.tags, req.tags)
    ensures Register(h, g, info).wake == h.wake && forall k :: k != g ==> Fits(Register(h, g, info), req, k) == Fits(h, req, k)
  {
    var n := Register(h, g, info);
    forall k ensures Owned(n, k) == Owned(h, k) {}
  }
}
