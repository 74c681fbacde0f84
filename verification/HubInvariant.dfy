/** Which steps of the hub keep its invariant: all of them, as long as its callers are orderly, and
    exactly then. */
module HubInvariant {
  import opened Options
  import opened PendingQueue
  import opened Scheduling
  import opened HubModel
  import opened SubmissionStatus

  lemma InitialInv()
    ensures Inv(INITIAL)
  {
  }

  // ---------- The steps that leave the list alone ----------

  predicate SameList(h: Hub, n: Hub) {
    n.queue == h.queue && n.accepted == h.accepted
  }

  /** Outboxes that hold no more than before, and the same history. */
  lemma BoxesShrink(h: Hub, n: Hub)
    requires Core(h) && n.accepted == h.accepted && n.outbox.Keys <= h.outbox.Keys
    requires forall g :: g in n.outbox ==> n.outbox[g] == h.outbox[g]
    ensures forall g, s :: Unsent(n, g, s) ==> Unsent(h, g, s)
    ensures forall g, g', s :: SoleBox(n, g, g', s)
    ensures forall g, req :: RequestOk(n, g, req)
  {
    forall g, g', s ensures SoleBox(n, g, g', s) { assert SoleBox(h, g, g', s); }
    forall g, req ensures RequestOk(n, g, req) { assert RequestOk(h, g, req); }
  }

  /** A submission that has a place but no owner is in no outbox. */
  lemma NotUnsent(h: Hub, s: nat)
    requires Core(h) && s !in h.claim && Places(h, s) > 0
    ensures forall g :: !Unsent(h, g, s)
  {
    forall g ensures !Unsent(h, g, s) { assert BoxOk(h, g, s); }
  }

  /** Outboxes and the places of submissions are as before. */
  lemma BoxesKept(h: Hub, n: Hub)
    requires Core(h) && n.accepted == h.accepted && n.outbox == h.outbox && n.claim == h.claim
    requires forall s :: s !in h.claim && s in h.brief && !Live(h, s) && Places(h, s) == 0 ==>
      s in n.brief && !Live(n, s) && Places(n, s) == 0
    ensures forall g, s :: BoxOk(n, g, s)
    ensures forall g, g', s :: SoleBox(n, g, g', s)
    ensures forall g, req :: RequestOk(n, g, req)
  {
    hide Live, Places;
    BoxesShrink(h, n);
    forall g, s ensures BoxOk(n, g, s) { assert BoxOk(h, g, s); }
  }

  lemma WriteMarkerKeeps(h: Hub, req: Request)
    requires Core(h) && Orderly(h, DoWriteMarker(req))
    ensures Core(WriteMarker(h, req))
  {
    var n := WriteMarker(h, req);
    forall t ensures SubOk(n, t) { assert SubOk(h, t); }
    forall g, t ensures BoxOk(n, g, t) { assert BoxOk(h, g, t); assert !Unsent(h, g, req.sub); }
    forall g, g', t ensures SoleBox(n, g, g', t) { assert SoleBox(h, g, g', t); }
    forall g, r ensures RequestOk(n, g, r) { assert RequestOk(h, g, r); assert !Unsent(h, g, req.sub); }
  }

  lemma WriteMarkerBreaks(h: Hub, req: Request)
    requires Core(h) && !Orderly(h, DoWriteMarker(req))
    ensures !Core(WriteMarker(h, req))
  {
    var n := WriteMarker(h, req);
    var s := req.sub;
    assert Places(n, s) == Places(h, s) + 1;
    if Places(h, s) == 0 && !Finishing(h, s) {
      var g :| Unsent(h, g, s);
      assert SubOk(h, s);
      assert !BoxOk(n, g, s);
    } else {
      assert !SubOk(n, s);
    }
  }

  lemma WriteQueuedKeeps(h: Hub, s: nat)
    requires Core(h) && s in h.arriving
    ensures Core(WriteQueued(h, s))
    ensures SameList(h, WriteQueued(h, s))
  {
    var n := WriteQueued(h, s);
    assert SubOk(h, s);
    forall t ensures SubOk(n, t) { assert SubOk(h, t); }
    BoxesKept(h, n);
  }

  /** A thread takes note of what it is going to do. */
  lemma NotedKeeps(h: Hub, n: Hub)
    requires Core(h) && n == h.(writes := n.writes, cancels := n.cancels)
    ensures Core(n)
    ensures SameList(h, n)
  {
    forall t ensures SubOk(n, t) { assert SubOk(h, t); }
    BoxesKept(h, n);
  }

  lemma ReportKeeps(h: Hub, g: nat, s: nat, report: Option<Status>)
    requires Core(h)
    ensures Core(Report(h, g, s, report))
    ensures SameList(h, Report(h, g, s, report))
  {
    hide Core, SameList;
    NotedKeeps(h, Report(h, g, s, report));
  }

  lemma TerminalBriefKeeps(h: Hub, n: Hub, s: nat)
    requires Core(h) && !Bound(h, s) && s !in h.arriving
    requires n == h.(brief := n.brief, unmarking := h.unmarking + multiset{s})
    requires s in n.brief && Terminal(n.brief[s]) && n.brief == h.brief[s := n.brief[s]]
    ensures Core(n)
  {
    forall t ensures SubOk(n, t) { assert SubOk(h, t); }
    BoxesKept(h, n);
  }

  lemma TerminalBriefBreaks(h: Hub, n: Hub, s: nat)
    requires Bound(h, s) || s in h.arriving
    requires n == h.(brief := n.brief, unmarking := h.unmarking + multiset{s})
    requires s in n.brief && Terminal(n.brief[s])
    ensures !Core(n)
  {
    assert !SubOk(n, s);
  }

  /** The exact condition for a terminal brief. */
  lemma TerminalBrief(h: Hub, s: nat, status: Status)
    requires Core(h) && Terminal(status)
    ensures Core(SetBrief(h, s, status)) <==> !Bound(h, s) && s !in h.arriving
    ensures SameList(h, SetBrief(h, s, status))
  {
    hide Core, Bound;
    if Bound(h, s) || s in h.arriving {
      TerminalBriefBreaks(h, SetBrief(h, s, status), s);
    } else {
      TerminalBriefKeeps(h, SetBrief(h, s, status), s);
    }
  }

  /** The exact condition for any other brief. */
  lemma OpenBrief(h: Hub, s: nat, status: Status)
    requires Core(h) && !Terminal(status)
    ensures Core(SetBrief(h, s, status)) <==> Live(h, s) || s in h.arriving
    ensures SameList(h, SetBrief(h, s, status))
  {
    var n := SetBrief(h, s, status);
    assert SubOk(h, s);
    if Live(h, s) || s in h.arriving {
      forall t ensures SubOk(n, t) { assert SubOk(h, t); }
      BoxesKept(h, n);
    } else {
      assert !SubOk(n, s);
    }
  }

  /** A brief that a thread has decided on keeps the invariant if and only if its write is orderly. */
  lemma WriteBriefKeeps(h: Hub, s: nat, status: Status)
    requires Core(h)
    ensures Core(WriteBrief(h, s, status)) <==> Orderly(h, DoWriteBrief(s, status))
    ensures SameList(h, WriteBrief(h, s, status))
  {
    var rest := h.(writes := h.writes - multiset{(s, status)});
    NotedKeeps(h, rest);
    hide Core, SetBrief;
    if Terminal(status) {
      TerminalBrief(rest, s, status);
    } else {
      OpenBrief(rest, s, status);
    }
  }

  lemma DeleteMarkerKeeps(h: Hub, s: nat)
    requires Core(h) && s in h.unmarking
    ensures Core(DeleteMarker(h, s))
    ensures SameList(h, DeleteMarker(h, s))
  {
    var n := DeleteMarker(h, s);
    forall t ensures SubOk(n, t) { assert SubOk(h, t); }
    BoxesKept(h, n);
  }

  lemma ReleaseClaimKeeps(h: Hub, s: nat)
    requires Core(h) && s in h.releasing
    ensures Core(ReleaseClaim(h, s))
    ensures SameList(h, ReleaseClaim(h, s))
  {
    var n := ReleaseClaim(h, s);
    forall t ensures SubOk(n, t) { assert SubOk(h, t); }
    forall g, t ensures BoxOk(n, g, t) { assert SubOk(h, t); assert BoxOk(h, g, t); }
    BoxesShrink(h, n);
  }

  lemma DropRunningKeeps(h: Hub, s: nat)
    requires Core(h) && s in h.dropping
    ensures Core(DropRunning(h, s))
    ensures SameList(h, DropRunning(h, s))
  {
    var n := DropRunning(h, s);
    forall t ensures SubOk(n, t) { assert SubOk(h, t); }
    BoxesKept(h, n);
  }

  lemma FinaliseCancelledKeeps(h: Hub, s: nat)
    requires Core(h) && s in h.cancelling
    ensures Core(FinaliseCancelled(h, s))
    ensures SameList(h, FinaliseCancelled(h, s))
  {
    var n := FinaliseCancelled(h, s);
    assert SubOk(h, s);
    forall t ensures SubOk(n, t) { assert SubOk(h, t); }
    BoxesKept(h, n);
  }

  lemma GradeSubsAppend(items: seq<Item>, item: Item)
    ensures GradeSubs(items + [item]) == GradeSubs(items) + if item.Grade? then {item.req.sub} else {}
  {
    var all := items + [item];
    forall s | s in GradeSubs(items) ensures s in GradeSubs(all) {
      var i :| 0 <= i < |items| && items[i].Grade? && items[i].req.sub == s;
      assert all[i] == items[i];
    }
    assert all[|items|] == item;
  }

  lemma CancelLookupKeeps(h: Hub, s: nat)
    requires Core(h)
    ensures Core(CancelLookup(h, s))
    ensures SameList(h, CancelLookup(h, s))
  {
    hide Core, SameList;
    var n := CancelLookup(h, s);
    if s in h.claim {
      NotedKeeps(h, n);
    } else {
      NotedKeeps(h, n);
    }
  }

  /** Asking the owner to stop, or what was the owner at the look-up. */
  lemma CancelAskKeeps(h: Hub, s: nat, g: nat)
    requires Core(h)
    ensures Core(CancelAsk(h, s, g))
    ensures SameList(h, CancelAsk(h, s, g))
  {
    if g in h.outbox {
      AskedKeeps(h, CancelAsk(h, s, g), s, g);
    } else {
      NotedKeeps(h, CancelAsk(h, s, g));
    }
  }

  lemma AskedKeeps(h: Hub, n: Hub, s: nat, g: nat)
    requires Core(h) && g in h.outbox
    requires n == h.(outbox := h.outbox[g := h.outbox[g] + [CancelGrading(s)]], cancels := n.cancels, writes := n.writes)
    ensures Core(n)
  {
    GradeSubsAppend(h.outbox[g], CancelGrading(s));
    forall t ensures SubOk(n, t) { assert SubOk(h, t); }
    forall g', t ensures BoxOk(n, g', t) { assert BoxOk(h, g', t); }
    forall g', g'', t ensures SoleBox(n, g', g'', t) { assert SoleBox(h, g', g'', t); }
    forall g', r ensures RequestOk(n, g', r) { assert RequestOk(h, g', r); }
  }

  lemma CollectedOnce(h: Hub, g: nat)
    requires Core(h)
    ensures forall t :: SubOk(Collect(h, g), t)
  {
    var n := Collect(h, g);
    var box := GradeSubs(Box(h, g));
    forall t ensures SubOk(n, t) {
      assert SubOk(h, t);
      assert BoxOk(h, g, t);
      if t in box { assert Unsent(h, g, t); assert RequestOk(h, g, BoxRequest(Box(h, g), t)); }
    }
  }

  lemma CollectedBoxes(h: Hub, g: nat)
    requires Core(h)
    ensures forall g', t :: BoxOk(Collect(h, g), g', t)
  {
    var n := Collect(h, g);
    var box := GradeSubs(Box(h, g));
    forall g', t ensures BoxOk(n, g', t) {
      assert SubOk(h, t);
      assert BoxOk(h, g', t) && BoxOk(h, g, t);
      assert SoleBox(h, g, g', t);
      if t in box { assert Unsent(h, g, t); }
    }
  }

  lemma CollectKeeps(h: Hub, g: nat)
    requires Core(h)
    ensures Core(Collect(h, g))
    ensures SameList(h, Collect(h, g))
  {
    CollectedOnce(h, g);
    CollectedBoxes(h, g);
    BoxesShrink(h, Collect(h, g));
    hide SubOk, BoxOk, SoleBox, RequestOk, Taken;
  }

  /** An outbox is drained, or replaced by a new one. */
  lemma EmptiedKeeps(h: Hub, n: Hub, g: nat)
    requires Core(h) && n == h.(outbox := h.outbox[g := []], wake := n.wake)
    ensures Core(n)
    ensures SameList(h, n)
  {
    forall t ensures SubOk(n, t) { assert SubOk(h, t); }
    forall g', t ensures BoxOk(n, g', t) { assert BoxOk(h, g', t); }
    forall g', g'', t ensures SoleBox(n, g', g'', t) { assert SoleBox(h, g', g'', t); }
    forall g', r ensures RequestOk(n, g', r) { assert RequestOk(h, g', r); }
  }

  lemma RegisterKeeps(h: Hub, g: nat, info: GraderInfo)
    requires Core(h) && g != 0
    ensures Core(Register(h, g, info))
    ensures SameList(h, Register(h, g, info))
  {
    var n := Register(h, g, info);
    forall t ensures SubOk(n, t) { assert SubOk(h, t); }
    forall g', t ensures BoxOk(n, g', t) { assert BoxOk(h, g', t); }
    BoxesShrink(h, n);
  }

  // ---------- The steps that change the list ----------

  /** A submission that was about to be pushed joins the list. */
  lemma PushedKeeps(h: Hub, n: Hub, req: Request)
    requires Core(h) && Live(h, req.sub)
    requires req.sub in h.accepted && h.accepted[req.sub] == req
    requires n == h.(queue := n.queue, wake := n.wake, writes := n.writes, ready := n.ready, cleared := n.cleared)
    requires n.queue.index.Keys == h.queue.index.Keys + {req.sub}
    requires || (req.sub in h.ready && n.ready == h.ready - multiset{req.sub} && n.cleared == h.cleared)
             || (req.sub in h.cleared && n.ready == h.ready && n.cleared == h.cleared - {req.sub})
    ensures Core(n)
  {
    assert SubOk(h, req.sub);
    forall t ensures SubOk(n, t) { assert SubOk(h, t); }
    BoxesKept(h, n);
  }

  lemma EnqueueGradeInv(h: Hub, s: nat)
    requires Inv(h) && s in h.ready && s in h.accepted
    ensures Inv(EnqueueGrade(h, s))
  {
    assert SubOk(h, s);
    PushedKeeps(h, EnqueueGrade(h, s), h.accepted[s]);
    PushOk(h.queue, h.accepted[s]);
  }

  lemma PushRequeuedInv(h: Hub, s: nat)
    requires Inv(h) && s in h.cleared
    ensures Inv(PushRequeued(h, s))
  {
    assert SubOk(h, s);
    PushedKeeps(h, PushRequeued(h, s), h.cleared[s]);
    PushOk(h.queue, h.cleared[s]);
  }

  lemma ClearedKeeps(h: Hub, n: Hub, s: nat)
    requires Core(h) && s in h.requeueing && Live(h, s)
    requires n == h.(requeueing := h.requeueing - {s}, cleared := h.cleared[s := h.requeueing[s]])
    ensures Core(n)
  {
    assert SubOk(h, s);
    forall t ensures SubOk(n, t) { assert SubOk(h, t); }
    BoxesKept(h, n);
  }

  lemma ForgottenKeeps(h: Hub, n: Hub, s: nat)
    requires Core(h) && s in h.requeueing && !Live(h, s)
    requires n == h.(requeueing := h.requeueing - {s})
    ensures Core(n)
  {
    forall t ensures SubOk(n, t) { assert SubOk(h, t); }
    BoxesKept(h, n);
  }

  lemma RequeueingNamed(h: Hub, s: nat)
    requires Core(h) && s in h.requeueing
    ensures s in h.brief && h.requeueing[s].sub == s
  {
    assert SubOk(h, s);
  }

  lemma TestRequeueKeeps(h: Hub, s: nat)
    requires Core(h) && s in h.requeueing
    ensures Core(TestRequeue(h, s))
    ensures SameList(h, TestRequeue(h, s))
  {
    RequeueingNamed(h, s);
    hide Core;
    if Live(h, s) {
      ClearedKeeps(h, TestRequeue(h, s), s);
    } else {
      ForgottenKeeps(h, TestRequeue(h, s), s);
    }
  }

  lemma CancelPendingKeeps(h: Hub, n: Hub, s: nat)
    requires Core(h) && s in h.queue.index && n.queue.index == h.queue.index - {s}
    requires n == h.(queue := n.queue, cancelling := h.cancelling + multiset{s})
    ensures Core(n)
  {
    forall t ensures SubOk(n, t) { assert SubOk(h, t); }
    assert SubOk(h, s);
    NotUnsent(h, s);
    forall g, t ensures BoxOk(n, g, t) { assert BoxOk(h, g, t); assert !Unsent(h, g, s); }
    BoxesShrink(h, n);
  }

  lemma CancelPendingInv(h: Hub, s: nat)
    requires Inv(h) && s in h.queue.index
    ensures Inv(CancelPending(h, s))
  {
    RemoveOk(h.queue, s);
    CancelPendingKeeps(h, CancelPending(h, s), s);
  }

  /** The places of submissions after an assignment. */
  lemma AssignedOnce(h: Hub, n: Hub, req: Request, g: nat)
    requires Core(h) && req.sub in h.queue.index
    requires req.sub in h.accepted && h.accepted[req.sub] == req
    requires n.queue.index == h.queue.index - {req.sub}
    requires n == h.(queue := n.queue, outbox := n.outbox, running := h.running[req.sub := req], claim := h.claim[req.sub := g])
    ensures forall t :: SubOk(n, t)
  {
    assert SubOk(h, req.sub);
    forall t ensures SubOk(n, t) { assert SubOk(h, t); }
  }

  /** The outboxes after one. */
  lemma AssignedBoxes(h: Hub, n: Hub, req: Request, g: nat)
    requires Core(h) && req.sub in h.queue.index && g in h.outbox
    requires req.sub in h.accepted && h.accepted[req.sub] == req
    requires n == Assign(h, req, g).(queue := n.queue) && n.queue.index == h.queue.index - {req.sub}
    ensures forall g', t :: BoxOk(n, g', t)
    ensures forall g', g'', t :: SoleBox(n, g', g'', t)
    ensures forall g', r :: RequestOk(n, g', r)
  {
    var s := req.sub;
    assert SubOk(h, s);
    NotUnsent(h, s);
    GradeSubsAppend(h.outbox[g], Grade(req));
    hide SubOk;
    forall g', t ensures BoxOk(n, g', t) { assert BoxOk(h, g', t); assert !Unsent(h, g', s); }
    forall g', g'', t ensures SoleBox(n, g', g'', t) {
      assert SoleBox(h, g', g'', t);
      assert !Unsent(h, g', s) && !Unsent(h, g'', s);
    }
    forall g', r ensures RequestOk(n, g', r) { assert RequestOk(h, g', r); }
  }

  lemma AssignKeeps(h: Hub, n: Hub, req: Request, g: nat)
    requires Core(h) && req.sub in h.queue.index && g in h.outbox
    requires req.sub in h.accepted && h.accepted[req.sub] == req
    requires n.queue.index == h.queue.index - {req.sub} && n == Assign(h, req, g).(queue := n.queue)
    ensures Core(n)
  {
    AssignedOnce(h, n, req, g);
    AssignedBoxes(h, n, req, g);
    hide SubOk, BoxOk, SoleBox, RequestOk;
  }

  lemma AssignInv(h: Hub, req: Request, g: nat)
    requires Inv(h) && req.sub in h.queue.index && g in h.outbox
    requires req.sub in h.accepted && h.accepted[req.sub] == req
    ensures Inv(Assign(h, req, g))
  {
    RemoveOk(h.queue, req.sub);
    AssignKeeps(h, Assign(h, req, g), req, g);
  }

  lemma RestartInv(h: Hub)
    requires Inv(h)
    ensures Inv(Restart(h))
  {
    var n := Restart(h);
    forall t ensures SubOk(n, t) { assert SubOk(h, t); }
  }
}
