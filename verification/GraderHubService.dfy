/** The hub object: every method changes the hub's state exactly as a step, or a sequence of steps, of
    the transition system says. */
module GraderHubService {
  import opened Options
  import opened PendingQueue
  import opened Scheduling
  import opened HubModel
  import opened SubmissionStatus
  import opened HubInvariant
  import opened SchedulePass
  import opened HubRuns
  import opened HubWakeups

  /** The outbox of one grader. What was accepted is drained once, in order. */
  class GradeRequestQueue {
    var requests: seq<Item>
    var closed: bool
    ghost var accepted: seq<Item>
    ghost var drained: seq<Item>

    ghost predicate Valid() reads this {
      drained + requests == accepted
    }

    constructor ()
      ensures Valid() && requests == [] && !closed && accepted == []
    {
      requests, closed, accepted, drained := [], false, [], [];
    }

    method Close()
      requires Valid()
      modifies `closed
      ensures Valid() && closed
    {
      closed := true;
    }

    method Push(item: Item) returns (ok: bool)
      requires Valid()
      modifies `requests, `accepted
      ensures Valid() && ok == !closed
      ensures accepted == if ok then old(accepted) + [item] else old(accepted)
      ensures !ok ==> requests == old(requests)
    {
      if closed {
        return false;
      }
      requests := requests + [item];
      accepted := accepted + [item];
      return true;
    }

    method Drain() returns (items: seq<Item>)
      requires Valid()
      modifies `requests, `drained
      ensures Valid() && items == old(requests) && requests == [] && drained == accepted
    {
      items := requests;
      drained := drained + requests;
      requests := [];
    }
  }

  lemma {:induction false} PublishAppend(published: map<nat, int>, list: seq<Entry>, e: Entry)
    ensures Publish(published, list + [e]) == Publish(published, list)[e.req.sub := e.rank]
    decreases |list|
  {
    if list != [] {
      assert (list + [e])[1..] == list[1..] + [e];
      PublishAppend(published[list[0].req.sub := list[0].rank], list[1..], e);
    }
  }

  /** A list with the entries from behind position `i` up to `p` promoted. */
  ghost function Promoted(list: seq<Entry>, i: nat, p: nat): (r: seq<Entry>)
    requires i < p <= |list|
    ensures |r| == |list|
  {
    list[..i + 1] + Promote(list[i + 1..p]) + list[p..]
  }

  lemma PromoteStep(list: seq<Entry>, i: nat, p: nat)
    requires i < p < |list|
    ensures var e := list[p].(rank := list[p].rank - 1);
            && Promoted(list, i, p)[p] == list[p]
            && Promoted(list, i, p)[p := e] == Promoted(list, i, p + 1)
            && Promote(list[i + 1..p + 1]) == Promote(list[i + 1..p]) + [e]
  {
    assert list[i + 1..p + 1] == list[i + 1..p] + [list[p]];
  }

  /** Several requeue steps, in order. */
  function RequeueAll(h: Hub, subs: seq<nat>): Hub
    decreases |subs|
  {
    if subs == [] || subs[0] !in h.requeueing then h else RequeueAll(Requeue(h, subs[0]), subs[1..])
  }

  /** Where the hub's threads are between two of their steps, and what was submitted. */
  datatype Threads = Threads(
    arriving: multiset<nat>,
    ready: multiset<nat>,
    requeueing: map<nat, Request>,
    cleared: map<nat, Request>,
    cancelling: multiset<nat>,
    cancels: multiset<Cancel>,
    writes: multiset<(nat, Status)>,
    unmarking: multiset<nat>,
    releasing: multiset<nat>,
    dropping: multiset<nat>,
    accepted: map<nat, Request>)

  // ---------- What one thread does without an interruption ----------

  /** A push and its Queued brief. */
  function Queues(h: Hub, req: Request): Hub {
    WriteBrief(QueueGradeRequest(h, req), req.sub, Queued)
  }

  /** A collected submission is queued again, unless it is over. */
  function Requeue(h: Hub, s: nat): Hub
    requires s in h.requeueing
  {
    var tested := TestRequeue(h, s);
    if s in h.brief && Terminal(h.brief[s]) then tested
    else WriteBrief(PushRequeued(tested, s), h.requeueing[s].sub, Queued)
  }

  /** What follows a terminal brief. */
  function Finish(h: Hub, s: nat): Hub {
    DropRunning(ReleaseClaim(DeleteMarker(h, s), s), s)
  }

  /** A cancel request from its first look at the list to its end. */
  function CancelAtOnce(h: Hub, s: nat): Hub {
    if s in h.queue.index then Finish(FinaliseCancelled(CancelPending(h, s), s), s)
    else
      var found := CancelLookup(CancelMiss(h, s), s);
      if s !in h.claim then Finish(WriteBrief(found, s, Cancelled), s)
      else
        var asked := CancelAsk(found, s, h.claim[s]);
        if h.claim[s] in h.outbox then WriteBrief(asked, s, Cancelling)
        else Finish(WriteBrief(asked, s, Cancelled), s)
  }

  /** The thread's own notes are gone when it is done: only the outbox and the brief have changed. */
  lemma CancelDecides(h: Hub, s: nat)
    requires s !in h.queue.index
    ensures CancelAtOnce(h, s) ==
            if s in h.claim && h.claim[s] in h.outbox then
              SetBrief(h.(outbox := h.outbox[h.claim[s] := h.outbox[h.claim[s]] + [CancelGrading(s)]]), s, Cancelling)
            else Finish(SetBrief(h, s, Cancelled), s)
  {
    hide Finish, CancelLookup, CancelMiss, WriteBrief, SetBrief;
    LookupNoted(h, s);
    if s !in h.claim {
      WriteNoted(h, s, Cancelled);
    } else if h.claim[s] in h.outbox {
      WriteNoted(h.(outbox := h.outbox[h.claim[s] := h.outbox[h.claim[s]] + [CancelGrading(s)]]), s, Cancelling);
      Noted(h.cancels, Asking(s, h.claim[s]));
    } else {
      WriteNoted(h, s, Cancelled);
      Noted(h.cancels, Asking(s, h.claim[s]));
    }
  }

  lemma LookupNoted(h: Hub, s: nat)
    ensures CancelLookup(CancelMiss(h, s), s) ==
            if s in h.claim then h.(cancels := h.cancels + multiset{Asking(s, h.claim[s])})
            else h.(writes := h.writes + multiset{(s, Cancelled)})
  {
    Noted(h.cancels, Missed(s));
  }

  lemma WriteNoted(h: Hub, s: nat, status: Status)
    ensures WriteBrief(h.(writes := h.writes + multiset{(s, status)}), s, status) == SetBrief(h, s, status)
  {
    Noted(h.writes, (s, status));
  }

  lemma Noted<T>(m: multiset<T>, x: T)
    ensures m + multiset{x} - multiset{x} == m
  {
  }

  lemma QueueIs(h: Hub, req: Request)
    ensures Queues(h, req) == SetBrief(h.(queue := Push(h.queue, req), wake := true), req.sub, Queued)
  {
    Noted(h.writes, (req.sub, Queued));
    hide Push;
  }

  class GraderHub {
    var list: seq<Entry>
    var index: map<nat, nat>
    var nextElem: nat
    var published: map<nat, int>
    var running: map<nat, Request>
    var online: map<nat, GraderInfo>
    var outbox: map<nat, seq<Item>>
    var wake: bool
    var claims: map<nat, nat>
    var briefs: map<nat, Status>
    var unfinished: set<nat>
    ghost var threads: Threads

    ghost function Waiting(): Queue reads this {
      Queue(list, index, nextElem, published)
    }

    ghost function State(): Hub reads this {
      Hub(Waiting(), running, online, outbox, wake, claims, briefs, unfinished,
          threads.arriving, threads.ready, threads.requeueing, threads.cleared, threads.cancelling, threads.cancels,
          threads.writes, threads.unmarking, threads.releasing, threads.dropping, threads.accepted)
    }

    /** The hub is created on the store the last process left behind. */
    constructor (ghost last: Hub, briefs: map<nat, Status>, unfinished: set<nat>, claims: map<nat, nat>)
      requires briefs == last.brief && unfinished == last.unfinished && claims == last.claim
      ensures State() == Restart(last)
      ensures this.briefs == briefs && this.unfinished == unfinished && this.claims == map[] && list == [] && running == map[]
    {
      this.list, this.index, this.nextElem, this.published := [], map[], 0, map[];
      this.running, this.online, this.outbox, this.wake := map[], map[], map[], false;
      this.briefs, this.unfinished := briefs, unfinished;
      this.claims := map[];
      this.threads := Threads(multiset(unfinished), multiset{}, map[], map[], multiset{}, multiset{}, multiset{},
                              multiset{}, multiset{}, multiset{}, last.accepted);
    }

    // ---------- The waiting list ----------

    method OnPendingRankChanged(sub: nat, newRank: int)
      modifies `published
      ensures published == old(published)[sub := newRank]
    {
      published := published[sub := newRank];
    }

    method WakeScheduler()
      modifies `wake
      ensures wake
    {
      wake := true;
    }

    method RemovePendingGradeRequest(sub: nat)
      modifies `list, `index, `published
      ensures Waiting() == Remove(old(Waiting()), sub)
      ensures index == old(index) - {sub}
    {
      if sub !in index {
        return;
      }
      var i := Find(list, index[sub]);
      if i < |list| {
        PromoteBehind(i);
        list := list[..i] + list[i + 1..];
      }
      index := index - {sub};
    }

    /** Everything behind position `i` moves up one rank, and its subscribers are told. */
    method PromoteBehind(i: nat)
      requires i < |list|
      modifies `list, `published
      ensures list == old(list[..i + 1]) + Promote(old(list[i + 1..]))
      ensures published == Publish(old(published), Promote(old(list[i + 1..])))
    {
      ghost var before := list;
      var p := i + 1;
      while p < |list|
        invariant i < p <= |list| == |before| && list == Promoted(before, i, p)
        invariant published == Publish(old(published), Promote(before[i + 1..p]))
      {
        PromoteStep(before, i, p);
        PublishAppend(old(published), Promote(before[i + 1..p]), before[p].(rank := before[p].rank - 1));
        var pending := list[p];
        list := list[p := pending.(rank := pending.rank - 1)];
        OnPendingRankChanged(pending.req.sub, pending.rank - 1);
        p := p + 1;
      }
      assert before[i + 1..p] == before[i + 1..];
    }

    /** The rank a subscriber reads, and the length of the list. */
    method GetPendingRank(sub: nat) returns (rank: int, total: nat)
      requires Ok(Waiting())
      ensures sub !in index ==> rank == 0 && total == 0
      ensures sub in index ==> 1 <= rank <= total == |list| && list[rank - 1].req.sub == sub
    {
      rank, total := 0, 0;
      if sub in index {
        var i := Find(list, index[sub]);
        total := |list|;
        rank := list[i].rank;
      }
    }

    method PushPendingGradeQueue(req: Request)
      modifies `list, `index, `nextElem, `published, `wake
      ensures Waiting() == Push(old(Waiting()), req) && wake
      ensures list == old(list) + [Entry(old(nextElem), req, old(|list|) + 1)]
    {
      var pending := Entry(nextElem, req, |list| + 1);
      OnPendingRankChanged(req.sub, |list| + 1);
      list := list + [pending];
      index := index[req.sub := nextElem];
      nextElem := nextElem + 1;
      WakeScheduler();
    }

    method QueueRequest(req: Request)
      modifies `list, `index, `nextElem, `published, `wake, `briefs
      ensures State() == Queues(old(State()), req)
      ensures list == old(list) + [Entry(old(nextElem), req, old(|list|) + 1)]
      ensures briefs == old(briefs)[req.sub := Queued] && wake
    {
      QueueIs(State(), req);
      hide Queues, Push;
      PushPendingGradeQueue(req);
      briefs := briefs[req.sub := Queued];
    }

    // ---------- Scheduling ----------

    /** The submissions a grader has claimed, each once. */
    method GetSubmissionsByGrader(g: nat) returns (subs: seq<nat>)
      ensures forall i, j :: 0 <= i < j < |subs| ==> subs[i] != subs[j]
      ensures forall s :: s in subs <==> s in claims && claims[s] == g
      ensures |subs| == |Owned(State(), g)|
    {
      subs := SortIds(set s | s in claims && claims[s] == g);
      ghost var owned := Owned(State(), g);
      SeqSetSize(subs, owned);
    }

    method SnapshotGraderLoads() returns (loads: Loads)
      ensures loads == Snapshot(State())
    {
      loads := map[];
      var todo := online.Keys;
      while todo != {}
        invariant todo <= online.Keys
        invariant loads.Keys == online.Keys - todo
        invariant forall g :: g in loads ==> loads[g] == Load(online[g].concurrency, online[g].tags, |Owned(State(), g)|)
        decreases |todo|
      {
        var g :| g in todo;
        var subs := GetSubmissionsByGrader(g);
        loads := loads[g := Load(online[g].concurrency, online[g].tags, |subs|)];
        todo := todo - {g};
      }
    }

    method OnSubmissionScheduled(req: Request, g: nat)
      modifies `running, `claims
      ensures State() == ClaimFor(old(State()), req, g)
    {
      running := running[req.sub := req];
      claims := claims[req.sub := g];
    }

    method UndoSchedule(sub: nat)
      modifies `running, `claims
      ensures State() == UndoClaim(old(State()), sub)
    {
      running := running - {sub};
      claims := claims - {sub};
    }

    method PushGradeRequest(req: Request, g: nat)
      requires g in outbox
      modifies `list, `index, `published, `outbox
      ensures State() == old(State()).(queue := Remove(old(Waiting()), req.sub),
                                       outbox := old(outbox)[g := old(outbox)[g] + [Grade(req)]])
    {
      hide Remove;
      outbox := outbox[g := outbox[g] + [Grade(req)]];
      RemovePendingGradeRequest(req.sub);
    }

    /** Claims the request for a grader and pushes it to the outbox; a refused push undoes the claim. */
    method Offer(req: Request, g: nat, accepts: (nat, nat) -> bool) returns (ok: bool)
      requires g in outbox && req.sub !in running && req.sub !in claims
      modifies `list, `index, `published, `running, `outbox, `claims
      ensures ok == accepts(req.sub, g)
      ensures State() == if ok then Assign(old(State()), req, g) else old(State())
      ensures ok ==>
        && outbox == old(outbox)[g := old(outbox)[g] + [Grade(req)]]
        && claims == old(claims)[req.sub := g] && running == old(running)[req.sub := req]
    {
      hide Remove;
      OnSubmissionScheduled(req, g);
      ok := accepts(req.sub, g);
      if ok {
        PushGradeRequest(req, g);
      } else {
        UndoSchedule(req.sub);
        ClaimUndone(old(State()), req, g);
      }
    }

    /** One visit of the pass: the request is offered to one grader after another. */
    method ScheduleOne(req: Request, loads: Loads, accepts: (nat, nat) -> bool) returns (scheduled: bool, after: Loads)
      requires 0 !in loads && req.sub !in running && req.sub !in claims
      modifies `list, `index, `published, `running, `outbox, `claims
      ensures (State(), after) == Visit(old(State()), loads, req, accepts)
      ensures scheduled <==> Choose(old(outbox).Keys, loads, req, accepts).0 != 0
    {
      hide Assign, Choose, Pick;
      after := loads;
      while true
        invariant State() == old(State()) && 0 !in after
        invariant Choose(outbox.Keys, after, req, accepts) == Choose(outbox.Keys, loads, req, accepts)
        decreases |after|
      {
        ChooseStep(outbox.Keys, after, req, accepts);
        ghost var untried := after;
        var g;
        g, after := PickGrader(req.tags, after);
        if g == 0 {
          return false, after;
        }
        assert after - {g} == untried - {g};
        if g in outbox {
          var ok := Offer(req, g, accepts);
          if ok {
            return true, after;
          }
        }
        after := after - {g};
      }
    }

    method SchedulePass(accepts: (nat, nat) -> bool) returns (progressed: bool)
      requires Inv(State())
      modifies `list, `index, `published, `running, `outbox, `claims
      ensures State() == Pass(old(State()), accepts).0
      ensures |list| <= old(|list|) && (progressed <==> |list| < old(|list|))
      ensures Inv(State()) && outbox.Keys == old(outbox).Keys
      ensures forall g :: g in outbox ==> outbox[g] == old(outbox)[g] + Given(old(list), State(), g)
    {
      hide Inv, Choose, Assign, Chosen;
      PassStarts(State());
      var loads := SnapshotGraderLoads();
      progressed := false;
      var todo := list;
      var i := 0;
      while i < |todo|
        invariant 0 <= i <= |todo| && 0 !in loads
        invariant Inv(State()) && Visitable(State(), todo[i..])
        invariant PassFrom(State(), loads, todo[i..], accepts) == PassFrom(old(State()), Snapshot(old(State())), todo, accepts)
        invariant |list| <= |todo| && (progressed <==> |list| < |todo|)
      {
        var pending := todo[i];
        label visit:
        VisitInv(State(), loads, todo[i..], accepts);
        VisitShortens(State(), loads, pending.req, accepts);
        assert pending.req.sub !in running && pending.req.sub !in claims by { Unclaimed(State(), pending.req.sub); }
        var scheduled, after := ScheduleOne(pending.req, loads, accepts);
        loads := after;
        progressed := progressed || scheduled;
        assert todo[i..][1..] == todo[i + 1..];
        i := i + 1;
      }
      hide Pass;
      Delivered(old(State()), accepts);
    }

    /** One round of the scheduler, with the queue lock held. */
    method SchedulerRound(accepts: (nat, nat) -> bool) returns (progressed: bool)
      requires Inv(State())
      modifies `list, `index, `published, `running, `outbox, `claims
      ensures Inv(State()) && |list| <= old(|list|) && (progressed <==> |list| < old(|list|))
      ensures forall req, g :: Fits(State(), req, g) ==> Refused(accepts, g)
    {
      ghost var h := State();
      progressed := false;
      if |list| > 0 {
        ParkedFits(h, accepts);
        hide Inv, Pass, Given, Fits;
        progressed := SchedulePass(accepts);
      }
    }

    /** The scheduler from a wake-up to its next park: passes, as long as they make progress. It parks after
        one round more than submissions were handed out, at most; and then a waiting request fits a
        grader only if that grader refused a push in the last pass. */
    method Scheduler(accepts: nat -> (nat, nat) -> bool) returns (rounds: nat)
      requires Inv(State())
      modifies `list, `index, `published, `running, `outbox, `claims
      ensures Inv(State()) && 1 <= rounds <= 1 + old(|list|) - |list|
      ensures forall req, g :: Fits(State(), req, g) ==> Refused(accepts(rounds - 1), g)
    {
      hide Inv, Fits, Refused;
      rounds := 0;
      while true
        invariant Inv(State()) && rounds <= old(|list|) - |list|
        decreases |list|
      {
        var progressed := SchedulerRound(accepts(rounds));
        rounds := rounds + 1;
        if !progressed {
          return;
        }
      }
    }

    // ---------- A lost grader ----------

    /** Takes the submissions of a grader off the running table. */
    method TakeRunning(subs: seq<nat>) returns (requeue: seq<Request>, ghost taken: map<nat, Request>)
      requires forall s :: s in running ==> running[s].sub == s
      modifies `running
      ensures running == old(running) - Subs(subs)
      ensures taken.Keys == old(running).Keys * Subs(subs) && forall s :: s in taken ==> taken[s] == old(running)[s]
      ensures Lists(requeue, taken)
    {
      requeue, taken := [], map[];
      for i := 0 to |subs|
        invariant running == old(running) - Subs(subs[..i])
        invariant taken.Keys == old(running).Keys * Subs(subs[..i]) && forall s :: s in taken ==> taken[s] == old(running)[s]
        invariant Lists(requeue, taken)
      {
        var sub := subs[i];
        assert subs[..i + 1] == subs[..i] + [sub];
        assert Subs(subs[..i + 1]) == Subs(subs[..i]) + {sub};
        if sub in running {
          ListsAppend(requeue, taken, running[sub]);
          requeue := requeue + [running[sub]];
          taken := taken[sub := running[sub]];
          running := running - {sub};
        }
      }
      assert subs[..|subs|] == subs;
    }

    /** Takes what an outbox still holds, except what was taken already. */
    method TakeUnsent(box: seq<Item>, taken: seq<Request>, ghost m: map<nat, Request>) returns (requeue: seq<Request>)
      requires Lists(taken, m)
      modifies `running
      ensures Lists(requeue, Drained(m, box))
      ensures running == old(running) - (Drained(m, box).Keys - m.Keys)
    {
      requeue := taken;
      var seen := set r | r in taken :: r.sub;
      ghost var now := m;
      for i := 0 to |box|
        invariant Lists(requeue, now) && seen == now.Keys && m.Keys <= now.Keys
        invariant Drained(now, box[i..]) == Drained(m, box)
        invariant running == old(running) - (now.Keys - m.Keys)
      {
        var item := box[i];
        assert box[i..][0] == item && box[i..][1..] == box[i + 1..];
        if !item.Grade? || item.req.sub in seen {
          continue;
        }
        ListsAppend(requeue, now, item.req);
        running := running - {item.req.sub};
        seen := seen + {item.req.sub};
        requeue := requeue + [item.req];
        now := now[item.req.sub := item.req];
      }
    }

    method ReleaseSubmissions(subs: seq<nat>)
      modifies `claims
      ensures claims == old(claims) - Subs(subs)
    {
      for i := 0 to |subs|
        invariant claims == old(claims) - Subs(subs[..i])
      {
        assert subs[..i + 1] == subs[..i] + [subs[i]];
        assert Subs(subs[..i + 1]) == Subs(subs[..i]) + {subs[i]};
        claims := claims - {subs[i]};
      }
      assert subs[..|subs|] == subs;
    }

    /** A grader leaves: it is no longer online, and its outbox is gone. */
    method GoOffline(g: nat) returns (box: seq<Item>)
      modifies `online, `outbox
      ensures online == old(online) - {g} && outbox == old(outbox) - {g}
      ensures box == Box(old(State()), g)
    {
      online := online - {g};
      box := if g in outbox then outbox[g] else [];
      outbox := outbox - {g};
    }

    /** What a lost grader was running, or has not been sent, comes off the tables. */
    method TakeOffline(g: nat) returns (subs: seq<nat>, requeue: seq<Request>)
      requires Inv(State())
      modifies `online, `outbox, `running
      ensures Subs(subs) == Owned(old(State()), g)
      ensures Lists(requeue, Taken(old(State()), g))
      ensures State() == old(State()).(online := old(online) - {g}, outbox := old(outbox) - {g},
                running := old(running) - Owned(old(State()), g) - GradeSubs(Box(old(State()), g)))
    {
      ghost var h := State();
      RunningNamed(h);
      hide Inv, Taken, Lists, Drained, GradeSubs, Subs, Box;
      var box := GoOffline(g);
      subs := GetSubmissionsByGrader(g);
      SubsAre(subs, Owned(h, g));
      requeue := TakeAll(box, subs, h, g);
    }

    /** Collects the work of a grader that is gone, and releases its claims. */
    method CollectOffline(g: nat) returns (requeue: seq<Request>)
      requires Inv(State())
      modifies `online, `outbox, `running, `claims, `threads
      ensures State() == Collect(old(State()), g)
      ensures Lists(requeue, Taken(old(State()), g))
    {
      ghost var h := State();
      hide Inv, Taken, Lists, GradeSubs, Collect, Subs, Box, Owned;
      var subs;
      subs, requeue := TakeOffline(g);
      ReleaseSubmissions(subs);
      threads := threads.(requeueing := threads.requeueing + Taken(h, g));
      CollectIs(h, g);
    }

    /** First what is running, then what is unsent beyond it. */
    method TakeAll(box: seq<Item>, subs: seq<nat>, ghost h: Hub, ghost g: nat) returns (requeue: seq<Request>)
      requires forall s :: s in running ==> running[s].sub == s
      requires h.running == running && Subs(subs) == Owned(h, g) && box == Box(h, g)
      modifies `running
      ensures running == h.running - Owned(h, g) - GradeSubs(Box(h, g))
      ensures Lists(requeue, Taken(h, g))
    {
      hide Taken, Lists, Drained, GradeSubs, Subs, Box, Owned;
      ghost var taken;
      requeue, taken := TakeRunning(subs);
      requeue := TakeUnsent(box, requeue, taken);
      DrainedTaken(h, g, taken);
      assert running == h.running - Owned(h, g) - GradeSubs(Box(h, g));
    }

    method IsSubmissionTerminal(sub: nat) returns (terminal: bool)
      ensures terminal <==> sub in briefs && Terminal(briefs[sub])
    {
      terminal := sub in briefs && (briefs[sub] == Finished || briefs[sub] == Failed || briefs[sub] == Cancelled);
    }

    method RequeueCollected(requeue: seq<Request>)
      requires forall i, j :: 0 <= i < j < |requeue| ==> requeue[i].sub != requeue[j].sub
      requires forall k :: 0 <= k < |requeue| ==>
        requeue[k].sub in threads.requeueing && threads.requeueing[requeue[k].sub] == requeue[k]
      modifies this
      ensures State() == RequeueAll(old(State()), Order(requeue))
    {
      hide Requeue;
      ghost var order := Order(requeue);
      for i := 0 to |requeue|
        invariant RequeueAll(State(), order[i..]) == RequeueAll(old(State()), order)
        invariant forall k :: i <= k < |requeue| ==>
          requeue[k].sub in threads.requeueing && threads.requeueing[requeue[k].sub] == requeue[k]
      {
        RequeueOne(requeue[i]);
        assert order[i..][0] == requeue[i].sub && order[i..][1..] == order[i + 1..];
      }
    }

    /** Everything collected is queued again, unless it is over: the rest of the state is as after the
        collection and one requeue step for each submission that was taken from it. */
    method OnGraderOffline(g: nat) returns (ghost order: seq<nat>)
      requires Inv(State())
      modifies this
      ensures forall s :: s in order <==> s in Taken(old(State()), g)
      ensures forall i, j :: 0 <= i < j < |order| ==> order[i] != order[j]
      ensures State() == RequeueAll(Collect(old(State()), g), order)
      ensures Inv(State()) && g !in online && g !in outbox
      ensures forall s :: s in order ==> (s in index <==> !IsOver(old(State()), s)) && s !in threads.requeueing
      ensures forall s :: s in index && s in order ==> s in briefs && briefs[s] == Queued
      ensures forall s :: s !in index || s !in order ==>
        (s in briefs <==> s in old(briefs)) && (s in briefs ==> briefs[s] == old(briefs)[s])
      ensures (exists s :: s in order && s in index) ==> wake
    {
      hide Inv, Collect, Taken, RequeueAll;
      var requeue := CollectOffline(g);
      CollectKeepsTaken(old(State()), g);
      order := Order(requeue);
      RequeueCollected(requeue);
      hide Order, Lists, IsOver;
      OfflineRecovers(old(State()), g, order);
      OfflineBriefs(old(State()), g, order);
    }

    method RequeueOne(req: Request)
      requires req.sub in threads.requeueing && threads.requeueing[req.sub] == req
      modifies this
      ensures State() == Requeue(old(State()), req.sub)
      ensures threads.requeueing == old(threads.requeueing) - {req.sub}
      ensures if IsOver(old(State()), req.sub) then briefs == old(briefs) && list == old(list)
              else
                && briefs == old(briefs)[req.sub := Queued] && wake
                && list == old(list) + [Entry(old(nextElem), req, old(|list|) + 1)]
    {
      hide QueueGradeRequest, WriteBrief;
      var terminal := IsSubmissionTerminal(req.sub);
      threads := threads.(requeueing := threads.requeueing - {req.sub});
      if !terminal {
        ghost var cleared := threads.cleared;
        threads := threads.(cleared := cleared - {req.sub});
        assert cleared[req.sub := req] - {req.sub} == cleared - {req.sub};
        QueueRequest(req);
      }
    }

    // ---------- Reports and the end of a submission ----------

    /** One message of a GradeCallback stream: `owner` tells whether the sender may report. */
    method GradeCallback(g: nat, sub: nat, brief: Option<Status>) returns (owner: bool, finished: bool)
      modifies `briefs, `threads
      ensures owner <==> sub in old(claims) && old(claims)[sub] == g
      ensures State() ==
        if owner && brief.Some? then WriteBrief(Report(old(State()), g, sub, brief), sub, brief.value) else old(State())
      ensures finished <==> owner && brief.Some? && Terminal(brief.value)
      ensures briefs == if owner && brief.Some? then old(briefs)[sub := brief.value] else old(briefs)
    {
      owner := sub in claims && claims[sub] == g;
      finished := false;
      if !owner {
        return;
      }
      if brief.Some? {
        Noted(threads.writes, (sub, brief.value));
        UpdateBrief(sub, brief.value);
        finished := brief.value == Failed || brief.value == Finished || brief.value == Cancelled;
      }
    }

    method UpdateBrief(sub: nat, status: Status)
      modifies `briefs, `threads
      ensures State() == SetBrief(old(State()), sub, status)
      ensures briefs == old(briefs)[sub := status]
    {
      briefs := briefs[sub := status];
      if status == Failed || status == Finished || status == Cancelled {
        threads := threads.(unmarking := threads.unmarking + multiset{sub});
      }
    }

    method DeleteUnfinishedSubmission(sub: nat)
      modifies `unfinished, `threads
      ensures State() == DeleteMarker(old(State()), sub)
      ensures unfinished == old(unfinished) - {sub}
    {
      unfinished := unfinished - {sub};
      threads := threads.(unmarking := threads.unmarking - multiset{sub}, releasing := threads.releasing + multiset{sub});
    }

    method ReleaseSubmission(sub: nat)
      modifies `claims, `threads
      ensures State() == ReleaseClaim(old(State()), sub)
      ensures claims == old(claims) - {sub}
    {
      claims := claims - {sub};
      threads := threads.(releasing := threads.releasing - multiset{sub}, dropping := threads.dropping + multiset{sub});
    }

    method RemoveRunning(sub: nat)
      modifies `running, `wake, `threads
      ensures State() == DropRunning(old(State()), sub)
      ensures running == old(running) - {sub} && wake
    {
      threads := threads.(dropping := threads.dropping - multiset{sub});
      running := running - {sub};
      WakeScheduler();
    }

    /** The marker is deleted first, then the claim is released, and then the scheduler woken. */
    method OnSubmissionFinished(sub: nat)
      modifies `unfinished, `claims, `running, `wake, `threads
      ensures State() == Finish(old(State()), sub)
      ensures unfinished == old(unfinished) - {sub} && claims == old(claims) - {sub}
      ensures running == old(running) - {sub} && wake
    {
      hide DeleteMarker, ReleaseClaim, DropRunning;
      DeleteUnfinishedSubmission(sub);
      ReleaseSubmission(sub);
      RemoveRunning(sub);
    }

    method OnSubmissionCancelled(sub: nat)
      modifies `briefs, `unfinished, `claims, `running, `wake, `threads
      ensures State() == Finish(SetBrief(old(State()), sub, Cancelled), sub)
      ensures briefs == old(briefs)[sub := Cancelled] && unfinished == old(unfinished) - {sub}
      ensures claims == old(claims) - {sub} && running == old(running) - {sub} && wake
    {
      hide SetBrief, Finish;
      UpdateBrief(sub, Cancelled);
      OnSubmissionFinished(sub);
    }

    /** Takes a waiting submission off the list. */
    method TakeOffList(sub: nat)
      requires sub in index
      modifies `list, `index, `published, `threads
      ensures State() == CancelPending(old(State()), sub)
      ensures index == old(index) - {sub}
    {
      hide Remove;
      RemovePendingGradeRequest(sub);
      threads := threads.(cancelling := threads.cancelling + multiset{sub});
    }

    /** A waiting submission is taken off the list and finalised; otherwise its owner is asked to stop,
        or it is finalised when nobody can be asked. */
    method CancelGrade(sub: nat)
      modifies this
      ensures State() == CancelAtOnce(old(State()), sub)
      ensures var g := if sub in old(claims) then old(claims)[sub] else 0;
              if sub !in old(index) && sub in old(claims) && g in old(outbox) then
                && briefs == old(briefs)[sub := Cancelling] && outbox == old(outbox)[g := old(outbox)[g] + [CancelGrading(sub)]]
                && unfinished == old(unfinished) && claims == old(claims) && running == old(running)
              else
                && briefs == old(briefs)[sub := Cancelled] && outbox == old(outbox) && sub !in index
                && unfinished == old(unfinished) - {sub} && claims == old(claims) - {sub}
                && running == old(running) - {sub} && wake
    {
      hide Finish, SetBrief, CancelPending;
      if sub in index {
        TakeOffList(sub);
        threads := threads.(cancelling := threads.cancelling - multiset{sub});
        OnSubmissionCancelled(sub);
        return;
      }
      CancelDecides(State(), sub);
      hide CancelAtOnce;
      if sub in claims && claims[sub] in outbox {
        var g := claims[sub];
        outbox := outbox[g := outbox[g] + [CancelGrading(sub)]];
        UpdateBrief(sub, Cancelling);
        return;
      }
      OnSubmissionCancelled(sub);
    }

    // ---------- Graders come online ----------

    method GraderHeartbeat(g: nat)
      modifies `outbox, `wake
      ensures State() == Connect(old(State()), g)
      ensures outbox == old(outbox)[g := []] && wake
    {
      outbox := outbox[g := []];
      WakeScheduler();
    }

    method RegisterGrader(g: nat, info: GraderInfo)
      modifies `online
      ensures State() == Register(old(State()), g, info)
      ensures online == old(online)[g := info]
    {
      online := online[g := info];
    }

    // ---------- runSubmission ----------

    method MarkUnfinishedSubmission(req: Request)
      modifies `unfinished, `threads
      ensures State() == WriteMarker(old(State()), req)
      ensures unfinished == old(unfinished) + {req.sub}
    {
      unfinished := unfinished + {req.sub};
      threads := threads.(arriving := threads.arriving + multiset{req.sub}, accepted := threads.accepted[req.sub := req]);
    }

    method UpdateSubmissionBriefReport(sub: nat)
      modifies `briefs, `threads
      ensures State() == WriteQueued(old(State()), sub)
      ensures briefs == old(briefs)[sub := Queued]
    {
      briefs := briefs[sub := Queued];
      threads := threads.(arriving := threads.arriving - multiset{sub}, ready := threads.ready + multiset{sub});
    }

    method Enqueue(req: Request)
      requires req.sub in threads.accepted && threads.accepted[req.sub] == req
      modifies `list, `index, `nextElem, `published, `wake, `briefs, `threads
      ensures State() == WriteBrief(EnqueueGrade(old(State()), req.sub), req.sub, Queued)
      ensures list == old(list) + [Entry(old(nextElem), req, old(|list|) + 1)]
      ensures briefs == old(briefs)[req.sub := Queued] && wake
    {
      hide QueueGradeRequest, WriteBrief;
      threads := threads.(ready := threads.ready - multiset{req.sub});
      QueueRequest(req);
    }

    /** The marker first, then the brief, then the push. */
    method RunSubmission(req: Request)
      modifies this
      ensures State() == RunOn(WriteMarker(old(State()), req), req.sub)
      ensures list == old(list) + [Entry(old(nextElem), req, old(|list|) + 1)]
      ensures briefs == old(briefs)[req.sub := Queued] && unfinished == old(unfinished) + {req.sub} && wake
    {
      hide EnqueueGrade, WriteBrief;
      MarkUnfinishedSubmission(req);
      UpdateSubmissionBriefReport(req.sub);
      Enqueue(req);
    }
  }

  ghost predicate Refused(accepts: (nat, nat) -> bool, g: nat) {
    exists t :: !accepts(t, g)
  }

  lemma ParkedFits(h: Hub, accepts: (nat, nat) -> bool)
    requires Inv(h)
    ensures 0 !in h.online && forall req, g :: Fits(Pass(h, accepts).0, req, g) ==> Refused(accepts, g)
  {
    assert 0 !in h.online;
    hide Inv, Pass, Fits;
    forall req: Request, g: nat | Fits(Pass(h, accepts).0, req, g) ensures Refused(accepts, g) {
      PassServes(h, accepts, req, g);
    }
  }

  /** What a pass gives away is in the outboxes. */
  lemma Delivered(h: Hub, accepts: (nat, nat) -> bool)
    requires Inv(h)
    ensures 0 !in h.online && Inv(Pass(h, accepts).0) && Pass(h, accepts).0.outbox.Keys == h.outbox.Keys
    ensures forall g :: g in h.outbox ==>
      Pass(h, accepts).0.outbox[g] == h.outbox[g] + Given(h.queue.list, Pass(h, accepts).0, g)
  {
    assert 0 !in h.online;
    PassInv(h, accepts);
    hide Inv, Pass, Given;
    forall g: nat ensures (g in Pass(h, accepts).0.outbox <==> g in h.outbox)
      && (g in h.outbox ==> Pass(h, accepts).0.outbox[g] == h.outbox[g] + Given(h.queue.list, Pass(h, accepts).0, g))
    {
      PassDelivers(h, accepts, g);
    }
  }

  // ---------- Lists of requests ----------

  /** The requests of a map, each once, in some order. */
  ghost predicate Lists(reqs: seq<Request>, m: map<nat, Request>) {
    && (forall i, j :: 0 <= i < j < |reqs| ==> reqs[i].sub != reqs[j].sub)
    && (forall i :: 0 <= i < |reqs| ==> reqs[i].sub in m && m[reqs[i].sub] == reqs[i])
    && (forall s :: s in m ==> exists i :: 0 <= i < |reqs| && reqs[i].sub == s)
  }

  lemma ListsAppend(reqs: seq<Request>, m: map<nat, Request>, req: Request)
    requires Lists(reqs, m) && req.sub !in m
    ensures Lists(reqs + [req], m[req.sub := req])
  {
    var more := reqs + [req];
    forall s {:trigger s in m} | s in m[req.sub := req] ensures exists i :: 0 <= i < |more| && more[i].sub == s {
      if s == req.sub {
        assert more[|reqs|].sub == s;
      } else {
        var i :| 0 <= i < |reqs| && reqs[i].sub == s;
        assert more[i].sub == s;
      }
    }
  }

  ghost function Order(reqs: seq<Request>): (r: seq<nat>)
    ensures |r| == |reqs| && forall i :: 0 <= i < |r| ==> r[i] == reqs[i].sub
  {
    seq(|reqs|, i requires 0 <= i < |reqs| => reqs[i].sub)
  }

  /** The first request of an outbox for each submission that is not in the map already. */
  ghost function Drained(m: map<nat, Request>, box: seq<Item>): map<nat, Request>
    decreases |box|
  {
    if box == [] then m
    else Drained(if box[0].Grade? && box[0].req.sub !in m then m[box[0].req.sub := box[0].req] else m, box[1..])
  }

  lemma {:induction false} DrainedIs(m: map<nat, Request>, box: seq<Item>)
    ensures Drained(m, box).Keys == m.Keys + GradeSubs(box)
    ensures forall s :: s in m ==> Drained(m, box)[s] == m[s]
    ensures forall s :: s in GradeSubs(box) && s !in m ==> Drained(m, box)[s] == BoxRequest(box, s)
    decreases |box|
  {
    if box != [] {
      var m' := if box[0].Grade? && box[0].req.sub !in m then m[box[0].req.sub := box[0].req] else m;
      GradeSubsHead(box);
      DrainedIs(m', box[1..]);
    }
  }

  lemma GradeSubsHead(box: seq<Item>)
    requires box != []
    ensures GradeSubs(box) == (if box[0].Grade? then {box[0].req.sub} else {}) + GradeSubs(box[1..])
  {
    forall s | s in GradeSubs(box) ensures s in (if box[0].Grade? then {box[0].req.sub} else {}) + GradeSubs(box[1..]) {
      var i :| 0 <= i < |box| && box[i].Grade? && box[i].req.sub == s;
      if i > 0 {
        assert box[1..][i - 1] == box[i];
      }
    }
    forall s | s in GradeSubs(box[1..]) ensures s in GradeSubs(box) {
      var i :| 0 <= i < |box[1..]| && box[1..][i].Grade? && box[1..][i].req.sub == s;
      assert box[i + 1] == box[1..][i];
    }
  }

  lemma DrainedTaken(h: Hub, g: nat, taken: map<nat, Request>)
    requires taken.Keys == h.running.Keys * Owned(h, g) && forall s :: s in taken ==> taken[s] == h.running[s]
    ensures Drained(taken, Box(h, g)) == Taken(h, g)
    ensures Taken(h, g).Keys == taken.Keys + GradeSubs(Box(h, g))
  {
    DrainedIs(taken, Box(h, g));
  }

  lemma SubsAre(subs: seq<nat>, all: set<nat>)
    requires forall s :: s in subs <==> s in all
    ensures Subs(subs) == all
  {
  }

  lemma CollectIs(h: Hub, g: nat)
    ensures Collect(h, g) == h.(online := h.online - {g}, outbox := h.outbox - {g},
              running := h.running - Owned(h, g) - GradeSubs(Box(h, g)),
              claim := h.claim - Owned(h, g), requeueing := h.requeueing + Taken(h, g))
  {
  }

  lemma RunningNamed(h: Hub)
    requires Inv(h)
    ensures forall s :: s in h.running ==> h.running[s].sub == s
  {
    forall s | s in h.running ensures h.running[s].sub == s { assert SubOk(h, s); }
  }

  lemma CollectKeepsTaken(h: Hub, g: nat)
    ensures forall s :: s in Taken(h, g) ==> s in Collect(h, g).requeueing && Collect(h, g).requeueing[s] == Taken(h, g)[s]
  {
  }

  /** A sequence without duplicates has as many elements as the set of them. */
  lemma {:induction false} SeqSetSize(subs: seq<nat>, all: set<nat>)
    requires forall i, j :: 0 <= i < j < |subs| ==> subs[i] != subs[j]
    requires forall s :: s in subs <==> s in all
    ensures |subs| == |all|
    decreases |subs|
  {
    if subs == [] {
      assert all == {};
    } else {
      var rest := subs[1..];
      forall s ensures s in rest <==> s in all - {subs[0]} {
        if s in all - {subs[0]} {
          assert s in [subs[0]] + rest;
        }
      }
      SeqSetSize(rest, all - {subs[0]});
    }
  }

  /** The choice, unfolded once. */
  lemma ChooseStep(outbox: set<nat>, loads: Loads, req: Request, accepts: (nat, nat) -> bool)
    requires 0 !in loads
    ensures var g := Pick(loads, req.tags);
            if g == 0 then Choose(outbox, loads, req, accepts) == (0, loads)
            else if g in outbox && accepts(req.sub, g) then
              g in loads && Choose(outbox, loads, req, accepts) == (g, Bump(loads, g))
            else
              && g in loads && |loads - {g}| < |loads|
              && Choose(outbox, loads, req, accepts) == Choose(outbox, loads - {g}, req, accepts)
  {
    var g := Pick(loads, req.tags);
    assert g != 0 ==> (loads - {g}).Keys + {g} == loads.Keys;
  }

  lemma ClaimUndone(h: Hub, req: Request, g: nat)
    requires req.sub !in h.running && req.sub !in h.claim
    ensures UndoClaim(ClaimFor(h, req, g), req.sub) == h
  {
    var n := UndoClaim(ClaimFor(h, req, g), req.sub);
    assert n.running == h.running && n.claim == h.claim;
  }

  lemma Unclaimed(h: Hub, s: nat)
    requires Inv(h) && s in h.queue.index
    ensures s !in h.running && s !in h.claim
  {
    assert SubOk(h, s);
  }

  /** A visit shortens the list by one exactly when it finds a grader. */
  lemma VisitShortens(h: Hub, loads: Loads, req: Request, accepts: (nat, nat) -> bool)
    requires Inv(h) && 0 !in loads && req.sub in h.queue.index
    ensures var n := Visit(h, loads, req, accepts).0;
            |n.queue.list| == |h.queue.list| - if Choose(h.outbox.Keys, loads, req, accepts).0 == 0 then 0 else 1
  {
    hide Choose, Core;
    RemoveOk(h.queue, req.sub);
  }

  // ---------- Nothing is lost with a grader ----------

  predicate IsOver(h: Hub, s: nat) {
    s in h.brief && Terminal(h.brief[s])
  }

  lemma RequeueNamed(h: Hub, s: nat)
    requires Inv(h) && s in h.requeueing
    ensures h.requeueing[s].sub == s && s in h.brief
  {
    assert SubOk(h, s);
  }

  lemma RequeueInv(h: Hub, s: nat)
    requires Inv(h) && s in h.requeueing
    ensures Inv(Requeue(h, s))
  {
    RequeueNamed(h, s);
    hide Inv, PushRequeued, WriteBrief;
    StepInv(h, DoTestRequeue(s));
    if !IsOver(h, s) {
      PushedInv(TestRequeue(h, s), s);
    }
  }

  lemma PushedInv(h: Hub, s: nat)
    requires Inv(h) && s in h.cleared && Live(h, s)
    ensures Inv(WriteBrief(PushRequeued(h, s), s, Queued))
  {
    hide Inv, WriteBrief, Push;
    StepInv(h, DoPushRequeued(s));
    BriefOfPush(PushRequeued(h, s), s);
  }

  lemma RequeueEffect(h: Hub, s: nat)
    requires s in h.requeueing && h.requeueing[s].sub == s
    ensures var n := Requeue(h, s);
            && n.requeueing == h.requeueing - {s} && n.claim == h.claim
            && n.online == h.online && n.outbox == h.outbox
            && n.queue.index.Keys == h.queue.index.Keys + (if IsOver(h, s) then {} else {s})
            && n.brief == (if IsOver(h, s) then h.brief else h.brief[s := Queued])
            && n.wake == (if IsOver(h, s) then h.wake else true)
            && forall t :: t != s ==> IsOver(n, t) == IsOver(h, t)
  {
    if !IsOver(h, s) {
      PushedEffect(TestRequeue(h, s), s);
      hide PushRequeued;
    }
  }

  lemma PushedEffect(h: Hub, s: nat)
    requires s in h.cleared && h.cleared[s].sub == s
    ensures var n := PushRequeued(h, s);
            && n.requeueing == h.requeueing && n.claim == h.claim && n.brief == h.brief
            && n.online == h.online && n.outbox == h.outbox && n.wake
            && n.queue.index.Keys == h.queue.index.Keys + {s}
  {
  }

  ghost function StillOpen(h: Hub, subs: seq<nat>): set<nat> {
    set s | s in subs && !IsOver(h, s)
  }

  /** The briefs of some submissions are Queued now, and all others are as they were. */
  ghost predicate QueuedOnly(before: map<nat, Status>, after: map<nat, Status>, subs: set<nat>) {
    && (forall s :: s in subs ==> s in after && after[s] == Queued)
    && (forall s :: s !in subs ==> (s in after <==> s in before) && (s in before ==> after[s] == before[s]))
  }

  lemma QueuedStep(before: map<nat, Status>, between: map<nat, Status>, after: map<nat, Status>, one: set<nat>, rest: set<nat>)
    requires QueuedOnly(before, between, one) && QueuedOnly(between, after, rest)
    ensures QueuedOnly(before, after, one + rest)
  {
  }

  lemma StillOpenStep(h: Hub, n: Hub, s: nat, rest: seq<nat>)
    requires s !in rest && forall t :: t != s ==> IsOver(n, t) == IsOver(h, t)
    ensures Subs([s] + rest) == {s} + Subs(rest)
    ensures StillOpen(h, [s] + rest) == (if IsOver(h, s) then {} else {s}) + StillOpen(n, rest)
  {
    hide IsOver;
  }

  lemma {:induction false} RequeueAllEffect(h: Hub, subs: seq<nat>)
    requires Inv(h) && forall i, j :: 0 <= i < j < |subs| ==> subs[i] != subs[j]
    requires forall i :: 0 <= i < |subs| ==> subs[i] in h.requeueing
    ensures var n := RequeueAll(h, subs);
            && Inv(n) && n.requeueing == h.requeueing - Subs(subs) && n.claim == h.claim
            && n.queue.index.Keys == h.queue.index.Keys + StillOpen(h, subs)
    decreases |subs|
  {
    hide Inv, IsOver, Requeue, StillOpen;
    if subs == [] {
      assert Subs(subs) == {} && StillOpen(h, subs) == {} by { NoneOpen(h); }
    } else {
      var s, rest := subs[0], subs[1..];
      RequeueNamed(h, s);
      RequeueEffect(h, s);
      RequeueInv(h, s);
      var n := Requeue(h, s);
      assert subs == [s] + rest;
      RequeueAllEffect(n, rest);
      StillOpenStep(h, n, s, rest);
    }
  }

  /** Each requeued submission is shown as Queued, and the scheduler is woken for it. */
  lemma {:induction false} RequeueAllBriefs(h: Hub, subs: seq<nat>)
    requires forall i, j :: 0 <= i < j < |subs| ==> subs[i] != subs[j]
    requires forall i :: 0 <= i < |subs| ==> subs[i] in h.requeueing && h.requeueing[subs[i]].sub == subs[i]
    ensures var n := RequeueAll(h, subs);
            && n.online == h.online && n.outbox == h.outbox
            && QueuedOnly(h.brief, n.brief, StillOpen(h, subs))
            && (StillOpen(h, subs) != {} || h.wake ==> n.wake)
    decreases |subs|
  {
    hide IsOver, Requeue, StillOpen;
    if subs == [] {
      NoneOpen(h);
    } else {
      var s, rest := subs[0], subs[1..];
      RequeueEffect(h, s);
      var n := Requeue(h, s);
      assert subs == [s] + rest;
      RequeueAllBriefs(n, rest);
      StillOpenStep(h, n, s, rest);
      var one := if IsOver(h, s) then {} else {s};
      QueuedOne(h.brief, n.brief, s, one);
      QueuedStep(h.brief, n.brief, RequeueAll(n, rest).brief, one, StillOpen(n, rest));
      hide QueuedOnly;
    }
  }

  lemma QueuedOne(before: map<nat, Status>, after: map<nat, Status>, s: nat, one: set<nat>)
    requires (one == {} && after == before) || (one == {s} && after == before[s := Queued])
    ensures QueuedOnly(before, after, one)
  {
  }

  lemma NoneOpen(h: Hub)
    ensures StillOpen(h, []) == {}
  {
  }

  lemma CollectInv(h: Hub, g: nat)
    requires Inv(h)
    ensures Inv(Collect(h, g))
    ensures forall s :: s in Taken(h, g) ==> s in Collect(h, g).requeueing
    ensures Collect(h, g).brief == h.brief && Collect(h, g).queue == h.queue
    ensures g !in Collect(h, g).online && g !in Collect(h, g).outbox
  {
    CollectKeeps(h, g);
    hide Core, Taken, Ok, Listed;
  }

  /** When a grader is gone, all it had is waiting again once, except what is over: what it ran, and what
      was still in its outbox. Nobody owns any of it any more. */
  lemma OfflineRecovers(h: Hub, g: nat, order: seq<nat>)
    requires Inv(h)
    requires forall s :: s in order <==> s in Taken(h, g)
    requires forall i, j :: 0 <= i < j < |order| ==> order[i] != order[j]
    ensures var n := RequeueAll(Collect(h, g), order);
            && Inv(n)
            && (forall s :: s in h.claim && h.claim[s] == g ==> s !in n.claim)
            && (forall s :: s in order ==> s !in n.requeueing && (s in n.queue.index <==> !IsOver(h, s)))
            && (forall s :: s !in order ==> (s in n.queue.index <==> s in h.queue.index))
  {
    CollectInv(h, g);
    var c := Collect(h, g);
    assert c.claim == h.claim - Owned(h, g);
    forall i | 0 <= i < |order| ensures order[i] in c.requeueing && order[i] !in c.queue.index {
      assert order[i] in order;
      assert SubOk(c, order[i]);
    }
    hide Inv, Collect, Taken, IsOver;
    RequeueAllEffect(c, order);
    assert forall s :: IsOver(c, s) == IsOver(h, s) by { SameBrief(c, h); }
  }

  /** ... its briefs say Queued, no other brief has changed, and the scheduler is woken. */
  lemma OfflineBriefs(h: Hub, g: nat, order: seq<nat>)
    requires Inv(h)
    requires forall s :: s in order <==> s in Taken(h, g)
    requires forall i, j :: 0 <= i < j < |order| ==> order[i] != order[j]
    ensures var n := RequeueAll(Collect(h, g), order);
            && g !in n.online && g !in n.outbox
            && QueuedOnly(h.brief, n.brief, StillOpen(h, order))
            && (StillOpen(h, order) != {} ==> n.wake)
  {
    CollectInv(h, g);
    var c := Collect(h, g);
    hide Collect, Taken, IsOver, Inv, QueuedOnly;
    forall i | 0 <= i < |order| ensures order[i] in c.requeueing && c.requeueing[order[i]].sub == order[i] {
      assert order[i] in order;
      RequeueNamed(c, order[i]);
    }
    hide RequeueAll, StillOpen;
    RequeueAllBriefs(c, order);
    SameOpen(c, h, order);
  }

  lemma SameOpen(a: Hub, b: Hub, subs: seq<nat>)
    requires a.brief == b.brief
    ensures StillOpen(a, subs) == StillOpen(b, subs)
  {
  }

  lemma SameBrief(a: Hub, b: Hub)
    requires a.brief == b.brief
    ensures forall s :: IsOver(a, s) == IsOver(b, s)
  {
  }
}
