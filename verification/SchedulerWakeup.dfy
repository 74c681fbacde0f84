/** The scheduler goroutine against its producers. The scheduler works on a snapshot of the loads while
    submissions finish, graders connect and graders go away; it parks when a pass made no progress, and
    one slot of a channel wakes it. No interleaving makes it sleep through work it could hand out. */
module SchedulerWakeup {
  import opened PendingQueue
  import opened Scheduling
  import opened HubModel

  /** Where the scheduler is: before it takes the queue lock; reading the load of one online grader
      after the other (with the online lock); visiting `pending[i]`; holding the outbox it looked up
      for the chosen grader; having claimed the request for that grader but not yet pushed it; parked. */
  datatype Scheduler =
    | Ready
    | Reading(todo: set<nat>, loads: Loads)
    | Visiting(loads: Loads, i: nat, hit: bool)
    | Holding(loads: Loads, i: nat, hit: bool, g: nat, box: nat)
    | Claimed(loads: Loads, i: nat, hit: bool, g: nat, box: nat)
    | Parked

  /** Outboxes have an identity each: a grader that connects again gets a new one, and a closed one
      refuses every push. `owed` counts the producers that changed the state and have yet to call
      wakeScheduler; `wake` is the slot. `stale` remembers the graders that were registered anew, or with
      something changed, while they had an outbox: registering wakes nobody, and a registered grader is
      to connect, which brings a new outbox and a wake-up. */
  datatype World = World(
    pending: seq<Request>,
    claim: map<nat, nat>,
    online: map<nat, GraderInfo>,
    outbox: map<nat, nat>,
    stale: set<nat>,
    closed: set<nat>,
    nextBox: nat,
    wake: bool,
    owed: nat,
    sched: Scheduler)

  const INITIAL_WORLD := World([], map[], map[], map[], {}, {}, 0, false, 0, Ready)

  datatype Event =
    // producers
    | Push(req: Request)
    | Dequeue(k: nat)
    | Release(sub: nat)
    | Connect(g: nat)
    | Register(g: nat, info: GraderInfo)
    | Offline(g: nat)
    | DropBox(g: nat)
    | Close(box: nat)
    | Wake
    // the scheduler
    | Begin
    | ReadLoad(g: nat)
    | ReadDone
    | Visit
    | Claim
    | Deliver
    | Unpark

  function OwnedBy(claim: map<nat, nat>, g: nat): set<nat> {
    set s | s in claim && claim[s] == g
  }

  function TrueLoad(w: World, g: nat): Load
    requires g in w.online
  {
    Load(w.online[g].concurrency, w.online[g].tags, |OwnedBy(w.claim, g)|)
  }

  /** The queue lock is free, so that a producer can change the list. */
  predicate Unlocked(w: World) {
    w.sched.Ready? || w.sched.Parked?
  }

  /** A submission is queued only when it is neither waiting nor claimed. A grader is put online by a
      registration or by a heartbeat, with the online lock. */
  ghost predicate Can(w: World, e: Event) {
    match e
    case Push(req) =>
      Unlocked(w) && req.sub !in w.claim && forall k :: 0 <= k < |w.pending| ==> w.pending[k].sub != req.sub
    case Dequeue(k) => Unlocked(w) && k < |w.pending|
    case Release(s) => s in w.claim
    case Connect(g) => true
    case Register(g, info) => g != 0 && !w.sched.Reading?
    case Offline(g) => !w.sched.Reading?
    case DropBox(g) => true
    case Close(b) => b < w.nextBox && b !in w.outbox.Values
    case Wake => w.owed > 0
    case Begin => w.sched.Ready?
    case ReadLoad(g) => w.sched.Reading? && g in w.sched.todo && g in w.online
    case ReadDone => w.sched.Reading? && w.sched.todo == {}
    case Visit => w.sched.Visiting? && 0 !in w.sched.loads
    case Claim => w.sched.Holding? && w.sched.i < |w.pending|
    case Deliver => w.sched.Claimed? && w.sched.i < |w.pending|
    case Unpark => w.sched.Parked? && w.wake
  }

  ghost function After(w: World, e: Event): World
    requires Can(w, e)
  {
    match e
    case Push(req) => w.(pending := w.pending + [req], wake := true)
    case Dequeue(k) => w.(pending := w.pending[..k] + w.pending[k + 1..])
    case Release(s) => w.(claim := w.claim - {s}, owed := w.owed + 1)
    case Connect(g) =>
      w.(outbox := w.outbox[g := w.nextBox], stale := w.stale - {g}, nextBox := w.nextBox + 1, owed := w.owed + 1)
    case Register(g, info) =>
      w.(online := w.online[g := info],
         stale := if g in w.outbox && (g !in w.online || w.online[g] != info) then w.stale + {g} else w.stale)
    case Offline(g) => w.(online := w.online - {g})
    case DropBox(g) => w.(outbox := w.outbox - {g})
    case Close(b) => w.(closed := w.closed + {b})
    case Wake => w.(owed := w.owed - 1, wake := true)
    case Begin => w.(sched := if w.pending == [] then Parked else Reading(w.online.Keys, map[]))
    case ReadLoad(g) =>
      w.(sched := Reading(w.sched.todo - {g}, w.sched.loads[g := TrueLoad(w, g)]))
    case ReadDone =>
      w.(sched := if w.sched.loads == map[] then Parked else Visiting(w.sched.loads, 0, false))
    case Visit => AfterVisit(w, w.sched.loads, w.sched.i, w.sched.hit)
    case Claim =>
      var c := w.sched;
      w.(claim := w.claim[w.pending[c.i].sub := c.g], sched := Claimed(c.loads, c.i, c.hit, c.g, c.box))
    case Deliver => AfterDeliver(w, w.sched.loads, w.sched.i, w.sched.hit, w.sched.g, w.sched.box)
    case Unpark => w.(wake := false, sched := Ready)
  }

  /** The pass ends, goes on to the next request, drops a grader without an outbox, or holds the outbox
      of its choice. */
  ghost function AfterVisit(w: World, loads: Loads, i: nat, hit: bool): World
    requires 0 !in loads
  {
    if i >= |w.pending| then w.(sched := if hit then Ready else Parked)
    else
      var g := Pick(loads, w.pending[i].tags);
      if g == 0 then w.(sched := Visiting(loads, i + 1, hit))
      else if g !in w.outbox then w.(sched := Visiting(loads - {g}, i, hit))
      else w.(sched := Holding(Bump(loads, g), i, hit, g, w.outbox[g]))
  }

  /** The push is accepted, or refused, and then the claim is undone and its grader dropped. */
  function AfterDeliver(w: World, loads: Loads, i: nat, hit: bool, g: nat, box: nat): World
    requires i < |w.pending|
  {
    if box in w.closed then
      w.(claim := w.claim - {w.pending[i].sub}, sched := Visiting(loads - {g}, i, hit))
    else
      w.(pending := w.pending[..i] + w.pending[i + 1..], sched := Visiting(loads, i, true))
  }

  // ---------- The property ----------

  /** A grader is online, with an outbox that is as new as its registration. */
  predicate Available(w: World, g: nat) {
    g in w.online && g in w.outbox && g !in w.stale
  }

  /** A request could be handed out to a grader right now. */
  predicate Fits(w: World, k: nat, g: nat) {
    k < |w.pending| && Available(w, g) && Eligible(TrueLoad(w, g), w.pending[k].tags)
  }

  predicate Quiet(w: World) {
    !w.wake && w.owed == 0
  }

  /** Every available grader has its true load in the snapshot. */
  ghost predicate Tracked(w: World, loads: Loads) {
    forall g :: Available(w, g) ==> g in loads && loads[g] == TrueLoad(w, g)
  }

  /** ... except for one grader, whose load is already counted up for a claim that is still to come. */
  ghost predicate TrackedBut(w: World, loads: Loads, g: nat) {
    && g in loads
    && (forall k :: k != g && Available(w, k) ==> k in loads && loads[k] == TrueLoad(w, k))
    && (Available(w, g) ==> loads[g] == TrueLoad(w, g).(running := TrueLoad(w, g).running + 1))
  }

  /** The requests visited so far fit no grader of the snapshot. */
  ghost predicate Passed(w: World, loads: Loads, i: nat) {
    i <= |w.pending| && forall k :: 0 <= k < i ==> NoneEligible(loads, w.pending[k].tags)
  }

  /** What holds at each place of the scheduler as long as no wake-up is on its way. */
  ghost predicate Covered(w: World) {
    match w.sched
    case Ready => true
    case Reading(todo, loads) =>
      forall g :: g in loads && Available(w, g) ==> loads[g] == TrueLoad(w, g)
    case Visiting(loads, i, hit) => Tracked(w, loads) && Passed(w, loads, i)
    case Holding(loads, i, hit, g, box) =>
      TrackedBut(w, loads, g) && Passed(w, loads, i) && (g in w.outbox ==> w.outbox[g] == box)
    case Claimed(loads, i, hit, g, box) =>
      && Tracked(w, loads) && Passed(w, loads, i) && (g in w.outbox ==> w.outbox[g] == box)
      && g in loads && i < |w.pending| && w.pending[i].sub in w.claim && w.claim[w.pending[i].sub] == g
    case Parked => forall k, g :: !Fits(w, k, g)
  }

  predicate Unclaimed(w: World, k: nat)
    requires k < |w.pending|
  {
    w.pending[k].sub !in w.claim || (w.sched.Claimed? && k == w.sched.i)
  }

  /** What holds whatever wake-ups are on their way. */
  ghost predicate Sound(w: World) {
    && 0 !in w.online
    && (forall g :: g in w.outbox ==> w.outbox[g] < w.nextBox && w.outbox[g] !in w.closed)
    && (forall b :: b in w.closed ==> b < w.nextBox)
    && (forall k, l :: 0 <= k < l < |w.pending| ==> w.pending[k].sub != w.pending[l].sub)
    && (forall k :: 0 <= k < |w.pending| ==> Unclaimed(w, k))
    && (w.sched.Reading? ==> w.sched.todo <= w.online.Keys && w.sched.loads.Keys == w.online.Keys - w.sched.todo)
    && (w.sched.Visiting? ==> 0 !in w.sched.loads)
    && (w.sched.Holding? || w.sched.Claimed? ==> w.sched.g in w.sched.loads && 0 !in w.sched.loads && w.sched.i < |w.pending|)
  }

  ghost predicate WakeInv(w: World) {
    Sound(w) && (Quiet(w) ==> Covered(w))
  }

  // ---------- Counting claims ----------

  lemma ClaimOwned(claim: map<nat, nat>, s: nat, g: nat)
    requires s !in claim
    ensures |OwnedBy(claim[s := g], g)| == |OwnedBy(claim, g)| + 1
    ensures forall k :: k != g ==> OwnedBy(claim[s := g], k) == OwnedBy(claim, k)
  {
    assert OwnedBy(claim[s := g], g) == OwnedBy(claim, g) + {s};
    forall k | k != g ensures OwnedBy(claim[s := g], k) == OwnedBy(claim, k) {}
  }

  lemma UnclaimOwned(claim: map<nat, nat>, s: nat)
    requires s in claim
    ensures forall k :: k != claim[s] ==> OwnedBy(claim - {s}, k) == OwnedBy(claim, k)
  {
    forall k | k != claim[s] ensures OwnedBy(claim - {s}, k) == OwnedBy(claim, k) {}
  }

  // ---------- Every event keeps the invariant ----------

  lemma SoundKept(w: World, e: Event)
    requires Sound(w) && Can(w, e)
    ensures Sound(After(w, e))
  {
    hide Pick;
    match e
    case Push(_) => ListSound(w, e);
    case Dequeue(_) => ListSound(w, e);
    case Close(b) => CloseSound(w, b);
    case Visit => VisitSound(w);
    case Claim => ClaimSound(w);
    case Deliver => DeliverSound(w);
    case _ => OtherSound(w, e);
  }

  lemma ListSound(w: World, e: Event)
    requires Sound(w) && Can(w, e) && (e.Push? || e.Dequeue?)
    ensures Sound(After(w, e))
  {
    hide Pick;
    var n := After(w, e);
    forall l | 0 <= l < |n.pending| ensures Unclaimed(n, l) {
      if e.Dequeue? {
        assert Unclaimed(w, if l < e.k then l else l + 1);
      } else if l < |w.pending| {
        assert Unclaimed(w, l);
      }
    }
  }

  lemma CloseSound(w: World, b: nat)
    requires Sound(w) && Can(w, Close(b))
    ensures Sound(After(w, Close(b)))
  {
    hide Pick;
    var n := After(w, Close(b));
    forall g | g in w.outbox ensures w.outbox[g] !in n.closed { assert w.outbox[g] in w.outbox.Values; }
    forall k | 0 <= k < |w.pending| ensures Unclaimed(n, k) { assert Unclaimed(w, k); }
  }

  /** The scheduler goes on without a claim. */
  lemma MovedSound(w: World, n: World)
    requires Sound(w) && n == w.(sched := n.sched) && !w.sched.Claimed?
    requires || n.sched.Ready? || n.sched.Parked?
             || (n.sched.Visiting? && 0 !in n.sched.loads)
             || (n.sched.Holding? && n.sched.g in n.sched.loads && 0 !in n.sched.loads && n.sched.i < |n.pending|)
    ensures Sound(n)
  {
    forall k | 0 <= k < |w.pending| ensures Unclaimed(n, k) { assert Unclaimed(w, k); }
  }

  lemma VisitSound(w: World)
    requires Sound(w) && Can(w, Visit)
    ensures Sound(After(w, Visit))
  {
    hide Before, Eligible, NoneEligible, HasTags, Sound;
    MovedSound(w, After(w, Visit));
  }

  lemma ClaimSound(w: World)
    requires Sound(w) && Can(w, Claim)
    ensures Sound(After(w, Claim))
  {
    hide Pick;
    var n := After(w, Claim);
    forall k | 0 <= k < |w.pending| ensures Unclaimed(n, k) { assert Unclaimed(w, k); }
  }

  lemma DeliverSound(w: World)
    requires Sound(w) && Can(w, Deliver)
    ensures Sound(After(w, Deliver))
  {
    hide Pick;
    var n := After(w, Deliver);
    var i := w.sched.i;
    forall k | 0 <= k < |n.pending| ensures Unclaimed(n, k) {
      assert Unclaimed(w, if w.sched.box in w.closed || k < i then k else k + 1);
    }
  }

  lemma OtherSound(w: World, e: Event)
    requires Sound(w) && Can(w, e)
    requires !e.Push? && !e.Dequeue? && !e.Close? && !e.Visit? && !e.Claim? && !e.Deliver?
    ensures Sound(After(w, e))
  {
    hide Pick;
    var n := After(w, e);
    forall k | 0 <= k < |w.pending| ensures Unclaimed(n, k) { assert Unclaimed(w, k); }
  }

  lemma CoveredKept(w: World, e: Event)
    requires Sound(w) && Covered(w) && Can(w, e) && Quiet(w) && Quiet(After(w, e))
    ensures Covered(After(w, e))
  {
    hide Pick;
    match e
    case Dequeue(k) => DequeueCovered(w, k);
    case Register(_, _) => ShrunkCovered(w, After(w, e));
    case Offline(_) => ShrunkCovered(w, After(w, e));
    case DropBox(_) => ShrunkCovered(w, After(w, e));
    case Close(_) => ShrunkCovered(w, After(w, e));
    case Begin =>
    case ReadLoad(g) =>
    case ReadDone => ReadDoneCovered(w);
    case Visit => VisitCovered(w);
    case Claim => ClaimCovered(w);
    case Deliver => DeliverCovered(w);
  }

  lemma DequeueCovered(w: World, k: nat)
    requires Covered(w) && Can(w, Dequeue(k))
    ensures Covered(After(w, Dequeue(k)))
  {
    hide Pick;
    var n := After(w, Dequeue(k));
    forall l: nat, g: nat | w.sched.Parked? ensures !Fits(n, l, g) { assert !Fits(w, if l < k then l else l + 1, g); }
  }

  /** What the producers without a wake-up do makes no grader available that was not available before. */
  lemma ShrunkCovered(w: World, n: World)
    requires Covered(w)
    requires n == w.(online := n.online, outbox := n.outbox, stale := n.stale, closed := n.closed)
    requires forall g :: Available(n, g) ==> Available(w, g) && n.online[g] == w.online[g]
    requires forall g :: g in n.outbox ==> g in w.outbox && n.outbox[g] == w.outbox[g]
    ensures Covered(n)
  {
    forall k: nat, g: nat | w.sched.Parked? ensures !Fits(n, k, g) { assert !Fits(w, k, g); }
  }

  /** Graders that were dropped or have more to do fit no more than before. */
  lemma PassedShrinks(w: World, loads: Loads, less: Loads, i: nat)
    requires Passed(w, loads, i)
    requires forall g :: g in less ==> g in loads && loads[g] == less[g].(running := loads[g].running)
                                       && loads[g].running <= less[g].running
    ensures Passed(w, less, i)
  {
    forall k | 0 <= k < i ensures NoneEligible(less, w.pending[k].tags) {
      forall g | g in less ensures !Eligible(less[g], w.pending[k].tags) {
        assert !Eligible(loads[g], w.pending[k].tags);
      }
    }
  }

  /** When every request was visited, none fits. */
  lemma PassedAll(w: World, loads: Loads)
    requires Tracked(w, loads) && Passed(w, loads, |w.pending|)
    ensures forall k, g :: !Fits(w, k, g)
  {
    forall k: nat, g: nat ensures !Fits(w, k, g) {
      if k < |w.pending| && Available(w, g) {
        assert NoneEligible(loads, w.pending[k].tags);
      }
    }
  }

  lemma ReadDoneCovered(w: World)
    requires Sound(w) && Covered(w) && Can(w, ReadDone)
    ensures Covered(After(w, ReadDone))
  {
    var loads := w.sched.loads;
    assert loads.Keys == w.online.Keys;
    if loads == map[] {
      assert w.online.Keys == {};
    }
  }

  lemma VisitCovered(w: World)
    requires Sound(w) && Covered(w) && Can(w, Visit)
    ensures Covered(After(w, Visit))
  {
    var loads, i := w.sched.loads, w.sched.i;
    if i >= |w.pending| {
      PassedAll(w, loads);
      var n := After(w, Visit);
      forall k: nat, g: nat | n.sched.Parked? ensures !Fits(n, k, g) { assert !Fits(w, k, g); }
    } else {
      var g := Pick(loads, w.pending[i].tags);
      if g != 0 && g in w.outbox {
        HoldCovered(w, loads, i, g);
      } else if g != 0 {
        PassedShrinks(w, loads, loads - {g}, i);
      }
    }
  }

  lemma HoldCovered(w: World, loads: Loads, i: nat, g: nat)
    requires Tracked(w, loads) && Passed(w, loads, i) && g in loads
    ensures TrackedBut(w, Bump(loads, g), g) && Passed(w, Bump(loads, g), i)
  {
    PassedShrinks(w, loads, Bump(loads, g), i);
  }

  lemma ClaimCovered(w: World)
    requires Sound(w) && Covered(w) && Can(w, Claim)
    ensures Covered(After(w, Claim))
  {
    hide Pick;
    assert Unclaimed(w, w.sched.i);
    ClaimOwned(w.claim, w.pending[w.sched.i].sub, w.sched.g);
  }

  lemma DeliverCovered(w: World)
    requires Sound(w) && Covered(w) && Can(w, Deliver)
    ensures Covered(After(w, Deliver))
  {
    hide Pick, Eligible;
    UnclaimOwned(w.claim, w.pending[w.sched.i].sub);
  }

  lemma EventKeeps(w: World, e: Event)
    requires WakeInv(w) && Can(w, e)
    ensures WakeInv(After(w, e))
  {
    SoundKept(w, e);
    var n := After(w, e);
    if Quiet(n) {
      if e.Unpark? {
      } else {
        assert Quiet(w);
        CoveredKept(w, e);
      }
    }
  }

  // ---------- Runs ----------

  ghost predicate IsWakeRun(ws: seq<World>, events: seq<Event>) {
    && |ws| == |events| + 1 && ws[0] == INITIAL_WORLD
    && (forall i :: 0 <= i < |events| ==> Can(ws[i], events[i]) && ws[i + 1] == After(ws[i], events[i]))
  }

  lemma {:induction false} RunKeeps(ws: seq<World>, events: seq<Event>, i: nat)
    requires IsWakeRun(ws, events) && i < |ws|
    ensures WakeInv(ws[i])
  {
    hide After, Can, WakeInv;
    if i == 0 {
      InitialWakeInv();
    } else {
      RunKeeps(ws, events, i - 1);
      EventKeeps(ws[i - 1], events[i - 1]);
    }
  }

  lemma InitialWakeInv()
    ensures WakeInv(INITIAL_WORLD)
  {
  }

  /** No lost wake-up: in every state of every run in which the scheduler is parked, the slot is empty
      and no producer still owes a wake-up, no waiting request fits an online grader that has an
      outbox as new as its registration, and spare capacity. */
  lemma NoLostWakeup(ws: seq<World>, events: seq<Event>, i: nat, k: nat, g: nat)
    requires IsWakeRun(ws, events) && i < |ws|
    requires ws[i].sched.Parked? && !ws[i].wake && ws[i].owed == 0
    ensures !Fits(ws[i], k, g)
  {
    hide After, Can;
    RunKeeps(ws, events, i);
  }

  // ---------- Registering a grader that has an outbox ----------

  /** Where the scheduler is, registering a grader like this does not matter. */
  predicate Harmless(w: World, g: nat, info: GraderInfo) {
    var load := Load(info.concurrency, info.tags, |OwnedBy(w.claim, g)|);
    Quiet(w) && g in w.outbox ==>
      match w.sched
      case Ready => true
      case Reading(_, _) => true
      case Visiting(loads, _, _) => g in loads && loads[g] == load
      case Holding(loads, _, _, c, _) =>
        g in loads && loads[g] == if g == c then load.(running := load.running + 1) else load
      case Claimed(loads, _, _, _, _) => g in loads && loads[g] == load
      case Parked => forall k :: 0 <= k < |w.pending| ==> !Eligible(load, w.pending[k].tags)
  }

  /** The exact condition: when no grader is stale, a registered grader need not count as stale if
      and only if registering it is harmless. */
  lemma RegisterExact(w: World, g: nat, info: GraderInfo)
    requires WakeInv(w) && w.stale == {} && Can(w, Register(g, info))
    ensures WakeInv(After(w, Register(g, info)).(stale := {})) <==> Harmless(w, g, info)
  {
    var n := After(w, Register(g, info)).(stale := {});
    RegisterSound(w, n);
    if Quiet(w) {
      if g in w.outbox {
        RegisterCovered(w, n, g);
      } else {
        ShrunkCovered(w, n);
      }
    }
  }

  lemma RegisterSound(w: World, n: World)
    requires Sound(w) && n == w.(online := n.online, stale := n.stale) && 0 !in n.online && !w.sched.Reading?
    ensures Sound(n)
  {
    hide Pick;
    forall k | 0 <= k < |w.pending| ensures Unclaimed(n, k) { assert Unclaimed(w, k); }
  }

  lemma RegisterCovered(w: World, n: World, g: nat)
    requires Covered(w) && w.stale == {} && g in w.outbox && Quiet(w) && g in n.online
    requires n == w.(online := w.online[g := n.online[g]]) && !w.sched.Reading?
    ensures Covered(n) <==> Harmless(w, g, n.online[g])
  {
    assert Available(n, g) && TrueLoad(n, g) == Load(n.online[g].concurrency, n.online[g].tags, |OwnedBy(w.claim, g)|);
    assert forall k :: k != g ==> Available(n, k) == Available(w, k) && (Available(n, k) ==> TrueLoad(n, k) == TrueLoad(w, k));
    hide Eligible;
    if w.sched.Parked? {
      forall k: nat, h: nat | h != g ensures Fits(n, k, h) == Fits(w, k, h) {}
      forall k: nat ensures Fits(n, k, g) <==> k < |w.pending| && Eligible(TrueLoad(n, g), w.pending[k].tags) {}
    }
  }

  // ---------- ... in a run ----------

  ghost predicate WakeReachable(w: World) {
    exists ws: seq<World>, events: seq<Event> :: IsWakeRun(ws, events) && ws[|events|] == w
  }

  lemma WakeReachNext(w: World, e: Event)
    requires WakeReachable(w) && Can(w, e)
    ensures WakeReachable(After(w, e))
  {
    hide After, Can;
    var ws: seq<World>, events: seq<Event> :| IsWakeRun(ws, events) && ws[|events|] == w;
    var ws', events' := ws + [After(w, e)], events + [e];
    forall i | 0 <= i < |events'| ensures Can(ws'[i], events'[i]) && ws'[i + 1] == After(ws'[i], events'[i]) {
      if i < |events| {
        assert ws'[i] == ws[i] && ws'[i + 1] == ws[i + 1] && events'[i] == events[i];
      }
    }
    assert IsWakeRun(ws', events') && ws'[|events'|] == After(w, e);
  }

  lemma WakeReachInitial()
    ensures WakeReachable(INITIAL_WORLD)
  {
    var ws, events: seq<Event> := [INITIAL_WORLD], [];
    assert IsWakeRun(ws, events) && ws[|events|] == INITIAL_WORLD;
  }

  const REQUEST := Request(1, [])

  /** A heartbeat stream of a grader that is not registered leaves its outbox behind; a request waits,
      and the scheduler is parked. */
  lemma OrphanedOutbox() returns (w: World)
    ensures WakeReachable(w)
    ensures w == World([REQUEST], map[], map[], map[1 := 0], {}, {}, 1, false, 0, Parked)
  {
    hide WakeReachable;
    WakeReachInitial();
    WakeReachNext(INITIAL_WORLD, Connect(1));
    var w1 := After(INITIAL_WORLD, Connect(1));
    WakeReachNext(w1, Wake);
    var w2 := After(w1, Wake);
    WakeReachNext(w2, Push(REQUEST));
    var w3 := After(w2, Push(REQUEST));
    var w4 := FindsNobody(w3);
    WakeReachNext(w4, Unpark);
    w := FindsNobody(After(w4, Unpark));
  }

  /** A pass without an online grader parks. */
  lemma FindsNobody(w: World) returns (n: World)
    requires WakeReachable(w) && w.sched.Ready? && w.online == map[] && w.pending != []
    ensures WakeReachable(n) && n == w.(sched := Parked)
  {
    hide WakeReachable;
    WakeReachNext(w, Begin);
    var reading := After(w, Begin);
    assert reading.sched == Reading({}, map[]);
    WakeReachNext(reading, ReadDone);
    n := After(reading, ReadDone);
  }

  /** Registering that grader makes it fit, and wakes nobody: the scheduler sleeps on until the
      new heartbeat stream, or anything else, wakes it. */
  lemma RegisterWakesNobody() returns (w: World, n: World)
    ensures WakeReachable(w) && WakeReachable(n) && Can(w, Register(1, GraderInfo(1, []))) && n == After(w, Register(1, GraderInfo(1, [])))
    ensures n.sched.Parked? && Quiet(n) && n.stale == {1} && Fits(n.(stale := {}), 0, 1)
  {
    hide WakeReachable;
    w := OrphanedOutbox();
    WakeReachNext(w, Register(1, GraderInfo(1, [])));
    n := After(w, Register(1, GraderInfo(1, [])));
    assert OwnedBy(n.claim, 1) == {};
  }
}
