/** The scheduler goroutine comes to rest: when its producers leave it alone it goes through its passes,
    answers a wake-up that is in the slot, and parks with nothing left that it could hand out. */
module SchedulerRest {
  import opened PendingQueue
  import opened Scheduling
  import opened SchedulerWakeup

  /** What the scheduler does by itself. */
  predicate Own(e: Event) {
    e.Begin? || e.ReadLoad? || e.ReadDone? || e.Visit? || e.Claim? || e.Deliver? || e.Unpark?
  }

  predicate AtRest(w: World) {
    w.sched.Parked? && !w.wake
  }

  ghost predicate OwnStep(w: World, n: World) {
    exists e :: Own(e) && Can(w, e) && n == After(w, e)
  }

  /** It can always go on until it is at rest. */
  lemma GoesOn(w: World) returns (e: Event)
    requires Sound(w) && !AtRest(w)
    ensures Own(e) && Can(w, e)
  {
    match w.sched
    case Ready => e := Begin;
    case Reading(todo, _) =>
      if todo == {} {
        e := ReadDone;
      } else {
        var g :| g in todo;
        e := ReadLoad(g);
      }
    case Visiting(_, _, _) => e := Visit;
    case Holding(_, _, _, _, _) => e := SchedulerWakeup.Claim;
    case Claimed(_, _, _, _, _) => e := Deliver;
    case Parked => e := Unpark;
  }

  // ---------- What is left to do ----------

  predicate Visits(w: World) {
    w.sched.Visiting? || w.sched.Holding? || w.sched.Claimed?
  }

  function Wakeups(w: World): nat {
    if w.wake then 1 else 0
  }

  /** A pass that made progress leads to another one, with fewer requests. */
  function Passes(w: World): nat {
    |w.pending| + if Visits(w) && w.sched.hit then 1 else 0
  }

  function Phase(w: World): nat {
    match w.sched
    case Ready => 3
    case Reading(_, _) => 2
    case Parked => 0
    case _ => 1
  }

  /** Every round of a visit passes a request, drops a grader, or hands a request out. */
  function Rounds(w: World): nat {
    if w.sched.Reading? then |w.sched.todo|
    else if Visits(w) then (if w.sched.i <= |w.pending| then |w.pending| - w.sched.i else 0) + |w.sched.loads|
    else 0
  }

  function Moves(w: World): nat {
    match w.sched
    case Visiting(_, _, _) => 2
    case Holding(_, _, _, _, _) => 1
    case _ => 0
  }

  predicate Nearer(n: World, w: World) {
    || Wakeups(n) < Wakeups(w)
    || (Wakeups(n) == Wakeups(w) && Passes(n) < Passes(w))
    || (Wakeups(n) == Wakeups(w) && Passes(n) == Passes(w) && Phase(n) < Phase(w))
    || (Wakeups(n) == Wakeups(w) && Passes(n) == Passes(w) && Phase(n) == Phase(w) && Rounds(n) < Rounds(w))
    || (Wakeups(n) == Wakeups(w) && Passes(n) == Passes(w) && Phase(n) == Phase(w) && Rounds(n) == Rounds(w) && Moves(n) < Moves(w))
  }

  lemma DroppedFewer(loads: Loads, g: nat)
    requires g in loads
    ensures |loads - {g}| < |loads|
  {
    assert (loads - {g}).Keys == loads.Keys - {g};
  }

  lemma BumpSize(loads: Loads, g: nat)
    requires g in loads
    ensures |Bump(loads, g)| == |loads|
  {
    assert Bump(loads, g).Keys == loads.Keys;
  }

  /** A visit ends the pass, or leaves fewer rounds or fewer moves to do. */
  lemma MovedNearer(w: World, n: World)
    requires w.sched.Visiting? && n == w.(sched := n.sched)
    requires || (n.sched.Ready? && w.sched.hit)
             || (n.sched.Parked? && !w.sched.hit)
             || (n.sched == Visiting(w.sched.loads, w.sched.i + 1, w.sched.hit) && w.sched.i < |w.pending|)
             || (n.sched.Visiting? && n.sched.i == w.sched.i && n.sched.hit == w.sched.hit && |n.sched.loads| < |w.sched.loads|)
             || (n.sched.Holding? && n.sched.i == w.sched.i && n.sched.hit == w.sched.hit && |n.sched.loads| == |w.sched.loads|)
    ensures Nearer(n, w)
  {
  }

  lemma VisitNearer(w: World)
    requires Can(w, Visit)
    ensures Nearer(After(w, Visit), w)
  {
    hide Nearer, Eligible, NoneEligible, HasTags, Before, Bump;
    var loads, i := w.sched.loads, w.sched.i;
    if i < |w.pending| {
      var g := Pick(loads, w.pending[i].tags);
      if g != 0 {
        DroppedFewer(loads, g);
        BumpSize(loads, g);
      }
    }
    MovedNearer(w, After(w, Visit));
  }

  lemma ChosenInLoads(w: World)
    requires Sound(w) && Can(w, Deliver)
    ensures w.sched.Claimed? && w.sched.g in w.sched.loads
  {
  }

  lemma DeliverNearer(w: World)
    requires Can(w, Deliver) && w.sched.g in w.sched.loads
    ensures Nearer(After(w, Deliver), w)
  {
    hide Pick;
    DroppedFewer(w.sched.loads, w.sched.g);
  }

  lemma LoadNearer(w: World, g: nat)
    requires Can(w, ReadLoad(g))
    ensures Nearer(After(w, ReadLoad(g)), w)
  {
    hide Pick;
  }

  lemma OtherNearer(w: World, e: Event)
    requires Own(e) && Can(w, e) && !e.Visit? && !e.Deliver? && !e.ReadLoad?
    ensures Nearer(After(w, e), w)
  {
    hide Pick;
  }

  lemma OwnNearer(w: World, e: Event)
    requires Sound(w) && Own(e) && Can(w, e)
    ensures Nearer(After(w, e), w)
  {
    hide Nearer, After, Can, Own;
    if e.Visit? {
      VisitNearer(w);
    } else if e.Deliver? {
      ChosenInLoads(w);
      DeliverNearer(w);
    } else if e.ReadLoad? {
      LoadNearer(w, e.g);
    } else {
      OtherNearer(w, e);
    }
  }

  // ---------- What it does on the way ----------

  /** A request leaves the list only when an open outbox accepted it, a claim is made only for the request
      it visits and undone only when the outbox refused it, and nothing else of the world changes. */
  lemma HandsOut(w: World, e: Event)
    requires Sound(w) && Own(e) && Can(w, e)
    ensures var n := After(w, e); var c := w.sched;
            && n == w.(pending := n.pending, claim := n.claim, wake := n.wake, sched := n.sched)
            && (n.wake == w.wake || w.sched.Parked?)
            && (|| (n.pending == w.pending && n.claim == w.claim)
                || (&& c.Holding? && n.pending == w.pending && n.claim == w.claim[w.pending[c.i].sub := c.g])
                || (&& c.Claimed? && c.box in w.closed
                    && n.pending == w.pending && n.claim == w.claim - {w.pending[c.i].sub})
                || (&& c.Claimed? && c.box !in w.closed
                    && n.pending == w.pending[..c.i] + w.pending[c.i + 1..] && n.claim == w.claim))
  {
    hide Pick;
  }

  // ---------- At rest ----------

  /** A run in which the scheduler is left alone: it does something until it is at rest. */
  ghost predicate StepAt(ws: nat -> World, k: nat) {
    if AtRest(ws(k)) then ws(k + 1) == ws(k) else OwnStep(ws(k), ws(k + 1))
  }

  ghost predicate Alone(ws: nat -> World) {
    forall k: nat :: StepAt(ws, k)
  }

  lemma OwnOwesNothing(w: World, e: Event)
    requires Own(e) && Can(w, e)
    ensures After(w, e).owed == w.owed
  {
    hide Pick;
  }

  lemma {:induction false} RestsFrom(ws: nat -> World, from: nat) returns (k: nat)
    requires Alone(ws) && WakeInv(ws(from)) && ws(from).owed == 0
    ensures AtRest(ws(k)) && WakeInv(ws(k)) && ws(k).owed == 0
    decreases Wakeups(ws(from)), Passes(ws(from)), Phase(ws(from)), Rounds(ws(from)), Moves(ws(from))
  {
    hide Can, After, Own, WakeInv, Wakeups, Passes, Phase, Rounds, Moves;
    k := from;
    if !AtRest(ws(from)) {
      assert StepAt(ws, from);
      var e :| Own(e) && Can(ws(from), e) && ws(from + 1) == After(ws(from), e);
      EventKeeps(ws(from), e);
      OwnOwesNothing(ws(from), e);
      WakeSound(ws(from));
      OwnNearer(ws(from), e);
      k := RestsFrom(ws, from + 1);
    }
  }

  lemma WakeSound(w: World)
    requires WakeInv(w)
    ensures Sound(w)
  {
  }

  /** Whatever was going on when its producers stopped, with every wake-up they owed given: the scheduler
      comes to rest, and then nothing that waits fits anybody. */
  lemma ComesToRest(ws: nat -> World) returns (k: nat)
    requires Alone(ws) && WakeInv(ws(0)) && ws(0).owed == 0
    ensures AtRest(ws(k)) && forall l, g :: !SchedulerWakeup.Fits(ws(k), l, g)
  {
    hide Can, After, StepAt, SchedulerWakeup.Fits;
    k := RestsFrom(ws, 0);
  }
}
