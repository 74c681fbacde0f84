/** One scheduling pass over the waiting list, with the queue lock held: it keeps the invariant,
    respects capacity and tags, leaves nothing behind that still fits, and never lets a later request
    overtake an earlier one on a grader the earlier one could have had. */
module SchedulePass {
  import opened Options
  import opened PendingQueue
  import opened Scheduling
  import opened HubModel
  import opened HubInvariant

  /** The loads are the true loads of the graders still in them. */
  ghost predicate Accurate(h: Hub, loads: Loads) {
    forall g :: g in loads ==>
      && g in h.online
      && loads[g] == Load(h.online[g].concurrency, h.online[g].tags, |Owned(h, g)|)
  }

  /** The entries still to visit are distinct and on the list. */
  ghost predicate Visitable(h: Hub, todo: seq<Entry>) {
    && Distinct(todo)
    && (forall i :: 0 <= i < |todo| ==> todo[i].req.sub in h.queue.index)
    && Listed(todo, h.accepted)
  }

  // ---------- One request ----------

  /** What the choice for one request tells: the chosen one is the least of those left, it took
      the request, and only graders that were offered the request and are gone were dropped. */
  ghost predicate Chosen(outbox: set<nat>, loads: Loads, req: Request, accepts: (nat, nat) -> bool, g: nat, after: Loads) {
    && after.Keys <= loads.Keys
    && (forall k :: k in loads && k !in after ==>
          Eligible(loads[k], req.tags) && !(k in outbox && accepts(req.sub, k)))
    && (forall k :: k in after && k != g ==> after[k] == loads[k])
    && (if g == 0 then NoneEligible(after, req.tags)
        else
          && g in after && g in outbox && accepts(req.sub, g)
          && Eligible(loads[g], req.tags) && after[g] == loads[g].(running := loads[g].running + 1)
          && (forall k :: k in after && Eligible(loads[k], req.tags) ==> Before(loads, g, k)))
  }

  lemma {:induction false} ChooseChosen(outbox: set<nat>, loads: Loads, req: Request, accepts: (nat, nat) -> bool)
    requires 0 !in loads
    ensures var (g, after) := Choose(outbox, loads, req, accepts); Chosen(outbox, loads, req, accepts, g, after)
    decreases |loads|
  {
    var g := Pick(loads, req.tags);
    if g != 0 && !(g in outbox && accepts(req.sub, g)) {
      var rest := loads - {g};
      assert rest.Keys + {g} == loads.Keys;
      ChooseChosen(outbox, rest, req, accepts);
    }
  }

  lemma AssignOwned(h: Hub, req: Request, g: nat)
    requires req.sub !in h.claim
    ensures |Owned(Assign(h, req, g), g)| == |Owned(h, g)| + 1
    ensures forall k :: k != g ==> Owned(Assign(h, req, g), k) == Owned(h, k)
  {
    var n := Assign(h, req, g);
    assert Owned(n, g) == Owned(h, g) + {req.sub};
    forall k | k != g ensures Owned(n, k) == Owned(h, k) {}
  }

  /** The state and the loads after the first entry was visited. */
  ghost function Visit(h: Hub, loads: Loads, req: Request, accepts: (nat, nat) -> bool): (r: (Hub, Loads))
    requires 0 !in loads
    ensures r.1.Keys <= loads.Keys
  {
    var (g, after) := Choose(h.outbox.Keys, loads, req, accepts);
    (if g == 0 then h else Assign(h, req, g), after)
  }

  /** The request went to a grader with its tags and with spare capacity, which accepted it. */
  ghost predicate Granted(loads: Loads, outbox: set<nat>, accepts: (nat, nat) -> bool, req: Request, claim: map<nat, nat>) {
    && req.sub in claim && claim[req.sub] in loads && claim[req.sub] in outbox
    && Eligible(loads[claim[req.sub]], req.tags) && accepts(req.sub, claim[req.sub])
  }

  /** Loads only lose graders, and the others only fill up. */
  ghost predicate Shrunk(loads: Loads, after: Loads) {
    forall k :: k in after ==>
      && k in loads && after[k].concurrency == loads[k].concurrency && after[k].tags == loads[k].tags
      && after[k].running >= loads[k].running
  }

  /** What a visit does: either nothing, and then the request fits none of the graders left, or it
      takes the request off the list and gives it an owner. */
  ghost predicate Visited(h: Hub, loads: Loads, req: Request, accepts: (nat, nat) -> bool, n: Hub, after: Loads) {
    && n.online == h.online && n.outbox.Keys == h.outbox.Keys && n.accepted == h.accepted
    && Shrunk(loads, after)
    && (if req.sub in n.queue.index then n == h && NoneEligible(after, req.tags)
        else
          && n.queue.index == h.queue.index - {req.sub}
          && Granted(loads, h.outbox.Keys, accepts, req, n.claim)
          && n.claim == h.claim[req.sub := n.claim[req.sub]])
  }

  lemma VisitVisited(h: Hub, loads: Loads, req: Request, accepts: (nat, nat) -> bool)
    requires Inv(h) && 0 !in loads && req.sub in h.queue.index
    ensures var (n, after) := Visit(h, loads, req, accepts); Visited(h, loads, req, accepts, n, after)
  {
    hide Choose, Core, Listed;
    ChooseChosen(h.outbox.Keys, loads, req, accepts);
    RemoveOk(h.queue, req.sub);
  }

  lemma VisitInv(h: Hub, loads: Loads, todo: seq<Entry>, accepts: (nat, nat) -> bool)
    requires Inv(h) && 0 !in loads && Visitable(h, todo) && todo != []
    ensures var (n, after) := Visit(h, loads, todo[0].req, accepts);
            && Inv(n) && Visitable(n, todo[1..]) && todo[0].req.sub !in h.claim
            && Visited(h, loads, todo[0].req, accepts, n, after)
  {
    var req := todo[0].req;
    var (g, after) := Choose(h.outbox.Keys, loads, req, accepts);
    assert req.sub !in h.claim by { assert SubOk(h, req.sub); }
    VisitVisited(h, loads, req, accepts);
    hide Choose, Inv, Chosen;
    ChooseChosen(h.outbox.Keys, loads, req, accepts);
    if g != 0 {
      assert g in h.outbox by { ChosenOnline(h.outbox.Keys, loads, req, accepts, g, after); }
      AssignInv(h, req, g);
    }
  }

  lemma ChosenOnline(outbox: set<nat>, loads: Loads, req: Request, accepts: (nat, nat) -> bool, g: nat, after: Loads)
    requires Chosen(outbox, loads, req, accepts, g, after) && g != 0
    ensures g in outbox
  {
  }

  lemma VisitAccurate(h: Hub, loads: Loads, req: Request, accepts: (nat, nat) -> bool)
    requires 0 !in loads && Accurate(h, loads) && req.sub !in h.claim
    ensures var (n, after) := Visit(h, loads, req, accepts); Accurate(n, after)
  {
    var (g, after) := Choose(h.outbox.Keys, loads, req, accepts);
    ChooseChosen(h.outbox.Keys, loads, req, accepts);
    if g != 0 {
      AssignOwned(h, req, g);
    }
  }

  // ---------- The whole pass ----------

  /** The pass keeps the invariant and the elements that stay on the list; the claims it does not add
      stay; and at its end the loads are again the true loads. */
  lemma {:induction false} PassFromKeeps(h: Hub, loads: Loads, todo: seq<Entry>, accepts: (nat, nat) -> bool)
    requires Inv(h) && 0 !in loads && Visitable(h, todo)
    ensures var (n, after) := PassFrom(h, loads, todo, accepts);
            && Inv(n) && n.online == h.online && n.outbox.Keys == h.outbox.Keys && n.accepted == h.accepted
            && Shrunk(loads, after)
            && (forall s :: s in n.queue.index ==> s in h.queue.index && n.queue.index[s] == h.queue.index[s])
            && (forall s :: s in h.queue.index && s !in n.queue.index ==>
                  s in n.claim && exists i :: 0 <= i < |todo| && todo[i].req.sub == s)
            && (forall s :: s in h.claim ==> s in n.claim && n.claim[s] == h.claim[s])
            && (forall s :: s in n.claim ==> s in h.claim || s in h.queue.index)
    decreases |todo|
  {
    hide Inv, Choose, Assign;
    if todo != [] {
      VisitInv(h, loads, todo, accepts);
      var (n, after) := Visit(h, loads, todo[0].req, accepts);
      PassFromKeeps(n, after, todo[1..], accepts);
    }
  }

  lemma {:induction false} PassFromAccurate(h: Hub, loads: Loads, todo: seq<Entry>, accepts: (nat, nat) -> bool)
    requires Inv(h) && 0 !in loads && Visitable(h, todo) && Accurate(h, loads)
    ensures var (n, after) := PassFrom(h, loads, todo, accepts); Accurate(n, after)
    decreases |todo|
  {
    hide Inv, Choose, Assign;
    if todo != [] {
      VisitInv(h, loads, todo, accepts);
      VisitAccurate(h, loads, todo[0].req, accepts);
      var (n, after) := Visit(h, loads, todo[0].req, accepts);
      PassFromAccurate(n, after, todo[1..], accepts);
    }
  }

  /** The pass is maximal: a request it leaves on the list fits no grader left in the loads. */
  lemma {:induction false} PassFromMaximal(h: Hub, loads: Loads, todo: seq<Entry>, accepts: (nat, nat) -> bool)
    requires Inv(h) && 0 !in loads && Visitable(h, todo)
    ensures var (n, after) := PassFrom(h, loads, todo, accepts);
            forall i :: 0 <= i < |todo| && todo[i].req.sub in n.queue.index ==> NoneEligible(after, todo[i].req.tags)
    decreases |todo|
  {
    hide Inv, Choose, Assign;
    if todo != [] {
      VisitInv(h, loads, todo, accepts);
      var (n, after) := Visit(h, loads, todo[0].req, accepts);
      PassFromMaximal(n, after, todo[1..], accepts);
      PassFromKeeps(n, after, todo[1..], accepts);
    }
  }

  /** Whoever leaves the list was granted. */
  lemma {:induction false} PassFromGrants(h: Hub, loads: Loads, todo: seq<Entry>, accepts: (nat, nat) -> bool)
    requires Inv(h) && 0 !in loads && Visitable(h, todo)
    ensures var n := PassFrom(h, loads, todo, accepts).0;
            forall i :: 0 <= i < |todo| && todo[i].req.sub !in n.queue.index ==>
              Granted(loads, h.outbox.Keys, accepts, todo[i].req, n.claim)
    decreases |todo|
  {
    hide Inv, Choose, Assign;
    if todo != [] {
      VisitInv(h, loads, todo, accepts);
      var (n, after) := Visit(h, loads, todo[0].req, accepts);
      var rest := todo[1..];
      var end := PassFrom(n, after, rest, accepts).0;
      PassFromGrants(n, after, rest, accepts);
      assert todo[0].req.sub !in end.queue.index ==> Granted(loads, h.outbox.Keys, accepts, todo[0].req, end.claim) by {
        PassFromKeeps(n, after, rest, accepts);
      }
      forall i | 1 <= i < |todo| && todo[i].req.sub !in end.queue.index
        ensures Granted(loads, h.outbox.Keys, accepts, todo[i].req, end.claim)
      {
        assert todo[i] == rest[i - 1];
        assert Granted(after, n.outbox.Keys, accepts, todo[i].req, end.claim);
      }
    }
  }

  /** No priority inversion: when a later request is given to a grader and an earlier one stays on the
      list, that grader lacks one of the earlier request's tags. */
  lemma {:induction false} PassFromNoInversion(h: Hub, loads: Loads, todo: seq<Entry>, accepts: (nat, nat) -> bool)
    requires Inv(h) && 0 !in loads && Visitable(h, todo)
    ensures var n := PassFrom(h, loads, todo, accepts).0;
            forall i, j :: 0 <= i < j < |todo| && todo[i].req.sub in n.queue.index && todo[j].req.sub !in n.queue.index ==>
              && todo[j].req.sub in n.claim && n.claim[todo[j].req.sub] in loads
              && !HasTags(loads[n.claim[todo[j].req.sub]].tags, todo[i].req.tags)
    decreases |todo|
  {
    hide Inv, Choose, Assign;
    if todo != [] {
      VisitInv(h, loads, todo, accepts);
      var (n, after) := Visit(h, loads, todo[0].req, accepts);
      var rest := todo[1..];
      var end := PassFrom(n, after, rest, accepts).0;
      PassFromGrants(n, after, rest, accepts);
      PassFromNoInversion(n, after, rest, accepts);
      assert forall s :: s in end.queue.index ==> s in n.queue.index by { PassFromKeeps(n, after, rest, accepts); }
      forall i, j | 0 <= i < j < |todo| && todo[i].req.sub in end.queue.index && todo[j].req.sub !in end.queue.index
        ensures && todo[j].req.sub in end.claim && end.claim[todo[j].req.sub] in loads
                && !HasTags(loads[end.claim[todo[j].req.sub]].tags, todo[i].req.tags)
      {
        assert todo[j] == rest[j - 1];
        assert Granted(after, n.outbox.Keys, accepts, todo[j].req, end.claim);
        if i > 0 {
          assert todo[i] == rest[i - 1];
        }
      }
    }
  }

  /** Only graders that were offered a request and are gone are dropped from the loads. */
  lemma {:induction false} PassFromDrops(h: Hub, loads: Loads, todo: seq<Entry>, accepts: (nat, nat) -> bool)
    requires 0 !in loads
    ensures var after := PassFrom(h, loads, todo, accepts).1;
            forall g :: g in loads && g !in after ==>
              g !in h.outbox || exists i :: 0 <= i < |todo| && !accepts(todo[i].req.sub, g)
    decreases |todo|
  {
    hide Choose;
    if todo != [] {
      ChooseChosen(h.outbox.Keys, loads, todo[0].req, accepts);
      var (n, after) := Visit(h, loads, todo[0].req, accepts);
      PassFromDrops(n, after, todo[1..], accepts);
      var end := PassFrom(n, after, todo[1..], accepts).1;
      forall g | g in loads && g !in end && g in h.outbox
        ensures exists i :: 0 <= i < |todo| && !accepts(todo[i].req.sub, g)
      {
        if g in after {
          assert g in n.outbox;
          var i :| 0 <= i < |todo[1..]| && !accepts(todo[1..][i].req.sub, g);
          assert todo[i + 1] == todo[1..][i];
        }
      }
    }
  }

  /** No grader ends above its concurrency, unless it was above it from the start; a grader that is not
      in the loads gets nothing. */
  lemma {:induction false} PassFromCapacity(h: Hub, loads: Loads, todo: seq<Entry>, accepts: (nat, nat) -> bool, g: nat)
    requires Inv(h) && 0 !in loads && Visitable(h, todo) && Accurate(h, loads)
    ensures var n := PassFrom(h, loads, todo, accepts).0;
            |Owned(n, g)| <= |Owned(h, g)| || (g in loads && |Owned(n, g)| <= loads[g].concurrency)
    decreases |todo|
  {
    hide Inv, Choose;
    if todo != [] {
      var req := todo[0].req;
      VisitInv(h, loads, todo, accepts);
      VisitAccurate(h, loads, req, accepts);
      ChooseChosen(h.outbox.Keys, loads, req, accepts);
      var (n, after) := Visit(h, loads, req, accepts);
      PassFromCapacity(n, after, todo[1..], accepts, g);
      if n != h {
        AssignOwned(h, req, n.claim[req.sub]);
      }
    }
  }

  /** What one request adds to the outbox of a grader, given who owns it in the end. */
  function GivenOne(req: Request, n: Hub, g: nat): seq<Item> {
    if req.sub !in n.queue.index && req.sub in n.claim && n.claim[req.sub] == g then [Grade(req)] else []
  }

  /** The requests of a list that are given to a grader in the end, in the order of the list. */
  function Given(list: seq<Entry>, n: Hub, g: nat): seq<Item> {
    if list == [] then [] else GivenOne(list[0].req, n, g) + Given(list[1..], n, g)
  }

  /** One visit puts the request into the outbox of its new owner, behind what is there. */
  lemma VisitDelivers(h: Hub, loads: Loads, req: Request, accepts: (nat, nat) -> bool, g: nat)
    requires Inv(h) && 0 !in loads && req.sub in h.queue.index
    ensures var n := Visit(h, loads, req, accepts).0;
            && (g in n.outbox <==> g in h.outbox)
            && (g in h.outbox ==> n.outbox[g] == h.outbox[g] + GivenOne(req, n, g))
  {
    ChooseChosen(h.outbox.Keys, loads, req, accepts);
    RemoveOk(h.queue, req.sub);
    hide Choose, Core, Listed, Ok;
  }

  lemma PassStep(h: Hub, loads: Loads, todo: seq<Entry>, accepts: (nat, nat) -> bool)
    requires 0 !in loads && todo != []
    ensures var (n, after) := Visit(h, loads, todo[0].req, accepts);
            PassFrom(h, loads, todo, accepts) == PassFrom(n, after, todo[1..], accepts)
  {
    hide Choose, Assign;
  }

  /** What the first visit does is not undone later. */
  lemma FirstGiven(h: Hub, loads: Loads, todo: seq<Entry>, accepts: (nat, nat) -> bool, g: nat)
    requires Inv(h) && 0 !in loads && Visitable(h, todo) && todo != []
    ensures var n := Visit(h, loads, todo[0].req, accepts).0;
            GivenOne(todo[0].req, n, g) == GivenOne(todo[0].req, PassFrom(h, loads, todo, accepts).0, g)
  {
    hide Inv, Choose, Assign;
    VisitInv(h, loads, todo, accepts);
    var (n, after) := Visit(h, loads, todo[0].req, accepts);
    PassFromKeeps(n, after, todo[1..], accepts);
  }

  /** Each outbox keeps what it held, and what its grader is given is put behind that, in the order of the
      list; nothing else is put in. */
  lemma {:induction false} PassFromDelivers(h: Hub, loads: Loads, todo: seq<Entry>, accepts: (nat, nat) -> bool, g: nat)
    requires Inv(h) && 0 !in loads && Visitable(h, todo)
    ensures var n := PassFrom(h, loads, todo, accepts).0;
            && (g in n.outbox <==> g in h.outbox)
            && (g in h.outbox ==> n.outbox[g] == h.outbox[g] + Given(todo, n, g))
    decreases |todo|
  {
    hide Inv, Visit, GivenOne;
    if todo != [] {
      hide PassFrom;
      var (n, after) := Visit(h, loads, todo[0].req, accepts);
      VisitInv(h, loads, todo, accepts);
      VisitDelivers(h, loads, todo[0].req, accepts, g);
      PassStep(h, loads, todo, accepts);
      FirstGiven(h, loads, todo, accepts, g);
      PassFromDelivers(n, after, todo[1..], accepts, g);
    }
  }

  /** A pass writes nothing to the store but claims, and it touches no thread, marker or brief. */
  lemma {:induction false} PassFromFrame(h: Hub, loads: Loads, todo: seq<Entry>, accepts: (nat, nat) -> bool)
    requires 0 !in loads
    ensures var n := PassFrom(h, loads, todo, accepts).0;
            n == h.(queue := n.queue, running := n.running, outbox := n.outbox, claim := n.claim)
    decreases |todo|
  {
    hide Choose, Remove;
    if todo != [] {
      var (n, after) := Visit(h, loads, todo[0].req, accepts);
      PassFromFrame(n, after, todo[1..], accepts);
    }
  }

  // ---------- What a pass of the hub does ----------

  lemma PassStarts(h: Hub)
    requires Inv(h)
    ensures 0 !in Snapshot(h) && Accurate(h, Snapshot(h)) && Visitable(h, h.queue.list)
  {
    SubsDistinct(h.queue);
  }

  lemma PassInv(h: Hub, accepts: (nat, nat) -> bool)
    requires Inv(h)
    ensures Inv(Pass(h, accepts).0)
  {
    PassStarts(h);
    PassFromKeeps(h, Snapshot(h), h.queue.list, accepts);
  }

  /** A pass conserves work: afterwards, no request still waiting fits an online grader that has an
      outbox, was not lost during the pass, has the tags, and owns fewer submissions than its
      concurrency. */
  lemma PassConservesWork(h: Hub, accepts: (nat, nat) -> bool, s: nat, g: nat)
    requires Inv(h)
    ensures var n := Pass(h, accepts).0;
            s in n.queue.index && s in n.accepted && g in n.online && g in n.outbox
            && (forall t :: t in h.queue.index ==> accepts(t, g)) ==>
              !(|Owned(n, g)| < n.online[g].concurrency && HasTags(n.online[g].tags, n.accepted[s].tags))
  {
    hide PassFrom;
    var loads, todo := Snapshot(h), h.queue.list;
    var (n, after) := PassFrom(h, loads, todo, accepts);
    PassStarts(h);
    PassFromKeeps(h, loads, todo, accepts);
    if s in n.queue.index && g in n.online && g in n.outbox && forall t :: t in h.queue.index ==> accepts(t, g) {
      PassFromDrops(h, loads, todo, accepts);
      PassFromAccurate(h, loads, todo, accepts);
      PassFromMaximal(h, loads, todo, accepts);
      var i := Find(todo, h.queue.index[s]);
      assert todo[i].req.sub == s && n.accepted[s] == todo[i].req;
      assert g in after && NoneEligible(after, todo[i].req.tags);
    }
  }

  /** Every submission a pass takes off the list goes to an online grader with its tags, within the
      grader's concurrency; every other one stays in its element, unclaimed. */
  lemma PassAssigns(h: Hub, accepts: (nat, nat) -> bool, s: nat)
    requires Inv(h) && s in h.queue.index
    ensures s in h.accepted
    ensures var n := Pass(h, accepts).0;
            if s in n.queue.index then s !in n.claim && n.queue.index[s] == h.queue.index[s]
            else
              && s in n.claim && n.claim[s] in h.online && n.claim[s] in h.outbox && accepts(s, n.claim[s])
              && HasTags(h.online[n.claim[s]].tags, h.accepted[s].tags)
              && |Owned(n, n.claim[s])| <= h.online[n.claim[s]].concurrency
  {
    hide PassFrom;
    var loads, todo := Snapshot(h), h.queue.list;
    var (n, after) := PassFrom(h, loads, todo, accepts);
    PassStarts(h);
    assert SubOk(h, s);
    PassFromKeeps(h, loads, todo, accepts);
    assert SubOk(n, s);
    var i := Find(todo, h.queue.index[s]);
    assert todo[i].req.sub == s;
    PassFromGrants(h, loads, todo, accepts);
    if s !in n.queue.index {
      assert Granted(loads, h.outbox.Keys, accepts, todo[i].req, n.claim);
      PassFromCapacity(h, loads, todo, accepts, n.claim[s]);
    }
  }

  /** ... and when a later submission goes to a grader while an earlier one stays, its new
      owner lacks one of the earlier one's tags. */
  lemma PassKeepsPriority(h: Hub, accepts: (nat, nat) -> bool, s: nat, t: nat)
    requires Inv(h) && s in h.queue.index && t in h.queue.index && h.queue.index[s] < h.queue.index[t]
    ensures s in h.accepted
    ensures var n := Pass(h, accepts).0;
            s in n.queue.index && t !in n.queue.index ==>
              t in n.claim && n.claim[t] in h.online && !HasTags(h.online[n.claim[t]].tags, h.accepted[s].tags)
  {
    hide PassFrom;
    var todo := h.queue.list;
    PassStarts(h);
    var i, j := Find(todo, h.queue.index[s]), Find(todo, h.queue.index[t]);
    assert todo[i].req.sub == s && todo[j].req.sub == t;
    assert i < j;
    PassFromNoInversion(h, Snapshot(h), todo, accepts);
  }

  /** What a pass gives away is delivered: every outbox holds exactly what it held before, followed by the
      requests its grader was given, once each and in the order of the list. */
  lemma PassDelivers(h: Hub, accepts: (nat, nat) -> bool, g: nat)
    requires Inv(h)
    ensures var n := Pass(h, accepts).0;
            && (g in n.outbox <==> g in h.outbox)
            && (g in h.outbox ==> n.outbox[g] == h.outbox[g] + Given(h.queue.list, n, g))
            && (forall i :: 0 <= i < |h.queue.list| ==>
                  h.queue.list[i].req.sub in h.accepted && h.queue.list[i].req == h.accepted[h.queue.list[i].req.sub])
  {
    PassStarts(h);
    PassFromDelivers(h, Snapshot(h), h.queue.list, accepts, g);
  }

  /** ... and every outbox is as it was when its grader was given nothing. */
  lemma {:induction false} NothingGiven(list: seq<Entry>, n: Hub, g: nat)
    requires forall i :: 0 <= i < |list| ==>
      list[i].req.sub in n.queue.index || list[i].req.sub !in n.claim || n.claim[list[i].req.sub] != g
    ensures Given(list, n, g) == []
  {
    if list != [] {
      NothingGiven(list[1..], n, g);
    }
  }
}
