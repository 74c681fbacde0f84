/** Choosing a grader for a request from a snapshot of the online graders' loads. */
module Scheduling {
  datatype Load = Load(concurrency: nat, tags: seq<string>, running: nat)

  type Loads = map<nat, Load>

  /** Every requested tag is among those of a grader. */
  predicate HasTags(graderTags: seq<string>, requestTags: seq<string>) {
    forall i :: 0 <= i < |requestTags| ==> requestTags[i] in graderTags
  }

  predicate Eligible(load: Load, requestTags: seq<string>) {
    load.running < load.concurrency && HasTags(load.tags, requestTags)
  }

  /** Grader `a` comes before grader `b`: fewer running submissions, then the smaller id. */
  predicate Before(loads: Loads, a: nat, b: nat)
    requires a in loads && b in loads
  {
    loads[a].running < loads[b].running || (loads[a].running == loads[b].running && a <= b)
  }

  ghost predicate NoneEligible(loads: Loads, tags: seq<string>) {
    forall g :: g in loads ==> !Eligible(loads[g], tags)
  }

  /** `g` is eligible and comes before every other eligible grader. */
  ghost predicate Least(loads: Loads, tags: seq<string>, g: nat) {
    && g in loads && Eligible(loads[g], tags)
    && (forall h :: h in loads && Eligible(loads[h], tags) ==> Before(loads, g, h))
  }

  lemma {:induction false} LeastExists(loads: Loads, tags: seq<string>) returns (g: nat)
    requires !NoneEligible(loads, tags)
    ensures Least(loads, tags, g)
    decreases |loads|
  {
    var e :| e in loads && Eligible(loads[e], tags);
    var rest := loads - {e};
    assert loads.Keys == rest.Keys + {e};
    if NoneEligible(rest, tags) {
      forall h | h in loads && Eligible(loads[h], tags)
        ensures Before(loads, e, h)
      {
        assert h !in rest;
      }
      g := e;
    } else {
      var b := LeastExists(rest, tags);
      g := if Before(loads, e, b) then e else b;
      forall h | h in loads && Eligible(loads[h], tags)
        ensures Before(loads, g, h)
      {
        assert h != e ==> h in rest && rest[h] == loads[h];
      }
    }
  }

  /** The eligible grader with the fewest running submissions, the smallest id among equals; 0 when
      no grader is eligible. Grader ids start at 1. */
  ghost function Pick(loads: Loads, tags: seq<string>): (g: nat)
    requires 0 !in loads
    ensures g == 0 <==> NoneEligible(loads, tags)
    ensures g != 0 ==> Least(loads, tags, g)
  {
    if NoneEligible(loads, tags) then 0
    else
      assert exists g :: Least(loads, tags, g) by { var g := LeastExists(loads, tags); }
      var g: nat :| Least(loads, tags, g);
      g
  }

  lemma LeastUnique(loads: Loads, tags: seq<string>, a: nat, b: nat)
    requires Least(loads, tags, a) && Least(loads, tags, b)
    ensures a == b
  {
  }

  function Bump(loads: Loads, g: nat): Loads
    requires g in loads
  {
    loads[g := loads[g].(running := loads[g].running + 1)]
  }

  method GraderHasTags(graderTags: seq<string>, requestTags: seq<string>) returns (ok: bool)
    ensures ok <==> HasTags(graderTags, requestTags)
  {
    for i := 0 to |requestTags|
      invariant HasTags(graderTags, requestTags[..i])
    {
      var found := false;
      for j := 0 to |graderTags|
        invariant !found
        invariant requestTags[i] !in graderTags[..j]
      {
        if graderTags[j] == requestTags[i] {
          found := true;
          break;
        }
      }
      if !found {
        return false;
      }
    }
    return true;
  }

  lemma {:induction false} MinimumExists(ids: set<nat>) returns (least: nat)
    requires ids != {}
    ensures least in ids && forall id :: id in ids ==> least <= id
    decreases |ids|
  {
    var e: nat :| e in ids;
    var rest := ids - {e};
    least := e;
    if rest != {} {
      var m := MinimumExists(rest);
      least := if e <= m then e else m;
    }
    forall id | id in ids
      ensures least <= id
    {
      assert id == e || id in rest;
    }
  }

  /** The ids in increasing order. */
  method SortIds(ids: set<nat>) returns (sorted: seq<nat>)
    ensures forall i, j :: 0 <= i < j < |sorted| ==> sorted[i] < sorted[j]
    ensures forall id :: id in sorted <==> id in ids
  {
    sorted := [];
    var rest := ids;
    while rest != {}
      invariant forall i, j :: 0 <= i < j < |sorted| ==> sorted[i] < sorted[j]
      invariant forall i, id :: 0 <= i < |sorted| && id in rest ==> sorted[i] < id
      invariant forall id :: id in ids <==> id in rest || id in sorted
      decreases |rest|
    {
      ghost var m := MinimumExists(rest);
      var least: nat :| least in rest && forall id :: id in rest ==> least <= id;
      sorted := sorted + [least];
      rest := rest - {least};
    }
  }

  /** The chosen grader's count goes up so that repeated calls spread the work. */
  method PickGrader(tags: seq<string>, loads: Loads) returns (best: nat, after: Loads)
    requires 0 !in loads
    ensures best == Pick(loads, tags)
    ensures after == if best == 0 then loads else Bump(loads, best)
  {
    var ids := SortIds(loads.Keys);
    best := 0;
    for i := 0 to |ids|
      invariant best == 0 ==> forall k :: 0 <= k < i ==> !Eligible(loads[ids[k]], tags)
      invariant best != 0 ==> best in loads && Eligible(loads[best], tags) && exists k :: 0 <= k < i && ids[k] == best
      invariant best != 0 ==> forall k :: 0 <= k < i && Eligible(loads[ids[k]], tags) ==> Before(loads, best, ids[k])
    {
      var id := ids[i];
      assert id in ids;
      var load := loads[id];
      if load.running >= load.concurrency {
        continue;
      }
      var ok := GraderHasTags(load.tags, tags);
      if !ok {
        continue;
      }
      if best == 0 || load.running < loads[best].running {
        best := id;
      }
    }
    assert forall g :: g in loads ==> exists k :: 0 <= k < |ids| && ids[k] == g;
    if best == 0 {
      after := loads;
    } else {
      LeastUnique(loads, tags, best, Pick(loads, tags));
      after := Bump(loads, best);
    }
  }
}
