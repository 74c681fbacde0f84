/** The list of requests waiting for a grader, with the index into it and the published ranks.
    A list element has an identity of its own (`elem`), as a container/list element has: the
    index maps a submission to an element, not to a position. */
module PendingQueue {
  datatype Request = Request(sub: nat, tags: seq<string>)

  datatype Entry = Entry(elem: nat, req: Request, rank: int)

  /** `next` is the identity the next element gets; `published` is the last rank sent to the
      subscribers of each submission. */
  datatype Queue = Queue(list: seq<Entry>, index: map<nat, nat>, next: nat, published: map<nat, int>)

  const EMPTY := Queue([], map[], 0, map[])

  function Push(q: Queue, req: Request): Queue {
    var rank := |q.list| + 1;
    Queue(q.list + [Entry(q.next, req, rank)], q.index[req.sub := q.next], q.next + 1,
          q.published[req.sub := rank])
  }

  /** The position of an element, or the length of the list when it is not there. */
  function Find(list: seq<Entry>, elem: nat): (i: nat)
    ensures i <= |list|
    ensures i < |list| ==> list[i].elem == elem
    ensures forall k :: 0 <= k < i ==> list[k].elem != elem
  {
    if list == [] then 0
    else if list[0].elem == elem then 0
    else 1 + Find(list[1..], elem)
  }

  /** Every entry one rank closer to the front. */
  function Promote(list: seq<Entry>): (r: seq<Entry>)
    ensures |r| == |list|
    ensures forall i :: 0 <= i < |r| ==> r[i] == list[i].(rank := list[i].rank - 1)
  {
    seq(|list|, i requires 0 <= i < |list| => list[i].(rank := list[i].rank - 1))
  }

  /** Publishing the rank of each entry, front to back. */
  function Publish(published: map<nat, int>, list: seq<Entry>): map<nat, int>
    decreases |list|
  {
    if list == [] then published
    else Publish(published[list[0].req.sub := list[0].rank], list[1..])
  }

  /** The entry at position `k` after the entry at position `i` was removed. */
  function Kept(list: seq<Entry>, i: nat, k: nat): Entry
    requires i < |list| && k + 1 < |list|
  {
    if k < i then list[k] else list[k + 1].(rank := list[k + 1].rank - 1)
  }

  /** The list without the entry at position `i`, the entries behind it promoted. */
  function Without(list: seq<Entry>, i: nat): (r: seq<Entry>)
    requires i < |list|
    ensures |r| + 1 == |list|
    ensures forall k :: 0 <= k < |r| ==> r[k] == Kept(list, i, k)
  {
    list[..i] + Promote(list[i + 1..])
  }

  function Remove(q: Queue, sub: nat): Queue {
    if sub !in q.index then q
    else
      var i := Find(q.list, q.index[sub]);
      if i == |q.list| then q.(index := q.index - {sub})
      else
        Queue(Without(q.list, i), q.index - {sub}, q.next, Publish(q.published, Promote(q.list[i + 1..])))
  }

  /** No submission is listed twice. */
  ghost predicate Distinct(list: seq<Entry>) {
    forall i, j :: 0 <= i < j < |list| ==> list[i].req.sub != list[j].req.sub
  }

  /** Elements are in the order they were pushed. */
  ghost predicate Ordered(list: seq<Entry>) {
    forall i, j :: 0 <= i < j < |list| ==> list[i].elem < list[j].elem
  }

  /** Ranks are 1-based positions, and the last rank published for a listed submission is its rank. */
  ghost predicate Ranked(list: seq<Entry>, published: map<nat, int>) {
    forall i :: 0 <= i < |list| ==>
      && list[i].rank == i + 1
      && list[i].req.sub in published
      && published[list[i].req.sub] == list[i].rank
  }

  /** The index names every listed element under its own submission, and nothing else. */
  ghost predicate Indexed(list: seq<Entry>, index: map<nat, nat>) {
    && (forall i :: 0 <= i < |list| ==>
          list[i].req.sub in index && index[list[i].req.sub] == list[i].elem)
    && (forall s {:trigger Find(list, index[s])} :: s in index ==>
          Find(list, index[s]) < |list| && list[Find(list, index[s])].req.sub == s)
  }

  ghost predicate Ok(q: Queue) {
    && Ordered(q.list)
    && (forall i :: 0 <= i < |q.list| ==> q.list[i].elem < q.next)
    && Ranked(q.list, q.published)
    && Indexed(q.list, q.index)
  }

  lemma FindIs(list: seq<Entry>, i: nat)
    requires i < |list| && Ordered(list)
    ensures Find(list, list[i].elem) == i
  {
  }

  /** The listed submissions are distinct. */
  lemma SubsDistinct(q: Queue)
    requires Ok(q)
    ensures Distinct(q.list)
  {
  }

  /** Pushing keeps the queue in order exactly when the submission is not already listed. */
  lemma PushOk(q: Queue, req: Request)
    requires Ok(q)
    ensures Ok(Push(q, req)) <==> req.sub !in q.index
  {
    if req.sub in q.index {
      PushTwice(q, req);
    } else {
      PushIndexed(q, req);
    }
  }

  lemma PushTwice(q: Queue, req: Request)
    requires Ok(q) && req.sub in q.index
    ensures !Indexed(Push(q, req).list, Push(q, req).index)
  {
    var p := Push(q, req);
    var i := Find(q.list, q.index[req.sub]);
    assert p.list[i] == q.list[i];
  }

  lemma PushIndexed(q: Queue, req: Request)
    requires Ok(q) && req.sub !in q.index
    ensures Indexed(Push(q, req).list, Push(q, req).index)
  {
    var p := Push(q, req);
    forall s | s in p.index
      ensures Find(p.list, p.index[s]) < |p.list| && p.list[Find(p.list, p.index[s])].req.sub == s
    {
      var i := if s == req.sub then |q.list| else Find(q.list, q.index[s]);
      assert p.list[i].elem == p.index[s] && p.list[i].req.sub == s;
      FindIs(p.list, i);
    }
  }

  /** Publishing a list of distinct submissions sets exactly their entries. */
  lemma {:induction false} PublishSets(published: map<nat, int>, list: seq<Entry>)
    requires Distinct(list)
    ensures forall i :: 0 <= i < |list| ==>
              list[i].req.sub in Publish(published, list) &&
              Publish(published, list)[list[i].req.sub] == list[i].rank
    ensures forall s :: s in published && (forall i :: 0 <= i < |list| ==> list[i].req.sub != s) ==>
              s in Publish(published, list) && Publish(published, list)[s] == published[s]
    decreases |list|
  {
    if list != [] {
      var head := published[list[0].req.sub := list[0].rank];
      var tail := list[1..];
      PublishSets(head, tail);
      assert forall k :: 0 < k < |list| ==> list[k] == tail[k - 1];
      assert forall k :: 0 <= k < |tail| ==> tail[k] == list[k + 1];
    }
  }

  lemma WithoutRanked(list: seq<Entry>, published: map<nat, int>, i: nat)
    requires i < |list| && Distinct(list) && Ranked(list, published)
    ensures Ranked(Without(list, i), Publish(published, Promote(list[i + 1..])))
  {
    var behind := Promote(list[i + 1..]);
    var r := Without(list, i);
    forall k | 0 <= k < |behind|
      ensures behind[k] == Kept(list, i, i + k)
    {
    }
    PublishSets(published, behind);
    forall k | 0 <= k < |r|
      ensures && r[k].rank == k + 1 && r[k].req.sub in Publish(published, behind)
              && Publish(published, behind)[r[k].req.sub] == r[k].rank
    {
      if k >= i {
        assert r[k] == behind[k - i];
      }
    }
  }

  lemma WithoutIndexed(list: seq<Entry>, index: map<nat, nat>, i: nat)
    requires i < |list| && Distinct(list) && Ordered(list) && Indexed(list, index)
    ensures Ordered(Without(list, i))
    ensures Indexed(Without(list, i), index - {list[i].req.sub})
  {
    var r := Without(list, i);
    var rest := index - {list[i].req.sub};
    forall s | s in rest
      ensures Find(r, rest[s]) < |r| && r[Find(r, rest[s])].req.sub == s
    {
      var f := Find(list, index[s]);
      var k := if f < i then f else f - 1;
      assert r[k] == Kept(list, i, k);
      FindIs(r, k);
    }
  }

  /** Removing takes out the one entry of the submission, keeps every other entry in its order
      with its element and request, and leaves every rank and published rank exact. */
  lemma RemoveOk(q: Queue, sub: nat)
    requires Ok(q)
    ensures Ok(Remove(q, sub))
    ensures Remove(q, sub).index == q.index - {sub}
    ensures sub in q.index ==>
              var i := Find(q.list, q.index[sub]);
              && i < |q.list| && q.list[i].req.sub == sub
              && Remove(q, sub).list == Without(q.list, i)
  {
    if sub in q.index {
      var i := Find(q.list, q.index[sub]);
      assert q.list[i].req.sub == sub;
      assert Distinct(q.list) by { SubsDistinct(q); }
      assert Ranked(Remove(q, sub).list, Remove(q, sub).published) by { WithoutRanked(q.list, q.published, i); }
      assert Ordered(Remove(q, sub).list) && Indexed(Remove(q, sub).list, Remove(q, sub).index) by {
        WithoutIndexed(q.list, q.index, i);
      }
    }
  }
}
