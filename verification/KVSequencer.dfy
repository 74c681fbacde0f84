/** The id sequencer. It persists a limit before it hands out the ids below it, so that no id is ever
    handed out twice, whatever fails or crashes when. */
module KVSequencer {
  import opened Integers
  import opened Options

  const BATCH_SIZE := 10

  /** How a write of the limit ends: an error may come before or after it reached the disk, and so may a
      crash. */
  datatype Write = Written | Failed(reached: bool) | Crashed(reached: bool)

  /** `issued` are the ids handed out over all lives of the program; `restarts` counts the lives begun
      since the last one was. */
  datatype Sequencer = Sequencer(
    persisted: Option<nat>,
    live: bool,
    next: nat,
    limit: nat,
    issued: seq<nat>,
    restarts: nat)

  const UNUSED := Sequencer(None, false, 0, 0, [], 0)

  /** What the next life would start with. */
  function Stored(s: Sequencer): nat {
    if s.persisted.Some? then s.persisted.value else 1
  }

  function NextBatch(s: Sequencer, write: Write): Sequencer {
    var wanted := s.limit + BATCH_SIZE;
    match write
    case Written => s.(persisted := Some(wanted), limit := wanted)
    case Failed(reached) => s.(persisted := if reached then Some(wanted) else s.persisted)
    case Crashed(reached) => s.(persisted := if reached then Some(wanted) else s.persisted, live := false)
  }

  /** A new life; it is of no use when its first batch fails. */
  function Open(s: Sequencer, write: Write): Sequencer {
    var n := NextBatch(s.(live := true, next := Stored(s), limit := Stored(s), restarts := s.restarts + 1), write);
    if write.Written? then n else n.(live := false)
  }

  function NextId(s: Sequencer, write: Write): Sequencer {
    var n := if s.next >= s.limit then NextBatch(s, write) else s;
    if n.live && n.next < n.limit then n.(next := n.next + 1, issued := n.issued + [n.next], restarts := 0) else n
  }

  datatype Event = DoOpen(write: Write) | DoGetNextId(write: Write) | DoCrash

  predicate Can(s: Sequencer, e: Event) {
    match e
    case DoOpen(_) => !s.live
    case DoGetNextId(_) => s.live
    case DoCrash => s.live
  }

  function After(s: Sequencer, e: Event): Sequencer
    requires Can(s, e)
  {
    match e
    case DoOpen(write) => Open(s, write)
    case DoGetNextId(write) => NextId(s, write)
    case DoCrash => s.(live := false)
  }

  /** The last id handed out; ids start at 1. */
  function Last(s: Sequencer): nat {
    if s.issued == [] then 0 else s.issued[|s.issued| - 1]
  }

  /** Handed-out ids increase, start at 1 or above and are below the persisted limit. The next one, now or
      after a crash, is above the last one, and by no more than a batch for each restart in between. */
  ghost predicate Inv(s: Sequencer) {
    && (forall i, j :: 0 <= i < j < |s.issued| ==> s.issued[i] < s.issued[j])
    && (forall i :: 0 <= i < |s.issued| ==> 1 <= s.issued[i] < Stored(s))
    && (s.issued != [] || s.live ==> s.persisted.Some?)
    && 1 <= Stored(s)
    && (s.live ==>
          && Last(s) < s.next <= s.limit <= Stored(s) <= s.next + BATCH_SIZE
          && s.next - Last(s) - 1 <= BATCH_SIZE * s.restarts)
    && (!s.live ==> Last(s) < Stored(s) && Stored(s) - Last(s) - 1 <= BATCH_SIZE * (s.restarts + 1))
  }

  lemma OpenKeeps(s: Sequencer, write: Write)
    requires Inv(s) && !s.live
    ensures Inv(Open(s, write))
  {
  }

  lemma NextIdKeeps(s: Sequencer, write: Write)
    requires Inv(s) && s.live
    ensures Inv(NextId(s, write))
  {
    var n := if s.next >= s.limit then NextBatch(s, write) else s;
    assert n.issued == s.issued && n.next == s.next && Stored(n) >= Stored(s);
  }

  lemma EventKeeps(s: Sequencer, e: Event)
    requires Inv(s) && Can(s, e)
    ensures Inv(After(s, e))
  {
    hide Open, NextId;
    match e
    case DoOpen(write) => OpenKeeps(s, write);
    case DoGetNextId(write) => NextIdKeeps(s, write);
    case DoCrash =>
  }

  ghost predicate IsRun(ss: seq<Sequencer>, events: seq<Event>) {
    && |ss| == |events| + 1 && ss[0] == UNUSED
    && (forall i :: 0 <= i < |events| ==> Can(ss[i], events[i]) && ss[i + 1] == After(ss[i], events[i]))
  }

  lemma {:induction false} RunKeeps(ss: seq<Sequencer>, events: seq<Event>, i: nat)
    requires IsRun(ss, events) && i < |ss|
    ensures Inv(ss[i])
  {
    hide After, Can, Inv;
    if i == 0 {
      UnusedInv();
    } else {
      RunKeeps(ss, events, i - 1);
      EventKeeps(ss[i - 1], events[i - 1]);
    }
  }

  lemma UnusedInv()
    ensures Inv(UNUSED)
  {
  }

  /** Over every run, with crashes and failed writes anywhere, ids never repeat: they strictly increase,
      start at 1 or above and stay below the limit that is on disk. */
  lemma IdsNeverRepeat(ss: seq<Sequencer>, events: seq<Event>, i: nat)
    requires IsRun(ss, events) && i < |ss|
    ensures forall a, b :: 0 <= a < b < |ss[i].issued| ==> ss[i].issued[a] < ss[i].issued[b]
    ensures ss[i].issued != [] ==> ss[i].persisted.Some?
    ensures forall a :: 0 <= a < |ss[i].issued| ==> 1 <= ss[i].issued[a] < ss[i].persisted.value
  {
    RunKeeps(ss, events, i);
  }

  /** Between an id and the next one, at most one batch is skipped for each restart in between; without a
      restart none is. */
  lemma SkippedIds(ss: seq<Sequencer>, events: seq<Event>, i: nat)
    requires IsRun(ss, events) && i < |events| && |ss[i + 1].issued| > |ss[i].issued|
    ensures events[i].DoGetNextId? && ss[i + 1].issued == ss[i].issued + [Last(ss[i + 1])]
    ensures 0 <= Last(ss[i + 1]) - Last(ss[i]) - 1 <= BATCH_SIZE * ss[i].restarts
  {
    RunKeeps(ss, events, i);
    assert ss[i + 1] == After(ss[i], events[i]);
  }

  /** The new limit is computed in 64 bits. The next batch is a good one if and only if it does not wrap
      around. */
  lemma BatchExact(s: Sequencer)
    requires Inv(s) && s.live && s.next == s.limit < UINT64
    ensures Inv(s.(persisted := Some((s.limit + BATCH_SIZE) % UINT64), limit := (s.limit + BATCH_SIZE) % UINT64))
       <==> s.limit + BATCH_SIZE < UINT64
  {
    if s.limit + BATCH_SIZE < UINT64 {
      assert (s.limit + BATCH_SIZE) % UINT64 == s.limit + BATCH_SIZE;
      assert s.(persisted := Some(s.limit + BATCH_SIZE), limit := s.limit + BATCH_SIZE) == NextBatch(s, Written);
    } else {
      assert (s.limit + BATCH_SIZE) % UINT64 == s.limit + BATCH_SIZE - UINT64 < s.next;
    }
  }

  class KVSequencer {
    var next: nat
    var limit: nat
    /** The limit in the store. */
    var stored: Option<nat>
    ghost var issued: seq<nat>
    ghost var restarts: nat

    ghost function State(): Sequencer reads this {
      Sequencer(stored, true, next, limit, issued, restarts)
    }

    /** Starts where the last life ended; the ids begin at 1. */
    constructor (ghost last: Sequencer, stored: Option<nat>)
      requires !last.live && last.persisted == stored
      ensures State() == last.(live := true, next := Stored(last), limit := Stored(last), restarts := last.restarts + 1)
    {
      var id := if stored.None? then 1 else stored.value;
      this.stored, this.next, this.limit := stored, id, id;
      this.issued, this.restarts := last.issued, last.restarts + 1;
    }

    method RequestNextBatch(write: Write) returns (ok: bool)
      requires next <= limit && !write.Crashed?
      modifies this
      ensures ok <==> next < limit
      ensures State() == if old(next) < old(limit) then old(State()) else NextBatch(old(State()), write)
    {
      if next < limit {
        return true;
      }
      var nextLimit := limit + BATCH_SIZE;
      if write.Written? || write.reached {
        stored := Some(nextLimit);
      }
      if !write.Written? {
        return false;
      }
      limit := nextLimit;
      return true;
    }

    /** The next id, or an error when the batch it needs could not be persisted. */
    method GetNextId(write: Write) returns (id: Option<nat>)
      requires Inv(State()) && !write.Crashed?
      modifies this
      ensures State() == NextId(old(State()), write) && Inv(State())
      ensures id.Some? ==> issued == old(issued) + [id.value] && Last(old(State())) < id.value < Stored(State())
      ensures id.None? <==> write.Failed? && old(next) == old(limit)
      ensures id.None? ==> issued == old(issued)
    {
      EventKeeps(State(), DoGetNextId(write));
      while next >= limit
        invariant State() == old(State())
               || (State() == NextBatch(old(State()), write) && next < limit && old(next) >= old(limit))
        decreases limit <= next
      {
        var ok := RequestNextBatch(write);
        if !ok {
          return None;
        }
      }
      id := Some(next);
      issued := issued + [next];
      restarts := 0;
      next := next + 1;
    }
  }

  /** A new life of the sequencer, which is of no use when its first batch cannot be persisted. */
  method NewKVSequencer(ghost last: Sequencer, stored: Option<nat>, write: Write) returns (sequencer: KVSequencer, ok: bool)
    requires Inv(last) && !last.live && last.persisted == stored && !write.Crashed?
    ensures fresh(sequencer) && ok == write.Written?
    ensures sequencer.State().(live := ok) == Open(last, write)
    ensures ok ==> Inv(sequencer.State())
  {
    sequencer := new KVSequencer(last, stored);
    OpenKeeps(last, write);
    ok := sequencer.RequestNextBatch(write);
  }
}
