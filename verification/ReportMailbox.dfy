/** The one-slot mailbox that hands reports to one subscriber. A report that was not read yet is merged
    with the next one, and no field is lost. */
module ReportMailbox {
  import opened Options
  import opened SubmissionStatus

  datatype Brief = Brief(status: Status, score: nat, maxScore: nat)

  datatype PendingRank = PendingRank(rank: nat, total: nat)

  /** A message with optional fields; the contents of the two large ones do not matter here. */
  datatype Report = Report(report: Option<string>, brief: Option<Brief>, docker: Option<string>, rank: Option<PendingRank>)

  const EMPTY := Report(None, None, None, None)

  function Or<T>(newer: Option<T>, older: Option<T>): Option<T> {
    if newer.None? then older else newer
  }

  function CoalesceReports(older: Report, newer: Report): Report {
    Report(Or(newer.report, older.report), Or(newer.brief, older.brief),
           Or(newer.docker, older.docker), Or(newer.rank, older.rank))
  }

  // ---------- What a subscriber knows ----------

  /** The state a sequence of reports amounts to. */
  function Fold(reports: seq<Report>): Report {
    if reports == [] then EMPTY
    else CoalesceReports(Fold(reports[..|reports| - 1]), reports[|reports| - 1])
  }

  /** The value is the last one that was set. */
  ghost predicate LastSet<T(!new)>(values: nat -> Option<T>, n: nat, v: Option<T>) {
    if v.None? then forall i: nat :: i < n ==> values(i).None?
    else exists i: nat :: i < n && values(i) == v && forall k: nat :: i < k < n ==> values(k).None?
  }

  /** Field by field, a fold is the last value that was set: merging loses no field. */
  lemma {:induction false} FoldIsLastSet(reports: seq<Report>)
    ensures var n, f := |reports|, Fold(reports);
            && LastSet((i: nat) => if i < n then reports[i].report else None, n, f.report)
            && LastSet((i: nat) => if i < n then reports[i].brief else None, n, f.brief)
            && LastSet((i: nat) => if i < n then reports[i].docker else None, n, f.docker)
            && LastSet((i: nat) => if i < n then reports[i].rank else None, n, f.rank)
  {
    if reports != [] {
      var n := |reports|;
      var before := reports[..n - 1];
      FoldIsLastSet(before);
      LastSetStep((i: nat) => if i < n - 1 then before[i].report else None,
                  (i: nat) => if i < n then reports[i].report else None, n - 1, Fold(before).report);
      LastSetStep((i: nat) => if i < n - 1 then before[i].brief else None,
                  (i: nat) => if i < n then reports[i].brief else None, n - 1, Fold(before).brief);
      LastSetStep((i: nat) => if i < n - 1 then before[i].docker else None,
                  (i: nat) => if i < n then reports[i].docker else None, n - 1, Fold(before).docker);
      LastSetStep((i: nat) => if i < n - 1 then before[i].rank else None,
                  (i: nat) => if i < n then reports[i].rank else None, n - 1, Fold(before).rank);
    }
  }

  lemma LastSetStep<T(!new)>(before: nat -> Option<T>, after: nat -> Option<T>, n: nat, v: Option<T>)
    requires forall i: nat :: i < n ==> after(i) == before(i)
    requires LastSet(before, n, v)
    ensures LastSet(after, n + 1, Or(after(n), v))
  {
    if after(n).None? && v.Some? {
      var i: nat :| i < n && before(i) == v && forall k: nat :: i < k < n ==> before(k).None?;
      assert after(i) == v && forall k: nat :: i < k < n + 1 ==> after(k).None?;
    }
  }

  lemma {:induction false} FoldConcat(a: seq<Report>, b: seq<Report>)
    ensures Fold(a + b) == CoalesceReports(Fold(a), Fold(b))
    decreases |b|
  {
    if b == [] {
      assert a + b == a;
    } else {
      var n := |b| - 1;
      assert (a + b)[..|a + b| - 1] == a + b[..n];
      FoldConcat(a, b[..n]);
    }
  }

  // ---------- What the mailbox hands over ----------

  function Flatten<T>(groups: seq<seq<T>>): seq<T> {
    if groups == [] then [] else Flatten(groups[..|groups| - 1]) + groups[|groups| - 1]
  }

  function Contents(slot: Option<Report>): seq<Report> {
    if slot.Some? then [slot.value] else []
  }

  /** Each report that was handed over, and the one in the slot, is what a group of reports amounts to. */
  ghost predicate Merged(groups: seq<seq<Report>>, handed: seq<Report>) {
    |groups| == |handed| && forall i :: 0 <= i < |handed| ==> groups[i] != [] && handed[i] == Fold(groups[i])
  }

  /** Merging is invisible to the one who folds what it receives. */
  lemma {:induction false} MergedFold(groups: seq<seq<Report>>, handed: seq<Report>)
    requires Merged(groups, handed)
    ensures Fold(handed) == Fold(Flatten(groups))
    decreases |groups|
  {
    if groups != [] {
      var n := |groups| - 1;
      MergedFold(groups[..n], handed[..n]);
      FoldConcat(Flatten(groups[..n]), groups[n]);
    }
  }

  lemma MergedAppend(groups: seq<seq<Report>>, handed: seq<Report>, group: seq<Report>)
    requires Merged(groups, handed) && group != []
    ensures Merged(groups + [group], handed + [Fold(group)])
    ensures Flatten(groups + [group]) == Flatten(groups) + group
  {
    assert (groups + [group])[..|groups|] == groups;
  }

  lemma MergedTake(groups: seq<seq<Report>>, handed: seq<Report>, last: Report)
    requires Merged(groups, handed + [last])
    ensures var n := |handed|;
            && |groups| == n + 1 && groups[n] != [] && Fold(groups[n]) == last
            && Merged(groups[..n], handed) && Flatten(groups) == Flatten(groups[..n]) + groups[n]
  {
    var n := |handed|;
    var all := handed + [last];
    assert all[n] == last && groups[n] != [] && all[n] == Fold(groups[n]);
    forall i | 0 <= i < n ensures groups[..n][i] != [] && handed[i] == Fold(groups[..n][i]) {
      assert handed[i] == all[i];
    }
  }

  /** The subscriber read the stale report, or it was merged. */
  ghost predicate Raced(before: seq<Report>, stale: Report, report: Report, received: seq<Report>, merged: Report) {
    || (received == before + [stale] && merged == report)
    || (received == before && merged == CoalesceReports(stale, report))
  }

  class ReportMailbox {
    /** The channel's buffer, and whether the channel was closed. */
    var slot: Option<Report>
    var closed: bool
    ghost var received: seq<Report>
    /** All reports accepted so far, in order, grouped by the report they were merged into. */
    ghost var groups: seq<seq<Report>>

    ghost predicate Valid() reads this {
      Merged(groups, received + Contents(slot))
    }

    ghost function Published(): seq<Report> reads this {
      Flatten(groups)
    }

    constructor ()
      ensures Valid() && !closed && slot == None && received == [] && Published() == []
    {
      slot, closed, received, groups := None, false, [], [];
    }

    /** The subscriber reads the channel: a buffered report is delivered even after the close, and only
        then is the end seen. */
    method Receive() returns (r: Option<Report>, ok: bool)
      requires Valid() && (slot.Some? || closed)
      modifies `slot, `received
      ensures Valid() && ok == old(slot).Some? && r == old(slot) && slot == None
      ensures received == old(received) + Contents(old(slot)) && Published() == old(Published())
    {
      r, ok := slot, slot.Some?;
      received := received + Contents(slot);
      slot := None;
      assert received + Contents(slot) == old(received + Contents(slot));
    }

    /** The subscriber may or may not read before the publisher's next attempt. */
    method SubscriberTurn(takes: bool)
      requires Valid() && !closed
      modifies `slot, `received
      ensures Valid() && Published() == old(Published())
      ensures (slot, received) == if takes && old(slot).Some? then (None, old(received) + [old(slot).value]) else old((slot, received))
    {
      if takes && slot.Some? {
        var r, ok := Receive();
      }
    }

    /** Publishing never blocks: whatever the subscriber does meanwhile, it takes two rounds at most. It
        is as if the subscriber had read first, or not at all, and then the report was put in the slot. */
    method Publish(report: Report, takes: nat -> bool) returns (rounds: nat)
      requires Valid()
      modifies `slot, `received, `groups
      ensures Valid() && rounds <= 2
      ensures closed ==> slot == old(slot) && received == old(received) && Published() == old(Published())
      ensures !closed ==> Published() == old(Published()) + [report]
      ensures !closed ==>
        || (received == old(received) && slot == Some(Put(old(slot), report)))
        || (old(slot).Some? && received == old(received) + [old(slot).value] && slot == Some(report))
    {
      rounds := 0;
      if closed {
        return;
      }
      var merged := report;
      ghost var inHand := [report];
      while true
        invariant Valid() && Published() + inHand == old(Published()) + [report]
        invariant inHand != [] && merged == Fold(inHand)
        invariant rounds <= 1 && (slot.Some? ==> rounds == 0)
        invariant || (received, slot, merged) == (old(received), old(slot), report)
                  || (slot.None? && old(slot).Some? && Raced(old(received), old(slot).value, report, received, merged))
        decreases slot.Some?
      {
        SubscriberTurn(takes(2 * rounds));
        rounds := rounds + 1;
        if slot.None? {
          Deliver(merged, inHand);
          return;
        }
        merged, inHand := MakeRoom(merged, inHand, takes(2 * rounds - 1));
      }
    }

    /** The slot is emptied, by the subscriber or by the publisher, who then merges what it finds. */
    method MakeRoom(report: Report, ghost group: seq<Report>, takes: bool) returns (merged: Report, ghost inHand: seq<Report>)
      requires Valid() && !closed && slot.Some? && group != [] && report == Fold(group)
      modifies `slot, `received, `groups
      ensures Valid() && slot == None && Published() + inHand == old(Published()) + group
      ensures inHand != [] && merged == Fold(inHand)
      ensures Raced(old(received), old(slot).value, report, received, merged)
    {
      hide Merged, Flatten, Fold;
      merged, inHand := report, group;
      SubscriberTurn(takes);
      if slot.Some? {
        assert groups != [] by { MergedTake(groups, received, slot.value); }
        ghost var last := groups[|groups| - 1];
        var stale := TakeBack();
        FoldConcat(last, group);
        merged := CoalesceReports(stale, report);
        inHand := last + group;
      }
    }

    /** The report goes into the empty slot. */
    method Deliver(report: Report, ghost group: seq<Report>)
      requires Valid() && slot == None && group != [] && report == Fold(group)
      modifies `slot, `groups
      ensures Valid() && slot == Some(report) && Published() == old(Published()) + group
    {
      MergedAppend(groups, received, group);
      assert received + Contents(slot) == received;
      slot := Some(report);
      groups := groups + [group];
    }

    /** The stale report comes out of the slot again. */
    method TakeBack() returns (stale: Report)
      requires Valid() && slot.Some?
      modifies `slot, `groups
      ensures old(groups) != [] && Valid() && slot == None && stale == old(slot).value
      ensures var last := old(groups)[|old(groups)| - 1];
              last != [] && Fold(last) == stale && Published() + last == old(Published())
    {
      MergedTake(groups, received, slot.value);
      stale := slot.value;
      slot := None;
      groups := groups[..|groups| - 1];
      assert received + Contents(slot) == received;
    }

    method Close()
      requires Valid()
      modifies `closed
      ensures Valid() && closed
    {
      if closed {
        return;
      }
      closed := true;
    }
  }

  /** The slot after a report was put in undisturbed. */
  function Put(slot: Option<Report>, report: Report): Report {
    if slot.Some? then CoalesceReports(slot.value, report) else report
  }
}
