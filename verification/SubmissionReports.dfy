/** The unfinished markers and the reports in the store. The recovery scan finds exactly the submissions
    that are marked, and no report write disturbs it. */
module SubmissionReports {
  import opened Integers
  import opened Options
  import opened KeyPrefix
  import opened KeyText

  const UNFINISHED: Bytes := Text("submission:unfinished:")
  const BRIEF: Bytes := Text("submission_report:brief:")
  const REPORT: Bytes := Text("submission_report:id:")

  function UnfinishedKey(s: nat): Bytes { UNFINISHED + Uint64ToBytes(s) }
  function BriefKey(s: nat): Bytes { BRIEF + Decimal(s) }
  function ReportKey(s: nat): Bytes { REPORT + Decimal(s) }

  datatype UnfinishedSubmission = UnfinishedSubmission(submissionId: nat, assignmentId: nat)

  /** The marked submissions with their assignments. */
  ghost predicate Marks(db: Store, markers: map<nat, nat>) {
    && (forall s :: s in markers ==> s < UINT64 && markers[s] < UINT64)
    && (forall s: nat :: s < UINT64 ==> (UnfinishedKey(s) in db <==> s in markers))
    && (forall s :: s in markers ==> db[UnfinishedKey(s)] == Uint64ToBytes(markers[s]))
    && IdKeys(db, UNFINISHED)
  }

  lemma UnfinishedKeysDiffer(s: nat, t: nat)
    requires s < UINT64 && t < UINT64 && UnfinishedKey(s) == UnfinishedKey(t)
    ensures s == t
  {
    hide Encode, Decode;
    var n := |UNFINISHED|;
    assert UnfinishedKey(s)[n..] == Uint64ToBytes(s) && UnfinishedKey(t)[n..] == Uint64ToBytes(t);
    Uint64RoundTrip(s);
    Uint64RoundTrip(t);
  }

  lemma ReportsApart(s: nat, t: nat)
    ensures !(UNFINISHED <= BriefKey(s)) && !(UNFINISHED <= ReportKey(s)) && BriefKey(s) != ReportKey(t)
    ensures BriefKey(s) == BriefKey(t) ==> s == t
    ensures ReportKey(s) == ReportKey(t) ==> s == t
    ensures forall u :: UNFINISHED <= UnfinishedKey(u) && |UnfinishedKey(u)| == |UNFINISHED| + 8
  {
    hide Decimal, Encode;
    assert UNFINISHED[10] == 58 && BriefKey(s)[10] == 95 && ReportKey(s)[10] == 95;
    assert BriefKey(s)[18] == 98 && ReportKey(t)[18] == 105;
    assert BriefKey(s)[|BRIEF|..] == Decimal(s) && BriefKey(t)[|BRIEF|..] == Decimal(t);
    assert ReportKey(s)[|REPORT|..] == Decimal(s) && ReportKey(t)[|REPORT|..] == Decimal(t);
    if Decimal(s) == Decimal(t) {
      DecimalInjective(s, t);
    }
  }

  lemma MarkMarks(db: Store, markers: map<nat, nat>, s: nat, a: nat)
    requires Marks(db, markers) && s < UINT64 && a < UINT64
    ensures Marks(db[UnfinishedKey(s) := Uint64ToBytes(a)], markers[s := a])
  {
    ReportsApart(s, s);
    hide Encode, Decode, UnfinishedKey;
    forall t: nat | t < UINT64 && UnfinishedKey(t) == UnfinishedKey(s) ensures t == s { UnfinishedKeysDiffer(t, s); }
  }

  lemma DeleteMarks(db: Store, markers: map<nat, nat>, s: nat)
    requires Marks(db, markers) && s < UINT64
    ensures Marks(db - {UnfinishedKey(s)}, markers - {s})
  {
    hide Encode, Decode, UnfinishedKey;
    forall t: nat | t < UINT64 && UnfinishedKey(t) == UnfinishedKey(s) ensures t == s { UnfinishedKeysDiffer(t, s); }
  }

  lemma ReportMarks(db: Store, markers: map<nat, nat>, key: Bytes, value: Bytes)
    requires Marks(db, markers) && !(UNFINISHED <= key)
    ensures Marks(db[key := value], markers)
  {
    ReportsApart(0, 0);
    hide Encode, Decode, UnfinishedKey;
  }

  /** Nothing but one key may be different. */
  ghost predicate OnlyAt(before: Store, after: Store, key: Bytes) {
    forall k :: k != key ==> (k in after <==> k in before) && (k in before ==> after[k] == before[k])
  }

  class KVSubmissionReportRepository {
    var db: Store
    ghost var markers: map<nat, nat>

    ghost predicate Valid() reads this {
      Marks(db, markers)
    }

    constructor (db: Store, ghost markers: map<nat, nat>)
      requires Marks(db, markers)
      ensures Valid() && this.db == db && this.markers == markers
    {
      this.db, this.markers := db, markers;
    }

    method MarkUnfinishedSubmission(s: nat, assignment: nat)
      requires Valid() && s < UINT64 && assignment < UINT64
      modifies this
      ensures Valid() && markers == old(markers)[s := assignment]
      ensures OnlyAt(old(db), db, UnfinishedKey(s))
      ensures forall t: nat :: Brief(t) == old(Brief(t)) && Report(t) == old(Report(t))
    {
      MarkMarks(db, markers, s, assignment);
      forall t: nat ensures UnfinishedKey(s) != BriefKey(t) && UnfinishedKey(s) != ReportKey(t) { ReportsApart(t, t); }
      db := db[UnfinishedKey(s) := Uint64ToBytes(assignment)];
      markers := markers[s := assignment];
    }

    method DeleteUnfinishedSubmission(s: nat)
      requires Valid() && s < UINT64
      modifies this
      ensures Valid() && markers == old(markers) - {s}
      ensures OnlyAt(old(db), db, UnfinishedKey(s))
      ensures forall t: nat :: Brief(t) == old(Brief(t)) && Report(t) == old(Report(t))
    {
      DeleteMarks(db, markers, s);
      forall t: nat ensures UnfinishedKey(s) != BriefKey(t) && UnfinishedKey(s) != ReportKey(t) { ReportsApart(t, t); }
      db := db - {UnfinishedKey(s)};
      markers := markers - {s};
    }

    ghost function Brief(s: nat): Option<Bytes> reads this {
      if BriefKey(s) in db then Some(db[BriefKey(s)]) else None
    }

    ghost function Report(s: nat): Option<Bytes> reads this {
      if ReportKey(s) in db then Some(db[ReportKey(s)]) else None
    }

    method UpdateSubmissionBriefReport(s: nat, raw: Bytes)
      requires Valid()
      modifies this
      ensures Valid() && markers == old(markers) && OnlyAt(old(db), db, BriefKey(s))
      ensures forall t: nat :: Brief(t) == (if t == s then Some(raw) else old(Brief(t))) && Report(t) == old(Report(t))
    {
      ReportsApart(s, s);
      ReportMarks(db, markers, BriefKey(s), raw);
      forall t: nat ensures BriefKey(s) != ReportKey(t) && (BriefKey(s) == BriefKey(t) ==> s == t) { ReportsApart(s, t); }
      db := db[BriefKey(s) := raw];
    }

    method UpdateSubmissionReport(s: nat, raw: Bytes)
      requires Valid()
      modifies this
      ensures Valid() && markers == old(markers) && OnlyAt(old(db), db, ReportKey(s))
      ensures forall t: nat :: Report(t) == (if t == s then Some(raw) else old(Report(t))) && Brief(t) == old(Brief(t))
    {
      ReportsApart(s, s);
      ReportMarks(db, markers, ReportKey(s), raw);
      forall t: nat ensures BriefKey(t) != ReportKey(s) && (ReportKey(s) == ReportKey(t) ==> s == t) {
        ReportsApart(t, s);
        ReportsApart(s, t);
      }
      db := db[ReportKey(s) := raw];
    }

    method GetSubmissionBriefReport(s: nat) returns (raw: Option<Bytes>)
      ensures raw == Brief(s)
    {
      raw := if BriefKey(s) in db then Some(db[BriefKey(s)]) else None;
    }

    /** Every marked submission with its assignment, once, in the order of the ids. */
    method GetUnfinishedSubmissions() returns (found: seq<UnfinishedSubmission>)
      requires Valid()
      ensures forall i, j :: 0 <= i < j < |found| ==> found[i].submissionId < found[j].submissionId
      ensures forall s: nat, a: nat :: UnfinishedSubmission(s, a) in found <==> s in markers && markers[s] == a
    {
      hide Decode, Encode, UpperBound, InRange, Less, Text;
      var prefix, n := UNFINISHED, |UNFINISHED|;
      var upper := KeyUpperBound(prefix);
      var keys := Iterate(db, prefix, upper);
      ScanOfPrefix(keys, db, prefix);
      ghost var ids := ScannedIds(keys);
      found := [];
      for i := 0 to |keys|
        invariant |found| == i
        invariant forall k :: 0 <= k < i ==>
          ids[k] in markers && found[k] == UnfinishedSubmission(ids[k], markers[ids[k]])
      {
        ScannedId(keys, ids, i);
        var s, a := Decode(keys[i][n..]), Decode(db[keys[i]]);
        found := found + [UnfinishedSubmission(s, a)];
      }
      FoundExactly(ids, found);
    }

    ghost method ScannedIds(keys: seq<Bytes>) returns (ids: seq<nat>)
      requires Valid() && Ascending(keys) && forall k :: k in keys <==> k in db && UNFINISHED <= k
      ensures |ids| == |keys| && forall k :: 0 <= k < |keys| ==> ids[k] < UINT64 && keys[k] == UnfinishedKey(ids[k])
      ensures forall i, j :: 0 <= i < j < |ids| ==> ids[i] < ids[j]
      ensures forall id: nat :: id in ids <==> id in markers
    {
      hide Decode, Encode, Less, Text, UnfinishedKey;
      var n := |UNFINISHED|;
      forall k | 0 <= k < |keys| ensures |keys[k]| == n + 8 { assert keys[k] in keys; }
      ids := seq(|keys|, k requires 0 <= k < |keys| => Decode(keys[k][n..n + 8]));
      IdsExact(db, UNFINISHED, keys, ids);
      forall id: nat ensures UnfinishedKey(id) == UNFINISHED + Uint64ToBytes(id) { Unfold(id); }
    }

    lemma ScannedId(keys: seq<Bytes>, ids: seq<nat>, i: nat)
      requires Valid() && i < |ids| == |keys| && keys[i] == UnfinishedKey(ids[i]) && ids[i] < UINT64
      requires keys[i] in db && UNFINISHED <= keys[i]
      ensures ids[i] in markers && |keys[i]| == |UNFINISHED| + 8 && Decode(keys[i][|UNFINISHED|..]) == ids[i]
      ensures |db[keys[i]]| == 8 && Decode(db[keys[i]]) == markers[ids[i]]
    {
      hide Decode, Encode, Text;
      Uint64RoundTrip(ids[i]);
      Uint64RoundTrip(markers[ids[i]]);
      assert keys[i][|UNFINISHED|..] == Uint64ToBytes(ids[i]);
    }

    lemma FoundExactly(ids: seq<nat>, found: seq<UnfinishedSubmission>)
      requires |found| == |ids| && forall id: nat :: id in ids <==> id in markers
      requires forall k :: 0 <= k < |ids| ==> ids[k] in markers && found[k] == UnfinishedSubmission(ids[k], markers[ids[k]])
      ensures forall s: nat, a: nat :: UnfinishedSubmission(s, a) in found <==> s in markers && markers[s] == a
    {
      forall s: nat, a: nat ensures UnfinishedSubmission(s, a) in found <==> s in markers && markers[s] == a {
        if s in markers && markers[s] == a {
          var k :| 0 <= k < |ids| && ids[k] == s;
          assert found[k] == UnfinishedSubmission(s, a);
        }
      }
    }
  }

  lemma Unfold(s: nat)
    ensures UnfinishedKey(s) == UNFINISHED + Uint64ToBytes(s)
  {
  }
}
