/** The durable claims: from each submission to its grader, and from each grader to its submissions, as
    keys of the store. The two directions are written one after the other. */
module GraderClaims {
  import opened Integers
  import opened Options
  import opened KeyPrefix
  import opened KeyText

  const RUNNING: Bytes := Text("running:")
  const SUBMISSION_GRADER: Bytes := Text("running:submission:grader:")
  const GRADER_SUBMISSION: Bytes := Text("running:grader:submission:")

  function GraderSubmissionPrefix(g: nat): Bytes {
    GRADER_SUBMISSION + Decimal(g) + [COLON]
  }

  function GraderSubmissionKey(g: nat, s: nat): Bytes {
    GraderSubmissionPrefix(g) + Decimal(s)
  }

  function SubmissionGraderKey(s: nat): Bytes {
    SUBMISSION_GRADER + Uint64ToBytes(s)
  }

  // ---------- Keys do not clash ----------

  lemma SubmissionKeysDiffer(s: nat, t: nat)
    requires s < UINT64 && t < UINT64 && SubmissionGraderKey(s) == SubmissionGraderKey(t)
    ensures s == t
  {
    hide Encode, Decode;
    var n := |SUBMISSION_GRADER|;
    assert SubmissionGraderKey(s)[n..] == Uint64ToBytes(s) && SubmissionGraderKey(t)[n..] == Uint64ToBytes(t);
    Uint64RoundTrip(s);
    Uint64RoundTrip(t);
  }

  /** A scan for one grader never meets the keys of another one, nor those of the other direction. */
  lemma PrefixesApart(g: nat, h: nat, s: nat)
    ensures GraderSubmissionPrefix(g) <= GraderSubmissionKey(h, s) <==> g == h
    ensures !(GRADER_SUBMISSION <= SubmissionGraderKey(s)) && !(GraderSubmissionPrefix(g) <= SubmissionGraderKey(s))
  {
    hide Decimal, Encode;
    var n := |GRADER_SUBMISSION|;
    var p, k := GraderSubmissionPrefix(g), GraderSubmissionKey(h, s);
    if p <= k {
      assert p[n..] == Decimal(g) + [COLON] && k[n..] == Decimal(h) + [COLON] + Decimal(s);
      assert forall i :: 0 <= i < |p[n..]| ==> p[n..][i] == p[n + i] == k[n + i] == k[n..][i];
      assert p[n..] <= k[n..];
      ColonEndsNumber(Decimal(g), Decimal(h), Decimal(s));
      DecimalInjective(g, h);
    }
    assert GRADER_SUBMISSION[8] == 103 && SubmissionGraderKey(s)[8] == 115 && p[8] == 103;
  }

  lemma GraderKeysDiffer(g: nat, s: nat, h: nat, t: nat)
    requires GraderSubmissionKey(g, s) == GraderSubmissionKey(h, t)
    ensures g == h && s == t
  {
    PrefixesApart(g, h, t);
    hide Decimal;
    var n := |GraderSubmissionPrefix(g)|;
    assert GraderSubmissionKey(g, s)[n..] == Decimal(s) && GraderSubmissionKey(h, t)[n..] == Decimal(t);
    DecimalInjective(s, t);
  }

  lemma DirectionsDiffer(g: nat, s: nat, t: nat)
    ensures SubmissionGraderKey(t) != GraderSubmissionKey(g, s)
    ensures RUNNING <= SubmissionGraderKey(t) && RUNNING <= GraderSubmissionKey(g, s)
  {
    hide Decimal, Encode;
    assert SubmissionGraderKey(t)[8] == 115 && GraderSubmissionKey(g, s)[8] == 103;
    assert RUNNING == SUBMISSION_GRADER[..8] == GRADER_SUBMISSION[..8];
  }

  // ---------- The operations on the store ----------

  function Owner(db: Store, s: nat): Option<nat> {
    if SubmissionGraderKey(s) in db then Some(Decode(db[SubmissionGraderKey(s)])) else None
  }

  predicate Holds(db: Store, g: nat, s: nat) {
    GraderSubmissionKey(g, s) in db
  }

  datatype Op = Claim(g: nat, s: nat) | Release(s: nat) | Clear

  predicate Numbered(op: Op) {
    (op.Claim? ==> op.g < UINT64) && (op.Clear? || op.s < UINT64)
  }

  /** The store after the first of the two writes of an operation. */
  function HalfWay(db: Store, op: Op): Store {
    match op
    case Claim(g, s) => db[SubmissionGraderKey(s) := Uint64ToBytes(g)]
    case Release(s) => db - {SubmissionGraderKey(s)}
    case Clear => db
  }

  function Apply(db: Store, op: Op): Store {
    match op
    case Claim(g, s) => HalfWay(db, op)[GraderSubmissionKey(g, s) := []]
    case Release(s) =>
      if Owner(db, s).None? then db else HalfWay(db, op) - {GraderSubmissionKey(Owner(db, s).value, s)}
    case Clear => map k | k in db && !(RUNNING <= k) :: db[k]
  }

  /** What an operation does to the two directions, submission by submission. */
  lemma OwnerAfter(db: Store, op: Op, t: nat)
    requires Numbered(op) && t < UINT64
    ensures Owner(Apply(db, op), t) ==
            match op
            case Claim(g, s) => if t == s then Some(g) else Owner(db, t)
            case Release(s) => if t == s then None else Owner(db, t)
            case Clear => None
  {
    hide Decimal, Encode, Decode, GraderSubmissionKey, SubmissionGraderKey, Uint64ToBytes;
    match op
    case Claim(g, s) =>
      DirectionsDiffer(g, s, t);
      Uint64RoundTrip(g);
      if SubmissionGraderKey(s) == SubmissionGraderKey(t) { SubmissionKeysDiffer(s, t); }
    case Release(s) =>
      if Owner(db, s).Some? { DirectionsDiffer(Owner(db, s).value, s, t); }
      if SubmissionGraderKey(s) == SubmissionGraderKey(t) { SubmissionKeysDiffer(s, t); }
    case Clear => DirectionsDiffer(0, 0, t);
  }

  lemma HoldsAfter(db: Store, op: Op, h: nat, t: nat)
    ensures Holds(Apply(db, op), h, t) <==>
            match op
            case Claim(g, s) => (h == g && t == s) || Holds(db, h, t)
            case Release(s) => Holds(db, h, t) && !(t == s && Owner(db, s) == Some(h))
            case Clear => false
  {
    hide Decimal, Encode, Decode, GraderSubmissionKey, SubmissionGraderKey;
    match op
    case Claim(g, s) =>
      DirectionsDiffer(h, t, s);
      if GraderSubmissionKey(g, s) == GraderSubmissionKey(h, t) { GraderKeysDiffer(g, s, h, t); }
    case Release(s) =>
      DirectionsDiffer(h, t, s);
      if Owner(db, s).Some? && GraderSubmissionKey(Owner(db, s).value, s) == GraderSubmissionKey(h, t) {
        GraderKeysDiffer(Owner(db, s).value, s, h, t);
      }
    case Clear => DirectionsDiffer(h, t, 0);
  }

  /** The store has the same value, or none, under a key. */
  predicate SameAt(db: Store, n: Store, k: Bytes) {
    (k in n <==> k in db) && (k in db ==> n[k] == db[k])
  }

  /** The claims share the store with everything else: no operation, complete or cut short, touches a key
      outside of them. */
  lemma OthersKept(db: Store, op: Op, k: Bytes)
    requires !(RUNNING <= k)
    ensures SameAt(db, HalfWay(db, op), k) && SameAt(db, Apply(db, op), k)
  {
    hide Decimal, Encode, Decode, GraderSubmissionKey, SubmissionGraderKey, Uint64ToBytes;
    match op
    case Claim(g, s) => DirectionsDiffer(g, s, s);
    case Release(s) =>
      DirectionsDiffer(0, s, s);
      if Owner(db, s).Some? { DirectionsDiffer(Owner(db, s).value, s, s); }
    case Clear =>
  }

  /** Clearing leaves exactly what is outside of the claims. */
  lemma ClearedExactly(db: Store, k: Bytes)
    ensures k in Apply(db, Clear) <==> k in db && !(RUNNING <= k)
    ensures k in Apply(db, Clear) ==> Apply(db, Clear)[k] == db[k]
  {
  }

  // ---------- The two directions agree ----------

  /** The owner of a submission holds it. */
  ghost predicate Agree(db: Store) {
    forall g: nat, s: nat :: s < UINT64 && Owner(db, s) == Some(g) ==> Holds(db, g, s)
  }

  predicate ExactFor(db: Store, g: nat, s: nat) {
    Holds(db, g, s) <==> Owner(db, s) == Some(g)
  }

  /** The two directions are inverses of each other. */
  ghost predicate Exact(db: Store) {
    forall g: nat, s: nat :: g < UINT64 && s < UINT64 ==> ExactFor(db, g, s)
  }

  /** Only unclaimed submissions are claimed, or again by their owner. */
  predicate Fresh(db: Store, op: Op) {
    op.Claim? ==> Owner(db, op.s).None? || Owner(db, op.s) == Some(op.g)
  }

  /** Every operation keeps the agreement, whatever is claimed by whom. */
  lemma ApplyAgrees(db: Store, op: Op)
    requires Agree(db) && Numbered(op)
    ensures Agree(Apply(db, op))
  {
    hide Apply, Owner, Holds;
    forall g: nat, s: nat | s < UINT64 && Owner(Apply(db, op), s) == Some(g) ensures Holds(Apply(db, op), g, s) {
      OwnerAfter(db, op, s);
      HoldsAfter(db, op, g, s);
    }
  }

  /** It keeps them exact inverses if and only if it does not claim over another owner. */
  lemma ApplyExact(db: Store, op: Op)
    requires Exact(db) && Numbered(op) && forall s: nat :: s < UINT64 && Owner(db, s).Some? ==> Owner(db, s).value < UINT64
    ensures Exact(Apply(db, op)) <==> Fresh(db, op)
  {
    hide Apply, Owner, Holds;
    var n := Apply(db, op);
    if Fresh(db, op) {
      forall g: nat, s: nat | g < UINT64 && s < UINT64 ensures ExactFor(n, g, s) {
        assert ExactFor(db, g, s);
        OwnerAfter(db, op, s);
        HoldsAfter(db, op, g, s);
      }
    } else {
      var g := Owner(db, op.s).value;
      assert ExactFor(db, g, op.s);
      OwnerAfter(db, op, op.s);
      HoldsAfter(db, op, g, op.s);
      assert !ExactFor(n, g, op.s);
    }
  }

  lemma ApplyOwners(db: Store, op: Op)
    requires Numbered(op) && forall s: nat :: s < UINT64 && Owner(db, s).Some? ==> Owner(db, s).value < UINT64
    ensures forall s: nat :: s < UINT64 && Owner(Apply(db, op), s).Some? ==> Owner(Apply(db, op), s).value < UINT64
  {
    hide Apply, Owner;
    forall s: nat | s < UINT64 ensures Owner(Apply(db, op), s).Some? ==> Owner(Apply(db, op), s).value < UINT64 {
      OwnerAfter(db, op, s);
    }
  }

  // ---------- Runs ----------

  /** A run starts with the claims cleared. */
  ghost predicate IsRun(dbs: seq<Store>, ops: seq<Op>) {
    && |dbs| == |ops| + 1 && dbs[0] == Apply(dbs[0], Clear)
    && (forall i :: 0 <= i < |ops| ==> Numbered(ops[i]) && dbs[i + 1] == Apply(dbs[i], ops[i]))
  }

  lemma StartExact(db: Store)
    requires db == Apply(db, Clear)
    ensures Agree(db) && Exact(db) && forall s: nat :: s < UINT64 ==> Owner(db, s).None?
  {
    hide Apply, Owner, Holds;
    forall g: nat, s: nat | s < UINT64 ensures ExactFor(db, g, s) && Owner(db, s).None? {
      OwnerAfter(db, Clear, s);
      HoldsAfter(db, Clear, g, s);
    }
    forall s: nat | s < UINT64 ensures Owner(db, s).None? {
      OwnerAfter(db, Clear, s);
    }
  }

  /** Over every run, the owner of a submission holds it. */
  lemma {:induction false} RunAgrees(dbs: seq<Store>, ops: seq<Op>, i: nat)
    requires IsRun(dbs, ops) && i < |dbs|
    ensures Agree(dbs[i])
    ensures forall s: nat :: s < UINT64 && Owner(dbs[i], s).Some? ==> Owner(dbs[i], s).value < UINT64
  {
    hide Apply, Owner, Agree;
    if i == 0 {
      StartExact(dbs[0]);
    } else {
      RunAgrees(dbs, ops, i - 1);
      ApplyAgrees(dbs[i - 1], ops[i - 1]);
      ApplyOwners(dbs[i - 1], ops[i - 1]);
    }
  }

  lemma {:induction false} FreshRunExact(dbs: seq<Store>, ops: seq<Op>, i: nat)
    requires IsRun(dbs, ops) && i < |dbs| && forall k :: 0 <= k < i ==> Fresh(dbs[k], ops[k])
    ensures Exact(dbs[i])
  {
    hide Apply, Owner, Exact, Fresh;
    if i == 0 {
      StartExact(dbs[0]);
    } else {
      FreshRunExact(dbs, ops, i - 1);
      RunAgrees(dbs, ops, i - 1);
      ApplyExact(dbs[i - 1], ops[i - 1]);
    }
  }

  /** The two directions are exact inverses throughout a run if and only if no claim of the run is over
      another owner. */
  lemma RunExact(dbs: seq<Store>, ops: seq<Op>)
    requires IsRun(dbs, ops)
    ensures (forall i :: 0 <= i < |dbs| ==> Exact(dbs[i])) <==> (forall i :: 0 <= i < |ops| ==> Fresh(dbs[i], ops[i]))
  {
    hide Apply, Owner, Exact, Fresh;
    if forall i :: 0 <= i < |ops| ==> Fresh(dbs[i], ops[i]) {
      forall i | 0 <= i < |dbs| ensures Exact(dbs[i]) { FreshRunExact(dbs, ops, i); }
    }
    if forall i :: 0 <= i < |dbs| ==> Exact(dbs[i]) {
      forall i | 0 <= i < |ops| ensures Fresh(dbs[i], ops[i]) {
        RunAgrees(dbs, ops, i);
        assert dbs[i + 1] == Apply(dbs[i], ops[i]);
        ApplyExact(dbs[i], ops[i]);
      }
    }
  }

  /** A crash between the two writes of an operation, or between two deletes of the clearing, leaves
      nothing that the next start does not clear: it starts from the same store as without the crash. */
  lemma CrashHealed(db: Store, op: Op, deleted: set<Bytes>)
    requires forall k :: k in deleted ==> RUNNING <= k
    ensures Apply(HalfWay(db, op), Clear) == Apply(Apply(db, op), Clear) == Apply(db, Clear)
    ensures Apply(db - deleted, Clear) == Apply(db, Clear)
  {
    hide Decimal, Encode, Decode, GraderSubmissionKey, SubmissionGraderKey, Uint64ToBytes;
    match op
    case Claim(g, s) => DirectionsDiffer(g, s, s);
    case Release(s) =>
      DirectionsDiffer(0, s, s);
      if Owner(db, s).Some? { DirectionsDiffer(Owner(db, s).value, s, s); }
    case Clear =>
  }

  // ---------- The scan of a grader's submissions ----------

  /** Every key of the direction from graders to submissions was made by a claim. */
  ghost predicate ClaimKeys(db: Store) {
    forall k :: k in db && GRADER_SUBMISSION <= k ==> exists g: nat, s: nat :: s < UINT64 && k == GraderSubmissionKey(g, s)
  }

  lemma ApplyClaimKeys(db: Store, op: Op)
    requires ClaimKeys(db) && Numbered(op)
    ensures ClaimKeys(Apply(db, op))
  {
    hide Decimal, Encode, Decode, GraderSubmissionKey, SubmissionGraderKey, Uint64ToBytes;
    if op.Claim? {
      PrefixesApart(op.g, op.g, op.s);
    }
  }

  /** A scan lists exactly the submissions of its owner, if and only if none of them has an id beyond the
      signed 64-bit integers. */
  lemma LoadIsOwned(db: Store, g: nat, subs: seq<nat>)
    requires Exact(db) && g < UINT64
    requires forall s: nat :: s in subs <==> s < INT64 && Holds(db, g, s)
    ensures (forall s: nat :: s < UINT64 ==> (s in subs <==> Owner(db, s) == Some(g)))
       <==> (forall s: nat :: INT64 <= s < UINT64 ==> Owner(db, s) != Some(g))
  {
    hide Owner, Holds;
    forall s: nat | s < UINT64 ensures s in subs <==> s < INT64 && Owner(db, s) == Some(g) {
      assert ExactFor(db, g, s);
    }
  }

  /** The hub's own view of the claims, as a map. */
  ghost predicate Represents(db: Store, claim: map<nat, nat>) {
    forall s: nat :: s < UINT64 ==> Owner(db, s) == if s in claim then Some(claim[s]) else None
  }

  function ApplyToMap(claim: map<nat, nat>, op: Op): map<nat, nat> {
    match op
    case Claim(g, s) => claim[s := g]
    case Release(s) => claim - {s}
    case Clear => map[]
  }

  /** The store follows the map through every operation. */
  lemma StoreRefinesMap(db: Store, claim: map<nat, nat>, op: Op)
    requires Represents(db, claim) && Numbered(op)
    ensures Represents(Apply(db, op), ApplyToMap(claim, op))
  {
    hide Apply, Owner;
    forall s: nat | s < UINT64
      ensures Owner(Apply(db, op), s) == if s in ApplyToMap(claim, op) then Some(ApplyToMap(claim, op)[s]) else None
    {
      OwnerAfter(db, op, s);
    }
  }

  lemma GraderKey(g: nat, s: nat)
    ensures GRADER_SUBMISSION <= GraderSubmissionPrefix(g) <= GraderSubmissionKey(g, s)
    ensures GraderSubmissionKey(g, s)[|GraderSubmissionPrefix(g)|..] == Decimal(s)
  {
  }

  class KVGraderRepository {
    var db: Store

    constructor (db: Store)
      ensures this.db == db
    {
      this.db := db;
    }

    method ClaimSubmission(g: nat, s: nat)
      modifies this
      ensures db == Apply(old(db), Claim(g, s))
      ensures db == old(db)[SubmissionGraderKey(s) := Uint64ToBytes(g)][GraderSubmissionKey(g, s) := []]
    {
      db := db[SubmissionGraderKey(s) := Uint64ToBytes(g)];
      db := db[GraderSubmissionKey(g, s) := []];
    }

    method ReleaseSubmission(s: nat)
      modifies this
      ensures db == Apply(old(db), Release(s))
      ensures SubmissionGraderKey(s) !in db
      ensures forall k :: !(RUNNING <= k) ==> SameAt(old(db), db, k)
    {
      forall k | !(RUNNING <= k) ensures SameAt(db, Apply(db, Release(s)), k) { OthersKept(db, Release(s), k); }
      ghost var g0 := if Owner(db, s).Some? then Owner(db, s).value else 0;
      DirectionsDiffer(g0, s, s);
      hide SameAt, Encode, Decimal, GraderSubmissionKey, SubmissionGraderKey;
      var key := SubmissionGraderKey(s);
      if key !in db {
        return;
      }
      var g := Decode(db[key]);
      db := db - {key};
      db := db - {GraderSubmissionKey(g, s)};
    }

    method GetGraderIdBySubmissionId(s: nat) returns (owner: Option<nat>)
      ensures owner == Owner(db, s)
    {
      var key := SubmissionGraderKey(s);
      owner := if key in db then Some(Decode(db[key])) else None;
    }

    /** Deletes key after key. */
    method ClearRunning()
      modifies this
      ensures db == Apply(old(db), Clear)
      ensures forall k :: k in db <==> k in old(db) && !(RUNNING <= k)
      ensures forall k :: k in db ==> db[k] == old(db)[k]
    {
      var prefix := RUNNING;
      var upper := KeyUpperBound(prefix);
      var keys := Iterate(db, prefix, upper);
      ScanOfPrefix(keys, db, RUNNING);
      for i := 0 to |keys|
        invariant db == map k | k in old(db) && k !in keys[..i] :: old(db)[k]
      {
        db := db - {keys[i]};
      }
      assert keys[..|keys|] == keys;
    }

    /** The submissions a grader holds, each once; an id that does not fit a signed 64-bit integer is
        skipped. */
    method GetSubmissionsByGrader(g: nat) returns (subs: seq<nat>)
      requires ClaimKeys(db)
      ensures forall s: nat :: s in subs <==> s < INT64 && Holds(db, g, s)
      ensures forall i, j :: 0 <= i < j < |subs| ==> subs[i] != subs[j]
    {
      hide GraderSubmissionKey, GraderSubmissionPrefix, Decimal, Atoi, UpperBound, InRange;
      var prefix := GraderSubmissionPrefix(g);
      var upper := KeyUpperBound(prefix);
      var keys := Iterate(db, prefix, upper);
      ghost var ids := KeysOfGrader(db, g, keys);
      subs := [];
      for i := 0 to |keys|
        invariant forall s: nat :: s in subs <==> s < INT64 && exists k :: 0 <= k < i && ids[k] == s
        invariant forall a, b :: 0 <= a < b < |subs| ==> subs[a] != subs[b]
      {
        GraderKey(g, ids[i]);
        AtoiDecimal(ids[i]);
        assert keys[i][|prefix|..] == Decimal(ids[i]);
        var id := Atoi(keys[i][|prefix|..]);
        if id.None? {
          continue;
        }
        assert ids[i] !in subs;
        subs := subs + [(id.value + UINT64) % UINT64];
      }
    }
  }

  /** The ids behind the keys of a scan for one grader. */
  lemma KeysOfGrader(db: Store, g: nat, keys: seq<Bytes>) returns (ids: seq<nat>)
    requires ClaimKeys(db) && IsScan(keys, db, GraderSubmissionPrefix(g), UpperBound(GraderSubmissionPrefix(g)))
    ensures |ids| == |keys| && forall k :: 0 <= k < |keys| ==> keys[k] == GraderSubmissionKey(g, ids[k])
    ensures forall i, j :: 0 <= i < j < |ids| ==> ids[i] != ids[j]
    ensures forall s: nat :: s in ids <==> Holds(db, g, s)
  {
    hide GraderSubmissionKey, GraderSubmissionPrefix, Less, UpperBound, InRange;
    ScanOfPrefix(keys, db, GraderSubmissionPrefix(g));
    ids := [];
    for i := 0 to |keys|
      invariant |ids| == i && forall k :: 0 <= k < i ==> keys[k] == GraderSubmissionKey(g, ids[k])
    {
      assert keys[i] in keys;
      GraderKey(g, 0);
      var h: nat, s: nat :| s < UINT64 && keys[i] == GraderSubmissionKey(h, s);
      PrefixesApart(g, h, s);
      ids := ids + [s];
    }
    forall i, j | 0 <= i < j < |ids| ensures ids[i] != ids[j] {
      LessTotal(keys[i], keys[j]);
    }
    forall s: nat ensures s in ids <==> Holds(db, g, s) {
      if Holds(db, g, s) {
        GraderKey(g, s);
        var k :| 0 <= k < |keys| && keys[k] == GraderSubmissionKey(g, s);
        GraderKeysDiffer(g, s, g, ids[k]);
      }
      if s in ids {
        var k :| 0 <= k < |ids| && ids[k] == s;
        assert keys[k] in keys;
      }
    }
  }
}
