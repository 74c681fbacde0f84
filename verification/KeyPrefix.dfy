/** Keys of the store: byte strings in lexicographic order, prefix scans, and big-endian numbers. */
module KeyPrefix {
  import opened Integers
  import opened Options

  type Byte = b: int | 0 <= b < 256

  type Bytes = seq<Byte>

  /** The store is an ordered map. */
  type Store = map<Bytes, Bytes>

  predicate Less(a: Bytes, b: Bytes) {
    b != [] && (a == [] || a[0] < b[0] || (a[0] == b[0] && Less(a[1..], b[1..])))
  }

  lemma {:induction false} LessTransitive(a: Bytes, b: Bytes, c: Bytes)
    requires Less(a, b) && Less(b, c)
    ensures Less(a, c)
  {
    if a != [] && a[0] == b[0] && b[0] == c[0] {
      LessTransitive(a[1..], b[1..], c[1..]);
    }
  }

  /** Exactly one of less, equal, greater. */
  lemma {:induction false} LessTotal(a: Bytes, b: Bytes)
    ensures a != b <==> Less(a, b) || Less(b, a)
    ensures !(Less(a, b) && Less(b, a))
  {
    if a != [] && b != [] {
      LessTotal(a[1..], b[1..]);
      if a[0] == b[0] && a[1..] == b[1..] {
        assert a == [a[0]] + a[1..] && b == [b[0]] + b[1..];
      }
    }
  }

  // ---------- The upper bound of a prefix ----------

  /** The last byte that can grow grows, and what is behind it is cut off. */
  function UpperBound(p: Bytes): Option<Bytes> {
    if p == [] then None
    else if p[|p| - 1] < 255 then Some(p[..|p| - 1] + [p[|p| - 1] + 1])
    else UpperBound(p[..|p| - 1])
  }

  lemma {:induction false} UpperBoundFront(p: Bytes)
    requires p != []
    ensures UpperBound(p) ==
            if UpperBound(p[1..]).Some? then Some([p[0]] + UpperBound(p[1..]).value)
            else if p[0] < 255 then Some([p[0] + 1])
            else None
  {
    var n := |p| - 1;
    if n > 0 {
      var q := p[1..];
      assert q[n - 1] == p[n] && q[..n - 1] == p[..n][1..];
      if p[n] < 255 {
        assert UpperBound(q) == Some(q[..n - 1] + [p[n] + 1]);
        assert p[..n] + [p[n] + 1] == [p[0]] + (q[..n - 1] + [p[n] + 1]);
      } else {
        assert UpperBound(q) == UpperBound(q[..n - 1]);
        UpperBoundFront(p[..n]);
      }
    } else if p[0] < 255 {
      assert p[..0] + [p[0] + 1] == [p[0] + 1];
    }
  }

  predicate InRange(k: Bytes, lower: Bytes, upper: Option<Bytes>) {
    !Less(k, lower) && (upper.Some? ==> Less(k, upper.value))
  }

  /** The range from a prefix to its upper bound holds exactly the keys with that prefix, whatever the
      bytes are: trailing 255s, nothing but 255s, and the empty prefix included. */
  lemma {:induction false} PrefixScanExact(p: Bytes, k: Bytes)
    ensures InRange(k, p, UpperBound(p)) <==> p <= k
  {
    if p != [] {
      UpperBoundFront(p);
      if k != [] && k[0] == p[0] {
        PrefixScanExact(p[1..], k[1..]);
        if UpperBound(p[1..]).Some? {
          assert UpperBound(p).value[1..] == UpperBound(p[1..]).value;
        }
        PrefixBehind(p, k);
      } else {
        OtherHead(p, k);
      }
    }
  }

  lemma OtherHead(p: Bytes, k: Bytes)
    requires p != [] && (k == [] || k[0] != p[0])
    ensures !InRange(k, p, UpperBound(p))
  {
    UpperBoundFront(p);
    if k != [] && p[0] < k[0] {
      var u := UpperBound(p).value;
      assert u[0] <= k[0] && (u[0] == k[0] ==> u[1..] == []);
      assert u[0] == k[0] ==> !Less(k[1..], u[1..]);
      assert !Less(k, u);
    }
  }

  lemma PrefixBehind(p: Bytes, k: Bytes)
    requires p != [] && k != [] && p[0] == k[0]
    ensures p <= k <==> p[1..] <= k[1..]
  {
    if p[1..] <= k[1..] {
      forall i | 0 <= i < |p| ensures p[i] == k[i] {
        if i > 0 {
          assert p[i] == p[1..][i - 1] && k[i] == k[1..][i - 1];
        }
      }
    }
    if p <= k {
      assert p[1..] == k[1..|p|] == k[1..][..|p| - 1];
    }
  }

  /** Counts up in a copy, byte by byte from the back; a byte that wraps around to 0 carries. */
  method KeyUpperBound(b: Bytes) returns (bound: Option<Bytes>)
    ensures bound == UpperBound(b)
  {
    var end := new Byte[|b|](i requires 0 <= i < |b| => b[i]);
    assert end[..] == b == b[..|b|];
    var i := |b| - 1;
    while i >= 0
      invariant -1 <= i < |b| == end.Length && end[..i + 1] == b[..i + 1]
      invariant UpperBound(b) == UpperBound(b[..i + 1])
    {
      assert b[..i + 1][..i] == b[..i] && end[..i + 1][i] == b[..i + 1][i];
      ghost var front := end[..i];
      assert front == end[..i + 1][..i];
      end[i] := (end[i] as int + 1) % 256;
      assert end[..i] == front;
      if end[i] != 0 {
        assert end[..i + 1] == b[..i] + [b[i] + 1];
        return Some(end[..i + 1]);
      }
      i := i - 1;
    }
    return None;
  }

  // ---------- Big-endian numbers ----------

  function Power(n: nat): nat {
    if n == 0 then 1 else 256 * Power(n - 1)
  }

  /** The last `n` bytes of a number, the most significant one first. */
  function Encode(v: nat, n: nat): (b: Bytes)
    ensures |b| == n
  {
    if n == 0 then [] else Encode(v / 256, n - 1) + [v % 256]
  }

  function Decode(b: Bytes): nat {
    if b == [] then 0 else 256 * Decode(b[..|b| - 1]) + b[|b| - 1]
  }

  lemma {:induction false} DecodeEncode(v: nat, n: nat)
    requires v < Power(n)
    ensures Decode(Encode(v, n)) == v
  {
    if n > 0 {
      DecodeEncode(v / 256, n - 1);
    }
  }

  lemma {:induction false} EncodeDecode(b: Bytes)
    ensures Decode(b) < Power(|b|) && Encode(Decode(b), |b|) == b
  {
    if b != [] {
      EncodeDecode(b[..|b| - 1]);
    }
  }

  function Uint64ToBytes(v: nat): Bytes {
    Encode(v, 8)
  }

  lemma PowerEight()
    ensures Power(8) == UINT64
  {
    assert Power(1) == 256;
    assert Power(2) == 0x1_0000;
    assert Power(4) == 0x1_0000_0000;
    assert Power(6) == 0x1_0000_0000_0000;
  }

  lemma Uint64RoundTrip(v: nat)
    requires v < UINT64
    ensures Decode(Uint64ToBytes(v)) == v
  {
    PowerEight();
    DecodeEncode(v, 8);
  }

  /** Every 8 bytes are a number. */
  lemma EightBytes(b: Bytes)
    requires |b| == 8
    ensures Decode(b) < UINT64 && Uint64ToBytes(Decode(b)) == b
  {
    PowerEight();
    EncodeDecode(b);
  }

  lemma {:induction false} LessBack(a: Bytes, b: Bytes, x: Byte, y: Byte)
    requires |a| == |b|
    ensures Less(a + [x], b + [y]) <==> Less(a, b) || (a == b && x < y)
  {
    if a != [] {
      assert (a + [x])[1..] == a[1..] + [x] && (b + [y])[1..] == b[1..] + [y];
      LessBack(a[1..], b[1..], x, y);
      if a[0] == b[0] && a[1..] == b[1..] {
        assert a == [a[0]] + a[1..] && b == [b[0]] + b[1..];
      }
    }
  }

  /** Keys of the same length are in the order of the numbers they encode. */
  lemma {:induction false} DecodeOrder(a: Bytes, b: Bytes)
    requires |a| == |b|
    ensures Less(a, b) <==> Decode(a) < Decode(b)
  {
    if a != [] {
      var n := |a| - 1;
      DecodeOrder(a[..n], b[..n]);
      assert a == a[..n] + [a[n]] && b == b[..n] + [b[n]];
      LessBack(a[..n], b[..n], a[n], b[n]);
      if Decode(a[..n]) == Decode(b[..n]) {
        EncodeDecode(a[..n]);
        EncodeDecode(b[..n]);
      }
    }
  }

  lemma {:induction false} LessBehind(p: Bytes, a: Bytes, b: Bytes)
    ensures Less(p + a, p + b) <==> Less(a, b)
  {
    if p == [] {
      assert p + a == a && p + b == b;
    } else {
      assert (p + a)[1..] == p[1..] + a && (p + b)[1..] == p[1..] + b;
      LessBehind(p[1..], a, b);
    }
  }

  // ---------- Scans ----------

  ghost predicate Ascending(keys: seq<Bytes>) {
    forall i, j :: 0 <= i < j < |keys| ==> Less(keys[i], keys[j])
  }

  /** What an iterator visits. */
  ghost predicate IsScan(keys: seq<Bytes>, db: Store, lower: Bytes, upper: Option<Bytes>) {
    Ascending(keys) && forall k :: k in keys <==> k in db && InRange(k, lower, upper)
  }

  lemma {:induction false} LeastKey(keys: set<Bytes>) returns (least: Bytes)
    requires keys != {}
    ensures least in keys && forall k :: k in keys && k != least ==> Less(least, k)
    decreases |keys|
  {
    least :| least in keys;
    var rest := keys - {least};
    if rest != {} {
      var m := LeastKey(rest);
      LessTotal(least, m);
      if Less(m, least) {
        least := m;
      } else {
        forall k | k in keys && k != least ensures Less(least, k) {
          if k != m {
            assert k in rest;
            LessTransitive(least, m, k);
          }
        }
      }
    }
  }

  /** The iterator of the store: the keys of a range in order. */
  method Iterate(db: Store, lower: Bytes, upper: Option<Bytes>) returns (keys: seq<Bytes>)
    ensures IsScan(keys, db, lower, upper)
  {
    var rest := set k | k in db && InRange(k, lower, upper);
    keys := [];
    while rest != {}
      invariant Ascending(keys)
      invariant forall i, k :: 0 <= i < |keys| && k in rest ==> Less(keys[i], k)
      invariant forall k :: k in keys || k in rest <==> k in db && InRange(k, lower, upper)
      decreases |rest|
    {
      ghost var l := LeastKey(rest);
      var least: Bytes :| least in rest && forall k :: k in rest && k != least ==> Less(least, k);
      keys := keys + [least];
      rest := rest - {least};
    }
  }

  /** A prefix scan visits the keys with the prefix, in order. */
  lemma ScanOfPrefix(keys: seq<Bytes>, db: Store, p: Bytes)
    requires IsScan(keys, db, p, UpperBound(p))
    ensures forall k :: k in keys <==> k in db && p <= k
  {
    forall k ensures k in keys <==> k in db && p <= k {
      PrefixScanExact(p, k);
    }
  }

  /** Every key with the prefix goes on with exactly one number. */
  ghost predicate IdKeys(db: Store, p: Bytes) {
    forall k :: k in db && p <= k ==> |k| == |p| + 8
  }

  lemma IdsAscend(p: Bytes, a: Bytes, b: Bytes)
    requires p <= a && p <= b && |a| == |b| && Less(a, b)
    ensures Decode(a[|p|..]) < Decode(b[|p|..])
  {
    assert a == p + a[|p|..] && b == p + b[|p|..];
    LessBehind(p, a[|p|..], b[|p|..]);
    DecodeOrder(a[|p|..], b[|p|..]);
  }

  /** The ids of a scan are exactly the ids whose keys are stored, strictly increasing. A key too short for
      a number makes the program panic, which is the result None. */
  method ScanIds(db: Store, prefix: Bytes) returns (ids: Option<seq<nat>>)
    ensures ids.None? <==> exists k :: k in db && prefix <= k && |k| < |prefix| + 8
    ensures IdKeys(db, prefix) ==>
      && ids.Some?
      && (forall i, j :: 0 <= i < j < |ids.value| ==> ids.value[i] < ids.value[j])
      && (forall id: nat :: id in ids.value <==> id < UINT64 && prefix + Uint64ToBytes(id) in db)
  {
    var upper := KeyUpperBound(prefix);
    var keys := Iterate(db, prefix, upper);
    ScanOfPrefix(keys, db, prefix);
    var found := [];
    for i := 0 to |keys|
      invariant |found| == i
      invariant forall k :: 0 <= k < i ==> |keys[k]| >= |prefix| + 8 && found[k] == Decode(keys[k][|prefix|..|prefix| + 8])
    {
      var key := keys[i];
      assert key in keys;
      if |key| < |prefix| + 8 {
        return None;
      }
      found := found + [Decode(key[|prefix|..|prefix| + 8])];
    }
    if IdKeys(db, prefix) {
      IdsExact(db, prefix, keys, found);
    }
    return Some(found);
  }

  lemma IdsExact(db: Store, p: Bytes, keys: seq<Bytes>, ids: seq<nat>)
    requires IdKeys(db, p) && Ascending(keys) && (forall k :: k in keys <==> k in db && p <= k) && |ids| == |keys|
    requires forall k :: 0 <= k < |keys| ==> |keys[k]| >= |p| + 8 && ids[k] == Decode(keys[k][|p|..|p| + 8])
    ensures forall i, j :: 0 <= i < j < |ids| ==> ids[i] < ids[j]
    ensures forall id: nat :: id in ids <==> id < UINT64 && p + Uint64ToBytes(id) in db
    ensures forall k :: 0 <= k < |keys| ==> ids[k] < UINT64 && keys[k] == p + Uint64ToBytes(ids[k])
  {
    hide Less, Decode, Uint64ToBytes;
    forall k | 0 <= k < |keys| ensures |keys[k]| == |p| + 8 && ids[k] < UINT64 && keys[k] == p + Uint64ToBytes(ids[k]) {
      assert keys[k] in keys;
      assert keys[k][|p|..|p| + 8] == keys[k][|p|..];
      EightBytes(keys[k][|p|..]);
      assert keys[k] == p + keys[k][|p|..];
    }
    forall i, j | 0 <= i < j < |ids| ensures ids[i] < ids[j] {
      IdsAscend(p, keys[i], keys[j]);
      assert keys[i][|p|..] == keys[i][|p|..|p| + 8] && keys[j][|p|..] == keys[j][|p|..|p| + 8];
    }
    forall id: nat ensures id in ids <==> id < UINT64 && p + Uint64ToBytes(id) in db {
      IdListed(db, p, keys, ids, id);
    }
  }

  lemma IdListed(db: Store, p: Bytes, keys: seq<Bytes>, ids: seq<nat>, id: nat)
    requires (forall k :: k in keys <==> k in db && p <= k) && |ids| == |keys|
    requires forall k :: 0 <= k < |keys| ==> ids[k] < UINT64 && keys[k] == p + Uint64ToBytes(ids[k])
    ensures id in ids <==> id < UINT64 && p + Uint64ToBytes(id) in db
  {
    hide Decode, Encode;
    var key := p + Uint64ToBytes(id);
    if id in ids {
      var k :| 0 <= k < |ids| && ids[k] == id;
      assert keys[k] in keys;
    }
    if id < UINT64 && key in db {
      assert p <= key;
      var k :| 0 <= k < |keys| && keys[k] == key;
      assert keys[k][|p|..] == Uint64ToBytes(ids[k]) && key[|p|..] == Uint64ToBytes(id);
      Uint64RoundTrip(id);
      Uint64RoundTrip(ids[k]);
    }
  }
}
