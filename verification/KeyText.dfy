/** The readable parts of keys: text and decimal numbers. */
module KeyText {
  import opened Integers
  import opened Options
  import opened KeyPrefix

  const COLON: Byte := 58
  const ZERO: Byte := 48

  predicate IsDigit(b: Byte) {
    ZERO <= b < ZERO + 10
  }

  predicate Digits(b: Bytes) {
    forall i :: 0 <= i < |b| ==> IsDigit(b[i])
  }

  /** A string of ASCII characters. */
  function Text(s: string): (b: Bytes)
    requires forall i :: 0 <= i < |s| ==> s[i] < 128 as char
    ensures |b| == |s| && forall i :: 0 <= i < |s| ==> b[i] == s[i] as int
  {
    seq(|s|, i requires 0 <= i < |s| => s[i] as int)
  }

  /** What `%d` prints. */
  function Decimal(n: nat): (b: Bytes)
    ensures b != [] && Digits(b)
  {
    if n < 10 then [ZERO + n] else Decimal(n / 10) + [ZERO + n % 10]
  }

  function Value(b: Bytes): nat
    requires Digits(b)
  {
    if b == [] then 0 else 10 * Value(b[..|b| - 1]) + (b[|b| - 1] - ZERO)
  }

  /** strconv.Atoi on a 64-bit machine: an optional sign, then digits, and the number has to fit. */
  function Atoi(b: Bytes): Option<int> {
    var signed := b != [] && (b[0] == 43 || b[0] == 45);
    var digits := if signed then b[1..] else b;
    if digits == [] || !Digits(digits) then None
    else
      var v := if signed && b[0] == 45 then -(Value(digits) as int) else Value(digits);
      if 0 - INT64 <= v < INT64 then Some(v) else None
  }

  lemma {:induction false} ValueDecimal(n: nat)
    ensures Value(Decimal(n)) == n
  {
    if n >= 10 {
      ValueDecimal(n / 10);
      assert Decimal(n)[..|Decimal(n)| - 1] == Decimal(n / 10);
    } else {
      assert Decimal(n)[..0] == [];
    }
  }

  /** A printed number is read back exactly when it fits a signed 64-bit integer. */
  lemma AtoiDecimal(n: nat)
    ensures Atoi(Decimal(n)) == if n < INT64 then Some(n) else None
  {
    ValueDecimal(n);
    assert IsDigit(Decimal(n)[0]);
  }

  lemma DecimalInjective(m: nat, n: nat)
    requires Decimal(m) == Decimal(n)
    ensures m == n
  {
    ValueDecimal(m);
    ValueDecimal(n);
  }

  /** Behind a number and a colon anything may follow: the number can be told from the key. */
  lemma {:induction false} ColonEndsNumber(a: Bytes, b: Bytes, rest: Bytes)
    requires Digits(a) && Digits(b) && a + [COLON] <= b + [COLON] + rest
    ensures a == b
  {
    var l, k := a + [COLON], b + [COLON] + rest;
    assert forall i :: 0 <= i < |l| ==> l[i] == k[i];
    assert k[|a|] == l[|a|] == COLON && k[|b|] == COLON;
    if |a| < |b| {
      assert false;
    } else if |b| < |a| {
      assert false;
    } else {
      forall i | 0 <= i < |a| ensures a[i] == b[i] {
        assert l[i] == k[i];
      }
    }
  }
}
