/** Join codes: the id in base 30, least significant digit first, and random padding behind a marker that
    is not a digit. */
module Base30 {
  import opened Integers

  const DICTIONARY := "23456789ABCDEFGHJKLMNPQRSTUVWX"
  const COMPLEMENT := "YZ"
  const BASE := 30
  const CODE_LENGTH := 8

  // ---------- Digits ----------

  function Digits(id: nat): (d: seq<nat>)
    ensures d != [] && forall i :: 0 <= i < |d| ==> d[i] < BASE
  {
    [id % BASE] + if id / BASE == 0 then [] else Digits(id / BASE)
  }

  function Number(digits: seq<nat>): nat {
    if digits == [] then 0 else digits[0] + BASE * Number(digits[1..])
  }

  function Power(i: nat): (p: nat)
    ensures p > 0
  {
    if i == 0 then 1 else BASE * Power(i - 1)
  }

  lemma {:induction false} NumberOfDigits(id: nat)
    ensures Number(Digits(id)) == id
  {
    var d := Digits(id);
    if id / BASE == 0 {
      assert d[1..] == [];
    } else {
      NumberOfDigits(id / BASE);
      assert d[1..] == Digits(id / BASE);
    }
  }

  lemma {:induction false} NumberAppend(digits: seq<nat>, x: nat)
    ensures Number(digits + [x]) == Number(digits) + Power(|digits|) * x
  {
    if digits == [] {
      assert [x][1..] == [];
    } else {
      assert (digits + [x])[1..] == digits[1..] + [x];
      NumberAppend(digits[1..], x);
      assert BASE * (Power(|digits| - 1) * x) == (BASE * Power(|digits| - 1)) * x;
    }
  }

  lemma {:induction false} NumberOfPrefix(digits: seq<nat>, i: nat)
    requires i <= |digits|
    ensures Number(digits[..i]) <= Number(digits)
    decreases |digits|
  {
    if i > 0 {
      NumberOfPrefix(digits[1..], i - 1);
      assert digits[..i][1..] == digits[1..][..i - 1];
    }
  }

  /** Powers of 30 up to the 13th are all a 64-bit number needs. */
  lemma {:induction false} DigitCount(id: nat, k: nat)
    requires id < Power(k) && k > 0
    ensures |Digits(id)| <= k
  {
    if id / BASE != 0 {
      assert k > 1;
      DigitCount(id / BASE, k - 1);
    }
  }

  lemma Power14()
    ensures Power(14) > UINT64
  {
    assert Power(1) == 30;
    assert Power(2) == 900;
    assert Power(4) == 810_000;
    assert Power(6) == 729_000_000;
    assert Power(8) == 656_100_000_000;
    assert Power(10) == 590_490_000_000_000;
    assert Power(12) == 531_441_000_000_000_000;
  }

  // ---------- Letters ----------

  /** The position of a letter, or 0 when it is none of the dictionary. */
  function Reverse(c: char): nat {
    if '2' <= c <= '9' then c as int - '2' as int
    else if 'A' <= c <= 'H' then 8 + (c as int - 'A' as int)
    else if 'J' <= c <= 'N' then 16 + (c as int - 'J' as int)
    else if 'P' <= c <= 'X' then 21 + (c as int - 'P' as int)
    else 0
  }

  lemma DictionaryReversed(i: nat)
    requires i < BASE
    ensures Reverse(DICTIONARY[i]) == i && DICTIONARY[i] !in COMPLEMENT
  {
  }

  /** What the program builds its reverse table from, letter by letter. */
  method BuildReverse() returns (table: map<char, nat>)
    ensures forall c :: (if c in table then table[c] else 0) == Reverse(c)
  {
    table := map[];
    for i := 0 to BASE
      invariant forall c :: c in table <==> exists k :: 0 <= k < i && DICTIONARY[k] == c
      invariant forall k :: 0 <= k < i ==> DICTIONARY[k] in table && table[DICTIONARY[k]] == k
    {
      forall k | 0 <= k < i ensures DICTIONARY[k] != DICTIONARY[i] {
        DictionaryReversed(k);
        DictionaryReversed(i);
      }
      table := table[DICTIONARY[i] := i];
    }
    forall c ensures (if c in table then table[c] else 0) == Reverse(c) {
      if c in table {
        var k :| 0 <= k < BASE && DICTIONARY[k] == c;
        DictionaryReversed(k);
      } else if Reverse(c) != 0 {
        NotInDictionary(c);
      }
    }
  }

  lemma NotInDictionary(c: char)
    requires Reverse(c) != 0
    ensures DICTIONARY[Reverse(c)] == c
  {
  }

  function Letters(digits: seq<nat>): (s: string)
    requires forall i :: 0 <= i < |digits| ==> digits[i] < BASE
    ensures |s| == |digits| && forall i :: 0 <= i < |s| ==> s[i] == DICTIONARY[digits[i]]
  {
    seq(|digits|, i requires 0 <= i < |digits| => DICTIONARY[digits[i]])
  }

  // ---------- Codes ----------

  /** A code of an id: its digits, and if they are fewer than eight, a marker and letters up to eight. */
  ghost predicate IsCode(code: string, id: nat) {
    var n := |Digits(id)|;
    && Letters(Digits(id)) <= code
    && (if n >= CODE_LENGTH then |code| == n
        else
          && |code| == CODE_LENGTH && code[n] in COMPLEMENT
          && forall i :: n < i < |code| ==> code[i] in DICTIONARY)
  }

  method Base30Encode(id: nat, marker: nat, padding: nat -> nat) returns (code: string)
    requires id < UINT64 && marker < |COMPLEMENT|
    ensures IsCode(code, id)
  {
    code := WriteDigits(id);
    if |code| < CODE_LENGTH {
      code := Pad(code, id, marker, padding);
    }
  }

  method WriteDigits(id: nat) returns (code: string)
    ensures code == Letters(Digits(id))
  {
    code := "";
    var rest: nat := id;
    ghost var done: seq<nat> := [];
    while rest / BASE != 0
      invariant Digits(id) == done + Digits(rest)
      invariant (forall i :: 0 <= i < |done| ==> done[i] < BASE) && code == Letters(done)
      decreases rest
    {
      var idx: nat := rest % BASE;
      NextDigit(done, rest);
      code := code + [DICTIONARY[idx]];
      done := done + [idx];
      rest := rest / BASE;
    }
    var idx := rest % BASE;
    assert Digits(id) == done + [idx];
    code := code + [DICTIONARY[idx]];
  }

  lemma NextDigit(done: seq<nat>, rest: nat)
    requires rest / BASE != 0
    ensures done + Digits(rest) == (done + [rest % BASE]) + Digits(rest / BASE)
  {
  }

  method Pad(digits: string, id: nat, marker: nat, padding: nat -> nat) returns (code: string)
    requires digits == Letters(Digits(id)) && |digits| < CODE_LENGTH && marker < |COMPLEMENT|
    ensures IsCode(code, id)
  {
    code := digits + [COMPLEMENT[marker]];
    var more := CODE_LENGTH - |code|;
    for i := 0 to more
      invariant digits <= code && |code| == |digits| + 1 + i && code[|digits|] in COMPLEMENT
      invariant forall k :: |digits| < k < |code| ==> code[k] in DICTIONARY
    {
      code := code + [DICTIONARY[padding(i) % BASE]];
    }
  }

  /** Where the digits of a code end: at the first Y, or else at the first Z. */
  function IndexOf(code: string, c: char): (i: nat)
    ensures i <= |code| && (i < |code| ==> code[i] == c) && forall k :: 0 <= k < i ==> code[k] != c
  {
    if code == [] || code[0] == c then 0 else 1 + IndexOf(code[1..], c)
  }

  function End(code: string): (l: nat)
    ensures l <= |code|
  {
    if IndexOf(code, 'Y') < |code| then IndexOf(code, 'Y') else IndexOf(code, 'Z')
  }

  function Values(code: string): (v: seq<nat>)
    ensures |v| == |code| && forall i :: 0 <= i < |v| ==> v[i] == Reverse(code[i])
  {
    seq(|code|, i requires 0 <= i < |code| => Reverse(code[i]))
  }

  method FindEnd(code: string) returns (l: nat)
    ensures l == End(code)
  {
    l := |code|;
    for i := 0 to |COMPLEMENT|
      invariant l == |code|
      invariant i >= 1 ==> IndexOf(code, 'Y') == |code|
      invariant i >= 2 ==> IndexOf(code, 'Z') == |code|
    {
      var idx := IndexOf(code, COMPLEMENT[i]);
      if idx < |code| {
        return idx;
      }
    }
  }

  /** Digits weighted by what the program takes for the powers of 30. */
  function Weighted(power: nat -> nat, digits: seq<nat>): nat {
    if digits == [] then 0
    else Weighted(power, digits[..|digits| - 1]) + power(|digits| - 1) * digits[|digits| - 1]
  }

  ghost predicate ExactPowers(power: nat -> nat) {
    forall i: nat :: i < 14 ==> power(i) == Power(i)
  }

  lemma {:induction false} WeightedIsNumber(power: nat -> nat, digits: seq<nat>)
    requires ExactPowers(power) && |digits| <= 14
    ensures Weighted(power, digits) == Number(digits)
  {
    if digits != [] {
      var n := |digits| - 1;
      WeightedIsNumber(power, digits[..n]);
      assert digits == digits[..n] + [digits[n]];
      NumberAppend(digits[..n], digits[n]);
    }
  }

  /** The sum wraps around as 64-bit arithmetic does. The powers come from floating point; they are exact
      as long as they are needed for a 64-bit number. */
  method Base30Decode(code: string, table: map<char, nat>, power: nat -> nat) returns (id: nat)
    requires forall c :: (if c in table then table[c] else 0) == Reverse(c)
    ensures id == Weighted(power, Values(code[..End(code)])) % UINT64
  {
    hide End;
    var l := FindEnd(code);
    id := 0;
    ghost var v := Values(code[..l]);
    for i := 0 to l
      invariant id == Weighted(power, v[..i]) % UINT64
    {
      var ch := if code[i] in table then table[code[i]] else 0;
      assert v[..i + 1][..i] == v[..i];
      SumWraps(Weighted(power, v[..i]), power(i) * v[i]);
      id := (id + power(i) * ch) % UINT64;
    }
    assert v[..l] == v;
  }

  lemma SumWraps(a: nat, b: nat)
    ensures (a % UINT64 + b) % UINT64 == (a + b) % UINT64
  {
  }

  // ---------- Round trip ----------

  lemma CodeEnd(code: string, id: nat)
    requires IsCode(code, id)
    ensures End(code) == |Digits(id)| && Values(code[..End(code)]) == Digits(id)
  {
    var d := Digits(id);
    var n := |d|;
    forall i | 0 <= i < |code| && i != n ensures code[i] != 'Y' && code[i] != 'Z' {
      if i < n {
        assert code[i] == Letters(d)[i];
        DictionaryReversed(d[i]);
      } else {
        var k :| 0 <= k < |DICTIONARY| && DICTIONARY[k] == code[i];
        DictionaryReversed(k);
      }
    }
    assert n < |code| ==> code[n] == 'Y' || code[n] == 'Z';
    assert End(code) == n;
    forall i | 0 <= i < n ensures Values(code[..n])[i] == d[i] {
      assert code[i] == Letters(d)[i];
      DictionaryReversed(d[i]);
    }
  }

  /** Every code of an id is decoded to the id, without an overflow on the way, whatever the marker and the
      padding are. */
  lemma RoundTrip(code: string, id: nat)
    requires IsCode(code, id) && id < UINT64
    ensures End(code) <= 14 && Number(Values(code[..End(code)])) == id
    ensures forall i :: 0 <= i <= End(code) ==> Number(Values(code[..End(code)])[..i]) < UINT64
  {
    CodeEnd(code, id);
    NumberOfDigits(id);
    Power14();
    DigitCount(id, 14);
    forall i | 0 <= i <= End(code) ensures Number(Digits(id)[..i]) < UINT64 {
      NumberOfPrefix(Digits(id), i);
    }
  }

  /** Decoding what encoding gives returns the id. */
  method EncodeAndDecode(id: nat, marker: nat, padding: nat -> nat, table: map<char, nat>, power: nat -> nat) returns (back: nat)
    requires id < UINT64 && marker < |COMPLEMENT|
    requires ExactPowers(power) && forall c :: (if c in table then table[c] else 0) == Reverse(c)
    ensures back == id
  {
    hide IsCode, ExactPowers, Weighted, Number, Reverse;
    var code := Base30Encode(id, marker, padding);
    RoundTrip(code, id);
    WeightedIsNumber(power, Values(code[..End(code)]));
    back := Base30Decode(code, table, power);
  }

  /** So the codes of two courses never collide. */
  lemma CodesDiffer(code: string, a: nat, b: nat)
    requires IsCode(code, a) && IsCode(code, b)
    ensures a == b
  {
    CodeEnd(code, a);
    CodeEnd(code, b);
    NumberOfDigits(a);
    NumberOfDigits(b);
  }
}
