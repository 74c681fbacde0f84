/** Cutting output down to a number of bytes without cutting a character in two. */
module Truncation {
  import opened KeyPrefix

  // ---------- UTF-8, section 4 of RFC 3629 ----------

  predicate Tail(b: Byte) { 0x80 <= b <= 0xBF }

  /** utf8.RuneStart: every byte that is not a continuation byte. */
  predicate RuneStart(b: Byte) { !Tail(b) }

  /** The length of the character at the front, or 0 when there is no valid one. */
  function CharLength(s: Bytes): (n: nat)
    ensures n <= |s| && n <= 4
    ensures n > 0 ==> RuneStart(s[0]) && forall i :: 1 <= i < n ==> Tail(s[i])
  {
    if s == [] then 0
    else if s[0] <= 0x7F then 1
    else if 0xC2 <= s[0] <= 0xDF && |s| >= 2 && Tail(s[1]) then 2
    else if |s| >= 3 && Tail(s[2]) && Three(s[0], s[1]) then 3
    else if |s| >= 4 && Tail(s[2]) && Tail(s[3]) && Four(s[0], s[1]) then 4
    else 0
  }

  predicate Three(lead: Byte, second: Byte) {
    || (lead == 0xE0 && 0xA0 <= second <= 0xBF)
    || (0xE1 <= lead <= 0xEC && Tail(second))
    || (lead == 0xED && 0x80 <= second <= 0x9F)
    || (0xEE <= lead <= 0xEF && Tail(second))
  }

  predicate Four(lead: Byte, second: Byte) {
    || (lead == 0xF0 && 0x90 <= second <= 0xBF)
    || (0xF1 <= lead <= 0xF3 && Tail(second))
    || (lead == 0xF4 && 0x80 <= second <= 0x8F)
  }

  predicate Utf8(s: Bytes) {
    s == [] || (CharLength(s) > 0 && Utf8(s[CharLength(s)..]))
  }

  lemma {:induction false} Utf8Concat(a: Bytes, b: Bytes)
    requires Utf8(a) && Utf8(b)
    ensures Utf8(a + b)
    decreases |a|
  {
    if a == [] {
      assert a + b == b;
    } else {
      var n := CharLength(a);
      assert CharLength(a + b) == n;
      assert (a + b)[n..] == a[n..] + b;
      Utf8Concat(a[n..], b);
    }
  }

  /** A cut inside valid text leaves a valid front if and only if the byte behind the cut starts a
      character; then what is behind it is valid, too. */
  lemma {:induction false} Utf8Cut(s: Bytes, i: nat)
    requires Utf8(s) && i < |s|
    ensures Utf8(s[..i]) <==> RuneStart(s[i])
    ensures Utf8(s[i..]) <==> RuneStart(s[i])
    decreases |s|
  {
    var n := CharLength(s);
    if i == 0 {
      assert s[0..] == s;
    } else if i < n {
      assert s[i..][0] == s[i] && s[..i][0] == s[0];
      CutCharacter(s, i);
    } else {
      var rest := s[n..];
      if i == n && rest == [] {
        assert false;
      } else {
        Utf8Cut(rest, i - n);
        assert rest[i - n..] == s[i..] && rest[i - n] == s[i];
        assert s[..i] == s[..n] + rest[..i - n];
        FrontOf(s, i);
      }
    }
  }

  lemma CutCharacter(s: Bytes, i: nat)
    requires 0 < i < CharLength(s)
    ensures CharLength(s[..i]) == 0
  {
  }

  lemma FrontOf(s: Bytes, i: nat)
    requires Utf8(s) && s != [] && CharLength(s) <= i < |s|
    ensures Utf8(s[..i]) <==> Utf8(s[CharLength(s)..i])
  {
    var n := CharLength(s);
    assert CharLength(s[..i]) == n;
    assert s[..i][n..] == s[n..i];
  }

  /** In valid text a character starts within four bytes, in either direction. */
  lemma {:induction false} StartsNearby(s: Bytes, i: nat)
    requires Utf8(s) && i < |s|
    ensures exists k :: 0 <= k <= i <= k + 3 && RuneStart(s[k])
    ensures i + 3 >= |s| || exists k :: i <= k <= i + 3 && RuneStart(s[k])
    decreases |s|
  {
    var n := CharLength(s);
    if i < n {
      assert RuneStart(s[0]);
      if n < |s| {
        assert CharLength(s[n..]) > 0 && s[n..][0] == s[n];
      }
      if i > 0 && i + 3 < |s| {
        assert i <= n <= i + 3 && RuneStart(s[n]);
      }
    } else {
      var rest := s[n..];
      StartsNearby(rest, i - n);
      var k :| 0 <= k <= i - n <= k + 3 && RuneStart(rest[k]);
      assert RuneStart(s[k + n]);
      if i + 3 < |s| {
        var l :| i - n <= l <= i - n + 3 && RuneStart(rest[l]);
        assert RuneStart(s[l + n]);
      }
    }
  }

  // ---------- Output of a test ----------

  /** The cuts that were made: `half` bytes at each end, moved to the start of a character. */
  ghost predicate CutAt(output: Bytes, half: nat, head: nat, tail: nat) {
    && head <= half < |output| && |output| - half <= tail <= |output|
    && (head == 0 || RuneStart(output[head])) && (forall k :: head < k <= half ==> Tail(output[k]))
    && (tail == |output| || RuneStart(output[tail])) && (forall k :: |output| - half <= k < tail ==> Tail(output[k]))
  }

  /** Long output keeps its beginning and its end, with a prompt in between. It is never longer than
      allowed; and valid output with a valid prompt stays valid, except when the prompt leaves no room
      and the plain cut happens to split a character. A division by 2 truncates toward zero. */
  method TruncateOutput(output: Bytes, maxLength: nat, prompt: Bytes) returns (r: Bytes, ghost head: nat, ghost tail: nat)
    ensures |output| <= maxLength ==> r == output
    ensures |output| > maxLength && maxLength - |prompt| < 2 ==> r == output[..maxLength]
    ensures |output| > maxLength && maxLength - |prompt| >= 2 ==>
      && CutAt(output, (maxLength - |prompt|) / 2, head, tail)
      && r == output[..head] + prompt + output[tail..]
    ensures |r| <= maxLength
    ensures Utf8(output) && Utf8(prompt) ==>
      (Utf8(r) <==> |output| <= maxLength || maxLength - |prompt| >= 2 || RuneStart(output[maxLength]))
  {
    hide Utf8;
    head, tail := 0, 0;
    if |output| <= maxLength {
      return output, 0, 0;
    }
    var room := maxLength - |prompt|;
    var half := if room >= 0 then room / 2 else -(-room / 2);
    if half <= 0 {
      if Utf8(output) {
        PlainCutValid(output, maxLength);
      }
      return output[..maxLength], 0, 0;
    }
    var h := half;
    while h > 0 && !RuneStart(output[h])
      invariant 0 <= h <= half
      invariant forall k :: h < k <= half ==> Tail(output[k])
    {
      h := h - 1;
    }
    var t := |output| - half;
    while t < |output| && !RuneStart(output[t])
      invariant |output| - half <= t <= |output|
      invariant forall k :: |output| - half <= k < t ==> Tail(output[k])
    {
      t := t + 1;
    }
    head, tail := h, t;
    TruncatedLength(output, maxLength, prompt, head, tail);
    if Utf8(output) && Utf8(prompt) {
      TruncatedIsValid(output, prompt, half, head, tail);
    }
    r := output[..h] + prompt + output[t..];
  }

  /** The result is never longer than allowed, whatever the bytes are. */
  lemma TruncatedLength(output: Bytes, maxLength: nat, prompt: Bytes, head: nat, tail: nat)
    requires |output| > maxLength && maxLength - |prompt| >= 2
    requires CutAt(output, (maxLength - |prompt|) / 2, head, tail)
    ensures |output[..head] + prompt + output[tail..]| <= maxLength && head <= tail
  {
  }

  /** Valid output and a valid prompt give a valid result, and no more than three bytes are given up at
      each end. */
  lemma TruncatedIsValid(output: Bytes, prompt: Bytes, half: nat, head: nat, tail: nat)
    requires Utf8(output) && Utf8(prompt) && 0 < half < |output| && CutAt(output, half, head, tail)
    ensures Utf8(output[..head] + prompt + output[tail..])
    ensures half - 3 <= head && tail <= |output| - half + 3
  {
    hide CharLength;
    StartsNearby(output, half);
    StartsNearby(output, |output| - half);
    CutsValid(output, head, tail);
    Utf8Concat(output[..head], prompt);
    Utf8Concat(output[..head] + prompt, output[tail..]);
  }

  lemma CutsValid(output: Bytes, head: nat, tail: nat)
    requires Utf8(output) && head < |output| && tail <= |output|
    requires (head == 0 || RuneStart(output[head])) && (tail == |output| || RuneStart(output[tail]))
    ensures Utf8(output[..head]) && Utf8(output[tail..])
  {
    hide CharLength;
    if head > 0 {
      Utf8Cut(output, head);
    }
    if tail < |output| {
      Utf8Cut(output, tail);
    } else {
      assert output[tail..] == [];
    }
  }

  /** When the prompt leaves no room, the plain cut is valid exactly when it happens to fall between two
      characters. */
  lemma PlainCutValid(output: Bytes, maxLength: nat)
    requires Utf8(output) && maxLength < |output|
    ensures Utf8(output[..maxLength]) <==> RuneStart(output[maxLength])
  {
    Utf8Cut(output, maxLength);
  }

  // ---------- Container logs ----------

  /** A long log keeps its end. */
  method LogTail(output: Bytes, maxLength: nat) returns (r: Bytes, ghost cut: nat)
    ensures cut <= |output| && r == output[cut..] && |r| <= maxLength
    ensures |output| <= maxLength ==> r == output
    ensures Utf8(output) ==> Utf8(r) && (|output| > maxLength ==> |r| + 3 >= maxLength)
  {
    if |output| <= maxLength {
      return output, 0;
    }
    var c := |output| - maxLength;
    while c < |output| && !RuneStart(output[c])
      invariant |output| - maxLength <= c <= |output|
      invariant forall k :: |output| - maxLength <= k < c ==> Tail(output[k])
    {
      c := c + 1;
    }
    if Utf8(output) {
      CutsValid(output, 0, c);
      if maxLength > 0 {
        StartsNearby(output, |output| - maxLength);
      }
    }
    return output[c..], c;
  }
}
