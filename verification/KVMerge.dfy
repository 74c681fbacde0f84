/** The merge operator of the store. The store may combine the operands of a key in any grouping, starting
    anywhere and growing to both sides; the value does not depend on it. */
module KVMerge {
  import opened Integers
  import opened Options

  datatype Mergeable =
    | Nothing
    | Strings(strings: seq<string>)
    | Counter(value: int)
    | Ids(ids: seq<nat>)

  /** The signed 64-bit integer congruent to an integer. */
  function Wrap(x: int): (r: int)
    ensures -INT64 <= r < INT64 && (r - x) % UINT64 == 0
    ensures -INT64 <= x < INT64 ==> r == x
  {
    (x + INT64) % UINT64 - INT64
  }

  lemma WrapUnique(x: int, y: int)
    requires (x - y) % UINT64 == 0
    ensures Wrap(x) == Wrap(y)
  {
    assert (Wrap(x) - x + (x - y) - (Wrap(y) - y)) % UINT64 == 0;
    assert (Wrap(x) - Wrap(y)) % UINT64 == 0;
  }

  lemma WrapSum(x: int, y: int)
    ensures Wrap(Wrap(x) + y) == Wrap(x + y) == Wrap(x + Wrap(y))
  {
    WrapUnique(Wrap(x) + y, x + y);
    WrapUnique(x + Wrap(y), x + y);
  }

  /** An operand of another kind counts as 0 in a counter; in a list the program panics. */
  function CountOf(m: Mergeable): int {
    if m.Counter? then m.value else 0
  }

  function Newer(buffer: Mergeable, m: Mergeable): Option<Mergeable> {
    match buffer
    case Strings(l) => if m.Strings? then Some(Strings(l + m.strings)) else None
    case Counter(c) => Some(Counter(Wrap(c + CountOf(m))))
    case Ids(l) => if m.Ids? then Some(Ids(l + m.ids)) else None
    case Nothing => Some(m)
  }

  function Older(buffer: Mergeable, m: Mergeable): Option<Mergeable> {
    match buffer
    case Strings(l) => if m.Strings? then Some(Strings(m.strings + l)) else None
    case Counter(c) => Some(Counter(Wrap(c + CountOf(m))))
    case Ids(l) => if m.Ids? then Some(Ids(m.ids + l)) else None
    case Nothing => Some(m)
  }

  class KVMerge {
    var buffer: Mergeable

    constructor (value: Option<Mergeable>)
      ensures buffer == if value.Some? then value.value else Nothing
    {
      buffer := if value.Some? then value.value else Nothing;
    }

    method MergeNewer(m: Mergeable) returns (panics: bool)
      modifies this
      ensures panics <==> Newer(old(buffer), m).None?
      ensures !panics ==> buffer == Newer(old(buffer), m).value
    {
      panics := false;
      match buffer
      case Strings(_) =>
        if !m.Strings? { return true; }
        buffer := buffer.(strings := buffer.strings + m.strings);
      case Counter(_) => buffer := buffer.(value := Wrap(buffer.value + CountOf(m)));
      case Ids(_) =>
        if !m.Ids? { return true; }
        buffer := buffer.(ids := buffer.ids + m.ids);
      case Nothing => buffer := m;
    }

    method MergeOlder(m: Mergeable) returns (panics: bool)
      modifies this
      ensures panics <==> Older(old(buffer), m).None?
      ensures !panics ==> buffer == Older(old(buffer), m).value
    {
      panics := false;
      match buffer
      case Strings(_) =>
        if !m.Strings? { return true; }
        buffer := buffer.(strings := m.strings + buffer.strings);
      case Counter(_) => buffer := buffer.(value := Wrap(buffer.value + CountOf(m)));
      case Ids(_) =>
        if !m.Ids? { return true; }
        buffer := buffer.(ids := m.ids + buffer.ids);
      case Nothing => buffer := m;
    }
  }

  // ---------- Any grouping ----------

  /** A way to combine operands: a buffer grows to its newer or to its older side by what another
      combination, written back earlier, amounts to. */
  datatype Plan =
    | Operand(m: Mergeable)
    | Then(buffer: Plan, newer: Plan)
    | Before(buffer: Plan, older: Plan)

  /** The operands from old to new. */
  function Operands(p: Plan): (r: seq<Mergeable>)
    ensures r != []
  {
    match p
    case Operand(m) => [m]
    case Then(b, n) => Operands(b) + Operands(n)
    case Before(b, o) => Operands(o) + Operands(b)
  }

  function Eval(p: Plan): Option<Mergeable> {
    match p
    case Operand(m) => Some(m)
    case Then(b, n) => if Eval(b).Some? && Eval(n).Some? then Newer(Eval(b).value, Eval(n).value) else None
    case Before(b, o) => if Eval(b).Some? && Eval(o).Some? then Older(Eval(b).value, Eval(o).value) else None
  }

  // ---------- From left to right ----------

  datatype Kind = StringKind | IdKind | CounterKind

  predicate Int64(m: Mergeable) {
    m.Counter? ==> -INT64 <= m.value < INT64
  }

  /** An operand without a value goes with counters. */
  predicate Numeric(m: Mergeable) {
    m.Counter? || m.Nothing?
  }

  predicate OfKind(m: Mergeable, kind: Kind) {
    match kind
    case StringKind => m.Strings?
    case IdKind => m.Ids?
    case CounterKind => Numeric(m) && Int64(m)
  }

  ghost predicate Uniform(ms: seq<Mergeable>, kind: Kind) {
    forall m :: m in ms ==> OfKind(m, kind)
  }

  function StringsOf(m: Mergeable): seq<string> {
    if m.Strings? then m.strings else []
  }

  function IdsOf(m: Mergeable): seq<nat> {
    if m.Ids? then m.ids else []
  }

  function Joined<T>(lists: seq<seq<T>>): seq<T> {
    if lists == [] then [] else lists[0] + Joined(lists[1..])
  }

  function Map<T>(f: Mergeable -> T, ms: seq<Mergeable>): (r: seq<T>)
    ensures |r| == |ms| && forall i :: 0 <= i < |r| ==> r[i] == f(ms[i])
  {
    seq(|ms|, i requires 0 <= i < |ms| => f(ms[i]))
  }

  function Total(values: seq<int>): int {
    if values == [] then 0 else values[0] + Total(values[1..])
  }

  /** What operands of one kind amount to, from old to new. */
  function Fold(ms: seq<Mergeable>, kind: Kind): Mergeable {
    match kind
    case StringKind => Strings(Joined(Map(StringsOf, ms)))
    case IdKind => Ids(Joined(Map(IdsOf, ms)))
    case CounterKind =>
      if forall i :: 0 <= i < |ms| ==> ms[i].Nothing? then Nothing else Counter(Wrap(Total(Map(CountOf, ms))))
  }

  lemma {:induction false} JoinedConcat<T>(a: seq<seq<T>>, b: seq<seq<T>>)
    ensures Joined(a + b) == Joined(a) + Joined(b)
    decreases |a|
  {
    if a == [] {
      assert a + b == b;
    } else {
      assert (a + b)[1..] == a[1..] + b;
      JoinedConcat(a[1..], b);
    }
  }

  lemma {:induction false} TotalConcat(a: seq<int>, b: seq<int>)
    ensures Total(a + b) == Total(a) + Total(b)
    decreases |a|
  {
    if a == [] {
      assert a + b == b;
    } else {
      assert (a + b)[1..] == a[1..] + b;
      TotalConcat(a[1..], b);
    }
  }

  lemma MapConcat<T>(f: Mergeable -> T, a: seq<Mergeable>, b: seq<Mergeable>)
    ensures Map(f, a + b) == Map(f, a) + Map(f, b)
  {
  }

  lemma FoldOne(m: Mergeable, kind: Kind)
    requires OfKind(m, kind)
    ensures Fold([m], kind) == m
  {
    match kind
    case StringKind => assert Map(StringsOf, [m]) == [m.strings] && Joined([m.strings]) == m.strings + Joined([m.strings][1..]);
    case IdKind => assert Map(IdsOf, [m]) == [m.ids] && Joined([m.ids]) == m.ids + Joined([m.ids][1..]);
    case CounterKind =>
      var v := CountOf(m);
      assert Map(CountOf, [m]) == [v] && Total([v]) == v + Total([v][1..]);
      assert [m][0] == m;
  }

  lemma WrapTotals(a: seq<Mergeable>, b: seq<Mergeable>)
    ensures Wrap(Total(Map(CountOf, a + b))) == Wrap(Wrap(Total(Map(CountOf, a))) + Wrap(Total(Map(CountOf, b))))
  {
    MapConcat(CountOf, a, b);
    var x, y := Map(CountOf, a), Map(CountOf, b);
    TotalConcat(x, y);
    WrapSum(Total(x), Total(y));
    WrapSum(Total(x), Wrap(Total(y)));
  }

  lemma {:induction false} TotalOfNothing(ms: seq<Mergeable>)
    requires forall i :: 0 <= i < |ms| ==> ms[i].Nothing?
    ensures Total(Map(CountOf, ms)) == 0
  {
    if ms != [] {
      TotalOfNothing(ms[1..]);
      assert Map(CountOf, ms)[1..] == Map(CountOf, ms[1..]);
    }
  }

  /** Two neighbouring runs of operands, from either side. */
  lemma FoldConcat(a: seq<Mergeable>, b: seq<Mergeable>, kind: Kind)
    requires a != [] && b != []
    ensures Newer(Fold(a, kind), Fold(b, kind)) == Some(Fold(a + b, kind)) == Older(Fold(b, kind), Fold(a, kind))
  {
    match kind
    case StringKind =>
      MapConcat(StringsOf, a, b);
      JoinedConcat(Map(StringsOf, a), Map(StringsOf, b));
    case IdKind =>
      MapConcat(IdsOf, a, b);
      JoinedConcat(Map(IdsOf, a), Map(IdsOf, b));
    case CounterKind => CounterConcat(a, b);
  }

  lemma CounterConcat(a: seq<Mergeable>, b: seq<Mergeable>)
    ensures var k := CounterKind;
            Newer(Fold(a, k), Fold(b, k)) == Some(Fold(a + b, k)) == Older(Fold(b, k), Fold(a, k))
  {
    WrapTotals(a, b);
    assert forall i :: 0 <= i < |a| ==> a[i] == (a + b)[i];
    assert forall i :: 0 <= i < |b| ==> b[i] == (a + b)[|a| + i];
    if forall i :: 0 <= i < |a| ==> a[i].Nothing? { TotalOfNothing(a); }
    if forall i :: 0 <= i < |b| ==> b[i].Nothing? { TotalOfNothing(b); }
    hide Wrap, Total, Map;
    if forall i :: 0 <= i < |a + b| ==> (a + b)[i].Nothing? {
      assert forall i :: 0 <= i < |a| ==> a[i].Nothing?;
      assert forall i :: 0 <= i < |b| ==> b[i].Nothing?;
    }
  }

  /** However the store groups operands of one kind, the value is their fold from old to new: lists are
      concatenated in order, and counters add up, wrapping around as 64-bit integers do. */
  lemma {:induction false} GroupingIrrelevant(p: Plan, kind: Kind)
    requires Uniform(Operands(p), kind)
    ensures Eval(p) == Some(Fold(Operands(p), kind))
  {
    hide Fold, OfKind;
    match p
    case Operand(m) => FoldOne(m, kind);
    case Then(b, n) =>
      GroupingIrrelevant(b, kind);
      GroupingIrrelevant(n, kind);
      FoldConcat(Operands(b), Operands(n), kind);
    case Before(b, o) =>
      GroupingIrrelevant(b, kind);
      GroupingIrrelevant(o, kind);
      FoldConcat(Operands(o), Operands(b), kind);
  }

  /** Across kinds it matters from which side two operands meet, unless both are lists or neither is. */
  lemma SideMatters(a: Mergeable, b: Mergeable)
    requires Int64(a) && Int64(b)
    ensures Newer(a, b) == Older(b, a) <==> (Numeric(a) <==> Numeric(b))
  {
  }
}
