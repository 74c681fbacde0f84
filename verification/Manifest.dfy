/** The files of an upload manifest and the counter of their sizes, which the store keeps as merge
    operands, together with the quota that uploads respect. */
module Manifest {
  import opened Integers
  import opened Options
  import opened KVMerge

  // ---------- Sums over files ----------

  ghost function SizeOf(files: map<string, nat>): nat
    decreases |files|
  {
    if files == map[] then 0
    else
      var f :| f in files;
      files[f] + SizeOf(files - {f})
  }

  lemma {:induction false} SizeWithout(files: map<string, nat>, f: string)
    requires f in files
    ensures SizeOf(files) == files[f] + SizeOf(files - {f})
    decreases |files|
  {
    var g :| g in files && SizeOf(files) == files[g] + SizeOf(files - {g});
    if g != f {
      SizeWithout(files - {g}, f);
      SizeWithout(files - {f}, g);
      assert files - {g} - {f} == files - {f} - {g};
    }
  }

  lemma SizeWith(files: map<string, nat>, f: string, size: nat)
    ensures SizeOf(files[f := size]) == size + SizeOf(files - {f})
    ensures SizeOf(files[f := size]) + (if f in files then files[f] else 0) == SizeOf(files) + size
  {
    SizeWithout(files[f := size], f);
    assert files[f := size] - {f} == files - {f};
    if f in files {
      SizeWithout(files, f);
    } else {
      assert files - {f} == files;
    }
  }

  // ---------- One manifest ----------

  /** What a read of the counter gives. */
  ghost predicate Reads(operands: seq<Mergeable>, counter: int) {
    Fold(operands, CounterKind) == Counter(counter)
  }

  /** The way the store groups operands when it reads them; any way will do. */
  ghost predicate Groups(grouping: seq<Mergeable> -> Plan) {
    forall ms :: ms != [] ==> Operands(grouping(ms)) == ms
  }

  ghost predicate Counted(operands: seq<Mergeable>, counter: int) {
    operands != [] && Uniform(operands, CounterKind) && Reads(operands, counter)
  }

  lemma CounterRead(operands: seq<Mergeable>, counter: int, plan: Plan)
    requires Counted(operands, counter) && Operands(plan) == operands
    ensures Eval(plan) == Some(Counter(counter))
  {
    GroupingIrrelevant(plan, CounterKind);
  }

  /** One more operand adds its value. */
  lemma CounterGrows(operands: seq<Mergeable>, counter: int, v: int)
    requires Counted(operands, counter)
    ensures Counted(operands + [Counter(Wrap(v))], Wrap(counter + v))
  {
    FoldOne(Counter(Wrap(v)), CounterKind);
    FoldConcat(operands, [Counter(Wrap(v))], CounterKind);
    WrapSum(counter, v);
  }

  /** The 64-bit value of a file's size with its sign turned. */
  lemma NegativeWraps(size: nat)
    ensures Wrap(-Wrap(size)) == Wrap(-(size as int))
  {
    WrapUnique(-Wrap(size), -(size as int));
  }

  function Clamp(counter: int): nat {
    if counter < 0 then 0 else counter
  }

  class Manifest {
    var files: map<string, nat>
    var operands: seq<Mergeable>
    /** The sizes of the files that were overwritten without having been deleted first. */
    ghost var overwritten: nat

    /** The counter is the size of all files, and of those overwritten, up to the wrap-around. */
    ghost predicate Valid() reads this {
      && Counted(operands, Wrap(SizeOf(files) + overwritten))
      && forall f :: f in files ==> files[f] < UINT64
    }

    constructor ()
      ensures Valid() && files == map[] && overwritten == 0
    {
      files, operands, overwritten := map[], [Counter(0)], 0;
      FoldOne(Counter(0), CounterKind);
    }

    /** The file and the operand are written in one batch. */
    method AddFileToManifest(name: string, size: nat)
      requires Valid() && size < UINT64
      modifies this
      ensures Valid() && files == old(files)[name := size]
      ensures overwritten == old(overwritten) + if name in old(files) then old(files)[name] else 0
    {
      hide Wrap, Counted, Fold;
      CounterGrows(operands, Wrap(SizeOf(files) + overwritten), size);
      WrapSum(SizeOf(files) + overwritten, size);
      SizeWith(files, name, size);
      overwritten := overwritten + if name in files then files[name] else 0;
      files := files[name := size];
      operands := operands + [Counter(Wrap(size))];
    }

    method DeleteFileInManifest(name: string) returns (found: bool)
      requires Valid()
      modifies this
      ensures Valid() && found == (name in old(files)) && overwritten == old(overwritten)
      ensures files == old(files) - {name}
    {
      hide Wrap, Counted, Fold;
      found := name in files;
      if !found {
        assert files - {name} == files;
        return;
      }
      NegativeWraps(files[name]);
      CounterGrows(operands, Wrap(SizeOf(files) + overwritten), -(files[name] as int));
      WrapSum(SizeOf(files) + overwritten, -(files[name] as int));
      SizeWithout(files, name);
      operands := operands + [Counter(Wrap(-Wrap(files[name])))];
      files := files - {name};
    }

    /** A negative counter reads as 0. */
    method GetManifestFilesize(grouping: seq<Mergeable> -> Plan) returns (size: nat)
      requires Valid() && Groups(grouping)
      ensures size == Clamp(Wrap(SizeOf(files) + overwritten))
    {
      hide Wrap, Fold, Eval, Uniform;
      var plan := grouping(operands);
      CounterRead(operands, Wrap(SizeOf(files) + overwritten), plan);
      var counter := Eval(plan).value.value;
      return if counter < 0 then 0 else counter;
    }

    /** Whether an upload may start: the size it would replace does not count. */
    method InitUpload(grouping: seq<Mergeable> -> Plan, name: string, size: nat, limit: nat) returns (allowed: bool)
      requires Valid() && Groups(grouping) && size < UINT64 && limit < UINT64
      ensures allowed <==>
        MayUpload(Clamp(Wrap(SizeOf(files) + overwritten)), if name in files then files[name] else 0, size, limit)
      ensures SizeOf(files) + overwritten < INT64 && SizeOf(files - {name}) + overwritten + size < UINT64 ==>
                (allowed <==> size != 0 && SizeOf(files - {name}) + overwritten + size <= limit)
    {
      hide Wrap, Counted, Clamp, SizeOf, Groups;
      if SizeOf(files) + overwritten < INT64 && SizeOf(files - {name}) + overwritten + size < UINT64 {
        MayUploadExact(files, overwritten, name, size, limit);
      }
      var total := GetManifestFilesize(grouping);
      ClampRange(Wrap(SizeOf(files) + overwritten), SizeOf(files) + overwritten);
      if name in files {
        total := (total + UINT64 - files[name]) % UINT64;
      } else {
        Unchanged64(total);
      }
      return !(size == 0 || (total + size) % UINT64 > limit);
    }

    /** The check of an upload, with the lock held: a file of the same name is deleted first. The size of a
        received file is a signed integer. */
    method CheckUpload(grouping: seq<Mergeable> -> Plan, name: string, size: nat, limit: nat) returns (ok: bool)
      requires Valid() && Groups(grouping) && size < INT64
      modifies this
      ensures Valid() && files == old(files) - {name} && overwritten == old(overwritten)
      ensures ok <==> Accepts(old(files), overwritten, name, size, limit)
      ensures SizeOf(files) + overwritten < INT64 ==> (ok <==> SizeOf(files) + overwritten + size <= limit)
    {
      hide Wrap, Counted;
      CounterExact(SizeOf(files - {name}) + overwritten);
      if name in files {
        var found := DeleteFileInManifest(name);
      }
      assert files == old(files) - {name};
      var current := GetManifestFilesize(grouping);
      ClampRange(Wrap(SizeOf(files) + overwritten), SizeOf(files) + overwritten);
      Unchanged64(current + size);
      return !((current + size) % UINT64 > limit);
    }
  }

  lemma ClampRange(counter: int, balance: int)
    requires counter == Wrap(balance)
    ensures Clamp(counter) < INT64
  {
  }

  lemma Unchanged64(x: nat)
    requires x < UINT64
    ensures x % UINT64 == x == (x + UINT64) % UINT64
  {
  }

  // ---------- What the counter is worth ----------

  /** The counter reads as the true balance exactly while that fits a signed 64-bit integer: the clamp
      then has nothing to do. */
  lemma CounterExact(balance: nat)
    ensures Clamp(Wrap(balance)) == balance <==> balance < INT64
  {
  }

  /** In that range it is never less than the size of the files, and more only by what was overwritten; so
      taking off the size of one file never wraps around. */
  lemma CounterBounds(files: map<string, nat>, overwritten: nat)
    requires SizeOf(files) + overwritten < INT64
    ensures var total := Clamp(Wrap(SizeOf(files) + overwritten));
            && total >= SizeOf(files) && (total == SizeOf(files) <==> overwritten == 0)
            && forall f :: f in files ==> files[f] <= total
  {
    CounterExact(SizeOf(files) + overwritten);
    forall f | f in files ensures files[f] <= SizeOf(files) {
      SizeWithout(files, f);
    }
  }

  /** What InitUpload decides, in unsigned 64-bit arithmetic. */
  predicate MayUpload(total: nat, replaced: nat, size: nat, limit: nat) {
    size != 0 && ((total + UINT64 - replaced) % UINT64 + size) % UINT64 <= limit
  }

  /** It decides what it should under every limit if and only if the new total fits 64 bits. */
  lemma InitUploadExact(total: nat, replaced: nat, size: nat)
    requires replaced <= total < UINT64 && 0 < size < UINT64
    ensures (forall limit: nat :: limit < UINT64 ==>
               (MayUpload(total, replaced, size, limit) <==> total - replaced + size <= limit))
       <==> total - replaced + size < UINT64
  {
    var left: nat := total - replaced;
    Unchanged64(left);
    assert (total + UINT64 - replaced) % UINT64 == left;
    if left + size < UINT64 {
      Unchanged64(left + size);
    } else {
      var limit: nat := UINT64 - 1;
      assert MayUpload(total, replaced, size, limit);
    }
  }

  /** ... and so it is exact about the files that will be there. */
  lemma MayUploadExact(files: map<string, nat>, overwritten: nat, name: string, size: nat, limit: nat)
    requires limit < UINT64
    requires SizeOf(files) + overwritten < INT64 && SizeOf(files - {name}) + overwritten + size < UINT64
    ensures MayUpload(Clamp(Wrap(SizeOf(files) + overwritten)), if name in files then files[name] else 0, size, limit)
       <==> size != 0 && SizeOf(files - {name}) + overwritten + size <= limit
  {
    hide Wrap, Clamp;
    if name in files {
      SizeWithout(files, name);
    } else {
      assert files - {name} == files;
    }
    CounterExact(SizeOf(files) + overwritten);
    if 0 < size < UINT64 {
      InitUploadExact(SizeOf(files) + overwritten, if name in files then files[name] else 0, size);
    }
  }

  // ---------- Uploads ----------

  /** Uploads that were checked wait for their data before they are recorded. */
  datatype Upload = Upload(name: string, size: nat)

  datatype Uploads = Uploads(files: map<string, nat>, overwritten: nat, checked: seq<Upload>)

  datatype Event = Check(up: Upload) | Lose(i: nat) | Record(i: nat) | Delete(name: string)

  ghost predicate Accepts(files: map<string, nat>, overwritten: nat, name: string, size: nat, limit: nat) {
    Clamp(Wrap(SizeOf(files - {name}) + overwritten)) + size <= limit
  }

  /** The check decides as it should under every limit if and only if the balance without the file to be
      replaced is below 2^63. */
  lemma AcceptsExact(files: map<string, nat>, overwritten: nat, name: string, size: nat)
    ensures var left := SizeOf(files - {name}) + overwritten;
            (forall limit: nat :: Accepts(files, overwritten, name, size, limit) <==> left + size <= limit)
              <==> left < INT64
  {
    hide Wrap, Clamp, SizeOf;
    var left := SizeOf(files - {name}) + overwritten;
    CounterExact(left);
    if left >= INT64 {
      var read := Clamp(Wrap(left));
      var limit: nat := (if read < left then read else left) + size;
      assert Accepts(files, overwritten, name, size, limit) != (left + size <= limit);
    }
  }

  predicate Can(u: Uploads, e: Event) {
    match e
    case Check(up) => 0 < up.size < INT64
    case Lose(i) => i < |u.checked|
    case Record(i) => i < |u.checked|
    case Delete(_) => true
  }

  ghost function After(u: Uploads, e: Event, limit: nat): Uploads
    requires Can(u, e)
  {
    match e
    case Check(up) =>
      u.(files := u.files - {up.name},
         checked := if Accepts(u.files, u.overwritten, up.name, up.size, limit) then u.checked + [up] else u.checked)
    case Lose(i) => u.(checked := u.checked[..i] + u.checked[i + 1..])
    case Record(i) =>
      var up := u.checked[i];
      Uploads(u.files[up.name := up.size],
              u.overwritten + (if up.name in u.files then u.files[up.name] else 0),
              u.checked[..i] + u.checked[i + 1..])
    case Delete(name) => u.(files := u.files - {name})
  }

  const NO_UPLOADS := Uploads(map[], 0, [])

  ghost predicate IsRun(us: seq<Uploads>, events: seq<Event>, limit: nat) {
    && |us| == |events| + 1 && us[0] == NO_UPLOADS
    && (forall i :: 0 <= i < |events| ==> Can(us[i], events[i]) && us[i + 1] == After(us[i], events[i], limit))
  }

  /** The room that checked uploads will take. */
  function Reserved(ups: seq<Upload>): nat {
    if ups == [] then 0 else ups[0].size + Reserved(ups[1..])
  }

  ghost predicate NewNames(files: map<string, nat>, ups: seq<Upload>) {
    && (forall i :: 0 <= i < |ups| ==> ups[i].name !in files)
    && (forall i, j :: 0 <= i < j < |ups| ==> ups[i].name != ups[j].name)
  }

  /** There is room for everything that was checked, and nothing will be overwritten. */
  ghost predicate Safe(u: Uploads, limit: nat) {
    u.overwritten == 0 && NewNames(u.files, u.checked) && SizeOf(u.files) + Reserved(u.checked) <= limit
  }

  /** An upload is let through only if its name is not that of one under way, and if there is room for it
      beside all those under way. */
  ghost predicate Coordinated(u: Uploads, e: Event, limit: nat) {
    e.Check? && Accepts(u.files, u.overwritten, e.up.name, e.up.size, limit) ==>
      && (forall i :: 0 <= i < |u.checked| ==> u.checked[i].name != e.up.name)
      && SizeOf(u.files - {e.up.name}) + Reserved(u.checked) + e.up.size <= limit
  }

  lemma {:induction false} ReservedAppend(ups: seq<Upload>, up: Upload)
    ensures Reserved(ups + [up]) == Reserved(ups) + up.size
  {
    if ups == [] {
      assert [up][1..] == [];
    } else {
      assert (ups + [up])[1..] == ups[1..] + [up];
      ReservedAppend(ups[1..], up);
    }
  }

  lemma {:induction false} ReservedWithout(ups: seq<Upload>, i: nat)
    requires i < |ups|
    ensures Reserved(ups) == ups[i].size + Reserved(ups[..i] + ups[i + 1..])
  {
    if i == 0 {
      assert ups[..0] + ups[1..] == ups[1..];
    } else {
      ReservedWithout(ups[1..], i - 1);
      assert (ups[..i] + ups[i + 1..])[1..] == ups[1..][..i - 1] + ups[1..][i..];
    }
  }

  lemma SizeShrinks(files: map<string, nat>, name: string)
    ensures SizeOf(files - {name}) <= SizeOf(files)
  {
    if name in files {
      SizeWithout(files, name);
    } else {
      assert files - {name} == files;
    }
  }

  lemma CheckSafe(u: Uploads, up: Upload, limit: nat)
    requires Safe(u, limit) && Can(u, Check(up))
    ensures Safe(After(u, Check(up), limit), limit) <==> Coordinated(u, Check(up), limit)
  {
    hide Accepts;
    SizeShrinks(u.files, up.name);
    if Accepts(u.files, u.overwritten, up.name, up.size, limit) {
      var n := After(u, Check(up), limit);
      ReservedAppend(u.checked, up);
      assert forall i :: 0 <= i < |u.checked| ==> n.checked[i] == u.checked[i];
      assert n.checked[|u.checked|] == up;
    }
  }

  lemma RecordSafe(u: Uploads, i: nat, limit: nat)
    requires Safe(u, limit) && i < |u.checked|
    ensures Safe(After(u, Record(i), limit), limit)
  {
    var n := After(u, Record(i), limit);
    ReservedWithout(u.checked, i);
    SizeWith(u.files, u.checked[i].name, u.checked[i].size);
    assert forall k :: 0 <= k < |n.checked| ==> n.checked[k] == u.checked[if k < i then k else k + 1];
  }

  lemma LoseSafe(u: Uploads, i: nat, limit: nat)
    requires Safe(u, limit) && i < |u.checked|
    ensures Safe(After(u, Lose(i), limit), limit)
  {
    var n := After(u, Lose(i), limit);
    ReservedWithout(u.checked, i);
    assert forall k :: 0 <= k < |n.checked| ==> n.checked[k] == u.checked[if k < i then k else k + 1];
  }

  /** The exact condition for one event. */
  lemma EventSafe(u: Uploads, e: Event, limit: nat)
    requires Safe(u, limit) && Can(u, e)
    ensures Safe(After(u, e, limit), limit) <==> Coordinated(u, e, limit)
  {
    hide Safe, Coordinated;
    match e
    case Check(up) => CheckSafe(u, up, limit);
    case Record(i) => RecordSafe(u, i, limit); OtherCoordinated(u, e, limit);
    case Lose(i) => LoseSafe(u, i, limit); OtherCoordinated(u, e, limit);
    case Delete(name) => DeleteSafe(u, name, limit); OtherCoordinated(u, e, limit);
  }

  lemma OtherCoordinated(u: Uploads, e: Event, limit: nat)
    requires !e.Check?
    ensures Coordinated(u, e, limit)
  {
  }

  lemma DeleteSafe(u: Uploads, name: string, limit: nat)
    requires Safe(u, limit)
    ensures Safe(After(u, Delete(name), limit), limit)
  {
    SizeShrinks(u.files, name);
  }

  /** Over every run of uploads, overlapping or not: all states are safe if and only if every check that
      lets an upload through is coordinated with those under way. */
  lemma RunSafe(us: seq<Uploads>, events: seq<Event>, limit: nat)
    requires IsRun(us, events, limit)
    ensures (forall i :: 0 <= i < |us| ==> Safe(us[i], limit))
       <==> (forall i :: 0 <= i < |events| ==> Coordinated(us[i], events[i], limit))
  {
    hide After, Can, Safe, Coordinated;
    if forall i :: 0 <= i < |events| ==> Coordinated(us[i], events[i], limit) {
      forall i | 0 <= i < |us| ensures Safe(us[i], limit) { CoordinatedRunSafe(us, events, limit, i); }
    }
    if forall i :: 0 <= i < |us| ==> Safe(us[i], limit) {
      forall i | 0 <= i < |events| ensures Coordinated(us[i], events[i], limit) {
        assert us[i + 1] == After(us[i], events[i], limit);
        EventSafe(us[i], events[i], limit);
      }
    }
  }

  lemma {:induction false} CoordinatedRunSafe(us: seq<Uploads>, events: seq<Event>, limit: nat, i: nat)
    requires IsRun(us, events, limit) && i < |us|
    requires forall k :: 0 <= k < i ==> Coordinated(us[k], events[k], limit)
    ensures Safe(us[i], limit)
  {
    hide After, Can, Safe, Coordinated;
    if i == 0 {
      NoUploadsSafe(limit);
    } else {
      CoordinatedRunSafe(us, events, limit, i - 1);
      EventSafe(us[i - 1], events[i - 1], limit);
    }
  }

  lemma NoUploadsSafe(limit: nat)
    ensures Safe(NO_UPLOADS, limit)
  {
  }

  /** Everything that was checked is recorded. */
  ghost function RecordAll(u: Uploads, limit: nat): Uploads
    decreases |u.checked|
  {
    if u.checked == [] then u else RecordAll(After(u, Record(0), limit), limit)
  }

  ghost predicate Positive(u: Uploads) {
    && (forall f :: f in u.files ==> u.files[f] > 0)
    && (forall i :: 0 <= i < |u.checked| ==> u.checked[i].size > 0)
  }

  /** What safety means: when all that was checked is recorded, nothing is overwritten and the limit is
      kept. */
  lemma {:induction false} SafeMeans(u: Uploads, limit: nat)
    requires Positive(u)
    ensures var n := RecordAll(u, limit);
            && Safe(u, limit) <==> n.overwritten == 0 && SizeOf(n.files) <= limit
    ensures RecordAll(u, limit).overwritten >= u.overwritten
    decreases |u.checked|
  {
    if u.checked != [] {
      var n := After(u, Record(0), limit);
      RecordPositive(u, limit);
      SafeMeans(n, limit);
      if Safe(u, limit) {
        RecordSafe(u, 0, limit);
      } else if Safe(n, limit) {
        RecordWasSafe(u, limit);
      }
    }
  }

  /** All sizes are positive in every run, because an empty file is not let through. */
  lemma {:induction false} RunPositive(us: seq<Uploads>, events: seq<Event>, limit: nat, i: nat)
    requires IsRun(us, events, limit) && i < |us|
    ensures Positive(us[i])
  {
    if i > 0 {
      RunPositive(us, events, limit, i - 1);
      assert us[i] == After(us[i - 1], events[i - 1], limit);
    }
  }

  lemma RecordPositive(u: Uploads, limit: nat)
    requires Positive(u) && u.checked != []
    ensures Positive(After(u, Record(0), limit)) && |After(u, Record(0), limit).checked| < |u.checked|
    ensures After(u, Record(0), limit).overwritten >= u.overwritten
  {
    assert u.checked[..0] + u.checked[1..] == u.checked[1..];
  }

  lemma RecordWasSafe(u: Uploads, limit: nat)
    requires Positive(u) && u.checked != [] && Safe(After(u, Record(0), limit), limit)
    ensures Safe(u, limit)
  {
    var n := After(u, Record(0), limit);
    var up := u.checked[0];
    assert n.checked == u.checked[1..];
    assert up.name !in u.files && up.name in n.files;
    SizeWith(u.files, up.name, up.size);
    forall i | 0 <= i < |u.checked| ensures u.checked[i].name !in u.files && (i > 0 ==> u.checked[i].name != up.name) {
      if i > 0 {
        assert n.checked[i - 1] == u.checked[i];
      }
    }
    forall i, j | 0 <= i < j < |u.checked| ensures u.checked[i].name != u.checked[j].name {
      if i > 0 {
        assert n.checked[i - 1] == u.checked[i] && n.checked[j - 1] == u.checked[j];
      }
    }
  }

  /** Uploads do not overlap: none is checked while another one is between its check and its record. */
  ghost predicate Serial(us: seq<Uploads>, events: seq<Event>) {
    |us| == |events| + 1 && forall i :: 0 <= i < |events| && events[i].Check? ==> us[i].checked == []
  }

  /** Without others under way, the check of the program is enough. */
  lemma AloneCoordinated(u: Uploads, e: Event, limit: nat)
    requires Safe(u, limit) && limit < INT64 && (e.Check? ==> u.checked == [])
    ensures Coordinated(u, e, limit)
  {
    if e.Check? {
      SizeShrinks(u.files, e.up.name);
      CounterExact(SizeOf(u.files - {e.up.name}));
    }
  }

  /** So uploads that do not overlap keep the files of a manifest within its limit, and the counter equal
      to their size, in every state of every run. */
  lemma {:induction false} SerialUploadsWithinLimit(us: seq<Uploads>, events: seq<Event>, limit: nat, i: nat)
    requires IsRun(us, events, limit) && Serial(us, events) && limit < INT64 && i < |us|
    ensures Safe(us[i], limit) && SizeOf(us[i].files) <= limit
    ensures Clamp(Wrap(SizeOf(us[i].files) + us[i].overwritten)) == SizeOf(us[i].files)
  {
    hide After, Can, Wrap, Coordinated;
    if i > 0 {
      SerialUploadsWithinLimit(us, events, limit, i - 1);
      AloneCoordinated(us[i - 1], events[i - 1], limit);
      EventSafe(us[i - 1], events[i - 1], limit);
    }
    CounterExact(SizeOf(us[i].files));
  }

  /** Two uploads that overlap both fit, and together they do not. */
  lemma OverlappingUploadsExceed(limit: nat) returns (us: seq<Uploads>, events: seq<Event>)
    requires 0 < limit < INT64
    ensures IsRun(us, events, limit) && SizeOf(us[|us| - 1].files) == 2 * limit
  {
    hide Wrap;
    var a, b := Upload("a", limit), Upload("b", limit);
    events := [Check(a), Check(b), Record(0), Record(0)];
    CounterExact(0);
    var none: map<string, nat> := map[];
    assert none - {"a"} == none && none - {"b"} == none;
    var u1 := Uploads(map[], 0, [a]);
    var u2 := Uploads(map[], 0, [a, b]);
    var u3 := Uploads(map["a" := limit], 0, [b]);
    var u4 := Uploads(map["a" := limit, "b" := limit], 0, []);
    us := [NO_UPLOADS, u1, u2, u3, u4];
    assert us[1] == After(us[0], events[0], limit);
    assert us[2] == After(us[1], events[1], limit);
    assert us[3] == After(us[2], events[2], limit);
    assert us[4] == After(us[3], events[3], limit);
    SizeWith(map[], "a", limit);
    SizeWith(map["a" := limit], "b", limit);
  }

  /** Two overlapping uploads of the same name leave the counter above the size of the files for good. */
  lemma OverlappingUploadsOfOneName(limit: nat, size: nat) returns (us: seq<Uploads>, events: seq<Event>)
    requires 0 < size <= limit < INT64
    ensures IsRun(us, events, limit) && us[|us| - 1].overwritten == size == SizeOf(us[|us| - 1].files)
  {
    hide Wrap;
    var a := Upload("a", size);
    events := [Check(a), Check(a), Record(0), Record(0)];
    CounterExact(0);
    var none: map<string, nat> := map[];
    assert none - {"a"} == none;
    us := [NO_UPLOADS, Uploads(map[], 0, [a]), Uploads(map[], 0, [a, a]),
           Uploads(map["a" := size], 0, [a]), Uploads(map["a" := size], size, [])];
    assert us[1] == After(us[0], events[0], limit);
    assert us[2] == After(us[1], events[1], limit);
    assert us[3] == After(us[2], events[2], limit);
    assert us[4] == After(us[3], events[3], limit);
    SizeWith(map[], "a", size);
  }
}
