/** The keys of a manifest's files. A file name may hold any bytes, and still the files of two manifests
    never mix. */
module ManifestKeys {
  import opened Integers
  import opened KeyPrefix
  import opened KeyText

  const FILES: Bytes := Text("manifest:files:")
  const METADATA: Bytes := Text("manifest:metadata:")
  const FILESIZE: Bytes := Text("manifest:filesize:")

  function FilesPrefix(id: nat): Bytes { FILES + Decimal(id) + [COLON] }
  function FileKey(id: nat, name: Bytes): Bytes { FilesPrefix(id) + name }
  function MetadataKey(id: nat): Bytes { METADATA + Uint64ToBytes(id) }
  function FilesizeKey(id: nat): Bytes { FILESIZE + Uint64ToBytes(id) }

  /** A prefix of one manifest is a prefix of its own file keys alone. */
  lemma FilesApart(id: nat, other: nat, name: Bytes)
    ensures FilesPrefix(id) <= FileKey(other, name) <==> id == other
    ensures !(FilesPrefix(id) <= MetadataKey(other)) && !(FilesPrefix(id) <= FilesizeKey(other))
  {
    hide Decimal, Encode;
    var n := |FILES|;
    var p, k := FilesPrefix(id), FileKey(other, name);
    if p <= k {
      assert p[n..] == Decimal(id) + [COLON] && k[n..] == Decimal(other) + [COLON] + name;
      assert forall i :: 0 <= i < |p[n..]| ==> p[n..][i] == p[n + i] == k[n + i] == k[n..][i];
      assert p[n..] <= k[n..];
      ColonEndsNumber(Decimal(id), Decimal(other), name);
      DecimalInjective(id, other);
    }
    assert p[9] == 102 && p[14] == 58 && MetadataKey(other)[9] == 109 && FilesizeKey(other)[14] == 105;
  }

  lemma NumberedKeysDiffer(id: nat, other: nat)
    requires id < UINT64 && other < UINT64 && id != other
    ensures MetadataKey(id) != MetadataKey(other) && FilesizeKey(id) != FilesizeKey(other)
    ensures MetadataKey(id) != FilesizeKey(other)
  {
    hide Encode, Decode;
    Uint64RoundTrip(id);
    Uint64RoundTrip(other);
    assert MetadataKey(id)[|METADATA|..] == Uint64ToBytes(id) && MetadataKey(other)[|METADATA|..] == Uint64ToBytes(other);
    assert FilesizeKey(id)[|FILESIZE|..] == Uint64ToBytes(id) && FilesizeKey(other)[|FILESIZE|..] == Uint64ToBytes(other);
    assert MetadataKey(id)[9] == 109 && FilesizeKey(other)[9] == 102;
  }

  /** One batch: the range of the files, then the two records. */
  function DeleteManifest(db: Store, id: nat): Store {
    (map k | k in db && !InRange(k, FilesPrefix(id), UpperBound(FilesPrefix(id))) :: db[k])
    - {MetadataKey(id)} - {FilesizeKey(id)}
  }

  /** Deleting a manifest deletes every key of it, and none of another one. */
  lemma DeleteManifestExact(db: Store, id: nat, other: nat, name: Bytes)
    requires id < UINT64 && other < UINT64
    ensures var n := DeleteManifest(db, id);
            && (FileKey(other, name) in n <==> FileKey(other, name) in db && id != other)
            && (MetadataKey(other) in n <==> MetadataKey(other) in db && id != other)
            && (FilesizeKey(other) in n <==> FilesizeKey(other) in db && id != other)
            && (forall k :: k in n <==> k in db && !(FilesPrefix(id) <= k) && k != MetadataKey(id) && k != FilesizeKey(id))
            && forall k :: k in n ==> db[k] == n[k]
  {
    FilesApart(id, other, name);
    FilesApart(other, id, name);
    PrefixScanExact(FilesPrefix(id), FileKey(other, name));
    PrefixScanExact(FilesPrefix(id), MetadataKey(other));
    PrefixScanExact(FilesPrefix(id), FilesizeKey(other));
    PrefixScanExact(FilesPrefix(other), FileKey(other, name));
    assert FilesPrefix(other) <= FileKey(other, name);
    forall k ensures InRange(k, FilesPrefix(id), UpperBound(FilesPrefix(id))) <==> FilesPrefix(id) <= k {
      PrefixScanExact(FilesPrefix(id), k);
    }
    if id != other {
      NumberedKeysDiffer(id, other);
      NumberedKeysDiffer(other, id);
    }
    hide Decimal, Encode, InRange, UpperBound, FilesPrefix, FileKey, MetadataKey, FilesizeKey;
  }

  /** The names of the files, each once, in the order of their bytes. */
  method GetFilesInManifest(db: Store, id: nat) returns (names: seq<Bytes>)
    ensures forall name :: name in names <==> FileKey(id, name) in db
    ensures Ascending(names)
  {
    hide Decimal, UpperBound, InRange, Less;
    var prefix := FilesPrefix(id);
    var upper := KeyUpperBound(prefix);
    var keys := Iterate(db, prefix, upper);
    ScanOfPrefix(keys, db, prefix);
    names := [];
    for i := 0 to |keys|
      invariant |names| == i
      invariant forall k :: 0 <= k < i ==> keys[k] == FileKey(id, names[k])
    {
      assert keys[i] in keys;
      var name := keys[i][|prefix|..];
      assert keys[i] == prefix + name;
      names := names + [name];
    }
    NamesExact(db, id, keys, names);
  }

  lemma NamesExact(db: Store, id: nat, keys: seq<Bytes>, names: seq<Bytes>)
    requires Ascending(keys) && |names| == |keys| && forall k :: k in keys <==> k in db && FilesPrefix(id) <= k
    requires forall k :: 0 <= k < |keys| ==> keys[k] == FileKey(id, names[k])
    ensures forall name :: name in names <==> FileKey(id, name) in db
    ensures Ascending(names)
  {
    hide Decimal, FilesPrefix, Less;
    forall i, j | 0 <= i < j < |names| ensures Less(names[i], names[j]) {
      LessBehind(FilesPrefix(id), names[i], names[j]);
    }
    forall name ensures name in names <==> FileKey(id, name) in db {
      if name in names {
        var k :| 0 <= k < |names| && names[k] == name;
        assert keys[k] in keys;
      }
      if FileKey(id, name) in db {
        assert FilesPrefix(id) <= FileKey(id, name);
        var k :| 0 <= k < |keys| && keys[k] == FileKey(id, name);
        assert keys[k][|FilesPrefix(id)|..] == names[k];
        assert FileKey(id, name)[|FilesPrefix(id)|..] == name;
      }
    }
  }
}
