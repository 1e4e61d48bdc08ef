/** How grants are named as systemd slices, and how the names are read back after a restart. */
module UnitNames {
  import opened Bytes
  import opened Ids

  const SUFFIX: bytes := Ascii(".slice")

  predicate HasPrefix(s: bytes, p: bytes) {
    p <= s
  }

  predicate HasSuffix(s: bytes, p: bytes) {
    |p| <= |s| && s[|s| - |p|..] == p
  }

  function TrimPrefix(s: bytes, p: bytes): bytes {
    if HasPrefix(s, p) then s[|p|..] else s
  }

  function TrimSuffix(s: bytes, p: bytes): bytes {
    if HasSuffix(s, p) then s[..|s| - |p|] else s
  }

  /** What the slice of every grant starts with, given the parent slice's name. */
  function NamePrefix(slice: bytes): bytes {
    TrimSuffix(slice, SUFFIX) + Ascii("-")
  }

  function SliceUnit(slice: bytes, id: bytes): bytes {
    NamePrefix(slice) + id + SUFFIX
  }

  function SliceCgroup(slice: bytes, id: bytes): bytes {
    Ascii("/") + slice + Ascii("/") + SliceUnit(slice, id)
  }

  /** The grant a unit name under the parent slice stands for, if any. */
  function GrantOfName(slice: bytes, name: bytes): Option<bytes> {
    if !HasPrefix(name, NamePrefix(slice)) || !HasSuffix(name, SUFFIX) then None
    else
      var id := TrimSuffix(TrimPrefix(name, NamePrefix(slice)), SUFFIX);
      if ValidGrantId(id) then Some(id) else None
  }

  /** Reading a name back undoes naming, and nothing else is taken for a grant's slice. */
  lemma NamesReadBack(slice: bytes, name: bytes, id: bytes)
    ensures GrantOfName(slice, name) == Some(id) <==> ValidGrantId(id) && name == SliceUnit(slice, id)
  {
    var p := NamePrefix(slice);
    if ValidGrantId(id) && name == SliceUnit(slice, id) {
      assert name[|p|..] == id + SUFFIX;
      assert name[|name| - |SUFFIX|..] == SUFFIX;
      assert (id + SUFFIX)[|id|..] == SUFFIX;
    }
    if GrantOfName(slice, name) == Some(id) {
      var rest := name[|p|..];
      assert name == p + rest;
      assert |rest| >= |SUFFIX| ==> name[|name| - |SUFFIX|..] == rest[|rest| - |SUFFIX|..];
      assert rest == id + rest[|id|..];
    }
  }

  /** Two grants' cgroups are different directories, and neither lies inside the other. */
  lemma SlicesDisjoint(slice: bytes, id: bytes, other: bytes)
    requires ValidGrantId(id) && ValidGrantId(other) && id != other
    ensures SliceCgroup(slice, id) != SliceCgroup(slice, other)
    ensures !(SliceCgroup(slice, id) + Ascii("/") <= SliceCgroup(slice, other))
  {
    var a, b := SliceCgroup(slice, id), SliceCgroup(slice, other);
    var n := |Ascii("/") + slice + Ascii("/") + NamePrefix(slice)|;
    assert a[n..n + 18] == id && b[n..n + 18] == other;
    assert |a| == |b|;
  }

  /** The directory scan: every grant with a slice under the parent, in the order of the listing. */
  method DiscoverGrantIds(slice: bytes, children: seq<bytes>) returns (ids: seq<bytes>)
    ensures forall id :: id in ids <==> ValidGrantId(id) && SliceUnit(slice, id) in children
  {
    ids := [];
    for k := 0 to |children|
      invariant forall id :: id in ids <==> ValidGrantId(id) && SliceUnit(slice, id) in children[..k]
    {
      var name := children[k];
      forall id ensures GrantOfName(slice, name) == Some(id) <==> ValidGrantId(id) && name == SliceUnit(slice, id) {
        NamesReadBack(slice, name, id);
      }
      if HasPrefix(name, NamePrefix(slice)) && HasSuffix(name, SUFFIX) {
        var id := TrimSuffix(TrimPrefix(name, NamePrefix(slice)), SUFFIX);
        if ValidGrantId(id) {
          ids := ids + [id];
        }
      }
    }
    assert children[..|children|] == children;
  }
}
