/** Byte strings, big-endian integers and results, shared by every wire format of the project. */
module Bytes {
  type byte = x: int | 0 <= x < 256
  type bytes = seq<byte>

  datatype Option<+T> = None | Some(value: T)

  datatype Result<+T, +E> = Ok(value: T) | Err(error: E)

  /** 256 to the power `width`: how many values fit in `width` bytes. */
  function Capacity(width: nat): (c: nat)
    ensures c >= 1
  {
    if width == 0 then 1 else 256 * Capacity(width - 1)
  }

  /**
   * The low `width` bytes of `n`, most significant first. Writing a number that does not fit keeps
   * its low bytes, which is what the source's narrowing conversions do.
   */
  function BigEndian(n: nat, width: nat): (b: bytes)
    ensures |b| == width
  {
    if width == 0 then [] else BigEndian(n / 256, width - 1) + [n % 256]
  }

  /** The number a byte string denotes, most significant byte first. */
  function Number(b: bytes): (n: nat)
    ensures n < Capacity(|b|)
  {
    if b == [] then 0 else 256 * Number(b[..|b| - 1]) + b[|b| - 1]
  }

  lemma {:induction false} NumberOfBigEndian(n: nat, width: nat)
    ensures n < Capacity(width) ==> Number(BigEndian(n, width)) == n
  {
    if width > 0 {
      NumberOfBigEndian(n / 256, width - 1);
      var b := BigEndian(n, width);
      assert b[..|b| - 1] == BigEndian(n / 256, width - 1);
      assert n < Capacity(width) ==> n / 256 < Capacity(width - 1);
    }
  }

  lemma {:induction false} BigEndianOfNumber(b: bytes)
    ensures BigEndian(Number(b), |b|) == b
  {
    if b != [] {
      BigEndianOfNumber(b[..|b| - 1]);
      assert b == b[..|b| - 1] + [b[|b| - 1]];
    }
  }

  lemma Capacities()
    ensures Capacity(1) == 0x100 && Capacity(2) == 0x1_0000 && Capacity(4) == 0x1_0000_0000
    ensures Capacity(8) == 0x1_0000_0000_0000_0000
  {
    assert Capacity(3) == 0x100_0000 && Capacity(5) == 0x100_0000_0000;
    assert Capacity(6) == 0x1_0000_0000_0000 && Capacity(7) == 0x100_0000_0000_0000;
  }

  /** A character literal's bytes, for names the protocol spells in ASCII. */
  function Ascii(s: string): (b: bytes)
    ensures |b| == |s|
  {
    seq<byte>(|s|, i requires 0 <= i < |s| => s[i] as int % 256)
  }

  /** A nonempty set of numbers has a member. */
  lemma Inhabited(s: set<int>)
    requires s != {}
    ensures exists x :: x in s
  {
    if forall x :: x !in s {
      assert false;
    }
  }

  /** Maps on numbers are equal when they agree everywhere. */
  lemma SameMap<V>(a: map<int, V>, b: map<int, V>)
    requires forall k :: k in a <==> k in b
    requires forall k :: k in a ==> a[k] == b[k]
    ensures a == b
  {
    forall k: int ensures k in a.Keys <==> k in b.Keys {}
    forall k: int | k in a ensures a[k] == b[k] {}
    if a != b {
      assert false;
    }
  }
}
