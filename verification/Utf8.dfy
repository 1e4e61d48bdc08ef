/**
 * Text as the three encoders see it: Go strings are bytes that must be valid UTF-8, JavaScript
 * strings are UTF-16 code units that a TextEncoder turns into bytes.
 */
module Utf8 {
  import opened Bytes

  type unit = x: int | 0 <= x < 0x1_0000
  type units = seq<unit>

  predicate IsScalar(c: int) {
    0 <= c < 0xD800 || 0xE000 <= c < 0x11_0000
  }

  predicate Continues(b: byte) {
    0x80 <= b < 0xC0
  }

  /** Appends the six payload bits of a continuation byte. */
  function Join(high: int, b: byte): int {
    high * 64 + b - 0x80
  }

  /** The scalar value at the front of `b` and its width, if `b` starts with well-formed UTF-8. */
  function DecodeFirst(b: bytes): (r: Option<(int, nat)>)
    ensures r.Some? ==> IsScalar(r.value.0) && 1 <= r.value.1 <= |b|
  {
    if |b| >= 1 && b[0] < 0x80 then
      Some((b[0], 1))
    else if |b| >= 2 && 0xC2 <= b[0] < 0xE0 && Continues(b[1]) then
      Some((Join(b[0] - 0xC0, b[1]), 2))
    else if |b| >= 3 && 0xE0 <= b[0] < 0xF0 && Continues(b[1]) && Continues(b[2]) then
      var c := Join(Join(b[0] - 0xE0, b[1]), b[2]);
      if 0x800 <= c && IsScalar(c) then Some((c, 3)) else None
    else if |b| >= 4 && 0xF0 <= b[0] < 0xF5 && Continues(b[1]) && Continues(b[2]) && Continues(b[3]) then
      var c := Join(Join(Join(b[0] - 0xF0, b[1]), b[2]), b[3]);
      if 0x1_0000 <= c < 0x11_0000 then Some((c, 4)) else None
    else
      None
  }

  /** Go's utf8.ValidString. */
  predicate Valid(b: bytes) {
    b == [] || (DecodeFirst(b).Some? && Valid(b[DecodeFirst(b).value.1..]))
  }

  /** A fatal TextDecoder: every scalar value of `b`, or nothing if `b` is malformed anywhere. */
  function DecodeAll(b: bytes): (r: Option<seq<int>>) {
    if b == [] then Some([])
    else if DecodeFirst(b).None? then None
    else
      var (c, w) := DecodeFirst(b).value;
      var rest := DecodeAll(b[w..]);
      if rest.None? then None else Some([c] + rest.value)
  }

  function EncodeScalar(c: int): (b: bytes)
    requires IsScalar(c)
    ensures 1 <= |b| <= 4
  {
    if c < 0x80 then [c]
    else if c < 0x800 then [0xC0 + c / 64, 0x80 + c % 64]
    else if c < 0x1_0000 then [0xE0 + c / 64 / 64, 0x80 + c / 64 % 64, 0x80 + c % 64]
    else [0xF0 + c / 64 / 64 / 64, 0x80 + c / 64 / 64 % 64, 0x80 + c / 64 % 64, 0x80 + c % 64]
  }

  function EncodeAll(cs: seq<int>): (b: bytes)
    requires forall c :: c in cs ==> IsScalar(c)
  {
    if cs == [] then [] else EncodeScalar(cs[0]) + EncodeAll(cs[1..])
  }

  predicate High(u: unit) {
    0xD800 <= u < 0xDC00
  }

  predicate Low(u: unit) {
    0xDC00 <= u < 0xE000
  }

  /** Code units to scalar values; a surrogate without its partner becomes U+FFFD. */
  function Scalars(u: units): (cs: seq<int>)
    ensures forall c :: c in cs ==> IsScalar(c)
  {
    if u == [] then []
    else if |u| >= 2 && High(u[0]) && Low(u[1]) then
      [0x1_0000 + (u[0] - 0xD800) * 0x400 + u[1] - 0xDC00] + Scalars(u[2..])
    else if High(u[0]) || Low(u[0]) then [0xFFFD] + Scalars(u[1..])
    else [u[0]] + Scalars(u[1..])
  }

  function ScalarUnits(c: int): (u: units)
    requires IsScalar(c)
  {
    if c < 0x1_0000 then
      var single: unit := c;
      [single]
    else
      var high: unit := 0xD800 + (c - 0x1_0000) / 0x400;
      var low: unit := 0xDC00 + (c - 0x1_0000) % 0x400;
      [high, low]
  }

  function Units(cs: seq<int>): (u: units)
    requires forall c :: c in cs ==> IsScalar(c)
  {
    if cs == [] then []
    else
      assert cs[0] in cs;
      ScalarUnits(cs[0]) + Units(cs[1..])
  }

  /** No surrogate stands without its partner. */
  predicate WellFormed(u: units) {
    if u == [] then true
    else if |u| >= 2 && High(u[0]) && Low(u[1]) then WellFormed(u[2..])
    else !High(u[0]) && !Low(u[0]) && WellFormed(u[1..])
  }

  /** TextEncoder.encode. */
  function TextEncode(u: units): (b: bytes) {
    EncodeAll(Scalars(u))
  }

  lemma DecodeFirstOfScalar(c: int, rest: bytes)
    requires IsScalar(c)
    ensures DecodeFirst(EncodeScalar(c) + rest) == Some((c, |EncodeScalar(c)|))
  {
    var e := EncodeScalar(c);
    var b := e + rest;
    assert forall i :: 0 <= i < |e| ==> b[i] == e[i];
  }

  /** What a TextEncoder writes, a fatal TextDecoder reads back, and Go accepts as valid UTF-8. */
  lemma {:induction false} EncodedTextDecodes(cs: seq<int>)
    requires forall c :: c in cs ==> IsScalar(c)
    ensures DecodeAll(EncodeAll(cs)) == Some(cs)
    ensures Valid(EncodeAll(cs))
    ensures 0 in EncodeAll(cs) <==> 0 in cs
  {
    if cs != [] {
      var head, tail := EncodeScalar(cs[0]), EncodeAll(cs[1..]);
      EncodedTextDecodes(cs[1..]);
      DecodeFirstOfScalar(cs[0], tail);
      assert EncodeAll(cs)[|head|..] == tail;
      assert cs == [cs[0]] + cs[1..];
      assert 0 in head <==> cs[0] == 0;
    }
  }

  /** Code units survive the trip through scalar values exactly when no surrogate stands alone. */
  lemma {:induction false} UnitsOfScalars(u: units)
    ensures Units(Scalars(u)) == u <==> WellFormed(u)
    ensures 0 in Scalars(u) <==> 0 in u
  {
    if u != [] {
      var k := if |u| >= 2 && High(u[0]) && Low(u[1]) then 2 else 1;
      UnitsOfScalars(u[k..]);
      assert u == u[..k] + u[k..];
      assert Scalars(u)[1..] == Scalars(u[k..]);
      assert Units(Scalars(u))[k..] == Units(Scalars(u[k..]));
      assert Units(Scalars(u)) == Units(Scalars(u))[..k] + Units(Scalars(u[k..]));
      assert 0 in Scalars(u) <==> Scalars(u)[0] == 0 || 0 in Scalars(u[k..]);
    }
  }
}
