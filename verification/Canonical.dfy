/**
 * Canonical Binary Encoding: a context and an ordered list of named, typed fields, each length
 * prefixed. Three programs build these bytes; a parser, which none of them has, is the yardstick.
 */
module Canonical {
  import opened Bytes
  import Utf8

  const MAX_U64: nat := 0x7FFF_FFFF_FFFF_FFFF

  /** A field's value. `Other` stands for every tag but 1 to 4. */
  datatype Value = Str(text: bytes) | U64(n: nat) | Raw(data: bytes) | Flag(on: bool) | Other(unknown: byte)

  datatype Field = Field(name: bytes, value: Value)

  datatype Error = EmptyContext | InvalidUtf8 | EmptyName | NulInString | U64Range | UnknownTag

  function TagOf(v: Value): byte {
    match v
    case Str(_) => 1
    case U64(_) => 2
    case Raw(_) => 3
    case Flag(_) => 4
    case Other(t) => t
  }

  function ValueBytes(v: Value): bytes {
    match v
    case Str(t) => t
    case U64(n) => BigEndian(n, 8)
    case Raw(d) => d
    case Flag(on) => [if on then 1 else 0]
    case Other(_) => []
  }

  /** A byte string behind its 32-bit length. A longer string keeps only the low 32 bits of its length. */
  function Prefixed(b: bytes): bytes {
    BigEndian(|b|, 4) + b
  }

  function FieldBytes(f: Field): bytes {
    Prefixed(f.name) + [TagOf(f.value)] + Prefixed(ValueBytes(f.value))
  }

  function FieldsBytes(fs: seq<Field>): bytes {
    if fs == [] then [] else FieldBytes(fs[0]) + FieldsBytes(fs[1..])
  }

  /** The layout section 5.1 of the design prescribes. */
  function Layout(context: bytes, fs: seq<Field>): bytes {
    Prefixed(context) + BigEndian(|fs|, 4) + FieldsBytes(fs)
  }

  function FieldError(f: Field): Option<Error> {
    if f.name == [] then Some(EmptyName)
    else if !Utf8.Valid(f.name) then Some(InvalidUtf8)
    else match f.value
      case Str(t) => if !Utf8.Valid(t) then Some(InvalidUtf8) else if 0 in t then Some(NulInString) else None
      case U64(n) => if n > MAX_U64 then Some(U64Range) else None
      case Raw(_) => None
      case Flag(_) => None
      case Other(_) => Some(UnknownTag)
  }

  function FirstError(fs: seq<Field>): Option<Error> {
    if fs == [] then None else if FieldError(fs[0]).Some? then FieldError(fs[0]) else FirstError(fs[1..])
  }

  function Encoded(context: bytes, fs: seq<Field>): Result<bytes, Error> {
    if context == [] then Err(EmptyContext)
    else if !Utf8.Valid(context) then Err(InvalidUtf8)
    else match FirstError(fs)
      case Some(e) => Err(e)
      case None => Ok(Layout(context, fs))
  }

  lemma {:induction false} FieldsBytesSnoc(fs: seq<Field>, f: Field)
    ensures FieldsBytes(fs + [f]) == FieldsBytes(fs) + FieldBytes(f)
    ensures FirstError(fs).None? ==> FirstError(fs + [f]) == FieldError(f)
  {
    if fs == [] {
      assert (fs + [f])[1..] == [];
    } else {
      FieldsBytesSnoc(fs[1..], f);
      assert (fs + [f])[1..] == fs[1..] + [f];
    }
  }

  lemma {:induction false} FirstErrorOfPrefix(fs: seq<Field>, k: nat)
    requires k <= |fs| && FirstError(fs[..k]).Some?
    ensures FirstError(fs) == FirstError(fs[..k])
  {
    if FieldError(fs[0]).None? {
      assert fs[..k][1..] == fs[1..][..k - 1];
      FirstErrorOfPrefix(fs[1..], k - 1);
    }
  }

  /** One pass of the encoding loop: the buffer with the field written to it, or what is wrong with the field. */
  method WriteField(buf: bytes, f: Field) returns (r: Result<bytes, Error>)
    ensures r == match FieldError(f) case Some(e) => Err(e) case None => Ok(buf + FieldBytes(f))
  {
    hide Utf8.Valid, BigEndian;
    if f.name == [] {
      return Err(EmptyName);
    }
    if !Utf8.Valid(f.name) {
      return Err(InvalidUtf8);
    }
    var out := WriteLP(buf, f.name);
    out := out + [TagOf(f.value)];
    match f.value {
      case Str(t) =>
        if !Utf8.Valid(t) {
          return Err(InvalidUtf8);
        }
        if 0 in t {
          return Err(NulInString);
        }
        out := WriteLP(out, t);
      case U64(n) =>
        if n > MAX_U64 {
          return Err(U64Range);
        }
        out := WriteLP(out, BigEndian(n, 8));
      case Raw(d) =>
        out := WriteLP(out, d);
      case Flag(on) =>
        out := WriteLP(out, [if on then 1 else 0]);
      case Other(_) =>
        return Err(UnknownTag);
    }
    assert out == buf + FieldBytes(f);
    return Ok(out);
  }

  /** The Go encoder: a buffer grown field by field, abandoned at the first bad field. */
  method Encode(context: bytes, fs: seq<Field>) returns (r: Result<bytes, Error>)
    ensures r == Encoded(context, fs)
  {
    hide FieldError, FieldBytes, Prefixed, BigEndian;
    if context == [] {
      return Err(EmptyContext);
    }
    if !Utf8.Valid(context) {
      return Err(InvalidUtf8);
    }
    var buf := WriteLP([], context);
    buf := buf + BigEndian(|fs|, 4);
    for i := 0 to |fs|
      invariant buf == Prefixed(context) + BigEndian(|fs|, 4) + FieldsBytes(fs[..i])
      invariant FirstError(fs[..i]).None?
    {
      var f := fs[i];
      assert fs[..i + 1] == fs[..i] + [f];
      FieldsBytesSnoc(fs[..i], f);
      if FieldError(f).Some? {
        FirstErrorOfPrefix(fs, i + 1);
      }
      var w := WriteField(buf, f);
      if w.Err? {
        return w;
      }
      buf := w.value;
    }
    assert fs[..|fs|] == fs;
    return Ok(buf);
  }

  method WriteLP(buf: bytes, b: bytes) returns (out: bytes)
    ensures out == buf + Prefixed(b)
  {
    out := buf + BigEndian(|b|, 4);
    out := out + b;
  }

  // ---- The yardstick: reading the bytes back

  function ParsePrefixed(b: bytes): Option<(bytes, bytes)> {
    if |b| < 4 || |b| < 4 + Number(b[..4]) then None
    else Some((b[4..4 + Number(b[..4])], b[4 + Number(b[..4])..]))
  }

  function ParseValue(tag: byte, b: bytes): Option<Value> {
    if tag == 1 then Some(Str(b))
    else if tag == 2 && |b| == 8 then Some(U64(Number(b)))
    else if tag == 3 then Some(Raw(b))
    else if tag == 4 && (b == [0] || b == [1]) then Some(Flag(b == [1]))
    else None
  }

  function ParseField(b: bytes): Option<(Field, bytes)> {
    match ParsePrefixed(b)
    case None => None
    case Some((name, rest)) =>
      if rest == [] then None
      else match ParsePrefixed(rest[1..])
        case None => None
        case Some((data, after)) =>
          match ParseValue(rest[0], data)
          case None => None
          case Some(v) => Some((Field(name, v), after))
  }

  function ParseFields(b: bytes, count: nat): Option<(seq<Field>, bytes)> {
    if count == 0 then Some(([], b))
    else match ParseField(b)
      case None => None
      case Some((f, rest)) =>
        match ParseFields(rest, count - 1)
        case None => None
        case Some((fs, after)) => Some(([f] + fs, after))
  }

  /** The context, the fields and whatever follows them. */
  function Parse(b: bytes): Option<(bytes, seq<Field>, bytes)> {
    match ParsePrefixed(b)
    case None => None
    case Some((context, rest)) =>
      if |rest| < 4 then None
      else match ParseFields(rest[4..], Number(rest[..4]))
        case None => None
        case Some((fs, after)) => Some((context, fs, after))
  }

  const LIMIT: nat := 0x1_0000_0000

  predicate FieldFits(f: Field) {
    |f.name| < LIMIT && |ValueBytes(f.value)| < LIMIT
  }

  /** Every length the encoder writes is below 2^32, so none is truncated. */
  predicate Fits(context: bytes, fs: seq<Field>) {
    |context| < LIMIT && |fs| < LIMIT && forall f :: f in fs ==> FieldFits(f)
  }

  lemma PrefixedParses(b: bytes, rest: bytes)
    requires |b| < LIMIT
    ensures ParsePrefixed(Prefixed(b) + rest) == Some((b, rest))
  {
    Capacities();
    NumberOfBigEndian(|b|, 4);
    var all := Prefixed(b) + rest;
    assert all[..4] == BigEndian(|b|, 4);
    assert all[4..4 + |b|] == b;
    assert all[4 + |b|..] == rest;
  }

  /** All that reading a field back needs of its value. */
  predicate Readable(f: Field) {
    FieldFits(f) && !f.value.Other? && (f.value.U64? ==> f.value.n <= MAX_U64)
  }

  lemma FieldParses(f: Field, rest: bytes)
    requires Readable(f)
    ensures ParseField(FieldBytes(f) + rest) == Some((f, rest))
  {
    var v := ValueBytes(f.value);
    var tail := [TagOf(f.value)] + Prefixed(v) + rest;
    assert FieldBytes(f) + rest == Prefixed(f.name) + tail;
    PrefixedParses(f.name, tail);
    assert tail[1..] == Prefixed(v) + rest;
    PrefixedParses(v, rest);
    if f.value.U64? {
      Capacities();
      NumberOfBigEndian(f.value.n, 8);
    }
  }

  lemma {:induction false} FieldsParse(fs: seq<Field>, rest: bytes)
    requires forall f :: f in fs ==> Readable(f)
    ensures ParseFields(FieldsBytes(fs) + rest, |fs|) == Some((fs, rest))
  {
    hide ParseField, FieldBytes;
    if fs == [] {
      assert FieldsBytes(fs) + rest == rest;
    } else {
      FieldParses(fs[0], FieldsBytes(fs[1..]) + rest);
      FieldsParse(fs[1..], rest);
      assert FieldsBytes(fs) + rest == FieldBytes(fs[0]) + (FieldsBytes(fs[1..]) + rest);
      assert fs == [fs[0]] + fs[1..];
    }
  }

  lemma ParsePrefixedIsExact(b: bytes)
    requires ParsePrefixed(b).Some?
    ensures var (d, rest) := ParsePrefixed(b).value; |d| < LIMIT && Prefixed(d) + rest == b
  {
    Capacities();
    BigEndianOfNumber(b[..4]);
    var n := Number(b[..4]);
    assert b == b[..4] + b[4..4 + n] + b[4 + n..];
  }

  lemma ParseFieldIsExact(b: bytes)
    requires ParseField(b).Some?
    ensures var (f, rest) := ParseField(b).value; FieldFits(f) && FieldBytes(f) + rest == b
  {
    hide ParsePrefixed, Prefixed, Number, BigEndian;
    var (name, after) := ParsePrefixed(b).value;
    ParsePrefixedIsExact(b);
    var (data, rest) := ParsePrefixed(after[1..]).value;
    ParsePrefixedIsExact(after[1..]);
    BigEndianOfNumber(data);
    var f := ParseField(b).value.0;
    assert ValueBytes(f.value) == data && TagOf(f.value) == after[0];
    assert after == [after[0]] + after[1..];
  }

  lemma {:induction false} ParseFieldsIsExact(b: bytes, count: nat)
    requires ParseFields(b, count).Some?
    ensures var (fs, rest) := ParseFields(b, count).value;
            |fs| == count && (forall f :: f in fs ==> FieldFits(f)) && FieldsBytes(fs) + rest == b
    decreases count
  {
    hide ParseField, FieldBytes, FieldFits;
    if count > 0 {
      var (f, after) := ParseField(b).value;
      ParseFieldIsExact(b);
      ParseFieldsIsExact(after, count - 1);
      var (fs, rest) := ParseFields(b, count).value;
      assert fs[1..] == ParseFields(after, count - 1).value.0;
      assert FieldBytes(f) + (FieldsBytes(fs[1..]) + rest) == FieldsBytes(fs) + rest;
    } else {
      assert [] + b == b;
    }
  }

  /** The parser accepts nothing the encoder would spell differently. */
  lemma ParseIsExact(b: bytes)
    requires Parse(b).Some?
    ensures var (context, fs, rest) := Parse(b).value; Fits(context, fs) && Layout(context, fs) + rest == b
  {
    hide ParsePrefixed, ParseFields, Prefixed, Number, BigEndian, FieldsBytes, FieldFits;
    var (context, after) := ParsePrefixed(b).value;
    ParsePrefixedIsExact(b);
    Capacities();
    BigEndianOfNumber(after[..4]);
    ParseFieldsIsExact(after[4..], Number(after[..4]));
    var (fs, rest) := ParseFields(after[4..], Number(after[..4])).value;
    assert after == after[..4] + after[4..];
    assert Layout(context, fs) + rest == Prefixed(context) + (BigEndian(|fs|, 4) + (FieldsBytes(fs) + rest));
  }

  lemma {:induction false} AcceptedFieldsAreReadable(fs: seq<Field>)
    requires FirstError(fs).None? && forall f :: f in fs ==> FieldFits(f)
    ensures forall f :: f in fs ==> Readable(f)
  {
    if fs != [] {
      AcceptedFieldsAreReadable(fs[1..]);
      assert forall f :: f in fs ==> f == fs[0] || f in fs[1..];
    }
  }

  /**
   * Whatever follows an accepted message, reading it back gives exactly the message and what
   * follows, precisely when no length was truncated to 32 bits.
   */
  lemma RoundTrip(context: bytes, fs: seq<Field>, rest: bytes)
    requires Encoded(context, fs).Ok?
    ensures Parse(Encoded(context, fs).value + rest) == Some((context, fs, rest)) <==> Fits(context, fs)
  {
    var b := Encoded(context, fs).value + rest;
    if Fits(context, fs) {
      var tail := BigEndian(|fs|, 4) + (FieldsBytes(fs) + rest);
      assert b == Prefixed(context) + tail;
      PrefixedParses(context, tail);
      Capacities();
      NumberOfBigEndian(|fs|, 4);
      assert tail[..4] == BigEndian(|fs|, 4) && tail[4..] == FieldsBytes(fs) + rest;
      AcceptedFieldsAreReadable(fs);
      FieldsParse(fs, rest);
    } else if Parse(b) == Some((context, fs, rest)) {
      ParseIsExact(b);
    }
  }

  /** No accepted message's bytes begin another's; in particular equal bytes mean equal messages. */
  lemma PrefixFree(context: bytes, fs: seq<Field>, context': bytes, fs': seq<Field>)
    requires Encoded(context, fs).Ok? && Encoded(context', fs').Ok?
    requires Fits(context, fs) && Fits(context', fs')
    requires Encoded(context, fs).value <= Encoded(context', fs').value
    ensures context == context' && fs == fs'
  {
    var b, b' := Encoded(context, fs).value, Encoded(context', fs').value;
    assert b' == b + b'[|b|..];
    RoundTrip(context, fs, b'[|b|..]);
    RoundTrip(context', fs', []);
    assert b' + [] == b';
  }

  /** Equal bytes bind a last raw field of any length, if all before it fit. */
  lemma LastFieldBinds(fs: seq<Field>, f: Field, fs': seq<Field>, f': Field)
    requires (forall g :: g in fs ==> Readable(g)) && (forall g :: g in fs' ==> Readable(g)) && |fs| == |fs'|
    requires f.value.Raw? && f'.value.Raw? && f.name == f'.name && |f.name| < LIMIT
    requires FieldsBytes(fs + [f]) == FieldsBytes(fs' + [f'])
    ensures fs == fs' && f == f'
  {
    hide Readable, FieldsBytes, FieldBytes, ParseFields, FirstError;
    FieldsBytesSnoc(fs, f);
    FieldsBytesSnoc(fs', f');
    FieldsParse(fs, FieldBytes(f));
    FieldsParse(fs', FieldBytes(f'));
    RawFieldBinds(f, f');
  }

  lemma RawFieldBinds(f: Field, f': Field)
    requires f.value.Raw? && f'.value.Raw? && f.name == f'.name && FieldBytes(f) == FieldBytes(f')
    ensures f == f'
  {
    hide BigEndian;
    var n := |Prefixed(f.name)| + 5;
    assert FieldBytes(f)[n..] == f.value.data;
    assert FieldBytes(f')[n..] == f'.value.data;
  }

  /** Beyond 2^32 bytes the promise breaks: a field of exactly that size hides behind an empty one. */
  lemma TruncationBreaksPrefixFreedom(context: bytes, name: bytes, big: bytes)
    requires Encoded(context, [Field(name, Raw([]))]).Ok? && |big| == LIMIT
    ensures Encoded(context, [Field(name, Raw(big))]).Ok?
    ensures Encoded(context, [Field(name, Raw([]))]).value < Encoded(context, [Field(name, Raw(big))]).value
  {
    hide Utf8.Valid, BigEndian;
    var f, g := Field(name, Raw([])), Field(name, Raw(big));
    assert BigEndian(LIMIT, 4) == BigEndian(0, 4) by {
      TruncatedLength();
    }
    assert [f][1..] == [] && [g][1..] == [];
    assert FieldsBytes([f]) == FieldBytes(f) && FieldsBytes([g]) == FieldBytes(g);
    assert FieldBytes(g) == FieldBytes(f) + big;
    assert Layout(context, [g]) == Layout(context, [f]) + big;
  }

  lemma TruncatedLength()
    ensures BigEndian(LIMIT, 4) == BigEndian(0, 4)
  {
    assert LIMIT / 256 == 0x100_0000 && LIMIT % 256 == 0;
    assert BigEndian(0x100_0000, 3) == BigEndian(0x1_0000, 2) + [0];
    assert BigEndian(0x1_0000, 2) == BigEndian(0x100, 1) + [0];
    assert BigEndian(0x100, 1) == BigEndian(1, 0) + [0];
    assert BigEndian(0, 3) == BigEndian(0, 2) + [0];
    assert BigEndian(0, 2) == BigEndian(0, 1) + [0];
  }
}
