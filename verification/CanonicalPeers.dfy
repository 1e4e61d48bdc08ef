/** The other two encoders: the service's TypeScript writer and the visitor's Node builder. */
module CanonicalPeers {
  import opened Bytes
  import opened Canonical
  import opened Utf8

  /** Fields as JavaScript holds them: text in UTF-16 code units, integers of any size and sign. */
  datatype JsValue = JsStr(text: units) | JsU64(n: int) | JsRaw(data: bytes) | JsFlag(on: bool) | JsOther(unknown: byte)

  datatype JsField = JsField(name: units, value: JsValue)

  // ---- TypeScript

  function EncodeString(s: units): Result<bytes, Error> {
    if 0 in s then Err(NulInString)
    else
      var b := TextEncode(s);
      match DecodeAll(b)
      case None => Err(InvalidUtf8)
      case Some(cs) =>
        if (forall c :: c in cs ==> IsScalar(c)) && Units(cs) == s then Ok(b) else Err(InvalidUtf8)
  }

  /** The re-decode in `EncodeString` catches exactly the strings with a lone surrogate. */
  lemma EncodeStringExactly(s: units)
    ensures EncodeString(s) ==
            if 0 in s then Err(NulInString) else if !WellFormed(s) then Err(InvalidUtf8) else Ok(TextEncode(s))
    ensures Utf8.Valid(TextEncode(s)) && (0 in TextEncode(s) <==> 0 in s)
    ensures TextEncode(s) == [] <==> s == []
  {
    EncodedTextDecodes(Scalars(s));
    UnitsOfScalars(s);
  }

  function JsFieldError(f: JsField): Option<Error> {
    if f.name == [] then Some(EmptyName)
    else if EncodeString(f.name).Err? then Some(EncodeString(f.name).error)
    else match f.value
      case JsStr(t) => if EncodeString(t).Err? then Some(EncodeString(t).error) else None
      case JsU64(n) => if n < 0 || n > MAX_U64 then Some(U64Range) else None
      case JsRaw(_) => None
      case JsFlag(_) => None
      case JsOther(_) => Some(UnknownTag)
  }

  function JsFirstError(fs: seq<JsField>): Option<Error> {
    if fs == [] then None else if JsFieldError(fs[0]).Some? then JsFieldError(fs[0]) else JsFirstError(fs[1..])
  }

  /** The field as Go would receive it, its text in UTF-8. */
  function ToGo(f: JsField): Field {
    Field(TextEncode(f.name),
          match f.value
          case JsStr(t) => Str(TextEncode(t))
          case JsU64(n) => U64(if n < 0 then MAX_U64 + 1 else n)
          case JsRaw(d) => Raw(d)
          case JsFlag(on) => Flag(on)
          case JsOther(t) => Other(t))
  }

  function ToGoAll(fs: seq<JsField>): (gs: seq<Field>)
    ensures |gs| == |fs|
  {
    if fs == [] then [] else [ToGo(fs[0])] + ToGoAll(fs[1..])
  }

  function JsEncoded(context: units, fs: seq<JsField>): Result<bytes, Error> {
    if context == [] then Err(EmptyContext)
    else if EncodeString(context).Err? then Err(EncodeString(context).error)
    else match JsFirstError(fs)
      case Some(e) => Err(e)
      case None => Ok(Layout(TextEncode(context), ToGoAll(fs)))
  }

  function Flatten(chunks: seq<bytes>): bytes {
    if chunks == [] then [] else Flatten(chunks[..|chunks| - 1]) + chunks[|chunks| - 1]
  }

  lemma {:induction false} FlattenPrefix(chunks: seq<bytes>, k: nat)
    requires k <= |chunks|
    ensures Flatten(chunks[..k]) <= Flatten(chunks)
    decreases |chunks| - k
  {
    if k == |chunks| {
      assert chunks[..k] == chunks;
    } else {
      FlattenPrefix(chunks, k + 1);
      assert chunks[..k + 1][..k] == chunks[..k];
    }
  }

  /** Collects byte chunks and copies them into one array at the end. */
  class Writer {
    var chunks: seq<bytes>
    var len: nat

    ghost predicate Valid()
      reads this
    {
      len == |Flatten(chunks)|
    }

    constructor ()
      ensures Valid() && Flatten(chunks) == []
    {
      chunks, len := [], 0;
    }

    method Push(b: bytes)
      requires Valid()
      modifies this
      ensures Valid() && Flatten(chunks) == old(Flatten(chunks)) + b
    {
      chunks := chunks + [b];
      len := len + |b|;
      assert chunks[..|chunks| - 1] == old(chunks);
    }

    method U32(n: nat)
      requires Valid()
      modifies this
      ensures Valid() && Flatten(chunks) == old(Flatten(chunks)) + BigEndian(n, 4)
    {
      Push(BigEndian(n, 4));
    }

    method Lp(b: bytes)
      requires Valid()
      modifies this
      ensures Valid() && Flatten(chunks) == old(Flatten(chunks)) + Prefixed(b)
    {
      hide Flatten, BigEndian;
      U32(|b|);
      Push(b);
      assert Flatten(chunks) == old(Flatten(chunks)) + Prefixed(b);
    }

    method Byte(n: byte)
      requires Valid()
      modifies this
      ensures Valid() && Flatten(chunks) == old(Flatten(chunks)) + [n]
    {
      Push([n]);
    }

    /** Copies every chunk at a moving offset; the array ends up full and in order. */
    method Finish() returns (out: array<byte>)
      requires Valid()
      ensures fresh(out) && out[..] == Flatten(chunks)
    {
      out := new byte[len];
      var off := 0;
      for k := 0 to |chunks|
        invariant off == |Flatten(chunks[..k])| <= out.Length
        invariant out[..off] == Flatten(chunks[..k])
      {
        var c := chunks[k];
        assert chunks[..k + 1][..k] == chunks[..k];
        FlattenPrefix(chunks, k + 1);
        forall i | 0 <= i < |c| {
          out[off + i] := c[i];
        }
        assert out[..off + |c|] == Flatten(chunks[..k]) + c;
        off := off + |c|;
      }
      assert chunks[..|chunks|] == chunks;
    }
  }

  lemma {:induction false} JsSnoc(fs: seq<JsField>, f: JsField)
    ensures ToGoAll(fs + [f]) == ToGoAll(fs) + [ToGo(f)]
    ensures JsFirstError(fs).None? ==> JsFirstError(fs + [f]) == JsFieldError(f)
  {
    hide ToGo, JsFieldError;
    if fs == [] {
      assert (fs + [f])[1..] == [];
    } else {
      JsSnoc(fs[1..], f);
      assert (fs + [f])[1..] == fs[1..] + [f];
    }
  }

  lemma {:induction false} JsFirstErrorOfPrefix(fs: seq<JsField>, k: nat)
    requires k <= |fs| && JsFirstError(fs[..k]).Some?
    ensures JsFirstError(fs) == JsFirstError(fs[..k])
  {
    hide JsFieldError;
    if JsFieldError(fs[0]).None? {
      assert fs[..k][1..] == fs[1..][..k - 1];
      JsFirstErrorOfPrefix(fs[1..], k - 1);
    }
  }

  /** One pass of the TypeScript loop. */
  method WriteJsField(w: Writer, f: JsField) returns (bad: Option<Error>)
    requires w.Valid()
    modifies w
    ensures bad == JsFieldError(f) && w.Valid()
    ensures bad.None? ==> Flatten(w.chunks) == old(Flatten(w.chunks)) + FieldBytes(ToGo(f))
  {
    hide Flatten, BigEndian, EncodeString, TextEncode;
    if f.name == [] {
      return Some(EmptyName);
    }
    EncodeStringExactly(f.name);
    var name := EncodeString(f.name);
    if name.Err? {
      return Some(name.error);
    }
    w.Lp(name.value);
    w.Byte(TagOf(ToGo(f).value));
    match f.value {
      case JsStr(t) =>
        EncodeStringExactly(t);
        var text := EncodeString(t);
        if text.Err? {
          return Some(text.error);
        }
        w.Lp(text.value);
      case JsU64(n) =>
        if n < 0 || n > MAX_U64 {
          return Some(U64Range);
        }
        w.Lp(BigEndian(n, 8));
      case JsRaw(d) =>
        w.Lp(d);
      case JsFlag(on) =>
        w.Lp([if on then 1 else 0]);
      case JsOther(_) =>
        return Some(UnknownTag);
    }
    assert Flatten(w.chunks) == old(Flatten(w.chunks)) + FieldBytes(ToGo(f));
    return None;
  }

  /** The TypeScript encoder. */
  method JsEncode(context: units, fs: seq<JsField>) returns (r: Result<bytes, Error>)
    ensures r == JsEncoded(context, fs)
  {
    hide Flatten, BigEndian, EncodeString, TextEncode, JsFieldError, FieldBytes, ToGo, Prefixed;
    if context == [] {
      return Err(EmptyContext);
    }
    EncodeStringExactly(context);
    var head := EncodeString(context);
    if head.Err? {
      return Err(head.error);
    }
    var w := new Writer();
    w.Lp(head.value);
    w.U32(|fs|);
    for i := 0 to |fs|
      invariant w.Valid() && fresh(w)
      invariant Flatten(w.chunks) == Prefixed(TextEncode(context)) + BigEndian(|fs|, 4) + FieldsBytes(ToGoAll(fs[..i]))
      invariant JsFirstError(fs[..i]).None?
    {
      assert fs[..i + 1] == fs[..i] + [fs[i]];
      JsSnoc(fs[..i], fs[i]);
      FieldsBytesSnoc(ToGoAll(fs[..i]), ToGo(fs[i]));
      var bad := WriteJsField(w, fs[i]);
      if bad.Some? {
        JsFirstErrorOfPrefix(fs, i + 1);
        return Err(bad.value);
      }
    }
    assert fs[..|fs|] == fs;
    var out := w.Finish();
    return Ok(out[..]);
  }

  /** What TypeScript refuses and Go does not: U+0000 in a context or a name, and lone surrogates anywhere. */
  predicate JsStrict(context: units, fs: seq<JsField>) {
    && 0 !in context && WellFormed(context)
    && forall f :: f in fs ==> 0 !in f.name && WellFormed(f.name) && (f.value.JsStr? ==> WellFormed(f.value.text))
  }

  lemma JsFieldAgrees(f: JsField)
    ensures JsFieldError(f).None? <==>
            && FieldError(ToGo(f)).None?
            && 0 !in f.name && WellFormed(f.name) && (f.value.JsStr? ==> WellFormed(f.value.text))
    ensures 0 !in f.name && WellFormed(f.name) && (f.value.JsStr? ==> WellFormed(f.value.text)) ==> JsFieldError(f) == FieldError(ToGo(f))
  {
    hide EncodeString, TextEncode, Utf8.Valid, WellFormed;
    EncodeStringExactly(f.name);
    if f.value.JsStr? {
      EncodeStringExactly(f.value.text);
    }
  }

  lemma {:induction false} JsFieldsAgree(fs: seq<JsField>)
    ensures JsFirstError(fs).None? <==>
            && FirstError(ToGoAll(fs)).None?
            && forall f :: f in fs ==> 0 !in f.name && WellFormed(f.name) && (f.value.JsStr? ==> WellFormed(f.value.text))
    ensures (forall f :: f in fs ==> 0 !in f.name && WellFormed(f.name) && (f.value.JsStr? ==> WellFormed(f.value.text))) ==>
            JsFirstError(fs) == FirstError(ToGoAll(fs))
  {
    hide ToGo, JsFieldError, FieldError, WellFormed;
    if fs != [] {
      JsFieldAgrees(fs[0]);
      JsFieldsAgree(fs[1..]);
      assert ToGoAll(fs)[1..] == ToGoAll(fs[1..]);
      assert forall f :: f in fs <==> f == fs[0] || f in fs[1..];
    }
  }

  /**
   * TypeScript accepts a message exactly when Go accepts it and it is strict text; the bytes are
   * then the same. On strict text the two also give the same error.
   */
  lemma JsAgreesWithGo(context: units, fs: seq<JsField>)
    ensures JsEncoded(context, fs).Ok? <==>
            Encoded(TextEncode(context), ToGoAll(fs)).Ok? && JsStrict(context, fs)
    ensures JsEncoded(context, fs).Ok? ==> JsEncoded(context, fs) == Encoded(TextEncode(context), ToGoAll(fs))
    ensures JsStrict(context, fs) ==> JsEncoded(context, fs) == Encoded(TextEncode(context), ToGoAll(fs))
  {
    hide EncodeString, TextEncode, Utf8.Valid, WellFormed, JsFirstError, FirstError, Layout;
    EncodeStringExactly(context);
    JsFieldsAgree(fs);
  }

  // ---- Node: buffers concatenated; a number that does not fit its width throws (None)

  function NodeLp(b: bytes): Option<bytes> {
    if |b| < LIMIT then Some(BigEndian(|b|, 4) + b) else None
  }

  function NodeU64(n: int): Option<bytes> {
    if 0 <= n < 0x1_0000_0000_0000_0000 then Some(BigEndian(n, 8)) else None
  }

  function NodeTagged(name: units, tag: byte, data: bytes): Option<bytes> {
    match (NodeLp(TextEncode(name)), NodeLp(data))
    case (Some(n), Some(d)) => Some(n + [tag] + d)
    case _ => None
  }

  /** fString, fU64 and fBytes; the builder has no boolean fields. */
  function NodeField(f: JsField): Option<bytes> {
    match f.value
    case JsStr(t) => NodeTagged(f.name, 1, TextEncode(t))
    case JsU64(n) => if NodeU64(n).Some? then NodeTagged(f.name, 2, NodeU64(n).value) else None
    case JsRaw(d) => NodeTagged(f.name, 3, d)
    case _ => None
  }

  function NodeFields(fs: seq<JsField>): Option<bytes> {
    if fs == [] then Some([])
    else match (NodeField(fs[0]), NodeFields(fs[1..]))
      case (Some(b), Some(rest)) => Some(b + rest)
      case _ => None
  }

  function NodeEncoded(context: units, fs: seq<JsField>): Option<bytes> {
    match (NodeLp(TextEncode(context)), NodeFields(fs))
    case (Some(c), Some(rest)) => if |fs| < LIMIT then Some(c + BigEndian(|fs|, 4) + rest) else None
    case _ => None
  }

  predicate NodeKinds(fs: seq<JsField>) {
    forall f :: f in fs ==> f.value.JsStr? || f.value.JsU64? || f.value.JsRaw?
  }

  lemma NodeFieldAgrees(f: JsField)
    requires FieldError(ToGo(f)).None? && NodeKinds([f])
    ensures NodeField(f) == if FieldFits(ToGo(f)) then Some(FieldBytes(ToGo(f))) else None
  {
    hide TextEncode, Utf8.Valid, BigEndian;
    assert f in [f];
  }

  lemma {:induction false} NodeFieldsAgree(fs: seq<JsField>)
    requires FirstError(ToGoAll(fs)).None? && NodeKinds(fs)
    ensures NodeFields(fs) ==
            if forall g :: g in ToGoAll(fs) ==> FieldFits(g) then Some(FieldsBytes(ToGoAll(fs))) else None
  {
    hide ToGo, NodeField, FieldError, FieldBytes, FieldFits;
    if fs != [] {
      var gs := ToGoAll(fs);
      assert gs[0] == ToGo(fs[0]) && gs[1..] == ToGoAll(fs[1..]);
      NodeFieldAgrees(fs[0]);
      NodeFieldsAgree(fs[1..]);
      assert forall g :: g in gs <==> g == gs[0] || g in gs[1..];
    }
  }

  /** Whatever Go accepts of the kinds Node builds, Node builds identically, as long as no length overflows. */
  lemma NodeAgreesWithGo(context: units, fs: seq<JsField>)
    requires Encoded(TextEncode(context), ToGoAll(fs)).Ok? && NodeKinds(fs)
    ensures NodeEncoded(context, fs) ==
            if Fits(TextEncode(context), ToGoAll(fs)) then Some(Encoded(TextEncode(context), ToGoAll(fs)).value) else None
  {
    hide TextEncode, Utf8.Valid, NodeFields, FirstError, FieldsBytes, BigEndian, FieldFits;
    NodeFieldsAgree(fs);
  }
}
