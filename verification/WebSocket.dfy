/** WebSocket framing (section 5.2 of RFC 6455) as the two tunnel clients write and read it. */
module WebSocket {
  import opened Bytes

  // ---- Masking

  function XorBits(a: nat, b: nat, k: nat): (r: nat)
    decreases k
  {
    if k == 0 then 0 else 2 * XorBits(a / 2, b / 2, k - 1) + (a % 2 + b % 2) % 2
  }

  lemma {:induction false} XorBound(a: nat, b: nat, k: nat)
    ensures k == 8 ==> XorBits(a, b, k) < 256
    ensures k <= 8 ==> XorBits(a, b, k) < [1, 2, 4, 8, 16, 32, 64, 128, 256][k]
    decreases k
  {
    if k > 0 {
      XorBound(a / 2, b / 2, k - 1);
    }
  }

  function Xor(a: byte, b: byte): byte {
    XorBound(a, b, 8);
    XorBits(a, b, 8)
  }

  lemma {:induction false} XorTwice(a: nat, b: nat, k: nat, top: nat)
    requires k <= 8 && top == [1, 2, 4, 8, 16, 32, 64, 128, 256][k] && a < top
    ensures XorBits(XorBits(a, b, k), b, k) == a
    decreases k
  {
    if k > 0 {
      var y, t := XorBits(a / 2, b / 2, k - 1), (a % 2 + b % 2) % 2;
      XorTwice(a / 2, b / 2, k - 1, top / 2);
      assert XorBits(a, b, k) / 2 == y && XorBits(a, b, k) % 2 == t;
      assert (t + b % 2) % 2 == a % 2;
    }
  }

  function Masked(p: bytes, m: bytes): (r: bytes)
    requires |m| == 4
    ensures |r| == |p|
  {
    seq(|p|, i requires 0 <= i < |p| => Xor(p[i], m[i % 4]))
  }

  /** The mask undoes itself. */
  lemma MaskedTwice(p: bytes, m: bytes)
    requires |m| == 4
    ensures Masked(Masked(p, m), m) == p
  {
    forall i | 0 <= i < |p| ensures Masked(Masked(p, m), m)[i] == p[i] {
      XorTwice(p[i], m[i % 4], 8, 256);
    }
  }

  // ---- Frames

  type Mask = m: bytes | |m| == 4 witness [0, 0, 0, 0]

  /** The first byte (its low four bits are the opcode), the mask if there is one, and the payload. */
  datatype Frame = Frame(b0: byte, mask: Option<Mask>, payload: bytes)

  const MAX_LENGTH: nat := 0x20_0000_0000_0000

  function LengthField(n: nat, masked: bool): bytes {
    var top := if masked then 128 else 0;
    if n < 126 then [top + n] else if n < 65536 then [top + 126] + BigEndian(n, 2) else [top + 127] + BigEndian(n, 8)
  }

  function Encoded(f: Frame): bytes {
    [f.b0] + LengthField(|f.payload|, f.mask.Some?) +
    (if f.mask.Some? then f.mask.value + Masked(f.payload, f.mask.value) else f.payload)
  }

  function Stream(fs: seq<Frame>): bytes {
    if fs == [] then [] else Encoded(fs[0]) + Stream(fs[1..])
  }

  /** A frame at the front of a buffer, and how many bytes it takes up. */
  datatype Got = Got(b0: byte, payload: bytes, used: nat)

  /** The payload length and the size of the header before the mask, once enough of it is there. */
  function Header(buf: bytes): Option<(nat, nat)> {
    if |buf| < 2 then None
    else
      var n := buf[1] % 128;
      if n == 126 then if |buf| < 4 then None else Some((Number(buf[2..4]), 4))
      else if n == 127 then if |buf| < 10 then None else Some((Number(buf[2..10]), 10))
      else Some((n, 2))
  }

  function ParseOne(buf: bytes): (g: Option<Got>)
    ensures g.Some? ==> 2 <= g.value.used <= |buf|
  {
    var h := Header(buf);
    if h.None? then None
    else
      var (n, off) := h.value;
      var end := off + (if buf[1] >= 128 then 4 else 0);
      if |buf| < end + n then None
      else
        var body := buf[end..end + n];
        Some(Got(buf[0], if buf[1] >= 128 then Masked(body, buf[off..end]) else body, end + n))
  }

  lemma HeaderOfEncoded(f: Frame, rest: bytes)
    requires |f.payload| < MAX_LENGTH
    ensures var s := Encoded(f) + rest;
            && Header(s) == Some((|f.payload|, 1 + |LengthField(|f.payload|, f.mask.Some?)|))
            && s[0] == f.b0 && (s[1] >= 128 <==> f.mask.Some?)
  {
    var n, s := |f.payload|, Encoded(f) + rest;
    var field := LengthField(n, f.mask.Some?);
    assert s[0] == f.b0 && s[1] == field[0];
    if 126 <= n < 65536 {
      assert s[2..4] == field[1..] == BigEndian(n, 2);
      NumberOfBigEndian(n, 2);
      Capacities();
    } else if n >= 65536 {
      assert s[2..10] == field[1..] == BigEndian(n, 8);
      NumberOfBigEndian(n, 8);
      Capacities();
    }
  }

  /** Where the mask and the body of a written frame stand. */
  lemma BodyOfEncoded(f: Frame, rest: bytes)
    ensures var s, off, n := Encoded(f) + rest, 1 + |LengthField(|f.payload|, f.mask.Some?)|, |f.payload|;
            if f.mask.Some? then
              && |Encoded(f)| == off + 4 + n && s[off..off + 4] == f.mask.value
              && s[off + 4..off + 4 + n] == Masked(f.payload, f.mask.value)
            else |Encoded(f)| == off + n && s[off..off + n] == f.payload
  {
    hide LengthField, Masked;
  }

  /** Whatever follows it, a written frame reads back as it was. */
  lemma ParseEncoded(f: Frame, rest: bytes)
    requires |f.payload| < MAX_LENGTH
    ensures ParseOne(Encoded(f) + rest) == Some(Got(f.b0, f.payload, |Encoded(f)|))
  {
    hide Header, LengthField, Number, Encoded, Masked;
    HeaderOfEncoded(f, rest);
    BodyOfEncoded(f, rest);
    if f.mask.Some? {
      MaskedTwice(f.payload, f.mask.value);
    }
  }

  lemma HeaderStays(a: bytes, b: bytes)
    requires Header(a).Some?
    ensures Header(a + b) == Header(a)
  {
    assert a[1] % 128 == 126 ==> (a + b)[2..4] == a[2..4];
    assert a[1] % 128 == 127 ==> (a + b)[2..10] == a[2..10];
  }

  /** A frame that is complete stays what it is when more arrives. */
  lemma ParseStays(a: bytes, b: bytes)
    requires ParseOne(a).Some?
    ensures ParseOne(a + b) == ParseOne(a)
  {
    hide Header, Masked;
    HeaderStays(a, b);
    var (n, off) := Header(a).value;
    var end := off + (if a[1] >= 128 then 4 else 0);
    assert (a + b)[off..end] == a[off..end] && (a + b)[end..end + n] == a[end..end + n];
  }

  // ---- Reading a stream

  /** The two clients differ only in what they make of opcodes neither sends. */
  datatype Client = Node | Python

  datatype Kind = Deliver | Close | Skip

  function KindOf(c: Client, opcode: nat): Kind {
    if opcode == 8 then Close
    else if c.Node? then if opcode == 9 || opcode == 10 then Skip else Deliver
    else if opcode <= 2 then Deliver else Skip
  }

  /** The messages, and the pings to answer, up to the first close frame or the end of the last complete frame, and what is left. */
  datatype Reading = Reading(messages: seq<bytes>, pings: seq<bytes>, closed: bool, rest: bytes)

  /** One reading and then another. */
  function Then(a: Reading, b: Reading): Reading {
    b.(messages := a.messages + b.messages, pings := a.pings + b.pings)
  }

  function Read(c: Client, s: bytes): Reading
    decreases |s|
  {
    var g := ParseOne(s);
    if g.None? then Reading([], [], false, s)
    else
      var rest := s[g.value.used..];
      match KindOf(c, g.value.b0 % 16)
      case Close => Reading([], [], true, rest)
      case Skip => var r := Read(c, rest); if g.value.b0 % 16 == 9 then r.(pings := [g.value.payload] + r.pings) else r
      case Deliver => var r := Read(c, rest); r.(messages := [g.value.payload] + r.messages)
  }

  /** What the frames mean: the payloads of the data frames before the first close. */
  function Meaning(c: Client, fs: seq<Frame>): seq<bytes> {
    if fs == [] then []
    else
      match KindOf(c, fs[0].b0 % 16)
      case Close => []
      case Skip => Meaning(c, fs[1..])
      case Deliver => [fs[0].payload] + Meaning(c, fs[1..])
  }

  /** The payloads of the pings before the first close. */
  function Pings(fs: seq<Frame>): seq<bytes> {
    if fs == [] || fs[0].b0 % 16 == 8 then []
    else (if fs[0].b0 % 16 == 9 then [fs[0].payload] else []) + Pings(fs[1..])
  }

  predicate Closes(fs: seq<Frame>) {
    exists i :: 0 <= i < |fs| && fs[i].b0 % 16 == 8
  }

  /** Any list of frames, with any masks, reads back as its data payloads in order up to the first close. */
  lemma {:induction false} StreamReadsBack(c: Client, fs: seq<Frame>)
    requires forall i :: 0 <= i < |fs| ==> |fs[i].payload| < MAX_LENGTH
    ensures Read(c, Stream(fs)).messages == Meaning(c, fs) && Read(c, Stream(fs)).pings == Pings(fs)
    ensures Read(c, Stream(fs)).closed <==> Closes(fs)
    ensures !Closes(fs) ==> Read(c, Stream(fs)).rest == []
  {
    hide ParseOne, Encoded, Masked;
    if fs == [] {
      assert ParseOne([]).None? by { NothingToParse(); }
    } else {
      var s, rest := Stream(fs), Stream(fs[1..]);
      ParseEncoded(fs[0], rest);
      assert s[|Encoded(fs[0])|..] == rest;
      StreamReadsBack(c, fs[1..]);
      ClosesSplit(fs);
      hide Closes;
    }
  }

  lemma ClosesSplit(fs: seq<Frame>)
    requires fs != []
    ensures Closes(fs) <==> fs[0].b0 % 16 == 8 || Closes(fs[1..])
  {
    if Closes(fs[1..]) {
      var i :| 0 <= i < |fs[1..]| && fs[1..][i].b0 % 16 == 8;
      assert fs[i + 1].b0 % 16 == 8;
    }
    if Closes(fs) && fs[0].b0 % 16 != 8 {
      var i :| 0 <= i < |fs| && fs[i].b0 % 16 == 8;
      assert fs[1..][i - 1].b0 % 16 == 8;
    }
  }

  lemma NothingToParse()
    ensures ParseOne([]).None?
  {
  }

  /** Reading goes on where it stopped; after a close nothing more is read. */
  lemma {:induction false} ReadOn(c: Client, a: bytes, b: bytes)
    ensures var r := Read(c, a);
            Read(c, a + b) ==
            if r.closed then r.(rest := r.rest + b) else Then(r, Read(c, r.rest + b))
    decreases |a|
  {
    hide ParseOne;
    var g := ParseOne(a);
    if g.Some? {
      ParseStays(a, b);
      assert (a + b)[g.value.used..] == a[g.value.used..] + b;
      ReadOn(c, a[g.value.used..], b);
    }
  }

  function Joined(chunks: seq<bytes>): bytes {
    if chunks == [] then [] else chunks[0] + Joined(chunks[1..])
  }

  /** Feeding a buffer chunk by chunk, reading whatever is complete after each. */
  function ReadInChunks(c: Client, buf: bytes, chunks: seq<bytes>): Reading
    decreases |chunks|
  {
    var r := Read(c, buf);
    if chunks == [] || r.closed then r
    else Then(r, ReadInChunks(c, r.rest + chunks[0], chunks[1..]))
  }

  /** However the stream is cut up, the messages are the same. */
  lemma {:induction false} ChunksDoNotMatter(c: Client, buf: bytes, chunks: seq<bytes>)
    ensures var whole, cut := Read(c, buf + Joined(chunks)), ReadInChunks(c, buf, chunks);
            cut.messages == whole.messages && cut.pings == whole.pings && cut.closed == whole.closed
    decreases |chunks|
  {
    hide Read;
    var r := Read(c, buf);
    if chunks == [] {
      assert buf + Joined(chunks) == buf;
    } else {
      ReadOn(c, buf, Joined(chunks));
      if !r.closed {
        assert r.rest + Joined(chunks) == (r.rest + chunks[0]) + Joined(chunks[1..]);
        ChunksDoNotMatter(c, r.rest + chunks[0], chunks[1..]);
      }
    }
  }

  /** Sent by either client, cut up anyhow, read by either client: the same messages. */
  lemma TunnelDelivers(c: Client, fs: seq<Frame>, chunks: seq<bytes>)
    requires forall i :: 0 <= i < |fs| ==> |fs[i].payload| < MAX_LENGTH
    requires Joined(chunks) == Stream(fs)
    ensures ReadInChunks(c, [], chunks).messages == Meaning(c, fs) && ReadInChunks(c, [], chunks).pings == Pings(fs)
  {
    ChunksDoNotMatter(c, [], chunks);
    assert [] + Joined(chunks) == Stream(fs);
    StreamReadsBack(c, fs);
  }

  /** Some frame before the first close has an opcode RFC 6455 reserves. */
  predicate Reserved(fs: seq<Frame>) {
    fs != [] && fs[0].b0 % 16 != 8 && (fs[0].b0 % 16 !in {0, 1, 2, 9, 10} || Reserved(fs[1..]))
  }

  /** Python delivers no more than Node, and strictly less where a reserved opcode comes before the close. */
  lemma {:induction false} PythonDeliversLess(fs: seq<Frame>)
    ensures |Meaning(Python, fs)| <= |Meaning(Node, fs)| && (Reserved(fs) ==> |Meaning(Python, fs)| < |Meaning(Node, fs)|)
  {
    if fs != [] {
      PythonDeliversLess(fs[1..]);
    }
  }

  /** Frames mean the same to both clients exactly when no reserved opcode comes before the first close. */
  lemma {:induction false} ClientsAgree(fs: seq<Frame>)
    ensures Meaning(Node, fs) == Meaning(Python, fs) <==> !Reserved(fs)
  {
    PythonDeliversLess(fs);
    if fs != [] && !Reserved(fs) {
      ClientsAgree(fs[1..]);
    }
  }

  /** A data frame with opcode 3: a message to Node, nothing to Python. */
  lemma ClientsDiffer()
    ensures var fs := [Frame(0x83, None, [1])]; Meaning(Node, fs) == [[1]] && Meaning(Python, fs) == []
  {
    var fs := [Frame(0x83, None, [1])];
    assert fs[1..] == [] && fs[0].b0 % 16 == 3;
  }
}
