/** The tunnel clients' frame writers and readers as they run: buffers grown and cut in place. */
module Tunnel {
  import opened Bytes
  import opened WebSocket

  // ---- Writing

  method ApplyMask(payload: bytes, mask: Mask) returns (out: bytes)
    ensures out == Masked(payload, mask)
  {
    out := [];
    for i := 0 to |payload|
      invariant out == Masked(payload, mask)[..i]
    {
      out := out + [Xor(payload[i], mask[i % 4])];
    }
  }

  /** Python: a masked binary frame. */
  method FrameBytes(payload: bytes, mask: Mask) returns (out: bytes)
    ensures |payload| < MAX_LENGTH ==> out == Encoded(Frame(0x82, Some(mask), payload))
  {
    out := [0x82];
    var n := |payload|;
    if n < 126 {
      out := out + [0x80 + n];
    } else if n < 65536 {
      out := out + [0x80 + 126];
      out := out + BigEndian(n, 2);
    } else {
      out := out + [0x80 + 127];
      out := out + BigEndian(n, 8);
    }
    assert out == [0x82] + LengthField(n, true);
    out := out + mask;
    var body := ApplyMask(payload, mask);
    assert out + body == [0x82] + LengthField(n, true) + (mask + body);
    out := out + body;
  }

  /** Node: a masked frame with the given opcode, its body written into a buffer of its own. */
  method WsFrame(payload: bytes, opcode: nat, mask: Mask) returns (out: bytes)
    requires opcode < 16
    ensures |payload| < MAX_LENGTH ==> out == Encoded(Frame(0x80 + opcode, Some(mask), payload))
  {
    var n := |payload|;
    var head: bytes;
    if n < 126 {
      head := [0x80 + opcode, 0x80 + n];
    } else if n < 65536 {
      head := [0x80 + opcode, 0xFE] + BigEndian(n, 2);
    } else {
      head := [0x80 + opcode, 0xFF] + BigEndian(n, 8);
    }
    var body := new byte[n];
    for i := 0 to n
      invariant forall k :: 0 <= k < i ==> body[k] == Xor(payload[k], mask[k % 4])
    {
      body[i] := Xor(payload[i], mask[i % 4]);
    }
    assert body[..] == Masked(payload, mask);
    assert head == [0x80 + opcode] + LengthField(n, true);
    out := head + mask + body[..];
    assert out == head + (mask + body[..]);
  }

  // ---- Python's reader

  /** The next message of a stream, or None at its end or its close; the pings before it; and the stream after it. */
  datatype Step = Step(message: Option<bytes>, pings: seq<bytes>, rest: bytes)

  function NextOf(s: bytes): Step
    decreases |s|
  {
    var g := ParseOne(s);
    if g.None? then Step(None, [], s)
    else
      var rest := s[g.value.used..];
      match KindOf(Python, g.value.b0 % 16)
      case Close => Step(None, [], rest)
      case Skip => var n := NextOf(rest); if g.value.b0 % 16 == 9 then n.(pings := [g.value.payload] + n.pings) else n
      case Deliver => Step(Some(g.value.payload), [], rest)
  }

  /** By the opcode of its first frame. */
  lemma NextFrame(s: bytes)
    ensures var g, n := ParseOne(s), NextOf(s);
            if g.None? then n == Step(None, [], s)
            else
              var rest, opcode := s[g.value.used..], g.value.b0 % 16;
              var on := NextOf(rest);
              if opcode == 0 || opcode == 1 || opcode == 2 then n == Step(Some(g.value.payload), [], rest)
              else if opcode == 8 then n == Step(None, [], rest)
              else n == on.(pings := if opcode == 9 then [g.value.payload] + on.pings else on.pings)
  {
    hide ParseOne;
  }

  /**
   * Python's answer to a ping. It sets the mask bit in the length byte and knows no longer lengths:
   * from 256 bytes on that is an error, and the answer is a pong frame exactly up to the 125 bytes
   * a control frame may carry.
   */
  method PongBytes(payload: bytes, mask: Mask) returns (out: Option<bytes>)
    ensures out.None? <==> |payload| >= 256
    ensures out == Some(Encoded(Frame(0x8A, Some(mask), payload))) <==> |payload| <= 125
  {
    var n := |payload|;
    var body := ApplyMask(payload, mask);
    if n >= 256 {
      return None;
    }
    var frame := [0x8A, if n < 0x80 then 0x80 + n else n];
    frame := frame + mask;
    frame := frame + body;
    if n <= 125 {
      assert frame == [0x8A] + LengthField(n, true) + (mask + body);
    } else {
      assert |LengthField(n, true)| == 3;
      assert |frame| < |Encoded(Frame(0x8A, Some(mask), payload))|;
    }
    return Some(frame);
  }

  lemma Front(a: bytes, b: bytes, i: nat, j: nat)
    requires i <= j <= |a|
    ensures (a + b)[i..j] == a[i..j] && (a + b)[j..] == a[j..] + b
  {
  }

  lemma HeaderSize(buf: bytes)
    requires Header(buf).Some?
    ensures 2 <= Header(buf).value.1 <= |buf|
  {
  }

  class Reader {
    var buf: bytes
    /** What the socket will still hand over, piece by piece. */
    var coming: seq<bytes>
    /** The pings answered so far. */
    var answered: seq<bytes>

    /** Everything not yet read. */
    function Unread(): bytes
      reads this
    {
      buf + Joined(coming)
    }

    constructor (coming: seq<bytes>, buffered: bytes)
      ensures this.coming == coming && buf == buffered && answered == []
    {
      this.coming, buf, answered := coming, buffered, [];
    }

    /** Receives until `n` bytes are buffered or the peer is done. */
    method Need(n: nat) returns (ok: bool)
      modifies this`buf, this`coming
      ensures Unread() == old(Unread()) && old(buf) <= buf
      ensures ok <==> n <= |buf|
      ensures !ok ==> buf == Unread()
    {
      while |buf| < n
        invariant Unread() == old(Unread()) && old(buf) <= buf
        decreases |coming|
      {
        if coming == [] {
          assert buf == Unread();
          return false;
        }
        assert buf + Joined(coming) == (buf + coming[0]) + Joined(coming[1..]);
        buf, coming := buf + coming[0], coming[1..];
      }
      return true;
    }

    /** The payload length and where the header ends, receiving as much as that takes. */
    method TakeHeader() returns (h: Option<(nat, nat)>)
      modifies this`buf, this`coming
      ensures Unread() == old(Unread()) && h == Header(Unread()) && (h.Some? ==> h.value.1 <= |buf|)
    {
      ghost var s := Unread();
      var ok := Need(2);
      if !ok {
        return None;
      }
      assert buf[0] == s[0] && buf[1] == s[1];
      var n := buf[1] % 0x80;
      if n == 126 {
        ok := Need(4);
        if !ok {
          return None;
        }
        assert buf[2..4] == s[2..4];
        return Some((Number(buf[2..4]), 4));
      } else if n == 127 {
        ok := Need(10);
        if !ok {
          return None;
        }
        assert buf[2..10] == s[2..10];
        return Some((Number(buf[2..10]), 10));
      }
      return Some((n, 2));
    }

    /** The next frame, taken out of the buffer, or None if the stream ends inside it. */
    method Take() returns (g: Option<Got>)
      modifies this`buf, this`coming
      ensures g == ParseOne(old(Unread()))
      ensures Unread() == if g.Some? then old(Unread())[g.value.used..] else old(Unread())
    {
      hide Masked, Header, Joined;
      ghost var s := Unread();
      var h := TakeHeader();
      if h.None? {
        return None;
      }
      var (n, off) := h.value;
      assert |buf| >= 2 by { HeaderSize(s); }
      assert buf[0] == s[0] && buf[1] == s[1];
      var masked, mask: Mask := buf[1] >= 0x80, [0, 0, 0, 0];
      var offset := off;
      if masked {
        var ok := Need(off + 4);
        if !ok {
          return None;
        }
        Front(buf, Joined(coming), off, off + 4);
        mask, offset := buf[off..off + 4], off + 4;
      }
      var ok := Need(offset + n);
      if !ok {
        return None;
      }
      Front(buf, Joined(coming), offset, offset + n);
      var payload := buf[offset..offset + n];
      if masked {
        payload := ApplyMask(payload, mask);
      }
      g := Some(Got(buf[0], payload, offset + n));
      buf := buf[offset + n..];
    }

    /** The next message's payload, or None when the peer is done. */
    method Next() returns (m: Option<bytes>)
      modifies this
      ensures var n := NextOf(old(Unread())); m == n.message && Unread() == n.rest && answered == old(answered) + n.pings
    {
      hide ParseOne, NextOf;
      ghost var whole := NextOf(Unread());
      while true
        invariant var n := NextOf(Unread());
                  n.message == whole.message && n.rest == whole.rest && answered + n.pings == old(answered) + whole.pings
        decreases |Unread()|
      {
        NextFrame(Unread());
        var g := Take();
        if g.None? {
          return None;
        }
        ghost var on := NextOf(Unread());
        var opcode := g.value.b0 % 16;
        if opcode == 1 || opcode == 2 || opcode == 0 {
          return Some(g.value.payload);
        }
        if opcode == 8 {
          return None;
        }
        if opcode == 9 {
          assert answered + ([g.value.payload] + on.pings) == answered + [g.value.payload] + on.pings;
          answered := answered + [g.value.payload];
        }
      }
    }
  }

  /** Calling for messages until there are none gives the stream's messages, and answers its pings, in order. */
  lemma {:induction false} MessagesOneByOne(s: bytes)
    ensures var r, n := Read(Python, s), NextOf(s);
            if n.message.None? then r.messages == [] && r.pings == n.pings
            else var on := Read(Python, n.rest); r.messages == [n.message.value] + on.messages && r.pings == n.pings + on.pings
    decreases |s|
  {
    hide ParseOne;
    var g := ParseOne(s);
    if g.Some? && KindOf(Python, g.value.b0 % 16).Skip? {
      MessagesOneByOne(s[g.value.used..]);
    }
  }

  // ---- Node's reader

  /** The frame at the front of the buffer, if it is complete. */
  method ParseBuffer(buf: bytes) returns (g: Option<Got>)
    ensures g == ParseOne(buf)
  {
    hide Masked;
    if |buf| < 2 {
      return None;
    }
    var masked, n, off := buf[1] >= 0x80, buf[1] % 0x80, 2;
    if n == 126 {
      if |buf| < 4 {
        return None;
      }
      n, off := Number(buf[2..4]), 4;
    } else if n == 127 {
      if |buf| < 10 {
        return None;
      }
      n, off := Number(buf[2..10]), 10;
    }
    var mask: Mask := [0, 0, 0, 0];
    if masked {
      if |buf| < off + 4 {
        return None;
      }
      mask, off := buf[off..off + 4], off + 4;
    }
    if |buf| < off + n {
      return None;
    }
    var payload := buf[off..off + n];
    if masked {
      payload := ApplyMask(payload, mask);
    }
    return Some(Got(buf[0], payload, off + n));
  }

  class NodeReader {
    var buf: bytes
    /** The messages handed on, the pings answered, and whether a close was reported. */
    var messages: seq<bytes>
    var answered: seq<bytes>
    var closed: bool

    constructor (leftover: bytes)
      ensures buf == leftover && messages == [] && answered == [] && !closed
    {
      buf, messages, answered, closed := leftover, [], [], false;
    }

    /** Handles every complete frame in the buffer, up to a close. */
    method Pump()
      modifies this
      ensures var r := Read(Node, old(buf));
              && buf == r.rest && messages == old(messages) + r.messages && answered == old(answered) + r.pings
              && closed == (old(closed) || r.closed)
    {
      hide ParseOne;
      ghost var whole := Read(Node, buf);
      while true
        invariant closed == old(closed)
        invariant var r := Read(Node, buf);
                  && messages + r.messages == old(messages) + whole.messages && answered + r.pings == old(answered) + whole.pings
                  && r.rest == whole.rest && r.closed == whole.closed
        decreases |buf|
      {
        var g := ParseBuffer(buf);
        if g.None? {
          return;
        }
        var opcode := g.value.b0 % 16;
        buf := buf[g.value.used..];
        if opcode == 8 {
          closed := true;
          return;
        }
        if opcode == 9 {
          answered := answered + [g.value.payload];
          continue;
        }
        if opcode == 10 {
          continue;
        }
        messages := messages + [g.value.payload];
      }
    }

    method OnData(chunk: bytes)
      modifies this
      ensures var r := Read(Node, old(buf) + chunk);
              && buf == r.rest && messages == old(messages) + r.messages && answered == old(answered) + r.pings
              && closed == (old(closed) || r.closed)
    {
      buf := buf + chunk;
      Pump();
    }
  }

  /** Node's reader given a leftover and then chunks, as its socket events give them: the messages until the first close. */
  method ReadAll(leftover: bytes, chunks: seq<bytes>) returns (messages: seq<bytes>, closed: bool)
    ensures messages == Read(Node, leftover + Joined(chunks)).messages && closed == Read(Node, leftover + Joined(chunks)).closed
  {
    hide Read;
    var r := new NodeReader(leftover);
    r.Pump();
    ChunksDoNotMatter(Node, leftover, chunks);
    ghost var all := ReadInChunks(Node, leftover, chunks);
    var k := 0;
    ghost var front := leftover;
    while k < |chunks| && !r.closed
      invariant k <= |chunks|
      invariant r.buf == Read(Node, front).rest && r.closed == Read(Node, front).closed
      invariant exists before: seq<bytes> ::
        && r.messages == before + Read(Node, front).messages
        && all.messages == before + ReadInChunks(Node, front, chunks[k..]).messages
      invariant all.closed == ReadInChunks(Node, front, chunks[k..]).closed
    {
      ghost var before: seq<bytes> :|
        && r.messages == before + Read(Node, front).messages
        && all.messages == before + ReadInChunks(Node, front, chunks[k..]).messages;
      assert chunks[k..][0] == chunks[k] && chunks[k..][1..] == chunks[k + 1..];
      front := r.buf + chunks[k];
      before := r.messages;
      r.OnData(chunks[k]);
      k := k + 1;
      assert r.messages == before + Read(Node, front).messages;
      assert all.messages == before + ReadInChunks(Node, front, chunks[k..]).messages;
    }
    messages, closed := r.messages, r.closed;
  }
}
