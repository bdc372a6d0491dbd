/** The length-prefixed frames between the Firecracker host and the guest agent. */
module Frames {
  import opened Options

  type Byte = x: int | 0 <= x < 256
  type Bytes = seq<Byte>

  const MAX_MESSAGE_SIZE: nat := 0x200_0000   // 32 << 20

  datatype Error = Eof | UnexpectedEof | EmptyFrame | FrameTooLarge | BadMessage | Unencodable | WriteFailed

  datatype Result<+T> = Ok(value: T) | Err(error: Error)

  // ---------- the length header ----------

  /** binary.BigEndian.PutUint32 */
  function Header(n: nat): (h: Bytes)
    requires n < 0x1_0000_0000
    ensures |h| == 4
  {
    [n / 0x100_0000, n / 0x1_0000 % 0x100, n / 0x100 % 0x100, n % 0x100]
  }

  /** binary.BigEndian.Uint32 */
  function HeaderValue(h: Bytes): (n: nat)
    requires |h| == 4
    ensures n < 0x1_0000_0000
  {
    var a: int, b: int, c: int, d: int := h[0], h[1], h[2], h[3];
    a * 0x100_0000 + b * 0x1_0000 + c * 0x100 + d
  }

  lemma HeaderRoundTrip(n: nat)
    requires n < 0x1_0000_0000
    ensures HeaderValue(Header(n)) == n
  {
    assert n == n / 0x100 * 0x100 + n % 0x100;
    assert n / 0x100 == n / 0x1_0000 * 0x100 + n / 0x100 % 0x100;
    assert n / 0x1_0000 == n / 0x100_0000 * 0x100 + n / 0x1_0000 % 0x100;
  }

  lemma HeaderIsUnique(h: Bytes)
    requires |h| == 4
    ensures Header(HeaderValue(h)) == h
  {
    var n := HeaderValue(h);
    var a: int, b: int, c: int, d: int := h[0], h[1], h[2], h[3];
    assert n / 0x100 == a * 0x1_0000 + b * 0x100 + c && n % 0x100 == d;
    assert n / 0x1_0000 == a * 0x100 + b && n / 0x100 % 0x100 == c;
    assert n / 0x100_0000 == a && n / 0x1_0000 % 0x100 == b;
  }

  /** The header's first byte weighs most. */
  lemma HeaderIsBigEndian(n: nat)
    requires n < 0x1_0000_0000
    ensures Header(n)[0] == n / 0x100_0000 && Header(n)[3] == n % 0x100
    ensures forall m: nat :: m < n ==>
      exists i :: 0 <= i < 4 && Header(m)[..i] == Header(n)[..i] && Header(m)[i] < Header(n)[i]
  {
    forall m: nat | m < n
      ensures exists i :: 0 <= i < 4 && Header(m)[..i] == Header(n)[..i] && Header(m)[i] < Header(n)[i]
    {
      HeaderRoundTrip(m);
      HeaderRoundTrip(n);
      var i := FirstSmaller(m, n);
    }
  }

  lemma FirstSmaller(m: nat, n: nat) returns (i: nat)
    requires m < n < 0x1_0000_0000
    ensures i < 4 && Header(m)[..i] == Header(n)[..i] && Header(m)[i] < Header(n)[i]
  {
    HeaderRoundTrip(m);
    HeaderRoundTrip(n);
    var h, g := Header(m), Header(n);
    i := if h[0] != g[0] then 0 else if h[1] != g[1] then 1 else if h[2] != g[2] then 2 else 3;
    assert h[..1] == [h[0]] && h[..2] == [h[0], h[1]] && h[..3] == [h[0], h[1], h[2]];
    assert g[..1] == [g[0]] && g[..2] == [g[0], g[1]] && g[..3] == [g[0], g[1], g[2]];
  }

  // ---------- frames ----------

  function Frame(data: Bytes): Bytes
    requires |data| <= MAX_MESSAGE_SIZE
  {
    Header(|data|) + data
  }

  /** JSON as far as the frames care: what marshals is never empty and
      unmarshals to itself. */
  datatype Codec<!T> = Codec(marshal: T -> Option<Bytes>, unmarshal: Bytes -> Option<T>)

  ghost predicate Lawful<T(!new)>(c: Codec<T>) {
    forall v: T :: c.marshal(v).Some? ==> c.marshal(v).value != [] && c.unmarshal(c.marshal(v).value) == Some(v)
  }

  /** The bytes WriteFrame puts on the wire, or its error with nothing written. */
  function Written<T>(c: Codec<T>, v: T): Result<Bytes> {
    match c.marshal(v)
    case None => Err(Unencodable)
    case Some(data) => if |data| > MAX_MESSAGE_SIZE then Err(FrameTooLarge) else Ok(Frame(data))
  }

  /** What ReadFrame makes of a stream that will deliver `s` and then end: its
      result and the bytes it leaves unread. */
  function Parsed<T>(c: Codec<T>, s: Bytes): (Result<T>, Bytes) {
    if s == [] then (Err(Eof), [])
    else if |s| < 4 then (Err(UnexpectedEof), [])
    else
      var n := HeaderValue(s[..4]);
      if n == 0 then (Err(EmptyFrame), s[4..])
      else if n > MAX_MESSAGE_SIZE then (Err(FrameTooLarge), s[4..])
      else if |s| == 4 then (Err(Eof), [])
      else if |s| < 4 + n then (Err(UnexpectedEof), [])
      else match c.unmarshal(s[4..4 + n])
           case None => (Err(BadMessage), s[4 + n..])
           case Some(v) => (Ok(v), s[4 + n..])
  }

  // ---------- reading and writing a stream ----------

  /** How many of `n` bytes a connection takes that fails after `room` more. */
  function Taken(room: Option<nat>, n: nat): nat {
    if room.Some? && room.value < n then room.value else n
  }

  /** A connection that delivers its bytes in chunks of any size, empty ones
      included; one Read returns at most one chunk. It takes `room` bytes before
      writes to it fail, or all there are. */
  class Conn {
    var chunks: seq<Bytes>
    var out: Bytes
    var room: Option<nat>

    constructor (chunks: seq<Bytes>, room: Option<nat>)
      ensures this.chunks == chunks && out == [] && this.room == room
    {
      this.chunks, this.room := chunks, room;
      out := [];
    }

    function Remaining(): Bytes
      reads this
    {
      Flatten(chunks)
    }

    method Read(max: nat) returns (b: Bytes, eof: bool)
      requires max > 0
      modifies this`chunks
      ensures eof <==> old(chunks) == []
      ensures eof ==> b == [] && chunks == []
      ensures !eof ==> |b| <= max && old(Remaining()) == b + Remaining()
      ensures !eof ==> |chunks| < old(|chunks|) || (|chunks| == old(|chunks|) && |Remaining()| < old(|Remaining()|))
    {
      if chunks == [] {
        return [], true;
      }
      eof := false;
      var first := chunks[0];
      if |first| <= max {
        b := first;
        chunks := chunks[1..];
      } else {
        b := first[..max];
        chunks := [first[max..]] + chunks[1..];
        assert chunks[1..] == old(chunks)[1..];
        assert first == b + first[max..];
      }
    }

    /** io.ReadFull */
    method ReadFull(n: nat) returns (r: Result<Bytes>)
      requires n > 0
      modifies this`chunks
      ensures var s := old(Remaining());
              if |s| >= n then r == Ok(s[..n]) && Remaining() == s[n..]
              else r == Err(if s == [] then Eof else UnexpectedEof) && Remaining() == []
    {
      var buf: Bytes := [];
      ghost var s := Remaining();
      while |buf| < n
        invariant |buf| <= n && s == buf + Remaining()
        decreases |chunks|, |Remaining()|
      {
        var b, eof := Read(n - |buf|);
        if eof {
          assert s == buf;
          return Err(if buf == [] then Eof else UnexpectedEof);
        }
        buf := buf + b;
      }
      r := Ok(buf);
    }

    /** A write that fails has still written what there was room for. */
    method Write(b: Bytes) returns (ok: bool)
      modifies this`out, this`room
      ensures ok <==> Taken(old(room), |b|) == |b|
      ensures out == old(out) + b[..Taken(old(room), |b|)]
      ensures room == if old(room).Some? then Some(old(room).value - Taken(old(room), |b|)) else None
    {
      var k := Taken(room, |b|);
      ok := k == |b|;
      out := out + b[..k];
      if room.Some? {
        room := Some(room.value - k);
      }
    }

    /** On the wire is the frame, or nothing of it if the value was refused, or a
        proper prefix if the connection failed. */
    method WriteFrame<T>(c: Codec<T>, v: T) returns (err: Option<Error>)
      modifies this`out, this`room
      ensures match Written(c, v)
              case Ok(frame) =>
                var k := Taken(old(room), |frame|);
                && out == old(out) + frame[..k]
                && err == (if k == |frame| then None else Some(WriteFailed))
                && (old(room).None? ==> room.None?)
              case Err(e) => err == Some(e) && out == old(out) && room == old(room)
    {
      var data := c.marshal(v);
      if data.None? {
        return Some(Unencodable);
      }
      if |data.value| > MAX_MESSAGE_SIZE {
        return Some(FrameTooLarge);
      }
      ghost var (frame, k) := (Frame(data.value), Taken(room, 4 + |data.value|));
      var ok := Write(Header(|data.value|));
      if !ok {
        assert frame[..k] == Header(|data.value|)[..k];
        return Some(WriteFailed);
      }
      assert Header(|data.value|)[..4] == Header(|data.value|);
      ok := Write(data.value);
      assert frame[..k] == Header(|data.value|) + data.value[..k - 4];
      err := if ok then None else Some(WriteFailed);
    }

    method ReadFrame<T>(c: Codec<T>) returns (r: Result<T>)
      modifies this`chunks
      ensures (r, Remaining()) == Parsed(c, old(Remaining()))
    {
      ghost var s := Remaining();
      var hdr := ReadFull(4);
      if hdr.Err? {
        return Err(hdr.error);
      }
      var n := HeaderValue(hdr.value);
      if n == 0 {
        return Err(EmptyFrame);
      }
      if n > MAX_MESSAGE_SIZE {
        return Err(FrameTooLarge);
      }
      var buf := ReadFull(n);
      if buf.Err? {
        return Err(buf.error);
      }
      assert s[4..][..n] == s[4..4 + n] && s[4..][n..] == s[4 + n..];
      var v := c.unmarshal(buf.value);
      r := if v.None? then Err(BadMessage) else Ok(v.value);
    }
  }

  function Flatten(chunks: seq<Bytes>): Bytes {
    if chunks == [] then [] else chunks[0] + Flatten(chunks[1..])
  }

  // ---------- the protocol ----------

  /** A frame is parsed back to its message and consumed exactly, whatever
      follows it. */
  lemma FrameRoundTrip<T(!new)>(c: Codec<T>, v: T, rest: Bytes)
    requires Lawful(c) && Written(c, v).Ok?
    ensures Parsed(c, Written(c, v).value + rest) == (Ok(v), rest)
  {
    var data := c.marshal(v).value;
    var s := Frame(data) + rest;
    HeaderRoundTrip(|data|);
    assert s[..4] == Header(|data|) && s[4..4 + |data|] == data && s[4 + |data|..] == rest;
  }

  /** WriteFrame emits only frames that ReadFrame accepts, and refuses exactly
      the values that do not marshal or are too large. */
  lemma WrittenIsReadable<T(!new)>(c: Codec<T>, v: T)
    requires Lawful(c)
    ensures Written(c, v).Ok? <==> c.marshal(v).Some? && |c.marshal(v).value| <= 32 * 1024 * 1024
    ensures Written(c, v).Ok? ==> Parsed(c, Written(c, v).value) == (Ok(v), [])
  {
    if Written(c, v).Ok? {
      FrameRoundTrip(c, v, []);
      assert Written(c, v).value + [] == Written(c, v).value;
    }
  }

  /** No frame is a proper prefix of another. */
  lemma FramesArePrefixFree(a: Bytes, b: Bytes)
    requires |a| <= MAX_MESSAGE_SIZE && |b| <= MAX_MESSAGE_SIZE
    requires Frame(a) <= Frame(b)
    ensures a == b
  {
    assert Frame(a)[..4] == Header(|a|) && Frame(b)[..4] == Header(|b|);
    HeaderRoundTrip(|a|);
    HeaderRoundTrip(|b|);
    assert Frame(a)[4..] == a && Frame(b)[4..] == b;
  }

  /** Bytes that ReadFrame accepts start with the frame of the body it read:
      the framing loses nothing and guesses nothing. */
  lemma AcceptedIsAFrame<T>(c: Codec<T>, s: Bytes)
    requires Parsed(c, s).0.Ok?
    ensures exists data: Bytes :: 0 < |data| <= MAX_MESSAGE_SIZE && c.unmarshal(data) == Some(Parsed(c, s).0.value) &&
                           s == Frame(data) + Parsed(c, s).1
  {
    var n := HeaderValue(s[..4]);
    var data := s[4..4 + n];
    HeaderIsUnique(s[..4]);
    assert s == s[..4] + data + s[4 + n..];
    assert s == Frame(data) + Parsed(c, s).1;
  }

  /** What is refused though its header arrived, with which error, and what is
      consumed: an empty frame and one announced too large cost their header, a
      body that does not decode costs the whole frame. */
  lemma RefusedFrames<T>(c: Codec<T>, n: nat, data: Bytes, rest: Bytes)
    requires n < 0x1_0000_0000 && |data| <= 32 * 1024 * 1024
    ensures n == 0 ==> Parsed(c, Header(n) + rest) == (Err(EmptyFrame), rest)
    ensures n > 32 * 1024 * 1024 ==> Parsed(c, Header(n) + rest) == (Err(FrameTooLarge), rest)
    ensures data != [] && c.unmarshal(data).None? ==> Parsed(c, Frame(data) + rest) == (Err(BadMessage), rest)
  {
    HeaderRoundTrip(n);
    assert (Header(n) + rest)[..4] == Header(n) && (Header(n) + rest)[4..] == rest;
    var s := Frame(data) + rest;
    HeaderRoundTrip(|data|);
    assert s[..4] == Header(|data|) && s[4..4 + |data|] == data && s[4 + |data|..] == rest;
  }

  predicate Writable<T>(c: Codec<T>, vs: seq<T>) {
    forall i :: 0 <= i < |vs| ==> Written(c, vs[i]).Ok?
  }

  /** A frame that was cut short, by a failed write or a lost connection, reads as
      an end of stream and never as a message. */
  lemma CutFrameIsRefused<T>(c: Codec<T>, data: Bytes, k: nat)
    requires 0 < |data| <= MAX_MESSAGE_SIZE && k < |Frame(data)|
    ensures Parsed(c, Frame(data)[..k]) == (Err(if k == 0 || k == 4 then Eof else UnexpectedEof), [])
  {
    if k >= 4 {
      HeaderRoundTrip(|data|);
      assert Frame(data)[..k][..4] == Header(|data|);
    }
  }

  function Wire<T>(c: Codec<T>, vs: seq<T>): Bytes
    requires Writable(c, vs)
  {
    if vs == [] then [] else Written(c, vs[0]).value + Wire(c, vs[1..])
  }

  /** Sends a list of messages over a connection that holds. */
  method SendAll<T>(conn: Conn, c: Codec<T>, vs: seq<T>)
    requires Writable(c, vs) && conn.room.None?
    modifies conn`out, conn`room
    ensures conn.out == old(conn.out) + Wire(c, vs)
  {
    var left := vs;
    while left != []
      invariant Writable(c, left) && conn.room.None? && conn.out + Wire(c, left) == old(conn.out) + Wire(c, vs)
    {
      var err := conn.WriteFrame(c, left[0]);
      left := left[1..];
    }
  }

  method ReceiveNext<T(!new)>(conn: Conn, c: Codec<T>, ghost sent: T, ghost tail: Bytes) returns (got: T)
    requires Lawful(c) && Written(c, sent).Ok? && conn.Remaining() == Written(c, sent).value + tail
    modifies conn`chunks
    ensures got == sent && conn.Remaining() == tail
  {
    FrameRoundTrip(c, sent, tail);
    var r := conn.ReadFrame(c);
    got := r.value;
  }

  lemma WireStep<T>(c: Codec<T>, got: seq<T>, left: seq<T>, rest: Bytes)
    requires left != [] && Writable(c, left)
    ensures Writable(c, left[1..]) && got + left == (got + [left[0]]) + left[1..]
    ensures Wire(c, left) + rest == Written(c, left[0]).value + (Wire(c, left[1..]) + rest)
  {
    assert forall i :: 0 <= i < |left[1..]| ==> left[1..][i] == left[i + 1];
    assert left == [left[0]] + left[1..];
    Regroup(got, [left[0]], left[1..]);
    Regroup(Written(c, left[0]).value, Wire(c, left[1..]), rest);
  }

  lemma Regroup<T>(x: seq<T>, y: seq<T>, z: seq<T>)
    ensures x + (y + z) == (x + y) + z
  {
  }

  /** Reads `count` messages. Whatever way the bytes of a written list are cut
      into chunks, exactly that list comes back and exactly its bytes are
      consumed. */
  method ReceiveAll<T(!new)>(conn: Conn, c: Codec<T>, count: nat, ghost vs: seq<T>, ghost rest: Bytes)
    returns (got: seq<T>)
    requires Lawful(c) && |vs| == count && Writable(c, vs)
    requires conn.Remaining() == Wire(c, vs) + rest
    modifies conn`chunks
    ensures got == vs && conn.Remaining() == rest
  {
    got := [];
    ghost var left := vs;
    while |got| < count
      invariant got + left == vs && Writable(c, left) && conn.Remaining() == Wire(c, left) + rest
    {
      WireStep(c, got, left, rest);
      var v := ReceiveNext(conn, c, left[0], Wire(c, left[1..]) + rest);
      got := got + [v];
      left := left[1..];
    }
  }
}
