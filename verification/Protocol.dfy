/**
 The frames of the control socket: a length, a version byte and a message body.
 */
module Protocol {
  import opened Options
  import opened Postcard

  const MAX_FRAME := 1048576
  const SCRATCH := 8 * 1024
  const PROTOCOL_VERSION: Byte := 5

  datatype ProtocolError = FrameTooLarge(size: nat) | Encoding | UnsupportedVersion(version: Byte) | TrailingBytes(extra: nat) | Io
  datatype Result<T> = Ok(value: T) | Err(error: ProtocolError)

  // ---- frames ----

  function Be32(n: nat): Bytes
    requires n < 0x1_0000_0000
  {
    [n / 0x100_0000, n / 0x1_0000 % 256, n / 256 % 256, n % 256]
  }

  function FromBe32(b: Bytes): nat
    requires |b| == 4
  {
    var a: int, c: int, d: int := b[0], b[1], b[2];
    a * 0x100_0000 + c * 0x1_0000 + d * 256 + b[3]
  }

  lemma {:induction false} Be32RoundTrip(n: nat)
    requires n < 0x1_0000_0000
    ensures FromBe32(Be32(n)) == n
  {
    var q := n / 256;
    assert n / 0x1_0000 == q / 256 && n / 0x100_0000 == q / 256 / 256;
  }

  /** What a message body becomes on the wire.  The limit is on the body plus its version byte; the
      size reported is exact up to one past the second buffer and `MAX_FRAME + 1` beyond it. */
  function FrameOf(body: Bytes): Result<Bytes> {
    if |body| + 1 <= MAX_FRAME then Ok(Be32(|body| + 1) + [PROTOCOL_VERSION] + body)
    else Err(FrameTooLarge(if |body| <= MAX_FRAME + 1 then |body| + 1 else MAX_FRAME + 1))
  }

  /** `postcard::to_slice`: fill the buffer from the front, and fail once it is full. */
  method ToSlice(body: Bytes, scratch: array<Byte>) returns (n: Option<nat>)
    modifies scratch
    ensures n == if |body| <= scratch.Length then Some(|body|) else None
    ensures n.Some? ==> scratch[..|body|] == body
  {
    var i := 0;
    while i < |body|
      invariant 0 <= i <= |body| && i <= scratch.Length && scratch[..i] == body[..i]
    {
      if i == scratch.Length {
        return None;
      }
      scratch[i] := body[i];
      i := i + 1;
    }
    assert body[..|body|] == body;
    n := Some(|body|);
  }

  /** `encode_frame`: whichever buffer serves it, the frame is the same. */
  method EncodeFrame(body: Bytes) returns (r: Result<Bytes>)
    ensures r == FrameOf(body)
  {
    var scratch := new Byte[SCRATCH];
    var len := ToSlice(body, scratch);
    if len.None? {
      scratch := new Byte[MAX_FRAME + 1];
      len := ToSlice(body, scratch);
      if len.None? {
        return Err(FrameTooLarge(MAX_FRAME + 1));
      }
    }
    var framedLen := len.value + 1;
    if framedLen > MAX_FRAME {
      return Err(FrameTooLarge(framedLen));
    }
    r := Ok(Be32(framedLen) + [PROTOCOL_VERSION] + scratch[..len.value]);
  }

  function DecodeFrame(s: Shape, body: Bytes): Result<Val> {
    if body == [] then Err(Encoding)
    else if body[0] != PROTOCOL_VERSION then Err(UnsupportedVersion(body[0]))
    else Whole(Decode(s, body[1..]))
  }

  /** A message must use up its frame. */
  function Whole(t: Taken<Val>): Result<Val> {
    match t
    case Bad => Err(Encoding)
    case Took(v, rest) => if rest != [] then Err(TrailingBytes(|rest|)) else Ok(v)
  }

  /** One frame body off the front of a stream, and what is left of the stream. */
  function Received(stream: Bytes): Result<(Bytes, Bytes)> {
    if |stream| < 4 then Err(Io)
    else
      var len := FromBe32(stream[..4]);
      if len > MAX_FRAME then Err(FrameTooLarge(len))
      else if |stream| < 4 + len then Err(Io) else Ok((stream[4..4 + len], stream[4 + len..]))
  }

  class Reader {
    var stream: Bytes

    constructor (stream: Bytes)
      ensures this.stream == stream
    {
      this.stream := stream;
    }

    /** Fill the whole buffer or fail at the end of the stream. */
    method ReadExact(buffer: array<Byte>) returns (ok: bool)
      modifies this, buffer
      ensures ok <==> buffer.Length <= |old(stream)|
      ensures ok ==> buffer[..] == old(stream)[..buffer.Length] && stream == old(stream)[buffer.Length..]
    {
      var i := 0;
      while i < buffer.Length
        invariant 0 <= i <= buffer.Length && i <= |old(stream)|
        invariant buffer[..i] == old(stream)[..i] && stream == old(stream)[i..]
      {
        if stream == [] {
          return false;
        }
        buffer[i] := stream[0];
        stream := stream[1..];
        i := i + 1;
      }
      ok := true;
    }

    method ReadFrame() returns (r: Result<Bytes>)
      modifies this
      ensures Received(old(stream)).Ok? ==> r == Ok(Received(old(stream)).value.0) && stream == Received(old(stream)).value.1
      ensures Received(old(stream)).Err? ==> r == Err(Received(old(stream)).error)
      ensures |old(stream)| < 4 ==> r == Err(Io)
      ensures |old(stream)| >= 4 ==>
                var b := old(stream);
                var len := b[0] as int * 16777216 + b[1] as int * 65536 + b[2] as int * 256 + b[3] as int;
                if len > 1048576 then r == Err(FrameTooLarge(len))
                else if |b| < 4 + len then r == Err(Io) else r == Ok(b[4..4 + len]) && stream == b[4 + len..]
    {
      var prefix := new Byte[4];
      var ok := ReadExact(prefix);
      if !ok {
        return Err(Io);
      }
      var len := FromBe32(prefix[..]);
      if len > MAX_FRAME {
        return Err(FrameTooLarge(len));
      }
      var body := new Byte[len];
      ok := ReadExact(body);
      if !ok {
        return Err(Io);
      }
      ghost var was := old(stream);
      assert was[4..][..len] == was[4..4 + len] && was[4..][len..] == was[4 + len..];
      r := Ok(body[..]);
    }
  }

  // ---- what the frames promise, for any message type ----

  /** A frame on a stream is read back as its own body, whatever follows stays, and it decodes to the
      message that was sent. */
  lemma {:induction false} SentIsReceived(s: Shape, v: Val, rest: Bytes)
    requires WellFormed(s) && Fits(s, v) && FrameOf(Encode(s, v)).Ok?
    ensures var frame := FrameOf(Encode(s, v)).value;
            Received(frame + rest) == Ok(([PROTOCOL_VERSION] + Encode(s, v), rest))
    ensures DecodeFrame(s, [PROTOCOL_VERSION] + Encode(s, v)) == Ok(v)
  {
    var body := Encode(s, v);
    var frame := FrameOf(body).value;
    var stream := frame + rest;
    Be32RoundTrip(|body| + 1);
    assert stream[..4] == Be32(|body| + 1);
    assert stream[4..4 + (|body| + 1)] == [PROTOCOL_VERSION] + body;
    assert stream[4 + (|body| + 1)..] == rest;
    DecodesBack(s, v);
  }

  lemma {:induction false} DecodesBack(s: Shape, v: Val)
    requires WellFormed(s) && Fits(s, v)
    ensures DecodeFrame(s, [PROTOCOL_VERSION] + Encode(s, v)) == Ok(v)
  {
    RoundTrip(s, v, []);
    assert Encode(s, v) + [] == Encode(s, v);
    assert ([PROTOCOL_VERSION] + Encode(s, v))[1..] == Encode(s, v);
  }

  /** Anything after an accepted body is refused, and counted exactly. */
  lemma {:induction false} SuffixRefused(s: Shape, body: Bytes, x: Bytes)
    requires DecodeFrame(s, body).Ok? && x != []
    ensures DecodeFrame(s, body + x) == Err(TrailingBytes(|x|))
  {
    var t := Decode(s, body[1..]);
    Extends(s, body[1..], x);
    Split(body, 1, x);
    assert |t.rest + x| == |x|;
  }

  /** No accepted body is a strict prefix of another. */
  lemma {:induction false} PrefixFree(s: Shape, body: Bytes, body': Bytes)
    requires DecodeFrame(s, body).Ok? && DecodeFrame(s, body').Ok? && body <= body'
    ensures body == body'
  {
    if body != body' {
      var x := body'[|body|..];
      assert body' == body + x;
      SuffixRefused(s, body, x);
    }
  }

  /** Re-encoding what was accepted, redundant varint bytes and all, is never longer, always frames
      again, and means the same. */
  lemma {:induction false} ReencodeStable(s: Shape, body: Bytes)
    requires WellFormed(s) && DecodeFrame(s, body).Ok?
    ensures var v := DecodeFrame(s, body).value;
            && Fits(s, v) && |[PROTOCOL_VERSION] + Encode(s, v)| <= |body|
            && DecodeFrame(s, [PROTOCOL_VERSION] + Encode(s, v)) == Ok(v)
            && (|body| <= MAX_FRAME ==> FrameOf(Encode(s, v)).Ok?)
  {
    Sound(s, body[1..]);
    DecodesBack(s, DecodeFrame(s, body).value);
  }
}
