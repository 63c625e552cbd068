/**
 What the control socket takes for a string: exactly the UTF-8 of some Unicode scalar values,
 sections 3 and 4 of RFC 3629.
 */
module Unicode {
  import opened Postcard
  import Escape

  predicate IsScalar(c: int) {
    0 <= c <= 0x10FFFF && !(0xD800 <= c <= 0xDFFF)
  }

  /** The value of a sequence of one to four bytes, by its length. */
  function ValueOf(b: Bytes): int
    requires 1 <= |b| <= 4
  {
    var b0: int := b[0];
    if |b| == 1 then b0
    else
      var b1: int := b[1];
      if |b| == 2 then (b0 - 0xC0) * 64 + (b1 - 0x80)
      else
        var b2: int := b[2];
        if |b| == 3 then (b0 - 0xE0) * 4096 + (b1 - 0x80) * 64 + (b2 - 0x80)
        else
          var b3: int := b[3];
          (b0 - 0xF0) * 262144 + (b1 - 0x80) * 4096 + (b2 - 0x80) * 64 + (b3 - 0x80)
  }

  /** What is taken for a character is one. */
  lemma {:induction false} CharIs(b: Bytes)
    requires CharLen(b) > 0
    ensures CharLen(b) <= 4 && IsScalar(ValueOf(b[..CharLen(b)])) && Escape.IsUtf8(b[..CharLen(b)], ValueOf(b[..CharLen(b)]))
  {
  }

  /** And every character is taken, whatever follows. */
  lemma {:induction false} CharTaken(x: Bytes, c: int, rest: Bytes)
    requires IsScalar(c) && Escape.IsUtf8(x, c)
    ensures CharLen(x + rest) == |x|
  {
  }

  function Concat(pieces: seq<Bytes>): Bytes {
    if pieces == [] then [] else pieces[0] + Concat(pieces[1..])
  }

  /** `pieces` are the encodings of `cs`, one after the other. */
  ghost predicate Encodes(pieces: seq<Bytes>, cs: seq<int>) {
    |pieces| == |cs| && forall i :: 0 <= i < |cs| ==> IsScalar(cs[i]) && Escape.IsUtf8(pieces[i], cs[i])
  }

  lemma {:induction false} TextTaken(pieces: seq<Bytes>, cs: seq<int>)
    requires Encodes(pieces, cs)
    ensures Utf8(Concat(pieces))
    decreases |pieces|
  {
    if pieces != [] {
      TextTaken(pieces[1..], cs[1..]);
      CharTaken(pieces[0], cs[0], Concat(pieces[1..]));
      assert Concat(pieces)[|pieces[0]|..] == Concat(pieces[1..]);
    }
  }

  lemma {:induction false} TextIs(b: Bytes) returns (pieces: seq<Bytes>, cs: seq<int>)
    requires Utf8(b)
    ensures Encodes(pieces, cs) && b == Concat(pieces)
    decreases |b|
  {
    pieces, cs := [], [];
    if b != [] {
      var n := CharLen(b);
      var ps, ds := TextIs(b[n..]);
      CharIs(b);
      pieces, cs := [b[..n]] + ps, [ValueOf(b[..n])] + ds;
      assert pieces[1..] == ps;
    }
  }
}
