/**
 Peer text on its way to a terminal (`escape_control`).
 */
module Escape {
  import opened Label

  // ---- escape_control ----

  function HexDigit(d: int): Code
    requires 0 <= d < 16
  {
    if d < 10 then 0x30 + d else 0x57 + d
  }

  type Byte = b: int | 0 <= b < 256

  function Utf8(c: Code): seq<Byte> {
    if c < 0x80 then [c]
    else if c < 0x800 then [0xC0 + c / 64, 0x80 + c % 64]
    else if c < 0x10000 then [0xE0 + c / 4096, 0x80 + c / 64 % 64, 0x80 + c % 64]
    else [0xF0 + c / 262144, 0x80 + c / 4096 % 64, 0x80 + c / 64 % 64, 0x80 + c % 64]
  }

  function EscapeByte(b: Byte): Text {
    [0x5C, 0x78, HexDigit(b / 16), HexDigit(b % 16)]
  }

  function EscapeBytes(bs: seq<Byte>): Text {
    if bs == [] then [] else EscapeBytes(bs[..|bs| - 1]) + EscapeByte(bs[|bs| - 1])
  }

  /** A character a terminal may be given. */
  predicate Printable(c: Code) {
    !IsControl(c) && !IsInvisibleFormat(c)
  }

  function EscapeChar(c: Code): Text {
    if Printable(c) then [c] else EscapeBytes(Utf8(c))
  }

  function Escaped(s: Text): Text {
    if s == [] then [] else Escaped(s[..|s| - 1]) + EscapeChar(s[|s| - 1])
  }

  method EscapeEach(bytes: seq<Byte>, before: Text) returns (out: Text)
    ensures out == before + EscapeBytes(bytes)
  {
    out := before;
    for k := 0 to |bytes|
      invariant out == before + EscapeBytes(bytes[..k])
    {
      assert bytes[..k + 1][..k] == bytes[..k];
      out := out + EscapeByte(bytes[k]);
    }
    assert bytes[..|bytes|] == bytes;
  }

  method EscapeControl(s: Text) returns (out: Text)
    ensures out == Escaped(s)
  {
    out := [];
    for i := 0 to |s|
      invariant out == Escaped(s[..i])
    {
      assert s[..i + 1][..i] == s[..i];
      if IsControl(s[i]) || IsInvisibleFormat(s[i]) {
        out := EscapeEach(Utf8(s[i]), out);
      } else {
        out := out + [s[i]];
      }
    }
    assert s[..|s|] == s;
  }

  predicate AllPrintable(s: Text) {
    forall c :: c in s ==> Printable(c)
  }

  lemma {:induction false} BothPrintable(s: Text, t: Text)
    requires AllPrintable(s) && AllPrintable(t)
    ensures AllPrintable(s + t)
  {
  }

  lemma {:induction false} HexPrintable(d: int)
    requires 0 <= d < 16
    ensures Printable(HexDigit(d))
  {
  }

  lemma {:induction false} BytePrintable(b: Byte)
    ensures AllPrintable(EscapeByte(b))
  {
    HexPrintable(b / 16);
    HexPrintable(b % 16);
  }

  lemma {:induction false} BytesPrintable(bs: seq<Byte>)
    ensures AllPrintable(EscapeBytes(bs)) && |EscapeBytes(bs)| == 4 * |bs|
  {
    if bs != [] {
      BytesPrintable(bs[..|bs| - 1]);
      BytePrintable(bs[|bs| - 1]);
      BothPrintable(EscapeBytes(bs[..|bs| - 1]), EscapeByte(bs[|bs| - 1]));
    }
  }

  lemma {:induction false} CharPrintable(c: Code)
    ensures AllPrintable(EscapeChar(c)) && EscapeChar(c) != []
  {
    BytesPrintable(Utf8(c));
  }

  /** Nothing a terminal acts on survives. */
  lemma {:induction false} EscapedPrintable(s: Text)
    ensures AllPrintable(Escaped(s)) && |s| <= |Escaped(s)|
  {
    if s != [] {
      EscapedPrintable(s[..|s| - 1]);
      CharPrintable(s[|s| - 1]);
      BothPrintable(Escaped(s[..|s| - 1]), EscapeChar(s[|s| - 1]));
    }
  }

  /** Text is left as it is exactly when all of it is printable; so escaping twice is escaping once. */
  lemma {:induction false} EscapedFixed(s: Text)
    ensures AllPrintable(s) <==> Escaped(s) == s
  {
    if AllPrintable(s) {
      PrintableKept(s);
    } else {
      EscapedPrintable(s);
    }
  }

  lemma {:induction false} PrintableKept(s: Text)
    requires AllPrintable(s)
    ensures Escaped(s) == s
  {
    if s != [] {
      assert s == s[..|s| - 1] + [s[|s| - 1]] && s[|s| - 1] in s;
      PrintableKept(s[..|s| - 1]);
    }
  }

  // ---- reading it back ----

  /** The value of a lower-case hexadecimal digit. */
  function HexValue(c: Code): int {
    if 0x30 <= c <= 0x39 then c - 0x30 else if 0x61 <= c <= 0x66 then c - 0x61 + 10 else -1
  }

  /** `t` is `\x` and two digits of value `b`. */
  predicate ReadsByte(t: Text, b: int) {
    |t| == 4 && t[0] == 0x5C && t[1] == 0x78 && HexValue(t[2]) >= 0 && HexValue(t[3]) >= 0 && 16 * HexValue(t[2]) + HexValue(t[3]) == b
  }

  /** `t` is an escape for each of the bytes. */
  predicate ReadsBytes(t: Text, bs: seq<int>) {
    |t| == 4 * |bs| && forall k :: 0 <= k < |bs| ==> ReadsByte(t[4 * k..4 * k + 4], bs[k])
  }

  predicate IsTail(b: int) {
    0x80 <= b < 0xC0
  }

  /** The bytes are the UTF-8 form of `c`, section 3 of RFC 3629. */
  predicate IsUtf8(bs: seq<int>, c: int) {
    || (|bs| == 1 && 0 <= bs[0] < 0x80 && c == bs[0])
    || (|bs| == 2 && 0xC0 <= bs[0] < 0xE0 && IsTail(bs[1]) && c == (bs[0] - 0xC0) * 64 + (bs[1] - 0x80) >= 0x80)
    || (|bs| == 3 && 0xE0 <= bs[0] < 0xF0 && IsTail(bs[1]) && IsTail(bs[2]) &&
        c == (bs[0] - 0xE0) * 4096 + (bs[1] - 0x80) * 64 + (bs[2] - 0x80) >= 0x800)
    || (|bs| == 4 && 0xF0 <= bs[0] < 0xF8 && IsTail(bs[1]) && IsTail(bs[2]) && IsTail(bs[3]) &&
        c == (bs[0] - 0xF0) * 262144 + (bs[1] - 0x80) * 4096 + (bs[2] - 0x80) * 64 + (bs[3] - 0x80) >= 0x10000)
  }

  lemma {:induction false} Sixes(c: nat)
    ensures c == c / 4096 * 4096 + c / 64 % 64 * 64 + c % 64
    ensures c == c / 262144 * 262144 + c / 4096 % 64 * 4096 + c / 64 % 64 * 64 + c % 64
  {
    var a, b := c / 64, c / 4096;
    assert b == a / 64 && c / 262144 == b / 64;
  }

  lemma {:induction false} Utf8Is(c: Code)
    ensures IsUtf8(Utf8(c), c)
  {
    Sixes(c);
  }

  lemma {:induction false} ByteReads(b: Byte)
    ensures ReadsByte(EscapeByte(b), b)
  {
  }

  lemma {:induction false} BytesRead(bs: seq<Byte>)
    ensures ReadsBytes(EscapeBytes(bs), bs)
  {
    if bs != [] {
      var m := |bs| - 1;
      BytesRead(bs[..m]);
      ByteReads(bs[m]);
      var t := EscapeBytes(bs);
      assert t == EscapeBytes(bs[..m]) + EscapeByte(bs[m]);
      forall k | 0 <= k < |bs| ensures ReadsByte(t[4 * k..4 * k + 4], bs[k]) {
        if k < m {
          assert t[4 * k..4 * k + 4] == EscapeBytes(bs[..m])[4 * k..4 * k + 4] && bs[..m][k] == bs[k];
        } else {
          assert t[4 * m..4 * m + 4] == EscapeByte(bs[m]);
        }
      }
    }
  }

  /** What one character is written as: itself, or the escapes of its UTF-8 bytes. */
  ghost predicate Writes(t: Text, c: Code) {
    if IsControl(c) || IsInvisibleFormat(c) then exists bs: seq<int> :: ReadsBytes(t, bs) && IsUtf8(bs, c) else t == [c]
  }

  lemma {:induction false} CharWritten(c: Code)
    ensures Writes(EscapeChar(c), c)
  {
    if !Printable(c) {
      BytesRead(Utf8(c));
      Utf8Is(c);
    }
  }

  function Concat(pieces: seq<Text>): Text {
    if pieces == [] then [] else Concat(pieces[..|pieces| - 1]) + pieces[|pieces| - 1]
  }

  /** The text printed reads back: it is in pieces, one for each character, which is the character or
      the escapes of its UTF-8 bytes. */
  lemma {:induction false} EscapedReads(s: Text) returns (pieces: seq<Text>)
    ensures |pieces| == |s| && Escaped(s) == Concat(pieces) && forall i :: 0 <= i < |s| ==> Writes(pieces[i], s[i])
  {
    pieces := [];
    if s != [] {
      var m := |s| - 1;
      var init := EscapedReads(s[..m]);
      CharWritten(s[m]);
      pieces := init + [EscapeChar(s[m])];
      assert pieces[..m] == init;
    }
  }
}
