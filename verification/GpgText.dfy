/**
 Text as the gpg preset reads it: lines, fields, hexadecimal digits.
 */
module GpgText {

  // ---- lines and fields ----

  /** The first `c`, or the end. */
  function Cut(s: string, c: char): (k: nat)
    ensures k <= |s| && c !in s[..k] && (k < |s| ==> s[k] == c)
  {
    if s == "" || s[0] == c then 0 else (assert s[1..][..Cut(s[1..], c)] == s[1..Cut(s[1..], c) + 1]; Cut(s[1..], c) + 1)
  }

  /** `split`. */
  function Split(s: string, c: char): (parts: seq<string>)
    ensures parts != []
    decreases |s|
  {
    var k := Cut(s, c);
    if k == |s| then [s] else [s[..k]] + Split(s[k + 1..], c)
  }

  function Join(parts: seq<string>, c: char): string
    requires parts != []
  {
    if |parts| == 1 then parts[0] else parts[0] + [c] + Join(parts[1..], c)
  }

  lemma {:induction false} CutAt(a: string, c: char, rest: string)
    requires c !in a
    ensures Cut(a, c) == |a| && Cut(a + [c] + rest, c) == |a|
    ensures (a + [c] + rest)[..|a|] == a && (a + [c] + rest)[|a| + 1..] == rest
  {
    var s := a + [c] + rest;
    assert s[|a|] == c && s[..|a|] == a;
    forall j | 0 <= j < Cut(s, c) ensures s[j] != c {
      assert s[..Cut(s, c)][j] == s[j];
    }
    forall j | 0 <= j < |a| ensures s[j] != c {
      assert s[j] == a[j];
    }
  }

  lemma {:induction false} SplitOne(a: string, c: char, rest: string)
    requires c !in a
    ensures Split(a, c) == [a] && Split(a + [c] + rest, c) == [a] + Split(rest, c)
  {
    CutAt(a, c, rest);
  }

  /** Fields without the separator come back from their own joining. */
  lemma {:induction false} SplitJoin(parts: seq<string>, c: char)
    requires parts != [] && forall i :: 0 <= i < |parts| ==> c !in parts[i]
    ensures Split(Join(parts, c), c) == parts
  {
    if |parts| == 1 {
      SplitOne(parts[0], c, "");
    } else {
      SplitJoin(parts[1..], c);
      SplitOne(parts[0], c, Join(parts[1..], c));
      assert parts == [parts[0]] + parts[1..];
    }
  }

  function WithoutCr(s: string): string {
    if s != "" && s[|s| - 1] == '\r' then s[..|s| - 1] else s
  }

  /** `lines`: a carriage return goes with the newline after it, and a text that ends in a newline
      has no empty last line. */
  function Lines(text: string): seq<string>
    decreases |text|
  {
    var k := Cut(text, '\n');
    if text == "" then [] else if k == |text| then [text] else [WithoutCr(text[..k])] + Lines(text[k + 1..])
  }

  // ---- digits ----

  predicate IsHexDigit(c: char) {
    '0' <= c <= '9' || 'a' <= c <= 'f' || 'A' <= c <= 'F'
  }

  /** The value of a hexadecimal digit. */
  function Nibble(c: char): int {
    if '0' <= c <= '9' then c as int - '0' as int
    else if 'A' <= c <= 'F' then c as int - 'A' as int + 10
    else if 'a' <= c <= 'f' then c as int - 'a' as int + 10 else -1
  }

  /** The same digits with capital letters. */
  predicate Capitals(u: string, s: string) {
    |u| == |s| && forall i :: 0 <= i < |s| ==> Nibble(u[i]) == Nibble(s[i]) && ('0' <= u[i] <= '9' || 'A' <= u[i] <= 'F')
  }
}
