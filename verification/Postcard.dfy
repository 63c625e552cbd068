/**
 The body encoding of the control socket: the Postcard wire format for the kinds of fields its
 messages use.  A message type is a `Shape`, a message a `Val` that fits it.
 */
module Postcard {

  type Byte = b: int | 0 <= b < 256
  type Bytes = seq<Byte>

  datatype Shape =
    | Unit
    | Fixed(n: nat)                 // a byte array: its bytes, no length
    | Bool
    | Var(max: nat, last: nat)      // an unsigned integer: at most `max` bytes, a `max`th one at most `last`
    | Text                          // a string: its length, then its UTF-8 bytes
    | Opt(of: Shape)
    | List(of: Shape)
    | Pair(fst: Shape, snd: Shape)  // the fields of a struct, one after the other
    | Enum(cases: seq<Shape>)       // the index of a variant, then its fields

  datatype Val =
    | Nothing
    | Raw(bytes: Bytes)
    | Flag(on: bool)
    | Num(num: nat)
    | Str(utf8: Bytes)
    | Absent | Present(val: Val)
    | Items(vals: seq<Val>)
    | Both(left: Val, right: Val)
    | Choice(k: nat, arg: Val)

  const U32 := Var(5, 15)
  const U64 := Var(10, 1)   // also `usize`

  /** What a parser makes of the front of its input. */
  datatype Taken<T> = Bad | Took(val: T, rest: Bytes)

  // ---- UTF-8 (Unicode 15, table 3-7) ----

  predicate Tail(b: Bytes, i: nat) {
    i < |b| && 0x80 <= b[i] <= 0xBF
  }

  /** The length of the well-formed sequence at the front, or 0. */
  function CharLen(b: Bytes): (n: nat)
    ensures n <= |b|
  {
    if b == [] then 0
    else if b[0] < 0x80 then 1
    else if 0xC2 <= b[0] <= 0xDF && Tail(b, 1) then 2
    else if 0xE0 <= b[0] <= 0xEF && Tail(b, 1) && Tail(b, 2) && (b[0] == 0xE0 ==> b[1] >= 0xA0) && (b[0] == 0xED ==> b[1] <= 0x9F) then 3
    else if 0xF0 <= b[0] <= 0xF4 && Tail(b, 1) && Tail(b, 2) && Tail(b, 3) && (b[0] == 0xF0 ==> b[1] >= 0x90) && (b[0] == 0xF4 ==> b[1] <= 0x8F) then 4
    else 0
  }

  predicate Utf8(b: Bytes)
    decreases |b|
  {
    b == [] || (CharLen(b) > 0 && Utf8(b[CharLen(b)..]))
  }

  // ---- varints ----

  function EncodeVar(n: nat): Bytes {
    if n < 128 then [n] else [128 + n % 128] + EncodeVar(n / 128)
  }

  /** Little-endian groups of seven bits.  Redundant leading zero groups are accepted; a value too
      large for the integer is not. */
  function TakeVar(b: Bytes, max: nat, last: nat): Taken<nat>
    decreases max
  {
    if b == [] || max == 0 then Bad
    else if b[0] < 128 then (if max == 1 && b[0] > last then Bad else Took(b[0], b[1..]))
    else
      match TakeVar(b[1..], max - 1, last)
      case Bad => Bad
      case Took(n, rest) => Took(b[0] - 128 + 128 * n, rest)
  }

  /** One more than the largest integer. */
  function Limit(max: nat, last: nat): nat {
    if max == 0 then 0 else if max == 1 then last + 1 else 128 * Limit(max - 1, last)
  }

  lemma {:induction false} VarRoundTrip(n: nat, max: nat, last: nat, rest: Bytes)
    requires last < 128 && n < Limit(max, last)
    ensures TakeVar(EncodeVar(n) + rest, max, last) == Took(n, rest)
    decreases max
  {
    var b := EncodeVar(n) + rest;
    if n < 128 {
      assert b[1..] == rest;
      if max == 1 { assert n <= last; }
    } else {
      assert Limit(1, last) == last + 1;
      assert n / 128 < Limit(max - 1, last);
      assert b[1..] == EncodeVar(n / 128) + rest;
      VarRoundTrip(n / 128, max - 1, last, rest);
    }
  }

  /** The parser left an end of its input. */
  predicate IsEnd(rest: Bytes, b: Bytes) {
    |rest| <= |b| && rest == b[|b| - |rest|..]
  }

  lemma {:induction false} LimitAtLeast(max: nat, last: nat)
    requires max > 1
    ensures Limit(max, last) >= 128
  {
    if max > 2 { LimitAtLeast(max - 1, last); }
  }

  lemma GroupSplits(c: nat, m: nat)
    requires c < 128
    ensures (c + 128 * m) / 128 == m && (c + 128 * m) % 128 == c
  {
  }

  /** What is accepted is in range, and its own encoding is no longer. */
  lemma {:induction false} VarSound(b: Bytes, max: nat, last: nat)
    requires TakeVar(b, max, last).Took?
    ensures var r := TakeVar(b, max, last);
            IsEnd(r.rest, b) && |EncodeVar(r.val)| <= |b| - |r.rest| && r.val < Limit(max, last)
    decreases max
  {
    if b[0] < 128 {
      if max > 1 { LimitAtLeast(max, last); }
    } else {
      VarSound(b[1..], max - 1, last);
      var m := TakeVar(b[1..], max - 1, last).val;
      GroupSplits(b[0] - 128, m);
      assert max > 1;
    }
  }

  lemma {:induction false} VarExtends(b: Bytes, max: nat, last: nat, x: Bytes)
    requires TakeVar(b, max, last).Took?
    ensures TakeVar(b + x, max, last) == Took(TakeVar(b, max, last).val, TakeVar(b, max, last).rest + x)
    decreases max
  {
    assert (b + x)[1..] == b[1..] + x;
    if b[0] >= 128 { VarExtends(b[1..], max - 1, last, x); }
  }

  // ---- values ----

  predicate WellFormed(s: Shape)
    decreases s
  {
    match s
    case Var(_, last) => last < 128
    case Opt(of) => WellFormed(of)
    case List(of) => WellFormed(of)
    case Pair(fst, snd) => WellFormed(fst) && WellFormed(snd)
    case Enum(cases) => |cases| <= Limit(5, 15) && forall k :: 0 <= k < |cases| ==> WellFormed(cases[k])
    case _ => true
  }

  /** `v` is a value of the type. */
  predicate Fits(s: Shape, v: Val)
    decreases s, 0
  {
    match s
    case Unit => v == Nothing
    case Fixed(n) => v.Raw? && |v.bytes| == n
    case Bool => v.Flag?
    case Var(max, last) => v.Num? && v.num < Limit(max, last)
    case Text => v.Str? && Utf8(v.utf8) && |v.utf8| < Limit(10, 1)
    case Opt(of) => v.Absent? || (v.Present? && Fits(of, v.val))
    case List(of) => v.Items? && |v.vals| < Limit(10, 1) && FitAll(of, v.vals)
    case Pair(fst, snd) => v.Both? && Fits(fst, v.left) && Fits(snd, v.right)
    case Enum(cases) => v.Choice? && v.k < |cases| && Fits(cases[v.k], v.arg)
  }

  predicate FitAll(of: Shape, vs: seq<Val>)
    decreases of, 1
  {
    forall i :: 0 <= i < |vs| ==> Fits(of, vs[i])
  }

  function Encode(s: Shape, v: Val): Bytes
    requires Fits(s, v)
    decreases s, 0
  {
    match s
    case Unit => []
    case Fixed(_) => v.bytes
    case Bool => [if v.on then 1 else 0]
    case Var(_, _) => EncodeVar(v.num)
    case Text => EncodeVar(|v.utf8|) + v.utf8
    case Opt(of) => if v.Absent? then [0] else [1] + Encode(of, v.val)
    case List(of) => EncodeVar(|v.vals|) + EncodeAll(of, v.vals)
    case Pair(fst, snd) => Encode(fst, v.left) + Encode(snd, v.right)
    case Enum(cases) => EncodeVar(v.k) + Encode(cases[v.k], v.arg)
  }

  function EncodeAll(of: Shape, vs: seq<Val>): Bytes
    requires FitAll(of, vs)
    decreases of, |vs|
  {
    if vs == [] then [] else Encode(of, vs[0]) + EncodeAll(of, vs[1..])
  }

  function Decode(s: Shape, b: Bytes): Taken<Val>
    decreases s, 0
  {
    match s
    case Unit => Took(Nothing, b)
    case Fixed(n) => if |b| < n then Bad else Took(Raw(b[..n]), b[n..])
    case Bool => if b == [] || b[0] > 1 then Bad else Took(Flag(b[0] == 1), b[1..])
    case Var(max, last) => (match TakeVar(b, max, last) case Bad => Bad case Took(n, rest) => Took(Num(n), rest))
    case Text =>
      (match TakeVar(b, 10, 1)
       case Bad => Bad
       case Took(n, rest) => if |rest| < n || !Utf8(rest[..n]) then Bad else Took(Str(rest[..n]), rest[n..]))
    case Opt(of) =>
      if b == [] || b[0] > 1 then Bad
      else if b[0] == 0 then Took(Absent, b[1..])
      else (match Decode(of, b[1..]) case Bad => Bad case Took(v, rest) => Took(Present(v), rest))
    case List(of) =>
      (match TakeVar(b, 10, 1)
       case Bad => Bad
       case Took(n, rest) => (match DecodeAll(of, n, rest) case Bad => Bad case Took(vs, rest') => Took(Items(vs), rest')))
    case Pair(fst, snd) =>
      (match Decode(fst, b)
       case Bad => Bad
       case Took(v, rest) => (match Decode(snd, rest) case Bad => Bad case Took(w, rest') => Took(Both(v, w), rest')))
    case Enum(cases) =>
      (match TakeVar(b, 5, 15)
       case Bad => Bad
       case Took(k, rest) =>
         if k >= |cases| then Bad
         else (match Decode(cases[k], rest) case Bad => Bad case Took(v, rest') => Took(Choice(k, v), rest')))
  }

  function DecodeAll(of: Shape, n: nat, b: Bytes): Taken<seq<Val>>
    decreases of, n
  {
    if n == 0 then Took([], b)
    else
      match Decode(of, b)
      case Bad => Bad
      case Took(v, rest) => (match DecodeAll(of, n - 1, rest) case Bad => Bad case Took(vs, rest') => Took([v] + vs, rest'))
  }

  // ---- round trip ----

  lemma {:induction false} Assoc(a: Bytes, b: Bytes, c: Bytes)
    ensures (a + b) + c == a + (b + c)
  {
  }

  lemma {:induction false} TextRoundTrip(v: Val, rest: Bytes)
    requires Fits(Text, v)
    ensures Decode(Text, Encode(Text, v) + rest) == Took(v, rest)
  {
    VarRoundTrip(|v.utf8|, 10, 1, v.utf8 + rest);
    Assoc(EncodeVar(|v.utf8|), v.utf8, rest);
    assert (v.utf8 + rest)[..|v.utf8|] == v.utf8 && (v.utf8 + rest)[|v.utf8|..] == rest;
  }

  lemma {:induction false} FixedRoundTrip(n: nat, v: Val, rest: Bytes)
    requires Fits(Fixed(n), v)
    ensures Decode(Fixed(n), Encode(Fixed(n), v) + rest) == Took(v, rest)
  {
    assert (v.bytes + rest)[..n] == v.bytes && (v.bytes + rest)[n..] == rest;
  }

  lemma {:induction false} Tagged(tag: Byte, e: Bytes, rest: Bytes)
    ensures var b := [tag] + e + rest;
            b != [] && b[0] == tag && b[1..] == e + rest
  {
  }

  lemma {:induction false} OptRoundTrip(of: Shape, v: Val, rest: Bytes)
    requires Fits(Opt(of), v) && (v.Present? ==> Decode(of, Encode(of, v.val) + rest) == Took(v.val, rest))
    ensures Decode(Opt(of), Encode(Opt(of), v) + rest) == Took(v, rest)
  {
    if v.Present? {
      var e := Encode(of, v.val);
      Tagged(1, e, rest);
      assert Encode(Opt(of), v) == [1] + e;
    } else {
      Tagged(0, [], rest);
      assert Encode(Opt(of), v) == [0] + [];
    }
  }

  lemma {:induction false} ListRoundTrip(of: Shape, v: Val, rest: Bytes)
    requires Fits(List(of), v) && DecodeAll(of, |v.vals|, EncodeAll(of, v.vals) + rest) == Took(v.vals, rest)
    ensures Decode(List(of), Encode(List(of), v) + rest) == Took(v, rest)
  {
    VarRoundTrip(|v.vals|, 10, 1, EncodeAll(of, v.vals) + rest);
    Assoc(EncodeVar(|v.vals|), EncodeAll(of, v.vals), rest);
  }

  lemma {:induction false} PairRoundTrip(fst: Shape, snd: Shape, v: Val, rest: Bytes)
    requires Fits(Pair(fst, snd), v)
    requires Decode(fst, Encode(fst, v.left) + (Encode(snd, v.right) + rest)) == Took(v.left, Encode(snd, v.right) + rest)
    requires Decode(snd, Encode(snd, v.right) + rest) == Took(v.right, rest)
    ensures Decode(Pair(fst, snd), Encode(Pair(fst, snd), v) + rest) == Took(v, rest)
  {
    Assoc(Encode(fst, v.left), Encode(snd, v.right), rest);
  }

  lemma {:induction false} EnumRoundTrip(cases: seq<Shape>, v: Val, rest: Bytes)
    requires Fits(Enum(cases), v) && |cases| <= Limit(5, 15)
    requires Decode(cases[v.k], Encode(cases[v.k], v.arg) + rest) == Took(v.arg, rest)
    ensures Decode(Enum(cases), Encode(Enum(cases), v) + rest) == Took(v, rest)
  {
    VarRoundTrip(v.k, 5, 15, Encode(cases[v.k], v.arg) + rest);
    Assoc(EncodeVar(v.k), Encode(cases[v.k], v.arg), rest);
  }

  lemma {:induction false} EncodeCons(of: Shape, v: Val, vs: seq<Val>)
    requires Fits(of, v) && FitAll(of, vs)
    ensures FitAll(of, [v] + vs) && EncodeAll(of, [v] + vs) == Encode(of, v) + EncodeAll(of, vs)
  {
    assert ([v] + vs)[1..] == vs;
  }

  lemma {:induction false} ConsRoundTrip(of: Shape, vs: seq<Val>, v: Val, ws: seq<Val>, rest: Bytes)
    requires vs == [v] + ws && Fits(of, v) && FitAll(of, ws)
    requires Decode(of, Encode(of, v) + (EncodeAll(of, ws) + rest)) == Took(v, EncodeAll(of, ws) + rest)
    requires DecodeAll(of, |ws|, EncodeAll(of, ws) + rest) == Took(ws, rest)
    ensures FitAll(of, vs) && DecodeAll(of, |vs|, EncodeAll(of, vs) + rest) == Took(vs, rest)
  {
    EncodeCons(of, v, ws);
    Assoc(Encode(of, v), EncodeAll(of, ws), rest);
  }

  lemma {:induction false} FitParts(of: Shape, vs: seq<Val>)
    requires vs != [] && FitAll(of, vs)
    ensures Fits(of, vs[0]) && FitAll(of, vs[1..]) && vs == [vs[0]] + vs[1..]
  {
  }

  /** Decoding the encoding gives the value back and leaves exactly what followed. */
  lemma {:induction false} RoundTrip(s: Shape, v: Val, rest: Bytes)
    requires WellFormed(s) && Fits(s, v)
    ensures Decode(s, Encode(s, v) + rest) == Took(v, rest)
    decreases s, 0
  {
    match s
    case Unit => assert [] + rest == rest;
    case Fixed(n) => FixedRoundTrip(n, v, rest);
    case Bool => assert ([if v.on then 1 else 0] + rest)[1..] == rest;
    case Var(max, last) => VarRoundTrip(v.num, max, last, rest);
    case Text => TextRoundTrip(v, rest);
    case Opt(of) =>
      if v.Present? { RoundTrip(of, v.val, rest); }
      OptRoundTrip(of, v, rest);
    case List(of) =>
      RoundTripAll(of, v.vals, rest);
      ListRoundTrip(of, v, rest);
    case Pair(fst, snd) =>
      RoundTrip(fst, v.left, Encode(snd, v.right) + rest);
      RoundTrip(snd, v.right, rest);
      PairRoundTrip(fst, snd, v, rest);
    case Enum(cases) =>
      RoundTrip(cases[v.k], v.arg, rest);
      EnumRoundTrip(cases, v, rest);
  }

  lemma {:induction false} RoundTripAll(of: Shape, vs: seq<Val>, rest: Bytes)
    requires WellFormed(of) && FitAll(of, vs)
    ensures DecodeAll(of, |vs|, EncodeAll(of, vs) + rest) == Took(vs, rest)
    decreases of, |vs|
  {
    if vs == [] {
      assert [] + rest == rest;
    } else {
      var v, ws := vs[0], vs[1..];
      FitParts(of, vs);
      RoundTrip(of, v, EncodeAll(of, ws) + rest);
      RoundTripAll(of, ws, rest);
      ConsRoundTrip(of, vs, v, ws, rest);
    }
  }

  // ---- soundness ----

  lemma {:induction false} EndOfEnd(c: Bytes, b: Bytes, a: Bytes)
    requires IsEnd(c, b) && IsEnd(b, a)
    ensures IsEnd(c, a)
  {
  }

  /** What is accepted is a value of the type whose own encoding is no longer than what was read. */
  predicate Good(s: Shape, b: Bytes) {
    Decode(s, b).Took? ==>
      IsEnd(Decode(s, b).rest, b) && Fits(s, Decode(s, b).val) && |Encode(s, Decode(s, b).val)| <= |b| - |Decode(s, b).rest|
  }

  predicate GoodAll(of: Shape, n: nat, b: Bytes) {
    DecodeAll(of, n, b).Took? ==>
      var r := DecodeAll(of, n, b);
      IsEnd(r.rest, b) && |r.val| == n && FitAll(of, r.val) && |EncodeAll(of, r.val)| <= |b| - |r.rest|
  }

  lemma {:induction false} TextSound(b: Bytes)
    ensures Good(Text, b)
  {
    if Decode(Text, b).Took? {
      VarSound(b, 10, 1);
      EndOfEnd(Decode(Text, b).rest, TakeVar(b, 10, 1).rest, b);
    }
  }

  lemma {:induction false} PresentSound(of: Shape, b: Bytes, v: Val, rest: Bytes)
    requires b != [] && b[0] == 1 && Decode(of, b[1..]) == Took(v, rest)
    requires IsEnd(rest, b[1..]) && Fits(of, v) && |Encode(of, v)| <= |b[1..]| - |rest|
    ensures Good(Opt(of), b)
  {
    EndOfEnd(rest, b[1..], b);
    assert Decode(Opt(of), b) == Took(Present(v), rest);
    assert Encode(Opt(of), Present(v)) == [1] + Encode(of, v);
  }

  lemma {:induction false} AbsentSound(of: Shape, b: Bytes)
    requires b != [] && b[0] == 0
    ensures Good(Opt(of), b)
  {
    assert Decode(Opt(of), b) == Took(Absent, b[1..]);
    assert Encode(Opt(of), Absent) == [0];
  }

  lemma {:induction false} NotOpt(of: Shape, b: Bytes)
    requires b == [] || b[0] > 1 || (b[0] == 1 && Decode(of, b[1..]).Bad?)
    ensures Decode(Opt(of), b).Bad?
  {
  }

  lemma {:induction false} OptSound(of: Shape, b: Bytes)
    requires b != [] ==> Good(of, b[1..])
    ensures Good(Opt(of), b)
  {
    if b == [] || b[0] > 1 {
      NotOpt(of, b);
    } else if b[0] == 0 {
      AbsentSound(of, b);
    } else {
      match Decode(of, b[1..])
      case Bad => NotOpt(of, b);
      case Took(v, rest) => PresentSound(of, b, v, rest);
    }
  }

  lemma {:induction false} ListSound(of: Shape, b: Bytes)
    requires TakeVar(b, 10, 1).Took? ==> GoodAll(of, TakeVar(b, 10, 1).val, TakeVar(b, 10, 1).rest)
    ensures Good(List(of), b)
  {
    if Decode(List(of), b).Took? {
      VarSound(b, 10, 1);
      EndOfEnd(Decode(List(of), b).rest, TakeVar(b, 10, 1).rest, b);
    }
  }

  lemma {:induction false} PairSound(fst: Shape, snd: Shape, b: Bytes)
    requires Good(fst, b) && (Decode(fst, b).Took? ==> Good(snd, Decode(fst, b).rest))
    ensures Good(Pair(fst, snd), b)
  {
    if Decode(Pair(fst, snd), b).Took? {
      EndOfEnd(Decode(Pair(fst, snd), b).rest, Decode(fst, b).rest, b);
    }
  }

  lemma {:induction false} EnumSound(cases: seq<Shape>, b: Bytes)
    requires TakeVar(b, 5, 15).Took? && TakeVar(b, 5, 15).val < |cases| ==> Good(cases[TakeVar(b, 5, 15).val], TakeVar(b, 5, 15).rest)
    ensures Good(Enum(cases), b)
  {
    if Decode(Enum(cases), b).Took? {
      VarSound(b, 5, 15);
      EndOfEnd(Decode(Enum(cases), b).rest, TakeVar(b, 5, 15).rest, b);
    }
  }

  lemma {:induction false} ConsSound(of: Shape, n: nat, b: Bytes)
    requires n > 0 && Good(of, b) && (Decode(of, b).Took? ==> GoodAll(of, n - 1, Decode(of, b).rest))
    ensures GoodAll(of, n, b)
  {
    if DecodeAll(of, n, b).Took? {
      var rest := Decode(of, b).rest;
      EncodeCons(of, Decode(of, b).val, DecodeAll(of, n - 1, rest).val);
      EndOfEnd(DecodeAll(of, n, b).rest, rest, b);
    }
  }

  lemma {:induction false} LeafSound(s: Shape, b: Bytes)
    requires s.Unit? || s.Fixed? || s.Bool? || s.Var?
    ensures Good(s, b)
  {
    if s.Var? && TakeVar(b, s.max, s.last).Took? { VarSound(b, s.max, s.last); }
  }

  lemma {:induction false} Sound(s: Shape, b: Bytes)
    ensures Good(s, b)
    decreases s, 0
  {
    match s
    case Text => TextSound(b);
    case Opt(of) =>
      if b != [] { Sound(of, b[1..]); }
      OptSound(of, b);
    case List(of) =>
      if TakeVar(b, 10, 1).Took? { SoundAll(of, TakeVar(b, 10, 1).val, TakeVar(b, 10, 1).rest); }
      ListSound(of, b);
    case Pair(fst, snd) =>
      Sound(fst, b);
      if Decode(fst, b).Took? { Sound(snd, Decode(fst, b).rest); }
      PairSound(fst, snd, b);
    case Enum(cases) =>
      if TakeVar(b, 5, 15).Took? && TakeVar(b, 5, 15).val < |cases| {
        Sound(cases[TakeVar(b, 5, 15).val], TakeVar(b, 5, 15).rest);
      }
      EnumSound(cases, b);
    case _ => LeafSound(s, b);
  }

  lemma {:induction false} SoundAll(of: Shape, n: nat, b: Bytes)
    ensures GoodAll(of, n, b)
    decreases of, n
  {
    if n > 0 {
      Sound(of, b);
      if Decode(of, b).Took? { SoundAll(of, n - 1, Decode(of, b).rest); }
      ConsSound(of, n, b);
    }
  }

  // ---- locality ----

  lemma {:induction false} Split(b: Bytes, n: nat, x: Bytes)
    requires n <= |b|
    ensures (b + x)[..n] == b[..n] && (b + x)[n..] == b[n..] + x
  {
  }

  lemma {:induction false} TextExtends(b: Bytes, x: Bytes)
    requires Decode(Text, b).Took?
    ensures Decode(Text, b + x) == Took(Decode(Text, b).val, Decode(Text, b).rest + x)
  {
    VarExtends(b, 10, 1, x);
    Split(TakeVar(b, 10, 1).rest, TakeVar(b, 10, 1).val, x);
  }

  lemma {:induction false} OptExtends(of: Shape, b: Bytes, x: Bytes)
    requires Decode(Opt(of), b).Took?
    requires b[0] == 1 ==> Decode(of, b[1..] + x) == Took(Decode(of, b[1..]).val, Decode(of, b[1..]).rest + x)
    ensures Decode(Opt(of), b + x) == Took(Decode(Opt(of), b).val, Decode(Opt(of), b).rest + x)
  {
    Split(b, 1, x);
  }

  /** Bytes after a complete message change nothing and are all left over. */
  lemma {:induction false} Extends(s: Shape, b: Bytes, x: Bytes)
    requires Decode(s, b).Took?
    ensures Decode(s, b + x) == Took(Decode(s, b).val, Decode(s, b).rest + x)
    decreases s, 0
  {
    match s
    case Unit =>
    case Fixed(n) => Split(b, n, x);
    case Bool => Split(b, 1, x);
    case Var(max, last) => VarExtends(b, max, last, x);
    case Text => TextExtends(b, x);
    case Opt(of) =>
      if b[0] == 1 { Extends(of, b[1..], x); }
      OptExtends(of, b, x);
    case List(of) =>
      VarExtends(b, 10, 1, x);
      ExtendsAll(of, TakeVar(b, 10, 1).val, TakeVar(b, 10, 1).rest, x);
    case Pair(fst, snd) =>
      Extends(fst, b, x);
      Extends(snd, Decode(fst, b).rest, x);
    case Enum(cases) =>
      VarExtends(b, 5, 15, x);
      Extends(cases[TakeVar(b, 5, 15).val], TakeVar(b, 5, 15).rest, x);
  }

  lemma {:induction false} ExtendsAll(of: Shape, n: nat, b: Bytes, x: Bytes)
    requires DecodeAll(of, n, b).Took?
    ensures DecodeAll(of, n, b + x) == Took(DecodeAll(of, n, b).val, DecodeAll(of, n, b).rest + x)
    decreases of, n
  {
    if n > 0 {
      Extends(of, b, x);
      ExtendsAll(of, n - 1, Decode(of, b).rest, x);
    }
  }
}
