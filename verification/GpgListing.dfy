/**
 Reading secret keys from a colons listing.
 */
module GpgListing {
  import opened Options
  import opened GpgText

  // ---- the colons listing ----

  const F_VALIDITY := 1
  const F_VALUE := 9
  const F_CAPABILITY := 11

  /** One line of the listing, split at its colons; `split` gives at least one field. */
  type Line = l: seq<string> | l != [] witness [""]

  /** The listing as `parse_colons` takes it apart. */
  function Fields(text: string): (lines: seq<Line>)
    ensures |lines| == |Lines(text)|
  {
    seq(|Lines(text)|, i requires 0 <= i < |Lines(text)| => Split(Lines(text)[i], ':'))
  }

  /** A listing as gpg writes it, with either line ending. */
  function Print(lines: seq<Line>, end: string): string {
    if lines == [] then "" else Join(lines[0], ':') + end + Print(lines[1..], end)
  }

  /** A line gpg can write: no separator in a field, and no carriage return at the end. */
  predicate Printable(l: Line) {
    (forall i :: 0 <= i < |l| ==> ':' !in l[i]) && '\n' !in Join(l, ':') && '\r' !in Join(l, ':')
  }

  lemma {:induction false} LinesCons(line: string, end: string, rest: string)
    requires '\n' !in line && '\r' !in line && (end == "\n" || end == "\r\n")
    ensures Lines(line + end + rest) == [line] + Lines(rest)
  {
    var a := if end == "\n" then line else line + "\r";
    assert line + end + rest == a + ['\n'] + rest;
    CutAt(a, '\n', rest);
    if end == "\r\n" { assert a[..|a| - 1] == line; }
  }

  /** Every listing that can be written is read back line by line and field by field. */
  lemma {:induction false} ListingRead(lines: seq<Line>, end: string)
    requires (end == "\n" || end == "\r\n") && forall i :: 0 <= i < |lines| ==> Printable(lines[i])
    ensures Fields(Print(lines, end)) == lines
  {
    if lines != [] {
      var rest := Print(lines[1..], end);
      ListingRead(lines[1..], end);
      assert Printable(lines[0]);
      LinesCons(Join(lines[0], ':'), end, rest);
      SplitJoin(lines[0], ':');
      FieldsCons(Print(lines, end), lines[0], rest);
      assert lines == [lines[0]] + lines[1..];
    }
  }

  lemma {:induction false} FieldsCons(text: string, l: Line, rest: string)
    requires Lines(text) == [Join(l, ':')] + Lines(rest) && Split(Join(l, ':'), ':') == l
    ensures Fields(text) == [l] + Fields(rest)
  {
    forall i | 0 <= i < |Lines(rest)| ensures Fields(text)[i + 1] == Fields(rest)[i] {
      assert Lines(text)[i + 1] == Lines(rest)[i];
    }
  }

  datatype SecretKey = SecretKey(fpr: string, grip: string)

  predicate IsHex40(s: string) {
    |s| == 40 && forall i :: 0 <= i < |s| ==> IsHexDigit(s[i])
  }

  function UpperHex(s: string): string {
    seq(|s|, i requires 0 <= i < |s| => if 'a' <= s[i] <= 'f' then (s[i] as int - 32) as char else s[i])
  }

  predicate IsHeader(l: Line) {
    l[0] == "sec" || l[0] == "ssb"
  }

  /** Not expired or revoked, and able to sign. */
  predicate Signs(l: Line) {
    !(|l| > F_VALIDITY && (l[F_VALIDITY] == "e" || l[F_VALIDITY] == "r")) && |l| > F_CAPABILITY && 's' in l[F_CAPABILITY]
  }

  predicate IsFpr(l: Line) {
    l[0] == "fpr" && |l| > F_VALUE && IsHex40(l[F_VALUE])
  }

  predicate IsGrp(l: Line) {
    l[0] == "grp"
  }

  predicate GripOk(l: Line) {
    |l| > F_VALUE && IsHex40(l[F_VALUE])
  }

  // ---- record by record ----

  /** The header lines, each with what follows it up to the next; what comes before the first is no record. */
  function Records(lines: seq<Line>): seq<seq<Line>> {
    if lines == [] then []
    else
      var l := lines[|lines| - 1];
      var rs := Records(lines[..|lines| - 1]);
      if IsHeader(l) then rs + [[l]]
      else if rs == [] then [] else rs[..|rs| - 1] + [rs[|rs| - 1] + [l]]
  }

  function FirstGrp(rec: seq<Line>): (k: nat)
    ensures k <= |rec| && (k < |rec| ==> IsGrp(rec[k])) && forall j :: 0 <= j < k ==> !IsGrp(rec[j])
  {
    if rec == [] then 0 else if IsGrp(rec[0]) then 0 else FirstGrp(rec[1..]) + 1
  }

  function FirstFpr(rec: seq<Line>): (k: nat)
    ensures k <= |rec| && (k < |rec| ==> IsFpr(rec[k])) && forall j :: 0 <= j < k ==> !IsFpr(rec[j])
  {
    if rec == [] then 0 else if IsFpr(rec[0]) then 0 else FirstFpr(rec[1..]) + 1
  }

  /** The first valid fingerprint before the record's first keygrip, and that keygrip, if both are
      there, the grip is valid and the key signs. */
  function KeyOf(rec: seq<Line>): Option<SecretKey> {
    var g := FirstGrp(rec);
    var f := FirstFpr(rec[..g]);
    if rec != [] && Signs(rec[0]) && g < |rec| && GripOk(rec[g]) && f < g
    then Some(SecretKey(UpperHex(rec[f][F_VALUE]), UpperHex(rec[g][F_VALUE]))) else None
  }

  function Keys(rs: seq<seq<Line>>): seq<SecretKey> {
    if rs == [] then []
    else
      var key := KeyOf(rs[|rs| - 1]);
      Keys(rs[..|rs| - 1]) + if key.Some? then [key.value] else []
  }

  // ---- line by line ----

  /** What the loop carries about the record it is in. */
  ghost predicate Follows(rec: seq<Line>, sign: bool, fpr: Option<string>) {
    && (sign <==> rec != [] && Signs(rec[0]) && FirstGrp(rec) == |rec|)
    && (sign ==> fpr == (if FirstFpr(rec) < |rec| then Some(UpperHex(rec[FirstFpr(rec)][F_VALUE])) else None))
  }

  lemma {:induction false} FirstGrows(rec: seq<Line>, l: Line)
    ensures FirstGrp(rec + [l]) == if FirstGrp(rec) < |rec| || IsGrp(l) then FirstGrp(rec) else |rec| + 1
    ensures FirstFpr(rec + [l]) == if FirstFpr(rec) < |rec| || IsFpr(l) then FirstFpr(rec) else |rec| + 1
  {
    var more := rec + [l];
    assert more[|rec|] == l && forall j :: 0 <= j < |rec| ==> more[j] == rec[j];
  }

  lemma {:induction false} HeaderStarts(l: Line)
    requires IsHeader(l)
    ensures KeyOf([l]).None? && Follows([l], Signs(l), None)
  {
    assert FirstGrp([l]) == 1 && FirstFpr([l]) == 1;
  }

  /** A record in which a keygrip was seen never changes again. */
  lemma {:induction false} RecordGrows(rec: seq<Line>, l: Line)
    requires rec != [] && !IsHeader(l)
    ensures FirstGrp(rec) < |rec| ==> KeyOf(rec + [l]) == KeyOf(rec)
    ensures FirstGrp(rec) == |rec| ==> KeyOf(rec).None? && (!IsGrp(l) ==> KeyOf(rec + [l]).None?)
  {
    FirstGrows(rec, l);
    var g := FirstGrp(rec);
    if g < |rec| {
      assert (rec + [l])[..g] == rec[..g] && (rec + [l])[g] == rec[g];
    }
  }

  lemma {:induction false} GrpCloses(rec: seq<Line>, l: Line, sign: bool, fpr: Option<string>)
    requires rec != [] && IsGrp(l) && FirstGrp(rec) == |rec| && Follows(rec, sign, fpr)
    ensures KeyOf(rec + [l]) ==
              if sign && GripOk(l) && fpr.Some? then Some(SecretKey(fpr.value, UpperHex(l[F_VALUE]))) else None
  {
    FirstGrows(rec, l);
    assert (rec + [l])[..|rec|] == rec;
  }

  lemma {:induction false} KeysLast(rs: seq<seq<Line>>, rec: seq<Line>)
    ensures Keys(rs + [rec]) == Keys(rs) + if KeyOf(rec).Some? then [KeyOf(rec).value] else []
  {
    assert (rs + [rec])[..|rs|] == rs;
  }

  function LastRecord(lines: seq<Line>): seq<Line> {
    var rs := Records(lines);
    if rs == [] then [] else rs[|rs| - 1]
  }

  lemma {:induction false} RecordsNonEmpty(lines: seq<Line>)
    ensures forall i :: 0 <= i < |Records(lines)| ==> Records(lines)[i] != []
  {
    if lines != [] { RecordsNonEmpty(lines[..|lines| - 1]); }
  }

  /** Everything before the last record, and the last record. */
  function Closed(lines: seq<Line>): seq<seq<Line>> {
    var rs := Records(lines);
    if rs == [] then [] else rs[..|rs| - 1]
  }

  lemma {:induction false} KeysSplit(lines: seq<Line>)
    ensures Keys(Records(lines)) == Keys(Closed(lines)) + if KeyOf(LastRecord(lines)).Some? then [KeyOf(LastRecord(lines)).value] else []
  {
    var rs := Records(lines);
    if rs != [] {
      KeysLast(rs[..|rs| - 1], rs[|rs| - 1]);
      assert rs == rs[..|rs| - 1] + [rs[|rs| - 1]];
    }
  }

  lemma {:induction false} RecordsStep(lines: seq<Line>, l: Line)
    ensures IsHeader(l) ==> Closed(lines + [l]) == Records(lines) && LastRecord(lines + [l]) == [l]
    ensures !IsHeader(l) && Records(lines) != [] ==>
              Closed(lines + [l]) == Closed(lines) && LastRecord(lines + [l]) == LastRecord(lines) + [l]
    ensures !IsHeader(l) && Records(lines) == [] ==> Records(lines + [l]) == []
  {
    assert (lines + [l])[..|lines|] == lines;
  }

  /** The loop's state for the lines read so far. */
  ghost predicate Read(lines: seq<Line>, out: seq<SecretKey>, sign: bool, fpr: Option<string>) {
    out == Keys(Records(lines)) && Follows(LastRecord(lines), sign, fpr)
  }

  lemma {:induction false} ReadHeader(lines: seq<Line>, l: Line, out: seq<SecretKey>)
    requires out == Keys(Records(lines)) && IsHeader(l)
    ensures Read(lines + [l], out, Signs(l), None)
  {
    RecordsStep(lines, l);
    KeysSplit(lines + [l]);
    HeaderStarts(l);
  }

  /** A line that is neither header nor keygrip. */
  lemma {:induction false} ReadOther(lines: seq<Line>, l: Line, out: seq<SecretKey>, sign: bool, fpr: Option<string>)
    requires Read(lines, out, sign, fpr) && !IsHeader(l) && !IsGrp(l)
    ensures Read(lines + [l], out, sign, if fpr.None? && IsFpr(l) then Some(UpperHex(l[F_VALUE])) else fpr)
  {
    RecordsStep(lines, l);
    RecordsNonEmpty(lines);
    KeysSplit(lines);
    KeysSplit(lines + [l]);
    if Records(lines) != [] {
      RecordGrows(LastRecord(lines), l);
      FirstGrows(LastRecord(lines), l);
    }
  }

  function Pushed(out: seq<SecretKey>, key: Option<SecretKey>): seq<SecretKey> {
    if key.Some? then out + [key.value] else out
  }

  /** The keygrip of an open record. */
  lemma {:induction false} ReadFirstGrp(lines: seq<Line>, l: Line, out: seq<SecretKey>, sign: bool, fpr: Option<string>)
    requires Read(lines, out, sign, fpr) && IsGrp(l) && Records(lines) != [] && FirstGrp(LastRecord(lines)) == |LastRecord(lines)|
    ensures Keys(Records(lines + [l])) ==
              Pushed(out, if sign && GripOk(l) && fpr.Some? then Some(SecretKey(fpr.value, UpperHex(l[F_VALUE]))) else None)
  {
    var rec := LastRecord(lines);
    RecordsNonEmpty(lines);
    RecordsStep(lines, l);
    KeysSplit(lines);
    KeysSplit(lines + [l]);
    RecordGrows(rec, l);
    GrpCloses(rec, l, sign, fpr);
    assert out == Keys(Closed(lines)) + [] == Keys(Closed(lines));
  }

  /** Any other keygrip changes nothing. */
  lemma {:induction false} ReadLaterGrp(lines: seq<Line>, l: Line)
    requires IsGrp(l) && (Records(lines) == [] || FirstGrp(LastRecord(lines)) < |LastRecord(lines)|)
    ensures Keys(Records(lines + [l])) == Keys(Records(lines))
  {
    RecordsNonEmpty(lines);
    RecordsStep(lines, l);
    if Records(lines) != [] {
      KeysSplit(lines);
      KeysSplit(lines + [l]);
      RecordGrows(LastRecord(lines), l);
    }
  }

  lemma {:induction false} GrpEndsRecord(lines: seq<Line>, l: Line)
    requires IsGrp(l)
    ensures Follows(LastRecord(lines + [l]), false, None)
  {
    RecordsStep(lines, l);
    if Records(lines) != [] { FirstGrows(LastRecord(lines), l); }
  }

  lemma {:induction false} ReadGrp(lines: seq<Line>, l: Line, out: seq<SecretKey>, sign: bool, fpr: Option<string>)
    requires Read(lines, out, sign, fpr) && IsGrp(l)
    ensures Read(lines + [l],
                 Pushed(out, if sign && GripOk(l) && fpr.Some? then Some(SecretKey(fpr.value, UpperHex(l[F_VALUE]))) else None), false, None)
  {
    GrpEndsRecord(lines, l);
    if Records(lines) != [] && FirstGrp(LastRecord(lines)) == |LastRecord(lines)| {
      ReadFirstGrp(lines, l, out, sign, fpr);
    } else {
      ReadLaterGrp(lines, l);
    }
  }

  /** `parse_colons`: one pass with a flag and a pending fingerprint reads what the records hold. */
  method ParseColons(text: string) returns (out: seq<SecretKey>)
    ensures out == Keys(Records(Fields(text)))
  {
    var lines := Fields(text);
    out := [];
    var sign, fpr := false, None;
    for i := 0 to |lines|
      invariant Read(lines[..i], out, sign, fpr)
    {
      var l := lines[i];
      assert lines[..i + 1] == lines[..i] + [l];
      if l[0] == "sec" || l[0] == "ssb" {
        ReadHeader(lines[..i], l, out);
        var valid := !(|l| > F_VALIDITY && (l[F_VALIDITY] == "e" || l[F_VALIDITY] == "r"));
        sign := valid && |l| > F_CAPABILITY && 's' in l[F_CAPABILITY];
        fpr := None;
      } else if l[0] == "grp" {
        ReadGrp(lines[..i], l, out, sign, fpr);
        if sign && |l| > F_VALUE && IsHex40(l[F_VALUE]) && fpr.Some? {
          out := out + [SecretKey(fpr.value, UpperHex(l[F_VALUE]))];
        }
        sign, fpr := false, None;
      } else {
        ReadOther(lines[..i], l, out, sign, fpr);
        if l[0] == "fpr" && fpr.None? && |l| > F_VALUE && IsHex40(l[F_VALUE]) {
          fpr := Some(UpperHex(l[F_VALUE]));
        }
      }
    }
    assert lines[..|lines|] == lines;
  }

  // ---- one record ----

  /** Forty digits, in either case. */
  predicate FortyDigits(s: string) {
    |s| == 40 && forall i :: 0 <= i < 40 ==> 0 <= Nibble(s[i])
  }

  /** A signing key as gpg lists it: the validity in field 1 is not `e` or `r`, field 11 holds an `s`. */
  predicate ListsSigner(l: Line) {
    (l[0] == "sec" || l[0] == "ssb") && |l| > 11 && l[1] != "e" && l[1] != "r" && 's' in l[11]
  }

  predicate Lists(l: Line, tag: string) {
    l[0] == tag && |l| > 9 && FortyDigits(l[9])
  }

  /** No line of these kinds. */
  predicate NoneOf(ls: seq<Line>, tags: set<string>) {
    forall i :: 0 <= i < |ls| ==> ls[i][0] !in tags
  }

  lemma {:induction false} DigitsHex(s: string)
    ensures FortyDigits(s) <==> IsHex40(s)
    ensures FortyDigits(s) ==> Capitals(UpperHex(s), s)
  {
  }

  lemma {:induction false} OneRecord(sec: Line, rest: seq<Line>)
    requires IsHeader(sec) && NoneOf(rest, {"sec", "ssb"})
    ensures Records([sec] + rest) == [[sec] + rest]
  {
    var lines := [sec] + rest;
    if rest == [] {
      assert lines[..0] == [] && lines[0] == sec && lines == [sec];
      assert [] + [[sec]] == [[sec]];
    } else {
      var m := |rest| - 1;
      OneRecord(sec, rest[..m]);
      assert lines[..|lines| - 1] == [sec] + rest[..m] && lines[|lines| - 1] == rest[m];
      var one := [[sec] + rest[..m]];
      assert one[..0] == [] && [sec] + rest[..m] + [rest[m]] == [sec] + rest;
    }
  }

  /** A record with its lines between anything else gpg may print: one key, the fingerprint and the
      keygrip from field 9, with capital letters. */
  lemma {:induction false} RecordRead(sec: Line, a: seq<Line>, fpr: Line, b: seq<Line>, grp: Line, c: seq<Line>)
    requires ListsSigner(sec) && Lists(fpr, "fpr") && Lists(grp, "grp")
    requires NoneOf(a, {"sec", "ssb", "fpr", "grp"}) && NoneOf(b, {"sec", "ssb", "grp"}) && NoneOf(c, {"sec", "ssb"})
    ensures var keys := Keys(Records([sec] + (a + [fpr] + b + [grp] + c)));
            |keys| == 1 && Capitals(keys[0].fpr, fpr[9]) && Capitals(keys[0].grip, grp[9])
  {
    var rest := a + [fpr] + b + [grp] + c;
    var rec := [sec] + rest;
    OneRecord(sec, rest);
    DigitsHex(fpr[9]);
    DigitsHex(grp[9]);
    RecordKey(rec, 1 + |a|, 2 + |a| + |b|);
    KeysLast([], rec);
    assert [] + [rec] == [rec];
  }

  lemma {:induction false} RecordKey(rec: seq<Line>, f: nat, g: nat)
    requires 0 < f < g < |rec| && Signs(rec[0]) && IsFpr(rec[f]) && IsGrp(rec[g]) && GripOk(rec[g])
    requires (forall j :: 0 <= j < f ==> !IsFpr(rec[j])) && forall j :: 0 <= j < g ==> !IsGrp(rec[j])
    ensures KeyOf(rec) == Some(SecretKey(UpperHex(rec[f][9]), UpperHex(rec[g][9])))
  {
    assert FirstGrp(rec) == g;
    assert forall j :: 0 <= j < g ==> rec[..g][j] == rec[j];
    assert FirstFpr(rec[..g]) == f;
  }

  /** And none from a record that cannot sign, has expired or was revoked, or whose first keygrip is
      not forty digits. */
  lemma {:induction false} RecordSkipped(sec: Line, rest: seq<Line>, g: nat)
    requires (sec[0] == "sec" || sec[0] == "ssb") && NoneOf(rest, {"sec", "ssb"})
    requires !ListsSigner(sec) || NoneOf(rest, {"grp"}) || NoneOf(rest, {"fpr"}) ||
             (g < |rest| && rest[g][0] == "grp" && NoneOf(rest[..g], {"grp"}) && !(|rest[g]| > 9 && FortyDigits(rest[g][9])))
    ensures Keys(Records([sec] + rest)) == []
  {
    var rec := [sec] + rest;
    OneRecord(sec, rest);
    KeysLast([], rec);
    assert [] + [rec] == [rec];
    var k := FirstGrp(rec);
    if k < |rec| {
      DigitsHex(if |rec[k]| > 9 then rec[k][9] else "");
      assert rec[k] == rest[k - 1];
    }
    if g < |rest| && rest[g][0] == "grp" && NoneOf(rest[..g], {"grp"}) {
      assert rec[g + 1] == rest[g];
      assert forall j :: 0 < j < g + 1 ==> rec[j] == rest[..g][j - 1];
    }
  }

  /** A listing is read record by record: what starts with a header adds its own keys. */
  lemma {:induction false} ListingParts(a: seq<Line>, b: seq<Line>)
    requires b != [] && (b[0][0] == "sec" || b[0][0] == "ssb")
    ensures Records(b) != [] && Records(a + b) == Records(a) + Records(b)
    ensures Keys(Records(a + b)) == Keys(Records(a)) + Keys(Records(b))
  {
    RecordsAppend(a, b);
    KeysAppend(Records(a), Records(b));
  }

  /** The records after one more line. */
  function Grown(rs: seq<seq<Line>>, l: Line): seq<seq<Line>> {
    if IsHeader(l) then rs + [[l]]
    else if rs == [] then [] else rs[..|rs| - 1] + [rs[|rs| - 1] + [l]]
  }

  lemma {:induction false} RecordsGrow(lines: seq<Line>, l: Line)
    ensures Records(lines + [l]) == Grown(Records(lines), l)
  {
    assert (lines + [l])[..|lines|] == lines;
  }

  lemma {:induction false} GrownBehind(x: seq<seq<Line>>, y: seq<seq<Line>>, l: Line)
    requires y != [] || IsHeader(l)
    ensures Grown(x + y, l) == x + Grown(y, l) && Grown(y, l) != []
  {
    if IsHeader(l) {
      assert (x + y) + [[l]] == x + (y + [[l]]);
    } else {
      var m := |y| - 1;
      assert (x + y)[..|x| + m] == x + y[..m] && (x + y)[|x| + m] == y[m];
      assert (x + y[..m]) + [y[m] + [l]] == x + (y[..m] + [y[m] + [l]]);
    }
  }

  lemma {:induction false} RecordsAppend(a: seq<Line>, b: seq<Line>)
    requires b != [] && IsHeader(b[0])
    ensures Records(b) != [] && Records(a + b) == Records(a) + Records(b)
  {
    var m := |b| - 1;
    var init, l := b[..m], b[m];
    assert b == init + [l] && a + b == (a + init) + [l];
    RecordsGrow(init, l);
    RecordsGrow(a + init, l);
    if m == 0 {
      assert a + init == a && init == [];
    } else {
      RecordsAppend(a, init);
    }
    GrownBehind(Records(a), Records(init), l);
    if m == 0 { assert Records(a) + [] == Records(a); }
  }

  lemma {:induction false} KeysAppend(x: seq<seq<Line>>, y: seq<seq<Line>>)
    ensures Keys(x + y) == Keys(x) + Keys(y)
  {
    if y == [] {
      assert x + y == x;
    } else {
      var init, rec := y[..|y| - 1], y[|y| - 1];
      KeysAppend(x, init);
      KeysLast(x + init, rec);
      KeysLast(init, rec);
      assert y == init + [rec] && x + y == (x + init) + [rec];
    }
  }
}
