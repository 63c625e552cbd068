/**
 Peer text on its way to a dialog (`display_label`), as a sequence of Unicode code points.
 */
module Label {
  import opened Selection

  type Code = c: int | 0 <= c < 0x110000
  type Text = seq<Code>

  const SPACE: Code := 0x20
  const ELLIPSIS: Code := 0x2026
  const MAX := 64

  predicate IsInvisibleFormat(c: Code) {
    c == 0xAD || 0x600 <= c <= 0x605 || c == 0x61C || c == 0x6DD || c == 0x70F || c == 0x8E2 || c == 0x180E ||
    0x200B <= c <= 0x200F || 0x2028 <= c <= 0x202E || 0x2060 <= c <= 0x2064 || 0x2066 <= c <= 0x206F ||
    0xE000 <= c <= 0xF8FF || c == 0xFEFF || 0xFFF9 <= c <= 0xFFFB || c == 0x110BD || c == 0x110CD ||
    0x1D173 <= c <= 0x1D17A || c == 0xE0001 || 0xE0020 <= c <= 0xE007F || 0xF0000 <= c <= 0xFFFFD || 0x100000 <= c <= 0x10FFFD
  }

  /** General category Cc. */
  predicate IsControl(c: Code) {
    c <= 0x1F || 0x7F <= c <= 0x9F
  }

  /** The Unicode property White_Space. */
  predicate IsWhite(c: Code) {
    9 <= c <= 13 || c == 0x20 || c == 0x85 || c == 0xA0 || c == 0x1680 || 0x2000 <= c <= 0x200A || c == 0x2028 || c == 0x2029 ||
    c == 0x202F || c == 0x205F || c == 0x3000
  }

  predicate IsPunctuation(c: Code) {
    c == 0x22 || c == 0x28 || c == 0x29
  }

  // ---- display_label ----

  function Cleaned(s: Text): Text {
    if s == [] then []
    else
      var c := s[|s| - 1];
      Cleaned(s[..|s| - 1]) +
      if IsInvisibleFormat(c) then [] else if IsControl(c) || IsPunctuation(c) then [SPACE] else [c]
  }

  /** `split_whitespace`: the maximal runs without white space. */
  function Words(s: Text): seq<Text> {
    if s == [] then []
    else
      var m := |s| - 1;
      var ws := Words(s[..m]);
      if IsWhite(s[m]) then ws
      else if m == 0 || IsWhite(s[m - 1]) || ws == [] then ws + [[s[m]]]
      else ws[..|ws| - 1] + [ws[|ws| - 1] + [s[m]]]
  }

  function Join(ws: seq<Text>): Text {
    if ws == [] then []
    else if |ws| == 1 then ws[0]
    else Join(ws[..|ws| - 1]) + [SPACE] + ws[|ws| - 1]
  }

  function Collapsed(s: Text): Text {
    Join(Words(s))
  }

  function Truncated(s: Text): Text {
    if |s| > MAX then s[..MAX] + [ELLIPSIS] else s
  }

  function DisplayLabel(s: Text): Text {
    Truncated(Collapsed(Cleaned(s)))
  }

  // ---- its normal form ----

  /** A character a dialog may show. */
  predicate Shown(c: Code) {
    !IsControl(c) && !IsInvisibleFormat(c) && !IsPunctuation(c)
  }

  /** The only white space is single spaces, not at the front. */
  predicate Spaced(s: Text) {
    && (forall i :: 0 <= i < |s| && IsWhite(s[i]) ==> s[i] == SPACE)
    && (forall i :: 0 <= i < |s| && IsWhite(s[i]) ==> i > 0 && !IsWhite(s[i - 1]))
  }

  /** And not at the end. */
  predicate Neat(s: Text) {
    Spaced(s) && (s != [] ==> !IsWhite(s[|s| - 1]))
  }

  function Last(s: Text): Code
    requires s != []
  {
    s[|s| - 1]
  }

  lemma {:induction false} JoinMore(ws: seq<Text>, w: Text)
    ensures Join(ws + [w]) == if ws == [] then w else Join(ws) + [SPACE] + w
  {
    assert (ws + [w])[..|ws|] == ws;
  }

  lemma {:induction false} JoinGrow(ws: seq<Text>, c: Code)
    requires ws != []
    ensures Join(ws[..|ws| - 1] + [ws[|ws| - 1] + [c]]) == Join(ws) + [c]
  {
    var m := |ws| - 1;
    JoinMore(ws[..m], ws[m] + [c]);
    JoinMore(ws[..m], ws[m]);
    assert ws == ws[..m] + [ws[m]];
    if m > 0 {
      assert Join(ws[..m]) + [SPACE] + (ws[m] + [c]) == (Join(ws[..m]) + [SPACE] + ws[m]) + [c];
    }
  }

  /** How collapsing goes on by one character. */
  lemma {:induction false} CollapseStep(s: Text)
    requires s != []
    ensures var m := |s| - 1;
            var ws := Words(s[..m]);
            Collapsed(s) ==
              if IsWhite(s[m]) then Join(ws)
              else if ws == [] then [s[m]]
              else if IsWhite(s[m - 1]) then Join(ws) + [SPACE, s[m]] else Join(ws) + [s[m]]
    ensures Words(s) == [] <==> Words(s[..|s| - 1]) == [] && IsWhite(s[|s| - 1])
  {
    var m := |s| - 1;
    var ws := Words(s[..m]);
    if !IsWhite(s[m]) {
      if m == 0 || ws == [] || IsWhite(s[m - 1]) {
        JoinMore(ws, [s[m]]);
        assert ws != [] ==> Join(ws) + [SPACE] + [s[m]] == Join(ws) + [SPACE, s[m]];
      } else {
        JoinGrow(ws, s[m]);
      }
    }
  }

  lemma {:induction false} WordsExist(s: Text)
    ensures Words(s) == [] <==> forall i :: 0 <= i < |s| ==> IsWhite(s[i])
  {
    if s != [] {
      WordsExist(s[..|s| - 1]);
      CollapseStep(s);
    }
  }

  lemma {:induction false} NeatGrows(s: Text, c: Code)
    requires Neat(s) && !IsWhite(c)
    ensures Neat(s + [c]) && (s != [] ==> Neat(s + [SPACE, c]))
  {
  }

  lemma {:induction false} JoinedEmpty(s: Text)
    ensures Words(s) == [] ==> Collapsed(s) == []
    ensures Words(s) != [] ==> Collapsed(s) != []
  {
    if s != [] {
      JoinedEmpty(s[..|s| - 1]);
      CollapseStep(s);
    }
  }

  /** Collapsing always gives a neat text, of characters of its input and single spaces. */
  lemma {:induction false} CollapsedNeat(s: Text)
    ensures Neat(Collapsed(s)) && forall c :: c in Collapsed(s) ==> c in s || c == SPACE
  {
    if s != [] {
      var m := |s| - 1;
      CollapsedNeat(s[..m]);
      JoinedEmpty(s[..m]);
      CollapseStep(s);
      if !IsWhite(s[m]) { NeatGrows(Collapsed(s[..m]), s[m]); }
      assert s[m] in s;
    }
  }

  lemma {:induction false} SpacedFront(s: Text)
    requires Spaced(s) && s != []
    ensures Spaced(s[..|s| - 1]) && s == s[..|s| - 1] + [Last(s)]
    ensures |s| > 1 && IsWhite(s[|s| - 2]) ==> s == s[..|s| - 2] + [SPACE, Last(s)]
  {
  }

  function Trimmed(s: Text): Text {
    if s != [] && IsWhite(Last(s)) then s[..|s| - 1] else s
  }

  /** And a neat text is left as it is: only a space at the very end goes. */
  lemma {:induction false} SpacedKept(s: Text)
    requires Spaced(s)
    ensures Collapsed(s) == Trimmed(s)
  {
    if s != [] {
      SpacedFront(s);
      SpacedKept(s[..|s| - 1]);
      SpacedStep(s);
    }
  }

  lemma {:induction false} SpacedStep(s: Text)
    requires Spaced(s) && s != [] && Collapsed(s[..|s| - 1]) == Trimmed(s[..|s| - 1])
    ensures Collapsed(s) == Trimmed(s)
  {
    var m := |s| - 1;
    SpacedFront(s);
    JoinedEmpty(s[..m]);
    CollapseStep(s);
    if m > 0 {
      TrimmedFront(s);
    }
  }

  lemma {:induction false} TrimmedFront(s: Text)
    requires |s| > 1
    ensures Trimmed(s[..|s| - 1]) == if IsWhite(s[|s| - 2]) then s[..|s| - 2] else s[..|s| - 1]
  {
  }

  predicate AllShown(s: Text) {
    forall c :: c in s ==> Shown(c)
  }

  lemma {:induction false} CleanedShown(s: Text)
    ensures AllShown(Cleaned(s)) && forall c :: c in Cleaned(s) ==> c in s || c == SPACE
  {
    if s != [] {
      CleanedShown(s[..|s| - 1]);
      assert s[|s| - 1] in s;
    }
  }

  lemma {:induction false} ShownKept(s: Text)
    requires AllShown(s)
    ensures Cleaned(s) == s
  {
    if s != [] {
      assert s == s[..|s| - 1] + [s[|s| - 1]] && s[|s| - 1] in s;
      ShownKept(s[..|s| - 1]);
    }
  }

  /** What a label looks like in a dialog, whatever the client set it to. */
  predicate Normal(s: Text) {
    |s| <= MAX + 1 && Neat(s) && AllShown(s) && (|s| == MAX + 1 ==> Last(s) == ELLIPSIS)
  }

  lemma {:induction false} TruncatedNormal(s: Text)
    requires Neat(s) && AllShown(s)
    ensures Normal(Truncated(s))
  {
  }

  /** Every label is shown in normal form, made of its own characters, spaces and the ellipsis. */
  lemma {:induction false} DisplayNormal(s: Text)
    ensures Normal(DisplayLabel(s))
    ensures forall c :: c in DisplayLabel(s) ==> c in s || c == SPACE || c == ELLIPSIS
  {
    CleanedShown(s);
    CollapsedNeat(Cleaned(s));
    TruncatedNormal(Collapsed(Cleaned(s)));
    forall c | c in DisplayLabel(s) ensures c in Collapsed(Cleaned(s)) || c == ELLIPSIS { }
  }

  /** Normal texts are exactly the fixed points, so showing a label twice is showing it once, also
      where truncation left a space before the ellipsis. */
  lemma {:induction false} NormalFixed(s: Text)
    ensures Normal(s) <==> DisplayLabel(s) == s
  {
    if Normal(s) {
      ShownKept(s);
      SpacedKept(s);
      if |s| > MAX { assert s == s[..MAX] + [ELLIPSIS]; }
    } else {
      DisplayNormal(s);
    }
  }

  lemma {:induction false} DisplayIdempotent(s: Text)
    ensures DisplayLabel(DisplayLabel(s)) == DisplayLabel(s)
  {
    DisplayNormal(s);
    NormalFixed(DisplayLabel(s));
  }

  // ---- what is shown ----

  /** A character that ends a word: white space, a control character, or the daemon's own punctuation. */
  predicate IsBreak(c: Code) {
    !IsInvisibleFormat(c) && (IsWhite(c) || IsControl(c) || c == 0x22 || c == 0x28 || c == 0x29)
  }

  predicate IsInk(c: Code) {
    !IsInvisibleFormat(c) && !IsBreak(c)
  }

  predicate Gap(s: Text, i: int, j: int) {
    exists k :: i < k < j && 0 <= k < |s| && IsBreak(s[k])
  }

  /** `at` are the places of the ink. */
  ghost predicate InkAt(s: Text, at: seq<nat>) {
    Increasing(at) && forall j :: j in at <==> 0 <= j < |s| && IsInk(s[j])
  }

  /** From one ink to the next: a space between them exactly where there is a break. */
  predicate SpacedAt(s: Text, t: Text, i: int, j: int, p: nat, q: nat) {
    if Gap(s, i, j) then q == p + 2 && p + 1 < |t| && t[p + 1] == SPACE else q == p + 1
  }

  /** `pos` are the places the ink is shown at: from the start to the end, nothing but spaces between. */
  ghost predicate PosAt(s: Text, t: Text, at: seq<nat>, pos: seq<nat>) {
    && |pos| == |at| && (forall k :: 0 <= k < |at| ==> at[k] < |s| && pos[k] < |t| && t[pos[k]] == s[at[k]])
    && (if at == [] then t == [] else pos[0] == 0 && |t| == pos[|at| - 1] + 1)
    && (forall k :: 0 < k < |at| ==> SpacedAt(s, t, at[k - 1], at[k], pos[k - 1], pos[k]))
  }

  /** `t` is the ink of `s`, character by character and in order, with one space between two of them
      exactly where `s` has a break between them, and nothing at either end. */
  ghost predicate ShowsAt(s: Text, t: Text, at: seq<nat>, pos: seq<nat>) {
    InkAt(s, at) && PosAt(s, t, at, pos)
  }

  /** Where the last ink is. */
  function LastOf(at: seq<nat>): int {
    if at == [] then -1 else at[|at| - 1]
  }

  /** What the cleaned text knows of the input: whether there was ink yet, and a break since. */
  ghost predicate Knows(s: Text, at: seq<nat>) {
    && (Words(Cleaned(s)) == [] <==> at == [])
    && (at != [] ==> Cleaned(s) != [] && (IsWhite(Last(Cleaned(s))) <==> Gap(s, LastOf(at), |s|)))
  }

  lemma {:induction false} GapMore(s: Text, c: Code, i: int, j: int)
    requires j <= |s|
    ensures Gap(s + [c], i, j) <==> Gap(s, i, j)
    ensures i < |s| ==> (Gap(s + [c], i, |s| + 1) <==> Gap(s, i, |s|) || IsBreak(c))
  {
    var more := s + [c];
    assert forall k :: 0 <= k < |s| ==> more[k] == s[k];
    assert more[|s|] == c;
  }

  lemma {:induction false} CleanedMore(s: Text, c: Code)
    ensures Cleaned(s + [c]) == Cleaned(s) + if IsInvisibleFormat(c) then [] else if IsControl(c) || IsPunctuation(c) then [SPACE] else [c]
  {
    assert (s + [c])[..|s|] == s;
  }

  lemma {:induction false} InkAtMore(s: Text, c: Code, at: seq<nat>)
    requires InkAt(s, at)
    ensures InkAt(s + [c], if IsInk(c) then at + [|s|] else at)
  {
    var more := s + [c];
    assert forall k :: 0 <= k < |s| ==> more[k] == s[k];
    assert more[|s|] == c;
    forall j ensures j in at + [|s|] <==> j in at || j == |s| { }
    forall k | 0 <= k < |at| ensures at[k] < |s| {
      assert at[k] in at;
    }
  }

  /** More text behind changes nothing about what is shown so far. */
  lemma {:induction false} PosSame(s: Text, c: Code, t: Text, at: seq<nat>, pos: seq<nat>)
    requires PosAt(s, t, at, pos)
    ensures PosAt(s + [c], t, at, pos)
  {
    forall k | 0 < k < |at| ensures SpacedAt(s + [c], t, at[k - 1], at[k], pos[k - 1], pos[k]) {
      GapMore(s, c, at[k - 1], at[k]);
    }
  }

  /** What is shown with one more ink. */
  function ShownNext(t: Text, first: bool, gap: bool, c: Code): (more: Text)
    ensures more != []
  {
    if first then [c] else if gap then t + [SPACE, c] else t + [c]
  }

  /** The place of one more ink. */
  lemma {:induction false} PosMore(s: Text, t: Text, at: seq<nat>, pos: seq<nat>, i: nat, more: Text)
    requires PosAt(s, t, at, pos) && i < |s| && more == ShownNext(t, at == [], Gap(s, LastOf(at), i), s[i])
    ensures PosAt(s, more, at + [i], pos + [|more| - 1])
  {
    var at', pos' := at + [i], pos + [|more| - 1];
    assert forall k :: 0 <= k < |t| && at != [] ==> more[k] == t[k];
    forall k | 0 < k < |at'| ensures SpacedAt(s, more, at'[k - 1], at'[k], pos'[k - 1], pos'[k]) {
      if k < |at| { assert SpacedAt(s, t, at[k - 1], at[k], pos[k - 1], pos[k]); }
    }
  }

  lemma {:induction false} InkMore(s: Text, c: Code, t: Text, at: seq<nat>, pos: seq<nat>, more: Text)
    requires ShowsAt(s, t, at, pos) && IsInk(c) && more == ShownNext(t, at == [], Gap(s, LastOf(at), |s|), c)
    ensures ShowsAt(s + [c], more, at + [|s|], pos + [|more| - 1])
  {
    InkAtMore(s, c, at);
    PosSame(s, c, t, at, pos);
    GapMore(s, c, LastOf(at), |s|);
    assert (s + [c])[|s|] == c;
    PosMore(s + [c], t, at, pos, |s|, more);
  }

  lemma {:induction false} KnowsBlank(s: Text, c: Code, at: seq<nat>)
    requires Knows(s, at) && !IsInk(c) && forall k :: 0 <= k < |at| ==> at[k] < |s|
    ensures Knows(s + [c], at) && Collapsed(Cleaned(s + [c])) == Collapsed(Cleaned(s))
  {
    CleanedMore(s, c);
    if at != [] { GapMore(s, c, LastOf(at), |s|); }
    if IsInvisibleFormat(c) {
      assert Cleaned(s) + [] == Cleaned(s);
    } else {
      var d := Last(Cleaned(s + [c]));
      assert Cleaned(s + [c])[..|Cleaned(s)|] == Cleaned(s) && IsWhite(d);
      CollapseStep(Cleaned(s + [c]));
    }
  }

  lemma {:induction false} KnowsInk(s: Text, c: Code, at: seq<nat>)
    requires Knows(s, at) && IsInk(c)
    ensures Knows(s + [c], at + [|s|])
    ensures Collapsed(Cleaned(s + [c])) == ShownNext(Collapsed(Cleaned(s)), at == [], Gap(s, LastOf(at), |s|), c)
  {
    CleanedMore(s, c);
    assert Cleaned(s + [c])[..|Cleaned(s)|] == Cleaned(s);
    CollapseStep(Cleaned(s + [c]));
    assert !Gap(s + [c], |s|, |s| + 1);
  }

  lemma {:induction false} BlankMore(s: Text, c: Code, t: Text, at: seq<nat>, pos: seq<nat>)
    requires ShowsAt(s, t, at, pos) && !IsInk(c)
    ensures ShowsAt(s + [c], t, at, pos) && forall k :: 0 <= k < |at| ==> at[k] < |s|
  {
    InkAtMore(s, c, at);
    PosSame(s, c, t, at, pos);
  }

  /** The collapsed text shows the label, and knows where it stands. */
  ghost predicate Stands(s: Text, at: seq<nat>, pos: seq<nat>) {
    ShowsAt(s, Collapsed(Cleaned(s)), at, pos) && Knows(s, at)
  }

  lemma {:induction false} StandsInk(s: Text, c: Code, at: seq<nat>, pos: seq<nat>) returns (p: nat)
    requires Stands(s, at, pos) && IsInk(c)
    ensures Stands(s + [c], at + [|s|], pos + [p])
  {
    var more := Collapsed(Cleaned(s + [c]));
    KnowsInk(s, c, at);
    InkMore(s, c, Collapsed(Cleaned(s)), at, pos, more);
    p := |more| - 1;
  }

  lemma {:induction false} StandsBlank(s: Text, c: Code, at: seq<nat>, pos: seq<nat>)
    requires Stands(s, at, pos) && !IsInk(c)
    ensures Stands(s + [c], at, pos)
  {
    BlankMore(s, c, Collapsed(Cleaned(s)), at, pos);
    KnowsBlank(s, c, at);
  }

  lemma {:induction false} CollapsedShows(s: Text) returns (at: seq<nat>, pos: seq<nat>)
    ensures Stands(s, at, pos)
  {
    at, pos := [], [];
    if s != [] {
      var init, c := s[..|s| - 1], s[|s| - 1];
      at, pos := CollapsedShows(init);
      assert s == init + [c];
      if IsInk(c) {
        var p := StandsInk(init, c, at, pos);
        at, pos := at + [|init|], pos + [p];
      } else {
        StandsBlank(init, c, at, pos);
      }
    }
  }

  /** A dialog shows the words of the label: its ink in order, broken by single spaces exactly where it
      was broken, and cut after sixty-four characters with an ellipsis. */
  lemma {:induction false} DisplayShows(s: Text) returns (t: Text, at: seq<nat>, pos: seq<nat>)
    ensures ShowsAt(s, t, at, pos) && DisplayLabel(s) == if |t| <= 64 then t else t[..64] + [0x2026]
  {
    at, pos := CollapsedShows(s);
    t := Collapsed(Cleaned(s));
  }
}
