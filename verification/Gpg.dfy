/**
 The gpg preset: key ids, the filter, and collecting enrolled passphrases over several vaults with one
 first-wins rule.
 */
module Gpg {
  import opened Options
  import opened GpgText

  // ---- key ids ----

  predicate IsHex(s: string) {
    forall i :: 0 <= i < |s| ==> IsHexDigit(s[i])
  }

  function WithoutPrefix(s: string): string {
    if |s| >= 2 && s[0] == '0' && (s[1] == 'x' || s[1] == 'X') then s[2..] else s
  }

  /** `normalize_id`.  `upper` is the Unicode upper-casing of a whole string. */
  function NormalizeId(upper: string -> string, input: string): Option<string> {
    var norm := upper(WithoutPrefix(input));
    if !IsHex(norm) then None
    else if |norm| == 40 then Some(norm[24..])
    else if |norm| == 16 then Some(norm) else None
  }

  predicate SameEnrollment(upper: string -> string, a: string, b: string) {
    var x, y := NormalizeId(upper, a), NormalizeId(upper, b);
    if x.Some? && y.Some? then x == y else a == b
  }

  /** Whatever upper-casing does, naming the same key is an equivalence. */
  lemma {:induction false} SameIsEquivalence(upper: string -> string, a: string, b: string, c: string)
    ensures SameEnrollment(upper, a, a)
    ensures SameEnrollment(upper, a, b) ==> SameEnrollment(upper, b, a)
    ensures SameEnrollment(upper, a, b) && SameEnrollment(upper, b, c) ==> SameEnrollment(upper, a, c)
  {
  }

  /** A full fingerprint in capitals. */
  predicate IsFingerprint(f: string) {
    |f| == 40 && Capitals(f, f)
  }

  /** A name in its forms: bare, or behind either prefix. */
  predicate IsFormOf(x: string, name: string) {
    x == name || x == "0x" + name || x == "0X" + name
  }

  lemma {:induction false} FormsStripped(x: string, name: string)
    requires IsFormOf(x, name) && |name| >= 2 && Nibble(name[1]) >= 0
    ensures WithoutPrefix(x) == name
  {
  }

  lemma {:induction false} FoldsToLong(upper: string -> string, f: string, x: string)
    requires IsFingerprint(f) && (IsFormOf(x, f) || IsFormOf(x, f[24..])) && upper(f) == f && upper(f[24..]) == f[24..]
    ensures NormalizeId(upper, x) == Some(f[24..])
  {
    if IsFormOf(x, f) { FormsStripped(x, f); } else { FormsStripped(x, f[24..]); }
  }

  /** All forms of a fingerprint and of its last sixteen digits name one key. */
  lemma {:induction false} FingerprintIsLongId(upper: string -> string, f: string, x: string, y: string)
    requires IsFingerprint(f) && upper(f) == f && upper(f[24..]) == f[24..]
    requires (IsFormOf(x, f) || IsFormOf(x, f[24..])) && (IsFormOf(y, f) || IsFormOf(y, f[24..]))
    ensures SameEnrollment(upper, x, y)
  {
    FoldsToLong(upper, f, x);
    FoldsToLong(upper, f, y);
  }

  /** Two fingerprints name the same key exactly when their last sixteen digits agree, and a filter of
      long ids lets a fingerprint through exactly when its own is among them. */
  lemma {:induction false} FingerprintsSame(upper: string -> string, f: string, g: string, filter: seq<string>)
    requires IsFingerprint(f) && IsFingerprint(g) && upper(f) == f && upper(g) == g && upper(f[24..]) == f[24..] && upper(g[24..]) == g[24..]
    requires forall x :: x in filter ==> |x| == 16 && Capitals(x, x) && upper(x) == x
    ensures SameEnrollment(upper, f, g) <==> f[24..] == g[24..]
    ensures filter != [] ==> (KeyAllowed(upper, filter, f) <==> f[24..] in filter)
  {
    FoldsToLong(upper, f, f);
    FoldsToLong(upper, g, g);
    forall x | x in filter ensures NormalizeId(upper, x) == Some(x) {
      FormsStripped(x, x);
    }
  }

  /** A name that is no id: not sixteen or forty digits once its prefix is off. */
  predicate IsNoId(upper: string -> string, x: string) {
    var norm := upper(if |x| >= 2 && (x[..2] == "0x" || x[..2] == "0X") then x[2..] else x);
    (|norm| != 16 && |norm| != 40) || exists i :: 0 <= i < |norm| && Nibble(norm[i]) < 0
  }

  /** Such a name is the same as itself only, and no filter but the empty one lets it through. */
  lemma {:induction false} OtherNamesAlone(upper: string -> string, x: string, y: string, filter: seq<string>)
    requires IsNoId(upper, x)
    ensures SameEnrollment(upper, x, y) <==> x == y
    ensures KeyAllowed(upper, filter, x) <==> filter == []
  {
    var norm := upper(WithoutPrefix(x));
    assert WithoutPrefix(x) == if |x| >= 2 && (x[..2] == "0x" || x[..2] == "0X") then x[2..] else x;
    if i :| 0 <= i < |norm| && Nibble(norm[i]) < 0 {
      assert !IsHexDigit(norm[i]);
    }
  }

  predicate KeyAllowed(upper: string -> string, filter: seq<string>, longid: string) {
    filter == [] ||
    (NormalizeId(upper, longid).Some? && exists f :: f in filter && NormalizeId(upper, f) == NormalizeId(upper, longid))
  }

  /** The filter cannot tell two names of the same key apart. */
  lemma {:induction false} AllowedRespectsSame(upper: string -> string, filter: seq<string>, a: string, b: string)
    requires SameEnrollment(upper, a, b)
    ensures KeyAllowed(upper, filter, a) <==> KeyAllowed(upper, filter, b)
  {
  }

  // ---- collecting enrolments ----

  const GPG_SCHEMA := "org.secret-manager.gpg"

  datatype Item = Item(attributes: map<string, string>, secret: string)

  type Pairs = seq<(string, string)>

  predicate Wanted(upper: string -> string, filter: seq<string>, item: Item) {
    "xdg:schema" in item.attributes && item.attributes["xdg:schema"] == GPG_SCHEMA && "keyid" in item.attributes &&
    KeyAllowed(upper, filter, item.attributes["keyid"]) && item.secret != ""
  }

  predicate Has(upper: string -> string, pairs: Pairs, keyid: string) {
    exists i :: 0 <= i < |pairs| && SameEnrollment(upper, pairs[i].0, keyid)
  }

  /** First wins, item by item. */
  function Enrolled(upper: string -> string, filter: seq<string>, items: seq<Item>, pairs: Pairs): Pairs {
    if items == [] then pairs
    else
      var before := Enrolled(upper, filter, items[..|items| - 1], pairs);
      var item := items[|items| - 1];
      if Wanted(upper, filter, item) && !Has(upper, before, item.attributes["keyid"])
      then before + [(item.attributes["keyid"], item.secret)] else before
  }

  /** The enrolments turned away as duplicates, in order. */
  function Duplicates(upper: string -> string, filter: seq<string>, items: seq<Item>, pairs: Pairs): seq<string> {
    if items == [] then []
    else
      var m := |items| - 1;
      Duplicates(upper, filter, items[..m], pairs) +
      if Wanted(upper, filter, items[m]) && Has(upper, Enrolled(upper, filter, items[..m], pairs), items[m].attributes["keyid"])
      then [items[m].attributes["keyid"]] else []
  }

  /** Item `i` is the first wanted one of its key, which nothing in `pairs` names. */
  predicate IsFirst(upper: string -> string, filter: seq<string>, items: seq<Item>, pairs: Pairs, i: nat)
    requires i < |items|
  {
    Wanted(upper, filter, items[i]) && !Has(upper, pairs, items[i].attributes["keyid"]) &&
    forall j :: 0 <= j < i && Wanted(upper, filter, items[j]) ==>
      !SameEnrollment(upper, items[j].attributes["keyid"], items[i].attributes["keyid"])
  }

  /** The first items of their keys among the first `n`, each with its own secret. */
  function Firsts(upper: string -> string, filter: seq<string>, items: seq<Item>, pairs: Pairs, n: nat): Pairs
    requires n <= |items|
  {
    if n == 0 then []
    else
      Firsts(upper, filter, items, pairs, n - 1) +
      if IsFirst(upper, filter, items, pairs, n - 1) then [(items[n - 1].attributes["keyid"], items[n - 1].secret)] else []
  }

  /** And the wanted items that are not. */
  function Others(upper: string -> string, filter: seq<string>, items: seq<Item>, pairs: Pairs, n: nat): seq<string>
    requires n <= |items|
  {
    if n == 0 then []
    else
      Others(upper, filter, items, pairs, n - 1) +
      if Wanted(upper, filter, items[n - 1]) && !IsFirst(upper, filter, items, pairs, n - 1)
      then [items[n - 1].attributes["keyid"]] else []
  }

  predicate Earlier(upper: string -> string, filter: seq<string>, items: seq<Item>, n: nat, keyid: string)
    requires n <= |items|
  {
    exists j :: 0 <= j < n && Wanted(upper, filter, items[j]) && SameEnrollment(upper, items[j].attributes["keyid"], keyid)
  }

  lemma {:induction false} EarlierGrows(upper: string -> string, filter: seq<string>, items: seq<Item>, n: nat, keyid: string)
    requires n < |items|
    ensures Earlier(upper, filter, items, n + 1, keyid) <==>
              Earlier(upper, filter, items, n, keyid) ||
              (Wanted(upper, filter, items[n]) && SameEnrollment(upper, items[n].attributes["keyid"], keyid))
  {
  }

  lemma {:induction false} HasGrows(upper: string -> string, pairs: Pairs, p: (string, string), keyid: string)
    ensures Has(upper, pairs + [p], keyid) <==> Has(upper, pairs, keyid) || SameEnrollment(upper, p.0, keyid)
  {
    if Has(upper, pairs, keyid) {
      var i :| 0 <= i < |pairs| && SameEnrollment(upper, pairs[i].0, keyid);
      assert (pairs + [p])[i] == pairs[i];
    }
    if SameEnrollment(upper, p.0, keyid) { assert (pairs + [p])[|pairs|] == p; }
  }

  /** A key is in the list exactly when it was there before or an item among those read enrolled it. */
  lemma {:induction false} HasWhen(upper: string -> string, filter: seq<string>, items: seq<Item>, pairs: Pairs, n: nat, keyid: string)
    requires n <= |items|
    ensures Has(upper, Enrolled(upper, filter, items[..n], pairs), keyid) <==>
              Has(upper, pairs, keyid) || Earlier(upper, filter, items, n, keyid)
  {
    if n > 0 {
      var before := Enrolled(upper, filter, items[..n - 1], pairs);
      assert items[..n][..n - 1] == items[..n - 1];
      HasWhen(upper, filter, items, pairs, n - 1, keyid);
      EarlierGrows(upper, filter, items, n - 1, keyid);
      if Wanted(upper, filter, items[n - 1]) {
        var mine := items[n - 1].attributes["keyid"];
        HasGrows(upper, before, (mine, items[n - 1].secret), keyid);
        SameInHas(upper, before, mine, keyid);
      }
    }
  }

  lemma {:induction false} SameInHas(upper: string -> string, pairs: Pairs, a: string, b: string)
    ensures SameEnrollment(upper, a, b) ==> (Has(upper, pairs, a) <==> Has(upper, pairs, b))
  {
    forall i | 0 <= i < |pairs|
      ensures SameEnrollment(upper, a, b) ==> (SameEnrollment(upper, pairs[i].0, a) <==> SameEnrollment(upper, pairs[i].0, b))
    {
      SameIsEquivalence(upper, pairs[i].0, a, b);
      SameIsEquivalence(upper, pairs[i].0, b, a);
      SameIsEquivalence(upper, a, b, a);
    }
  }

  /** First wins: what is added is, in order, the first wanted item of every key not yet there, with
      that item's secret; what is reported is every other wanted item. */
  lemma {:induction false} FirstWins(upper: string -> string, filter: seq<string>, items: seq<Item>, pairs: Pairs, n: nat)
    requires n <= |items|
    ensures Enrolled(upper, filter, items[..n], pairs) == pairs + Firsts(upper, filter, items, pairs, n)
    ensures Duplicates(upper, filter, items[..n], pairs) == Others(upper, filter, items, pairs, n)
  {
    if n > 0 {
      FirstWins(upper, filter, items, pairs, n - 1);
      assert items[..n][..n - 1] == items[..n - 1] && items[..n][n - 1] == items[n - 1];
      if Wanted(upper, filter, items[n - 1]) { HasWhen(upper, filter, items, pairs, n - 1, items[n - 1].attributes["keyid"]); }
    }
  }

  /** A passphrase for a key, kept under the given schema. */
  predicate Enrols(item: Item, schema: string) {
    "xdg:schema" in item.attributes && item.attributes["xdg:schema"] == schema && "keyid" in item.attributes && |item.secret| > 0
  }

  /** The pair is the key id and the secret of an enrolled item the filter lets through. */
  predicate ComesFrom(upper: string -> string, filter: seq<string>, items: seq<Item>, pair: (string, string)) {
    exists i :: 0 <= i < |items| && Enrols(items[i], "org.secret-manager.gpg") && KeyAllowed(upper, filter, items[i].attributes["keyid"]) &&
      pair == (items[i].attributes["keyid"], items[i].secret)
  }

  lemma {:induction false} FirstsFrom(upper: string -> string, filter: seq<string>, items: seq<Item>, pairs: Pairs, n: nat)
    requires n <= |items|
    ensures forall k :: 0 <= k < |Firsts(upper, filter, items, pairs, n)| ==> ComesFrom(upper, filter, items, Firsts(upper, filter, items, pairs, n)[k])
  {
    if n > 0 { FirstsFrom(upper, filter, items, pairs, n - 1); }
  }

  method CollectEnrolled(upper: string -> string, filter: seq<string>, items: seq<Item>, pairs: Pairs)
    returns (more: Pairs, warnings: seq<string>)
    ensures more == Enrolled(upper, filter, items, pairs) && warnings == Duplicates(upper, filter, items, pairs)
    ensures more == pairs + Firsts(upper, filter, items, pairs, |items|)
    ensures warnings == Others(upper, filter, items, pairs, |items|)
    ensures forall k :: |pairs| <= k < |more| ==> ComesFrom(upper, filter, items, more[k])
    ensures forall i :: 0 <= i < |items| && Enrols(items[i], "org.secret-manager.gpg") && KeyAllowed(upper, filter, items[i].attributes["keyid"]) ==>
              Has(upper, more, items[i].attributes["keyid"])
  {
    more, warnings := pairs, [];
    for i := 0 to |items|
      invariant more == Enrolled(upper, filter, items[..i], pairs) && warnings == Duplicates(upper, filter, items[..i], pairs)
    {
      assert items[..i + 1][..i] == items[..i];
      var item := items[i];
      if "xdg:schema" !in item.attributes || item.attributes["xdg:schema"] != GPG_SCHEMA {
        continue;
      }
      if "keyid" !in item.attributes {
        continue;
      }
      var keyid := item.attributes["keyid"];
      if !KeyAllowed(upper, filter, keyid) || item.secret == "" {
        continue;
      }
      if Has(upper, more, keyid) {
        warnings := warnings + [keyid];
        continue;
      }
      more := more + [(keyid, item.secret)];
    }
    assert items[..|items|] == items;
    FirstWins(upper, filter, items, pairs, |items|);
    FirstsFrom(upper, filter, items, pairs, |items|);
    forall i | 0 <= i < |items| && Enrols(items[i], "org.secret-manager.gpg") && KeyAllowed(upper, filter, items[i].attributes["keyid"])
      ensures Has(upper, more, items[i].attributes["keyid"])
    {
      EnrolledCovers(upper, filter, items, pairs, i);
    }
  }

  /** Vault by vault is the same as one run over all the items. */
  lemma {:induction false} EnrolledAppends(upper: string -> string, filter: seq<string>, a: seq<Item>, b: seq<Item>, pairs: Pairs)
    ensures Enrolled(upper, filter, b, Enrolled(upper, filter, a, pairs)) == Enrolled(upper, filter, a + b, pairs)
  {
    if b == [] {
      assert a + b == a;
    } else {
      var m := |b| - 1;
      EnrolledAppends(upper, filter, a, b[..m], pairs);
      assert (a + b)[..|a| + m] == a + b[..m] && (a + b)[|a| + m] == b[m];
    }
  }

  function Flatten(vaults: seq<seq<Item>>): seq<Item> {
    if vaults == [] then [] else Flatten(vaults[..|vaults| - 1]) + vaults[|vaults| - 1]
  }

  /** The daemon's walk over every collection with one growing list. */
  method CollectAll(upper: string -> string, filter: seq<string>, vaults: seq<seq<Item>>) returns (pairs: Pairs)
    ensures pairs == Firsts(upper, filter, Flatten(vaults), [], |Flatten(vaults)|)
    ensures Inequivalent(upper, pairs)
  {
    pairs := [];
    for i := 0 to |vaults|
      invariant pairs == Enrolled(upper, filter, Flatten(vaults[..i]), [])
    {
      assert vaults[..i + 1][..i] == vaults[..i];
      EnrolledAppends(upper, filter, Flatten(vaults[..i]), vaults[i], []);
      var warnings;
      pairs, warnings := CollectEnrolled(upper, filter, vaults[i], pairs);
    }
    assert vaults[..|vaults|] == vaults;
    var all := Flatten(vaults);
    FirstWins(upper, filter, all, [], |all|);
    assert all[..|all|] == all;
    EnrolledInequivalent(upper, filter, Flatten(vaults), []);
  }

  /** No key is enrolled twice. */
  predicate Inequivalent(upper: string -> string, pairs: Pairs) {
    forall i, j :: 0 <= i < j < |pairs| ==> !SameEnrollment(upper, pairs[i].0, pairs[j].0)
  }

  lemma {:induction false} EnrolledInequivalent(upper: string -> string, filter: seq<string>, items: seq<Item>, pairs: Pairs)
    requires Inequivalent(upper, pairs)
    ensures Inequivalent(upper, Enrolled(upper, filter, items, pairs))
  {
    if items != [] {
      EnrolledInequivalent(upper, filter, items[..|items| - 1], pairs);
    }
  }

  /** Every wanted item is represented, and the earlier pairs stay in front. */
  lemma {:induction false} EnrolledCovers(upper: string -> string, filter: seq<string>, items: seq<Item>, pairs: Pairs, i: nat)
    requires i < |items| && Wanted(upper, filter, items[i])
    ensures pairs <= Enrolled(upper, filter, items, pairs)
    ensures Has(upper, Enrolled(upper, filter, items, pairs), items[i].attributes["keyid"])
  {
    var m := |items| - 1;
    var before := Enrolled(upper, filter, items[..m], pairs);
    var after := Enrolled(upper, filter, items, pairs);
    Keeps(upper, filter, items, pairs);
    if i < m {
      EnrolledCovers(upper, filter, items[..m], pairs, i);
      var k :| 0 <= k < |before| && SameEnrollment(upper, before[k].0, items[i].attributes["keyid"]);
      assert after[k] == before[k];
    } else if !Has(upper, before, items[m].attributes["keyid"]) {
      assert after[|before|].0 == items[m].attributes["keyid"];
    }
  }

  lemma {:induction false} Keeps(upper: string -> string, filter: seq<string>, items: seq<Item>, pairs: Pairs)
    ensures pairs <= Enrolled(upper, filter, items, pairs)
  {
    if items != [] { Keeps(upper, filter, items[..|items| - 1], pairs); }
  }
}
