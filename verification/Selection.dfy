/**
 A list made of chosen elements of another, in their order and with their multiplicity.
 */
module Selection {

  predicate Increasing(s: seq<nat>) {
    forall a, b :: 0 <= a < b < |s| ==> s[a] < s[b]
  }

  /** `at` are the chosen places in order, and `out` what stands there. */
  ghost predicate PickedAt<T>(all: seq<T>, wanted: set<nat>, out: seq<T>, at: seq<nat>) {
    && Increasing(at) && |at| == |out|
    && (forall j :: j in wanted <==> j in at)
    && (forall k :: 0 <= k < |at| ==> at[k] < |all| && out[k] == all[at[k]])
  }

  ghost predicate Picked<T>(all: seq<T>, wanted: set<nat>, out: seq<T>) {
    exists at :: PickedAt(all, wanted, out, at)
  }

  lemma {:induction false} PickedNone<T>()
    ensures Picked<T>([], {}, [])
  {
    assert PickedAt<T>([], {}, [], []);
  }

  /** One more element, chosen or not. */
  lemma {:induction false} PickedMore<T>(all: seq<T>, wanted: set<nat>, out: seq<T>, x: T)
    requires Picked(all, wanted, out)
    ensures Picked(all + [x], wanted, out) && Picked(all + [x], wanted + {|all|}, out + [x])
  {
    var at :| PickedAt(all, wanted, out, at);
    assert PickedAt(all + [x], wanted, out, at);
    PickedHere(all, wanted, out, at, x);
  }

  lemma {:induction false} PickedHere<T>(all: seq<T>, wanted: set<nat>, out: seq<T>, at: seq<nat>, x: T)
    requires PickedAt(all, wanted, out, at)
    ensures PickedAt(all + [x], wanted + {|all|}, out + [x], at + [|all|])
  {
    var at' := at + [|all|];
    forall j ensures j in wanted + {|all|} <==> j in at' {
      if j in at {
        var k :| 0 <= k < |at| && at[k] == j;
        assert at'[k] == j;
      }
      assert at'[|at|] == |all|;
    }
  }

  /** What was chosen is there, and nothing else. */
  lemma {:induction false} PickedMembers<T>(all: seq<T>, wanted: set<nat>, out: seq<T>, x: T)
    requires Picked(all, wanted, out)
    ensures x in out <==> exists j :: j in wanted && j < |all| && all[j] == x
  {
    var at :| PickedAt(all, wanted, out, at);
    if x in out {
      var k :| 0 <= k < |out| && out[k] == x;
      assert at[k] in wanted && all[at[k]] == x;
    }
    if j :| j in wanted && j < |all| && all[j] == x {
      var k :| 0 <= k < |at| && at[k] == j;
      assert out[k] == x;
    }
  }

  /** The choice determines the list. */
  lemma {:induction false} PickedOnly<T>(all: seq<T>, wanted: set<nat>, x: seq<T>, y: seq<T>)
    requires Picked(all, wanted, x) && Picked(all, wanted, y)
    ensures x == y
  {
    var a :| PickedAt(all, wanted, x, a);
    var b :| PickedAt(all, wanted, y, b);
    SameIncreasing(a, b);
  }

  lemma {:induction false} SameIncreasing(s: seq<nat>, t: seq<nat>)
    requires Increasing(s) && Increasing(t) && forall j :: j in s <==> j in t
    ensures s == t
  {
    if s != [] { assert s[0] in s; }
    if t != [] { assert t[0] in t; }
    if s != [] {
      var m, n := |s| - 1, |t| - 1;
      assert s[m] in t && t[n] in s;
      assert s[m] == t[n];
      forall j ensures j in s[..m] <==> j in t[..n] {
        assert j in s[..m] <==> j in s && j != s[m];
        assert j in t[..n] <==> j in t && j != t[n];
      }
      SameIncreasing(s[..m], t[..n]);
      assert s == s[..m] + [s[m]] && t == t[..n] + [t[n]];
    }
  }
}
