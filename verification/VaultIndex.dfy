/**
 Items and the searchable header index.  A digest is ideal: it is of one salt, key and value and of
 no other, so a sorted list of digests searched by halving is a set.
 */
module VaultIndex {
  import opened Selection

  datatype Item = Item(id: string, title: string, attributes: map<string, string>, secret: string, contentType: string, created: nat, modified: nat)

  type Attributes = map<string, string>

  datatype Digest = Digest(salt: string, key: string, val: string)

  datatype IndexEntry = IndexEntry(id: string, digests: set<Digest>)

  type Index = seq<IndexEntry>

  function Digests(salt: string, attributes: Attributes): set<Digest> {
    set k | k in attributes :: Digest(salt, k, attributes[k])
  }

  /** `build_index`. */
  function BuildIndex(salt: string, items: seq<Item>, withAttributes: bool): (index: Index)
    ensures |index| == |items|
  {
    seq(|items|, i requires 0 <= i < |items| =>
      IndexEntry(items[i].id, if withAttributes then Digests(salt, items[i].attributes) else {}))
  }

  predicate HasAttributes(index: Index) {
    index != [] && (HasAttributes(index[..|index| - 1]) || index[|index| - 1].digests != {})
  }

  predicate AnyAttributes(items: seq<Item>) {
    items != [] && (AnyAttributes(items[..|items| - 1]) || items[|items| - 1].attributes != map[])
  }

  lemma {:induction false} DigestsEmpty(salt: string, attributes: Attributes)
    ensures Digests(salt, attributes) == {} <==> attributes == map[]
  {
    if attributes != map[] {
      var k :| k in attributes;
      assert Digest(salt, k, attributes[k]) in Digests(salt, attributes);
    }
  }

  lemma {:induction false} BuildInit(salt: string, items: seq<Item>, withAttributes: bool)
    requires items != []
    ensures var m := |items| - 1;
            BuildIndex(salt, items, withAttributes)[..m] == BuildIndex(salt, items[..m], withAttributes)
  {
  }

  lemma {:induction false} HasWhen(salt: string, items: seq<Item>, withAttributes: bool)
    ensures HasAttributes(BuildIndex(salt, items, withAttributes)) <==> withAttributes && AnyAttributes(items)
  {
    if items != [] {
      HasWhen(salt, items[..|items| - 1], withAttributes);
      BuildInit(salt, items, withAttributes);
      DigestsEmpty(salt, items[|items| - 1].attributes);
    }
  }

  /** Without attributes there is nothing to hash under either setting. */
  lemma {:induction false} PlainIndex(salt: string, items: seq<Item>)
    requires !AnyAttributes(items)
    ensures BuildIndex(salt, items, true) == BuildIndex(salt, items, false)
  {
    if items != [] {
      var m := |items| - 1;
      PlainIndex(salt, items[..m]);
      BuildInit(salt, items, true);
      BuildInit(salt, items, false);
      DigestsEmpty(salt, items[m].attributes);
      assert BuildIndex(salt, items, true) == BuildIndex(salt, items, true)[..m] + [BuildIndex(salt, items, true)[m]];
      assert BuildIndex(salt, items, false) == BuildIndex(salt, items, false)[..m] + [BuildIndex(salt, items, false)[m]];
    }
  }

  /** The index is of these items, under one setting or the other. */
  predicate Indexed(index: Index, salt: string, items: seq<Item>) {
    index == BuildIndex(salt, items, true) || index == BuildIndex(salt, items, false)
  }

  /** Comparing one bit of the index with the setting tells exactly whether it follows the setting. */
  lemma {:induction false} StaleExactly(index: Index, salt: string, items: seq<Item>, withAttributes: bool)
    requires Indexed(index, salt, items)
    ensures HasAttributes(index) == (withAttributes && AnyAttributes(items)) <==> index == BuildIndex(salt, items, withAttributes)
  {
    HasWhen(salt, items, true);
    HasWhen(salt, items, false);
    if !AnyAttributes(items) { PlainIndex(salt, items); }
  }

  // ---- searching ----

  predicate Matches(item: Item, query: Attributes) {
    forall k :: k in query ==> k in item.attributes && item.attributes[k] == query[k]
  }

  /** `search`, on the items themselves: the ids of those that carry the whole query. */
  function Search(items: seq<Item>, query: Attributes): seq<string> {
    if items == [] then []
    else Search(items[..|items| - 1], query) + if Matches(items[|items| - 1], query) then [items[|items| - 1].id] else []
  }

  function IdsOf(items: seq<Item>): (ids: seq<string>)
    ensures |ids| == |items| && forall i :: 0 <= i < |ids| ==> ids[i] == items[i].id
  {
    seq(|items|, i requires 0 <= i < |items| => items[i].id)
  }

  function MatchesAt(items: seq<Item>, query: Attributes): set<nat> {
    set j: nat | j < |items| && Matches(items[j], query)
  }

  lemma {:induction false} MatchesMore(items: seq<Item>, query: Attributes)
    requires items != []
    ensures var m := |items| - 1;
            MatchesAt(items, query) == if Matches(items[m], query) then MatchesAt(items[..m], query) + {m} else MatchesAt(items[..m], query)
  {
  }

  /** The ids of exactly the matching items, in their own order. */
  lemma {:induction false} SearchPicks(items: seq<Item>, query: Attributes)
    ensures Picked(IdsOf(items), MatchesAt(items, query), Search(items, query))
  {
    if items == [] {
      PickedNone<string>();
      assert MatchesAt(items, query) == {} && IdsOf(items) == [];
    } else {
      var m := |items| - 1;
      SearchPicks(items[..m], query);
      PickedMore(IdsOf(items[..m]), MatchesAt(items[..m], query), Search(items[..m], query), items[m].id);
      assert IdsOf(items) == IdsOf(items[..m]) + [items[m].id];
      MatchesMore(items, query);
      if !Matches(items[m], query) { assert Search(items, query) == Search(items[..m], query); }
    }
  }

  /** `matches_hashes`. */
  predicate MatchesDigests(entry: IndexEntry, query: set<Digest>) {
    query == {} || (entry.digests != {} && query <= entry.digests)
  }

  function SearchEntries(index: Index, query: set<Digest>): seq<string> {
    if index == [] then []
    else SearchEntries(index[..|index| - 1], query) + if MatchesDigests(index[|index| - 1], query) then [index[|index| - 1].id] else []
  }

  /** `search_ids`, on the index alone: the query is hashed once, and not at all when no entry could match. */
  method SearchIds(index: Index, salt: string, query: Attributes) returns (ids: seq<string>)
    ensures ids == SearchEntries(index, Digests(salt, query))
  {
    ids := [];
    DigestsEmpty(salt, query);
    var any := false;
    for i := 0 to |index|
      invariant any <==> HasAttributes(index[..i])
    {
      assert index[..i + 1][..i] == index[..i];
      any := any || index[i].digests != {};
    }
    assert index[..|index|] == index;
    if query != map[] && !any {
      NoneMatch(index, Digests(salt, query));
      return;
    }
    var digests := Digests(salt, query);
    for i := 0 to |index|
      invariant ids == SearchEntries(index[..i], digests)
    {
      assert index[..i + 1][..i] == index[..i];
      if MatchesDigests(index[i], digests) {
        ids := ids + [index[i].id];
      }
    }
    assert index[..|index|] == index;
  }

  lemma {:induction false} NoneMatch(index: Index, query: set<Digest>)
    requires query != {} && !HasAttributes(index)
    ensures SearchEntries(index, query) == []
  {
    if index != [] {
      NoneMatch(index[..|index| - 1], query);
    }
  }

  lemma {:induction false} DigestsMatch(salt: string, item: Item, query: Attributes)
    ensures Digests(salt, query) <= Digests(salt, item.attributes) <==> Matches(item, query)
  {
    if Digests(salt, query) <= Digests(salt, item.attributes) {
      forall k | k in query ensures k in item.attributes && item.attributes[k] == query[k] {
        assert Digest(salt, k, query[k]) in Digests(salt, query);
      }
    }
  }

  /** Searching a locked collection by digests finds what searching the items would, in the same
      order, when the index was built with attributes; without, only the empty query finds anything,
      and it finds everything. */
  lemma {:induction false} LockedSearch(salt: string, items: seq<Item>, withAttributes: bool, query: Attributes)
    ensures SearchEntries(BuildIndex(salt, items, withAttributes), Digests(salt, query)) ==
              if withAttributes || query == map[] then Search(items, query) else []
  {
    DigestsEmpty(salt, query);
    if items != [] {
      var m := |items| - 1;
      LockedSearch(salt, items[..m], withAttributes, query);
      BuildInit(salt, items, withAttributes);
      DigestsEmpty(salt, items[m].attributes);
      DigestsMatch(salt, items[m], query);
    }
  }
}
