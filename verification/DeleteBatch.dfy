/**
 `CollectionAdmin::delete_items`: resolve every path, confirm the items run by run under one guard
 per run of the same collection, then remove them all or none.  Proved against a two-phase
 specification that looks at single paths.
 */
module DeleteBatch {
  import opened Options
  import opened Selection
  import opened Batch

  const MAX_DELETE_ITEMS := 1024

  datatype Error = InvalidArgs | NoSuchObject | IsLocked | SaveFailed
  datatype Result<T> = Ok(value: T) | Err(error: Error)

  datatype Resolved = Resolved(cid: Id, item: string, vault: Ref)

  // ---- the two phases ----

  /** Phase one: every path must resolve to an item target. */
  function ResolveItems(n: Names, objects: seq<Object>): Result<seq<Resolved>> {
    if objects == [] then Ok([])
    else
      var rest := ResolveItems(n, objects[..|objects| - 1]);
      if rest.Err? then rest
      else
        match Resolve(n, objects[|objects| - 1].parsed)
        case Some(Item(id, v, item)) => Ok(rest.value + [Resolved(id, item, v)])
        case _ => Err(NoSuchObject)
  }

  /** What is wrong with one resolved path, if anything. */
  function Fault(vaults: Vaults, id: Id, r: Resolved): Option<Error>
    requires r.vault in vaults
  {
    if r.item !in vaults[r.vault].items then Some(NoSuchObject)
    else if r.cid != id then Some(InvalidArgs) else None
  }

  predicate AllIn(resolved: seq<Resolved>, vaults: Vaults) {
    forall i :: 0 <= i < |resolved| ==> resolved[i].vault in vaults
  }

  /** Phase two: the first path in request order with a fault decides. */
  function FirstFault(vaults: Vaults, id: Id, resolved: seq<Resolved>): Option<Error>
    requires AllIn(resolved, vaults)
  {
    if resolved == [] then None
    else
      var before := FirstFault(vaults, id, resolved[..|resolved| - 1]);
      if before.Some? then before else Fault(vaults, id, resolved[|resolved| - 1])
  }

  /** The item ids named, without repeats, in order of first appearance. */
  function Distinct(resolved: seq<Resolved>): seq<string> {
    if resolved == [] then []
    else
      var before := Distinct(resolved[..|resolved| - 1]);
      var item := resolved[|resolved| - 1].item;
      if item in before then before else before + [item]
  }

  predicate Named(resolved: seq<Resolved>, item: string) {
    exists i :: 0 <= i < |resolved| && resolved[i].item == item
  }

  lemma {:induction false} DistinctNames(resolved: seq<Resolved>, item: string)
    ensures item in Distinct(resolved) <==> Named(resolved, item)
  {
    if resolved != [] {
      var m := |resolved| - 1;
      var init := resolved[..m];
      DistinctNames(init, item);
      if Named(init, item) {
        var i :| 0 <= i < |init| && init[i].item == item;
        assert resolved[i].item == item;
      }
      if i :| 0 <= i < m && resolved[i].item == item {
        assert init[i].item == item;
      }
    }
  }

  lemma {:induction false} DistinctIs(resolved: seq<Resolved>, k: nat)
    requires k <= |resolved|
    ensures forall i, j :: 0 <= i < j < |Distinct(resolved)| ==> Distinct(resolved)[i] != Distinct(resolved)[j]
    ensures forall x :: x in Distinct(resolved) <==> Named(resolved, x)
    ensures Distinct(resolved[..k]) <= Distinct(resolved)
  {
    forall x ensures x in Distinct(resolved) <==> Named(resolved, x) {
      DistinctNames(resolved, x);
    }
    var m := |resolved| - 1;
    if k == |resolved| {
      assert resolved[..k] == resolved;
    }
    if resolved != [] {
      DistinctIs(resolved[..m], if k <= m then k else m);
      if k <= m { assert resolved[..m][..k] == resolved[..k]; }
    }
  }

  /** Nothing is at fault exactly when every path names an item of this collection that is there. */
  lemma {:induction false} NoFault(vaults: Vaults, id: Id, resolved: seq<Resolved>)
    requires AllIn(resolved, vaults)
    ensures FirstFault(vaults, id, resolved).None? <==>
            forall i :: 0 <= i < |resolved| ==> resolved[i].cid == id && resolved[i].item in vaults[resolved[i].vault].items
  {
    if resolved != [] {
      var m := |resolved| - 1;
      NoFault(vaults, id, resolved[..m]);
      assert forall i :: 0 <= i < m ==> resolved[..m][i] == resolved[i];
    }
  }

  function Validated(vaults: Vaults, id: Id, resolved: seq<Resolved>): Result<seq<string>>
    requires AllIn(resolved, vaults)
  {
    var fault := FirstFault(vaults, id, resolved);
    if fault.Some? then Err(fault.value) else Ok(Distinct(resolved))
  }

  // ---- the runs ----

  lemma {:induction false} FaultStays(vaults: Vaults, id: Id, resolved: seq<Resolved>, i: nat)
    requires AllIn(resolved, vaults) && i < |resolved|
    requires FirstFault(vaults, id, resolved[..i]).None? && Fault(vaults, id, resolved[i]).Some?
    ensures FirstFault(vaults, id, resolved) == Fault(vaults, id, resolved[i])
  {
    var m := |resolved| - 1;
    if i < m {
      assert resolved[..m][..i] == resolved[..i];
      FaultStays(vaults, id, resolved[..m], i);
    }
  }

  /** The same collection resolved under one guard of the state is the same vault. */
  predicate SameVault(resolved: seq<Resolved>) {
    forall i, j :: 0 <= i < |resolved| && 0 <= j < |resolved| && resolved[i].cid == resolved[j].cid ==> resolved[i].vault == resolved[j].vault
  }

  /** How many paths there are before the first that names another collection. */
  function OwnRun(id: Id, resolved: seq<Resolved>): (k: nat)
    ensures k <= |resolved| && (k < |resolved| ==> resolved[k].cid != id) && forall j :: 0 <= j < k ==> resolved[j].cid == id
  {
    if resolved == [] || resolved[0].cid != id then 0 else OwnRun(id, resolved[1..]) + 1
  }

  /** The vault guards a batch takes: none for no paths, one for the first run, and a second only when
      that run is of this collection, without a fault, and not the whole batch. */
  function Guards(vaults: Vaults, id: Id, resolved: seq<Resolved>): nat
    requires AllIn(resolved, vaults)
  {
    var k := OwnRun(id, resolved);
    if resolved == [] then 0
    else if 0 < k < |resolved| && FirstFault(vaults, id, resolved[..k]).None? then 2 else 1
  }

  lemma {:induction false} RunIs(id: Id, resolved: seq<Resolved>, k: nat)
    requires k <= |resolved| && (k < |resolved| ==> resolved[k].cid != id) && forall j :: 0 <= j < k ==> resolved[j].cid == id
    ensures OwnRun(id, resolved) == k
  {
  }

  /** A fault in the first run ends the call under the one guard. */
  lemma {:induction false} FaultInFirst(vaults: Vaults, id: Id, resolved: seq<Resolved>, i: nat)
    requires AllIn(resolved, vaults) && i < |resolved| && forall j :: 0 <= j <= i ==> resolved[j].cid == resolved[0].cid
    requires FirstFault(vaults, id, resolved[..i]).None? && Fault(vaults, id, resolved[i]).Some?
    ensures Guards(vaults, id, resolved) == 1
  {
    var k := OwnRun(id, resolved);
    if resolved[0].cid == id {
      assert i < k;
      assert resolved[..k][..i] == resolved[..i];
      FaultStays(vaults, id, resolved[..k], i);
    }
  }

  /** The nested loops over runs return what the single-path specification returns, with no more vault
      guards than that takes. */
  method Validate(vaults: Vaults, id: Id, resolved: seq<Resolved>) returns (r: Result<seq<string>>, acquired: nat)
    requires AllIn(resolved, vaults) && SameVault(resolved)
    ensures r == Validated(vaults, id, resolved)
    ensures acquired == Guards(vaults, id, resolved) <= 2
    ensures r.Ok? ==> acquired == if resolved == [] then 0 else 1
  {
    var itemIds := [];
    var seen := {};
    var i := 0;
    acquired := 0;
    while i < |resolved|
      invariant 0 <= i <= |resolved| && FirstFault(vaults, id, resolved[..i]).None?
      invariant itemIds == Distinct(resolved[..i]) && forall x :: x in seen <==> x in itemIds
      invariant forall j :: 0 <= j < i ==> resolved[j].cid == id
      invariant 0 < i < |resolved| ==> resolved[i].cid != id
      invariant acquired == if i == 0 then 0 else 1
    {
      var cid, vault := resolved[i].cid, resolved[i].vault;
      acquired := acquired + 1;
      ghost var start := i;
      while i < |resolved| && resolved[i].cid == cid
        invariant start <= i <= |resolved| && FirstFault(vaults, id, resolved[..i]).None?
        invariant itemIds == Distinct(resolved[..i]) && forall x :: x in seen <==> x in itemIds
        invariant (forall j :: 0 <= j < i ==> resolved[j].cid == id) && (i > start ==> cid == id)
        invariant 0 < start ==> cid != id
        invariant i == start ==> i < |resolved| && resolved[i].cid == cid && acquired == if i == 0 then 1 else 2
        invariant i > start ==> start == 0 && acquired == 1
      {
        var iid := resolved[i].item;
        assert resolved[i].vault == vault;
        if iid !in vaults[vault].items || cid != id {
          FaultStays(vaults, id, resolved, i);
          if start == 0 { FaultInFirst(vaults, id, resolved, i); } else { RunIs(id, resolved, i); }
        }
        if iid !in vaults[vault].items {
          return Err(NoSuchObject), acquired;
        }
        if cid != id {
          return Err(InvalidArgs), acquired;
        }
        assert resolved[..i + 1][..i] == resolved[..i];
        if iid !in seen {
          seen := seen + {iid};
          itemIds := itemIds + [iid];
        }
        i := i + 1;
      }
    }
    assert resolved[..|resolved|] == resolved;
    RunIs(id, resolved, |resolved|);
    r := Ok(itemIds);
  }

  method ResolveAll(n: Names, objects: seq<Object>) returns (r: Result<seq<Resolved>>)
    ensures r == ResolveItems(n, objects)
  {
    var resolved := [];
    for i := 0 to |objects|
      invariant ResolveItems(n, objects[..i]) == Ok(resolved)
    {
      assert objects[..i + 1][..i] == objects[..i];
      match Resolve(n, objects[i].parsed) {
        case Some(Item(id, v, item)) => resolved := resolved + [Resolved(id, item, v)];
        case _ =>
          Refused(n, objects, i + 1);
          return Err(NoSuchObject);
      }
    }
    assert objects[..|objects|] == objects;
    r := Ok(resolved);
  }

  lemma {:induction false} Refused(n: Names, objects: seq<Object>, k: nat)
    requires k <= |objects| && ResolveItems(n, objects[..k]) == Err(NoSuchObject)
    ensures ResolveItems(n, objects) == Err(NoSuchObject)
  {
    var m := |objects| - 1;
    if k == |objects| {
      assert objects[..k] == objects;
    } else {
      assert objects[..m][..k] == objects[..k];
      Refused(n, objects[..m], k);
    }
  }

  /** What phase one resolves to. */
  lemma {:induction false} ResolvedLinked(n: Names, objects: seq<Object>)
    ensures ResolveItems(n, objects).Ok? ==>
              forall i :: 0 <= i < |ResolveItems(n, objects).value| ==>
                var r := ResolveItems(n, objects).value[i];
                r.cid in n.collections && n.collections[r.cid] == r.vault
  {
    if objects != [] {
      ResolvedLinked(n, objects[..|objects| - 1]);
    }
  }

  // ---- the removal ----

  /** `retain`: the items not named, in their own order. */
  function Without(items: seq<string>, ids: seq<string>): seq<string> {
    if items == [] then []
    else
      var rest := Without(items[..|items| - 1], ids);
      if items[|items| - 1] in ids then rest else rest + [items[|items| - 1]]
  }

  /** The places of the items not named. */
  function StaysAt(items: seq<string>, ids: seq<string>): set<nat> {
    set j: nat | j < |items| && items[j] !in ids
  }

  lemma {:induction false} WithoutPicks(items: seq<string>, ids: seq<string>)
    ensures Picked(items, StaysAt(items, ids), Without(items, ids))
  {
    if items == [] {
      PickedNone<string>();
      assert StaysAt(items, ids) == {};
    } else {
      var m := |items| - 1;
      WithoutPicks(items[..m], ids);
      PickedMore(items[..m], StaysAt(items[..m], ids), Without(items[..m], ids), items[m]);
      assert items == items[..m] + [items[m]];
      assert StaysAt(items, ids) == if items[m] in ids then StaysAt(items[..m], ids) else StaysAt(items[..m], ids) + {m};
    }
  }

  // ---- what one path must be ----

  predicate NamesItem(n: Names, o: Object) {
    Resolve(n, o.parsed).Some? && Resolve(n, o.parsed).value.Item?
  }

  function ItemOf(n: Names, o: Object): string
    requires NamesItem(n, o)
  {
    Resolve(n, o.parsed).value.item
  }

  /** The item is in its collection's vault. */
  predicate IsThere(n: Names, found: Vaults, o: Object) {
    NamesItem(n, o) && VaultBehind(n, found, o).Some?
  }

  /** And that collection is this one. */
  predicate IsOurs(n: Names, found: Vaults, id: Id, o: Object) {
    IsThere(n, found, o) && IdBehind(n, o) == Some(id)
  }

  predicate AllItems(n: Names, objects: seq<Object>) {
    forall j :: 0 <= j < |objects| ==> NamesItem(n, objects[j])
  }

  predicate AllOurs(n: Names, found: Vaults, id: Id, objects: seq<Object>) {
    forall j :: 0 <= j < |objects| ==> IsOurs(n, found, id, objects[j])
  }

  /** The first path in request order that is not one of ours. */
  predicate FirstBad(n: Names, found: Vaults, id: Id, objects: seq<Object>, k: nat) {
    k < |objects| && !IsOurs(n, found, id, objects[k]) && forall j :: 0 <= j < k ==> IsOurs(n, found, id, objects[j])
  }

  /** `ids` are the items the paths name, each once. */
  ghost predicate NamesExactly(n: Names, objects: seq<Object>, ids: seq<string>)
    requires AllItems(n, objects)
  {
    && (forall a, b :: 0 <= a < b < |ids| ==> ids[a] != ids[b])
    && (forall x :: x in ids <==> exists j :: 0 <= j < |objects| && ItemOf(n, objects[j]) == x)
  }

  lemma {:induction false} ResolvedIs(n: Names, objects: seq<Object>)
    ensures ResolveItems(n, objects).Ok? <==> AllItems(n, objects)
    ensures ResolveItems(n, objects).Err? ==> ResolveItems(n, objects) == Err(NoSuchObject)
    ensures ResolveItems(n, objects).Ok? ==>
              var resolved := ResolveItems(n, objects).value;
              |resolved| == |objects| &&
              forall j :: 0 <= j < |objects| ==>
                NamesItem(n, objects[j]) &&
                resolved[j] == Resolved(Resolve(n, objects[j].parsed).value.id, ItemOf(n, objects[j]), Resolve(n, objects[j].parsed).value.vault)
  {
    if objects != [] {
      ResolvedIs(n, objects[..|objects| - 1]);
    }
  }

  /** One path against its fault. */
  lemma {:induction false} FaultIs(n: Names, found: Vaults, id: Id, o: Object, r: Resolved)
    requires NamesItem(n, o) && r == Resolved(Resolve(n, o.parsed).value.id, ItemOf(n, o), Resolve(n, o.parsed).value.vault) && r.vault in found
    ensures Fault(found, id, r) ==
              if !IsThere(n, found, o) then Some(NoSuchObject) else if !IsOurs(n, found, id, o) then Some(InvalidArgs) else None
  {
  }

  lemma {:induction false} FirstFaultIs(n: Names, found: Vaults, id: Id, objects: seq<Object>, k: nat)
    requires ResolveItems(n, objects).Ok? && Consistent(n, found)
    ensures AllIn(ResolveItems(n, objects).value, found)
    ensures FirstBad(n, found, id, objects, k) ==>
              FirstFault(found, id, ResolveItems(n, objects).value) ==
              Some(if IsThere(n, found, objects[k]) then InvalidArgs else NoSuchObject)
    ensures FirstFault(found, id, ResolveItems(n, objects).value).None? <==> AllOurs(n, found, id, objects)
  {
    ResolvedIs(n, objects);
    ResolvedLinked(n, objects);
    var resolved := ResolveItems(n, objects).value;
    NoFault(found, id, resolved);
    forall j | 0 <= j < |objects|
      ensures Fault(found, id, resolved[j]) ==
                if !IsThere(n, found, objects[j]) then Some(NoSuchObject) else if !IsOurs(n, found, id, objects[j]) then Some(InvalidArgs) else None
      ensures IsOurs(n, found, id, objects[j]) <==> resolved[j].cid == id && resolved[j].item in found[resolved[j].vault].items
    {
      FaultIs(n, found, id, objects[j], resolved[j]);
    }
    if FirstBad(n, found, id, objects, k) {
      assert forall j :: 0 <= j < k ==> resolved[..k][j] == resolved[j];
      NoFault(found, id, resolved[..k]);
      FaultStays(found, id, resolved, k);
    }
  }

  lemma {:induction false} DistinctExactly(n: Names, objects: seq<Object>)
    requires ResolveItems(n, objects).Ok?
    ensures AllItems(n, objects) && NamesExactly(n, objects, Distinct(ResolveItems(n, objects).value))
  {
    ResolvedIs(n, objects);
    var resolved := ResolveItems(n, objects).value;
    DistinctIs(resolved, 0);
    forall x ensures Named(resolved, x) <==> exists j :: 0 <= j < |objects| && ItemOf(n, objects[j]) == x {
      if Named(resolved, x) {
        var i :| 0 <= i < |resolved| && resolved[i].item == x;
        assert ItemOf(n, objects[i]) == x;
      }
      if j :| 0 <= j < |objects| && ItemOf(n, objects[j]) == x {
        assert resolved[j].item == x;
      }
    }
  }

  // ---- the call ----

  class Collection {
    var vaults: Vaults

    constructor (vaults: Vaults)
      ensures this.vaults == vaults
    {
      this.vaults := vaults;
    }

    /** Nothing but the items of `v` changed, and those left are the ones not named, in their own order
        and as often as they were there. */
    twostate predicate OnlyRemoved(v: Ref, ids: seq<string>)
      reads this
    {
      && v in old(vaults) && vaults.Keys == old(vaults).Keys
      && (forall w :: w in vaults && w != v ==> vaults[w] == old(vaults)[w])
      && vaults[v] == old(vaults)[v].(items := vaults[v].items)
      && Picked(old(vaults)[v].items, StaysAt(old(vaults)[v].items, ids), vaults[v].items)
      && (forall x :: x in vaults[v].items <==> x in old(vaults)[v].items && x !in ids)
    }

    /** The removal, under one guard of the collection as it is by then: all the ids go, or nothing
        changes.  `fault` is what the save would say. */
    method Remove(n: Names, id: Id, ids: seq<string>, fault: Option<Error>) returns (r: Result<seq<string>>)
      requires Consistent(n, vaults)
      modifies this
      ensures r == if id !in n.collections || old(vaults)[n.collections[id]].locked then Err(IsLocked)
                   else if exists i :: 0 <= i < |ids| && ids[i] !in old(vaults)[n.collections[id]].items then Err(NoSuchObject)
                   else if ids != [] && fault.Some? then Err(fault.value) else Ok(ids)
      ensures r.Err? || ids == [] ==> vaults == old(vaults)
      ensures r.Ok? ==> OnlyRemoved(n.collections[id], ids)
    {
      if id !in n.collections || vaults[n.collections[id]].locked {
        return Err(IsLocked);
      }
      var v := n.collections[id];
      WithoutPicks(vaults[v].items, ids);
      WithoutMembers(vaults[v].items, ids);
      if ids == [] {
        WithoutNone(vaults[v].items);
        return Ok([]);
      }
      for i := 0 to |ids|
        invariant forall j :: 0 <= j < i ==> ids[j] in vaults[v].items
        invariant vaults == old(vaults)
      {
        if ids[i] !in vaults[v].items {
          return Err(NoSuchObject);
        }
      }
      if fault.Some? {
        return Err(fault.value);
      }
      var items := Retain(vaults[v].items, ids);
      vaults := vaults[v := vaults[v].(items := items)];
      r := Ok(ids);
    }

    /** The whole call.  The collections and vaults may change between the confirmation, which finds
        `n` and `found`, and the removal, which finds `n'` and the vaults as they then are. */
    method DeleteItems(n: Names, found: Vaults, n': Names, id: Id, objects: seq<Object>, fault: Option<Error>) returns (r: Result<seq<string>>)
      requires Consistent(n, found) && Consistent(n', vaults)
      modifies this
      ensures |objects| > MAX_DELETE_ITEMS ==> r == Err(InvalidArgs)
      ensures |objects| <= MAX_DELETE_ITEMS && !AllItems(n, objects) ==> r == Err(NoSuchObject)
      ensures |objects| <= MAX_DELETE_ITEMS && AllItems(n, objects) ==>
                forall k: nat :: FirstBad(n, found, id, objects, k) ==> r == Err(if IsThere(n, found, objects[k]) then InvalidArgs else NoSuchObject)
      ensures |objects| <= MAX_DELETE_ITEMS && AllOurs(n, found, id, objects) ==>
                if id !in n'.collections || old(vaults)[n'.collections[id]].locked then r == Err(IsLocked)
                else if !AllAmong(n, objects, old(vaults)[n'.collections[id]].items) then r == Err(NoSuchObject)
                else if objects != [] && fault.Some? then r == Err(fault.value)
                else r.Ok? && NamesExactly(n, objects, r.value)
      ensures r.Err? ==> vaults == old(vaults)
      ensures r.Ok? ==> id in n'.collections && OnlyRemoved(n'.collections[id], r.value)
    {
      var ids := Confirm(n, found, id, objects);
      if ids.Err? {
        return ids;
      }
      if id in n'.collections { AmongSame(n, objects, ids.value, vaults[n'.collections[id]].items); }
      r := Remove(n', id, ids.value, fault);
    }
  }

  /** Every item named is one of `items`. */
  predicate AllAmong(n: Names, objects: seq<Object>, items: seq<string>)
    requires AllItems(n, objects)
  {
    forall j :: 0 <= j < |objects| ==> ItemOf(n, objects[j]) in items
  }

  lemma {:induction false} AmongSame(n: Names, objects: seq<Object>, ids: seq<string>, items: seq<string>)
    requires AllItems(n, objects) && NamesExactly(n, objects, ids)
    ensures AllAmong(n, objects, items) <==> forall i :: 0 <= i < |ids| ==> ids[i] in items
    ensures ids == [] <==> objects == []
  {
    forall j | 0 <= j < |objects| ensures exists i :: 0 <= i < |ids| && ids[i] == ItemOf(n, objects[j]) {
      assert ItemOf(n, objects[j]) in ids;
    }
    forall i | 0 <= i < |ids| ensures AllAmong(n, objects, items) ==> ids[i] in items {
      assert ids[i] in ids;
      var j :| 0 <= j < |objects| && ItemOf(n, objects[j]) == ids[i];
    }
    if ids != [] { assert ids[0] in ids; }
    if objects != [] { assert ItemOf(n, objects[0]) in ids; }
  }

  /** The confirmation: every path must name an item that is there, of this collection; the first in
      request order that does not decides, once all of them name items at all. */
  method Confirm(n: Names, found: Vaults, id: Id, objects: seq<Object>) returns (r: Result<seq<string>>)
    requires Consistent(n, found)
    ensures |objects| > MAX_DELETE_ITEMS ==> r == Err(InvalidArgs)
    ensures |objects| <= MAX_DELETE_ITEMS && !AllItems(n, objects) ==> r == Err(NoSuchObject)
    ensures |objects| <= MAX_DELETE_ITEMS && AllItems(n, objects) ==>
              forall k: nat :: FirstBad(n, found, id, objects, k) ==> r == Err(if IsThere(n, found, objects[k]) then InvalidArgs else NoSuchObject)
    ensures r.Ok? <==> |objects| <= MAX_DELETE_ITEMS && AllOurs(n, found, id, objects)
    ensures r.Ok? ==> AllItems(n, objects) && NamesExactly(n, objects, r.value)
  {
    if |objects| > MAX_DELETE_ITEMS {
      return Err(InvalidArgs);
    }
    ResolvedLinked(n, objects);
    ResolvedIs(n, objects);
    assert AllOurs(n, found, id, objects) ==> AllItems(n, objects) by {
      assert forall o :: IsOurs(n, found, id, o) ==> NamesItem(n, o);
    }
    var resolved := ResolveAll(n, objects);
    if resolved.Err? {
      return Err(resolved.error);
    }
    forall k: nat
      ensures FirstBad(n, found, id, objects, k) ==>
                FirstFault(found, id, resolved.value) == Some(if IsThere(n, found, objects[k]) then InvalidArgs else NoSuchObject)
    {
      FirstFaultIs(n, found, id, objects, k);
    }
    FirstFaultIs(n, found, id, objects, 0);
    DistinctExactly(n, objects);
    var ids, _ := Validate(found, id, resolved.value);
    r := ids;
  }

  lemma {:induction false} WithoutMembers(items: seq<string>, ids: seq<string>)
    ensures forall x :: x in Without(items, ids) <==> x in items && x !in ids
  {
    if items != [] {
      WithoutMembers(items[..|items| - 1], ids);
      assert items == items[..|items| - 1] + [items[|items| - 1]];
    }
  }

  lemma {:induction false} WithoutNone(items: seq<string>)
    ensures Without(items, []) == items
  {
    if items != [] {
      WithoutNone(items[..|items| - 1]);
    }
  }

  method Retain(items: seq<string>, ids: seq<string>) returns (rest: seq<string>)
    ensures rest == Without(items, ids)
  {
    rest := [];
    for i := 0 to |items|
      invariant rest == Without(items[..i], ids)
    {
      assert items[..i + 1][..i] == items[..i];
      if items[i] !in ids {
        rest := rest + [items[i]];
      }
    }
    assert items[..|items|] == items;
  }
}
