/**
 Object paths of a `Lock`, `Unlock` or `DeleteItems` request, what they resolve to, and the
 grouping by collection the batched calls are built on.
 */
module Batch {
  import opened Options
  import opened Selection

  type Id = string    // a collection id
  type Ref = nat      // a vault

  /** A path as `paths::parse` reads it. */
  datatype Parsed =
    | Unparsed
    | CollectionPath(id: Id) | AliasPath(name: string)
    | ItemPath(id: Id, item: string) | AliasItemPath(name: string, item: string)

  datatype Object = Object(path: string, parsed: Parsed)

  /** What the state mutex guards of this: loaded and broken collections, and the alias table, which
      may be unusable. */
  datatype Names = Names(collections: map<Id, Ref>, broken: set<Id>, aliases: Option<map<string, Id>>)

  datatype Vault = Vault(locked: bool, pinned: bool, items: seq<string>)

  type Vaults = map<Ref, Vault>

  datatype PathTarget = Collection(id: Id, vault: Ref) | Broken(id: Id) | Item(id: Id, vault: Ref, item: string)

  /** Every loaded collection has its own vault. */
  predicate Consistent(n: Names, vaults: Vaults) {
    && (forall id :: id in n.collections ==> n.collections[id] in vaults)
    && (forall id, id' :: id in n.collections && id' in n.collections && n.collections[id] == n.collections[id'] ==> id == id')
  }

  /** An alias reaches a loaded collection or nothing. */
  function AliasTarget(n: Names, name: string): Option<Id> {
    if n.aliases.Some? && name in n.aliases.value && n.aliases.value[name] in n.collections
    then Some(n.aliases.value[name]) else None
  }

  function ResolveCollection(n: Names, id: Id): Option<PathTarget> {
    if id in n.collections then Some(Collection(id, n.collections[id]))
    else if id in n.broken then Some(Broken(id)) else None
  }

  function ResolveItem(n: Names, id: Id, item: string): Option<PathTarget> {
    if id in n.collections then Some(Item(id, n.collections[id], item)) else None
  }

  function Resolve(n: Names, q: Parsed): Option<PathTarget> {
    match q
    case Unparsed => None
    case CollectionPath(id) => ResolveCollection(n, id)
    case AliasPath(name) => var id := AliasTarget(n, name); if id.Some? then ResolveCollection(n, id.value) else None
    case ItemPath(id, item) => ResolveItem(n, id, item)
    case AliasItemPath(name, item) => var id := AliasTarget(n, name); if id.Some? then ResolveItem(n, id.value, item) else None
  }

  /** An alias path is the path of the collection it stands for, if that is loaded, and nothing
      otherwise: not for an unknown name, an unusable table or a broken target. */
  lemma {:induction false} AliasReaches(n: Names, name: string, item: string)
    ensures n.aliases.Some? && name in n.aliases.value && n.aliases.value[name] in n.collections ==>
              var target := n.aliases.value[name];
              && Resolve(n, AliasPath(name)) == Resolve(n, CollectionPath(target)) == Some(Collection(target, n.collections[target]))
              && Resolve(n, AliasItemPath(name, item)) == Resolve(n, ItemPath(target, item)) == Some(Item(target, n.collections[target], item))
    ensures n.aliases.None? || name !in n.aliases.value || n.aliases.value[name] !in n.collections ==>
              Resolve(n, AliasPath(name)).None? && Resolve(n, AliasItemPath(name, item)).None?
  {
  }

  /** A direct path reaches the loaded collection of its own id, or tells that it is broken. */
  lemma {:induction false} PathReaches(n: Names, id: Id, item: string)
    ensures id in n.collections ==>
              Resolve(n, CollectionPath(id)) == Some(Collection(id, n.collections[id])) &&
              Resolve(n, ItemPath(id, item)) == Some(Item(id, n.collections[id], item))
    ensures id !in n.collections ==>
              Resolve(n, CollectionPath(id)) == (if id in n.broken then Some(Broken(id)) else None) && Resolve(n, ItemPath(id, item)).None?
    ensures Resolve(n, Unparsed).None?
  {
  }

  // ---- what a path names ----

  /** The collection a path leads to. */
  function IdBehind(n: Names, o: Object): Option<Id> {
    match Resolve(n, o.parsed)
    case None => None
    case Some(t) => Some(t.id)
  }

  /** The vault of a path that names a loaded collection, or an item that is in it. */
  function VaultBehind(n: Names, vaults: Vaults, o: Object): Option<Ref> {
    match Resolve(n, o.parsed)
    case Some(Collection(_, v)) => if v in vaults then Some(v) else None
    case Some(Item(_, v, item)) => if v in vaults && item in vaults[v].items then Some(v) else None
    case _ => None
  }

  predicate NamesOpen(n: Names, vaults: Vaults, o: Object) {
    VaultBehind(n, vaults, o).Some? && !vaults[VaultBehind(n, vaults, o).value].locked
  }

  predicate NamesBroken(n: Names, o: Object) {
    Resolve(n, o.parsed).Some? && Resolve(n, o.parsed).value.Broken?
  }

  predicate NamesLocked(n: Names, vaults: Vaults, o: Object) {
    NamesBroken(n, o) || (VaultBehind(n, vaults, o).Some? && vaults[VaultBehind(n, vaults, o).value].locked)
  }

  function PathsOf(objects: seq<Object>): (paths: seq<string>)
    ensures |paths| == |objects| && forall i :: 0 <= i < |paths| ==> paths[i] == objects[i].path
  {
    seq(|objects|, i requires 0 <= i < |objects| => objects[i].path)
  }

  lemma {:induction false} PathsMore(objects: seq<Object>, o: Object)
    ensures PathsOf(objects + [o]) == PathsOf(objects) + [o.path]
  {
  }

  // ---- grouping ----

  datatype Group = Group(cid: Id, idxs: seq<nat>)

  /** A bucket: some positions of its key, in increasing order. */
  predicate IsBucket(keys: seq<Id>, g: Group) {
    g.idxs != [] && Increasing(g.idxs) && forall a :: 0 <= a < |g.idxs| ==> g.idxs[a] < |keys| && keys[g.idxs[a]] == g.cid
  }

  predicate InSome(groups: seq<Group>, j: nat) {
    exists g :: 0 <= g < |groups| && j in groups[g].idxs
  }

  /** The buckets partition the indices by key, in order of first appearance. */
  predicate IsGrouping(keys: seq<Id>, groups: seq<Group>) {
    && (forall g :: 0 <= g < |groups| ==> IsBucket(keys, groups[g]))
    && (forall g, h :: 0 <= g < h < |groups| ==> groups[g].cid != groups[h].cid && groups[g].idxs[0] < groups[h].idxs[0])
    && (forall j :: 0 <= j < |keys| ==> InSome(groups, j))
  }

  /** A bucket is exactly the positions of its key. */
  lemma {:induction false} GroupIsKey(keys: seq<Id>, groups: seq<Group>, g: nat, j: nat)
    requires IsGrouping(keys, groups) && g < |groups| && j < |keys|
    ensures j in groups[g].idxs <==> keys[j] == groups[g].cid
  {
    assert InSome(groups, j);
    var h :| 0 <= h < |groups| && j in groups[h].idxs;
    assert IsBucket(keys, groups[h]) && IsBucket(keys, groups[g]);
  }

  /** The bucket that holds a position, and where it starts. */
  lemma {:induction false} Holder(keys: seq<Id>, groups: seq<Group>, j: nat) returns (h: nat)
    requires IsGrouping(keys, groups) && j < |keys|
    ensures h < |groups| && j in groups[h].idxs && groups[h].cid == keys[j] && groups[h].idxs[0] <= j
  {
    assert InSome(groups, j);
    h :| 0 <= h < |groups| && j in groups[h].idxs;
    assert IsBucket(keys, groups[h]);
  }

  /** When the buckets before `g` agree, bucket `g` of either starts no later than the other's. */
  lemma {:induction false} NoEarlier(keys: seq<Id>, x: seq<Group>, y: seq<Group>, g: nat)
    requires IsGrouping(keys, x) && IsGrouping(keys, y) && g < |x| && g <= |y| && x[..g] == y[..g]
    ensures g < |y| && y[g].idxs[0] <= x[g].idxs[0]
  {
    var a := x[g].idxs[0];
    assert IsBucket(keys, x[g]);
    var h := Holder(keys, y, a);
    forall i | 0 <= i < g ensures y[i].cid != keys[a] {
      assert x[i] == x[..g][i] == y[..g][i] == y[i];
    }
  }

  /** The keys determine the grouping. */
  lemma {:induction false} GroupingUnique(keys: seq<Id>, x: seq<Group>, y: seq<Group>)
    requires IsGrouping(keys, x) && IsGrouping(keys, y)
    ensures x == y
  {
    var g := 0;
    while g < |x|
      invariant 0 <= g <= |x| && g <= |y| && x[..g] == y[..g]
    {
      NoEarlier(keys, x, y, g);
      NoEarlier(keys, y, x, g);
      SameBucket(keys, x, y, g);
      g := g + 1;
    }
    if |y| > |x| { NoEarlier(keys, y, x, g); }
  }

  lemma {:induction false} SameBucket(keys: seq<Id>, x: seq<Group>, y: seq<Group>, g: nat)
    requires IsGrouping(keys, x) && IsGrouping(keys, y) && g < |x| && g < |y| && x[g].idxs[0] == y[g].idxs[0]
    ensures x[g] == y[g]
  {
    assert IsBucket(keys, x[g]) && IsBucket(keys, y[g]);
    forall j: nat ensures j in x[g].idxs <==> j in y[g].idxs {
      if j < |keys| {
        GroupIsKey(keys, x, g, j);
        GroupIsKey(keys, y, g, j);
      }
    }
    SameIncreasing(x[g].idxs, y[g].idxs);
  }

  /** Buckets stay buckets, and what is held stays held, when bucket `slot` gains an index. */
  lemma {:induction false} GrowGroup(keys: seq<Id>, i: nat, groups: seq<Group>, slot: nat)
    requires i < |keys| && IsGrouping(keys[..i], groups) && slot < |groups| && groups[slot].cid == keys[i]
    ensures IsGrouping(keys[..i + 1], groups[slot := Group(keys[i], groups[slot].idxs + [i])])
  {
    var groups' := groups[slot := Group(keys[i], groups[slot].idxs + [i])];
    forall g | 0 <= g < |groups| ensures IsBucket(keys[..i + 1], groups'[g]) {
      assert IsBucket(keys[..i], groups[g]);
    }
    forall j | 0 <= j < i + 1 ensures InSome(groups', j) {
      var g := slot;
      if j < i { g := Holder(keys[..i], groups, j); }
      assert j in groups'[g].idxs;
    }
  }

  lemma {:induction false} NewGroup(keys: seq<Id>, i: nat, groups: seq<Group>)
    requires i < |keys| && IsGrouping(keys[..i], groups) && keys[i] !in keys[..i]
    ensures IsGrouping(keys[..i + 1], groups + [Group(keys[i], [i])])
  {
    var groups' := groups + [Group(keys[i], [i])];
    forall g | 0 <= g < |groups| ensures IsBucket(keys[..i + 1], groups[g]) && groups[g].cid in keys[..i] && groups[g].idxs[0] < i {
      assert IsBucket(keys[..i], groups[g]);
      assert keys[..i][groups[g].idxs[0]] == groups[g].cid;
    }
    forall j | 0 <= j < i + 1 ensures InSome(groups', j) {
      var g: nat := |groups|;
      if j < i { g := Holder(keys[..i], groups, j); }
      assert j in groups'[g].idxs;
    }
  }

  /** `at` finds the bucket of every key seen. */
  ghost predicate Finds(at: map<Id, nat>, keys: seq<Id>, groups: seq<Group>) {
    (forall k :: k in at <==> k in keys) && forall k :: k in at ==> at[k] < |groups| && groups[at[k]].cid == k
  }

  lemma {:induction false} FindsGrown(at: map<Id, nat>, keys: seq<Id>, groups: seq<Group>, cid: Id, idxs: seq<nat>)
    requires Finds(at, keys, groups) && cid in at
    ensures Finds(at, keys + [cid], groups[at[cid] := Group(cid, idxs)])
  {
  }

  lemma {:induction false} FindsNew(at: map<Id, nat>, keys: seq<Id>, groups: seq<Group>, cid: Id, idxs: seq<nat>)
    requires Finds(at, keys, groups) && cid !in at
    ensures Finds(at[cid := |groups|], keys + [cid], groups + [Group(cid, idxs)])
  {
  }

  method GroupByCollection(keys: seq<Id>) returns (groups: seq<Group>)
    ensures IsGrouping(keys, groups)
  {
    groups := [];
    var at: map<Id, nat> := map[];
    for i := 0 to |keys|
      invariant IsGrouping(keys[..i], groups) && Finds(at, keys[..i], groups)
    {
      var cid := keys[i];
      assert keys[..i + 1] == keys[..i] + [cid];
      if cid in at {
        GrowGroup(keys, i, groups, at[cid]);
        FindsGrown(at, keys[..i], groups, cid, groups[at[cid]].idxs + [i]);
        groups := groups[at[cid] := Group(cid, groups[at[cid]].idxs + [i])];
      } else {
        NewGroup(keys, i, groups);
        FindsNew(at, keys[..i], groups, cid, [i]);
        at := at[cid := |groups|];
        groups := groups + [Group(cid, [i])];
      }
    }
    assert keys[..|keys|] == keys;
  }
}
