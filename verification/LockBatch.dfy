/**
 `Service::lock`: resolve every path once, lock each distinct vault once, and reassemble the reply.
 Proved against the walk that treats one path at a time: the same reply, the same vaults after it,
 and the same collections announced, each once.
 */
module LockBatch {
  import opened Options
  import opened Selection
  import opened Batch

  const MAX_LOCK_OBJECTS := 1024

  function Locked(v: Vault): Vault {
    v.(locked := true, pinned := false)
  }

  datatype Pending = Pending(path: string, cid: Id, vault: Ref, item: Option<string>)

  /** A broken collection has no vault to lock and is left out. */
  function PendingOf(n: Names, o: Object): Option<Pending> {
    match Resolve(n, o.parsed)
    case None => None
    case Some(Broken(_)) => None
    case Some(Collection(id, v)) => Some(Pending(o.path, id, v, None))
    case Some(Item(id, v, item)) => Some(Pending(o.path, id, v, Some(item)))
  }

  /** The path names something: a collection, or an item that is there. */
  predicate Exists(p: Pending, vaults: Vaults)
    requires p.vault in vaults
  {
    p.item.None? || p.item.value in vaults[p.vault].items
  }

  // ---- one path at a time ----

  datatype Run = Run(vaults: Vaults, locked: seq<string>, changed: seq<Id>)

  function LockOne(r: Run, p: Pending): Run
    requires p.vault in r.vaults
  {
    if !Exists(p, r.vaults) then r
    else if r.vaults[p.vault].locked then r.(locked := r.locked + [p.path])
    else Run(r.vaults[p.vault := Locked(r.vaults[p.vault])], r.locked + [p.path], r.changed + [p.cid])
  }

  function Walk(n: Names, vaults: Vaults, objects: seq<Object>): (r: Run)
    requires Consistent(n, vaults)
    ensures r.vaults.Keys == vaults.Keys
  {
    if objects == [] then Run(vaults, [], [])
    else
      var r := Walk(n, vaults, objects[..|objects| - 1]);
      var p := PendingOf(n, objects[|objects| - 1]);
      if p.Some? then LockOne(r, p.value) else r
  }

  // ---- what either order of work comes to ----

  predicate Linked(n: Names, pending: seq<Pending>) {
    forall i :: 0 <= i < |pending| ==> pending[i].cid in n.collections && n.collections[pending[i].cid] == pending[i].vault
  }

  /** The collections that some path really names. */
  function Named(vaults: Vaults, pending: seq<Pending>): set<Id>
    requires forall i :: 0 <= i < |pending| ==> pending[i].vault in vaults
  {
    set i | 0 <= i < |pending| && Exists(pending[i], vaults) :: pending[i].cid
  }

  function AfterLock(n: Names, vaults: Vaults, cids: set<Id>): Vaults {
    map v | v in vaults :: if !vaults[v].locked && IsVaultOf(n, cids, v) then Locked(vaults[v]) else vaults[v]
  }

  predicate IsVaultOf(n: Names, cids: set<Id>, v: Ref) {
    exists c :: c in cids && c in n.collections && n.collections[c] == v
  }

  function Paths(vaults: Vaults, pending: seq<Pending>): seq<string>
    requires forall i :: 0 <= i < |pending| ==> pending[i].vault in vaults
  {
    if pending == [] then []
    else
      var p := pending[|pending| - 1];
      Paths(vaults, pending[..|pending| - 1]) + if Exists(p, vaults) then [p.path] else []
  }

  /** No duplicates, and exactly those of `cids` whose vault was open. */
  ghost predicate Announces(n: Names, vaults: Vaults, cids: set<Id>, changed: seq<Id>)
    requires Consistent(n, vaults)
  {
    && (forall i, j :: 0 <= i < j < |changed| ==> changed[i] != changed[j])
    && (forall c :: c in changed <==> c in cids && c in n.collections && !vaults[n.collections[c]].locked)
  }

  ghost predicate Comes(n: Names, vaults: Vaults, pending: seq<Pending>, r: Run)
    requires Consistent(n, vaults) && Linked(n, pending)
  {
    r.vaults == AfterLock(n, vaults, Named(vaults, pending)) && r.locked == Paths(vaults, pending) &&
    Announces(n, vaults, Named(vaults, pending), r.changed)
  }

  /** Locking changes no items, so later paths are judged as at the start. */
  lemma {:induction false} AfterLockExists(n: Names, vaults: Vaults, cids: set<Id>, p: Pending)
    requires p.vault in vaults
    ensures Exists(p, AfterLock(n, vaults, cids)) <==> Exists(p, vaults)
  {
  }

  /** Locking one more collection. */
  lemma {:induction false} AfterLockOne(n: Names, vaults: Vaults, cids: set<Id>, c: Id)
    requires Consistent(n, vaults) && c in n.collections
    ensures var now := AfterLock(n, vaults, cids);
            var v := n.collections[c];
            AfterLock(n, vaults, cids + {c}) == if now[v].locked then now else now[v := Locked(now[v])]
    ensures AfterLock(n, vaults, cids)[n.collections[c]].locked <==> vaults[n.collections[c]].locked || c in cids
  {
    var now, v := AfterLock(n, vaults, cids), n.collections[c];
    forall w | w in vaults
      ensures IsVaultOf(n, cids + {c}, w) <==> IsVaultOf(n, cids, w) || w == v
    {
      if w == v { assert c in cids + {c}; }
      if IsVaultOf(n, cids, w) {
        var d :| d in cids && d in n.collections && n.collections[d] == w;
        assert d in cids + {c};
      }
    }
  }

  lemma {:induction false} StepComes(n: Names, vaults: Vaults, pending: seq<Pending>, r: Run, p: Pending)
    requires Consistent(n, vaults) && Linked(n, pending + [p]) && Linked(n, pending) && Comes(n, vaults, pending, r)
    ensures p.vault in r.vaults && Comes(n, vaults, pending + [p], LockOne(r, p))
  {
    var cids := Named(vaults, pending);
    assert (pending + [p])[|pending|] == p;
    assert (pending + [p])[..|pending|] == pending;
    AfterLockExists(n, vaults, cids, p);
    NamedGrows(vaults, pending, p);
    if Exists(p, vaults) {
      AfterLockOne(n, vaults, cids, p.cid);
    }
  }

  lemma {:induction false} NamedGrows(vaults: Vaults, pending: seq<Pending>, p: Pending)
    requires forall i :: 0 <= i < |pending + [p]| ==> (pending + [p])[i].vault in vaults
    ensures forall i :: 0 <= i < |pending| ==> pending[i].vault in vaults
    ensures p.vault in vaults
    ensures Named(vaults, pending + [p]) == Named(vaults, pending) + if Exists(p, vaults) then {p.cid} else {}
  {
    var all := pending + [p];
    assert all[|pending|] == p;
    assert forall i :: 0 <= i < |pending| ==> all[i] == pending[i];
    forall c | c in Named(vaults, pending) ensures c in Named(vaults, all) {
      var i :| 0 <= i < |pending| && Exists(pending[i], vaults) && pending[i].cid == c;
      assert all[i] == pending[i];
    }
  }

  function AllPending(n: Names, objects: seq<Object>): seq<Pending> {
    if objects == [] then []
    else
      var rest := AllPending(n, objects[..|objects| - 1]);
      var p := PendingOf(n, objects[|objects| - 1]);
      if p.Some? then rest + [p.value] else rest
  }

  lemma {:induction false} AllLinked(n: Names, objects: seq<Object>)
    ensures Linked(n, AllPending(n, objects))
  {
    if objects != [] {
      AllLinked(n, objects[..|objects| - 1]);
    }
  }

  /** What the walk comes to. */
  lemma {:induction false} WalkComes(n: Names, vaults: Vaults, objects: seq<Object>)
    requires Consistent(n, vaults)
    ensures Linked(n, AllPending(n, objects)) && Comes(n, vaults, AllPending(n, objects), Walk(n, vaults, objects))
  {
    AllLinked(n, objects);
    if objects == [] {
      assert AfterLock(n, vaults, {}) == vaults;
    } else {
      var init := objects[..|objects| - 1];
      WalkComes(n, vaults, init);
      var p := PendingOf(n, objects[|objects| - 1]);
      if p.Some? {
        StepComes(n, vaults, AllPending(n, init), Walk(n, vaults, init), p.value);
      }
    }
  }

  // ---- the batch ----

  function Cids(pending: seq<Pending>): (keys: seq<Id>)
    ensures |keys| == |pending| && forall i :: 0 <= i < |keys| ==> keys[i] == pending[i].cid
  {
    seq(|pending|, (i: nat) requires i < |pending| => pending[i].cid)
  }

  method ResolveAll(n: Names, objects: seq<Object>) returns (pending: seq<Pending>)
    ensures pending == AllPending(n, objects)
  {
    pending := [];
    for i := 0 to |objects|
      invariant pending == AllPending(n, objects[..i])
    {
      assert objects[..i + 1][..i] == objects[..i];
      var p := PendingOf(n, objects[i]);
      if p.Some? {
        pending := pending + [p.value];
      }
    }
    assert objects[..|objects|] == objects;
  }

  method Kept(pending: seq<Pending>, ghost vaults: Vaults, answered: array<bool>) returns (paths: seq<string>)
    requires forall i :: 0 <= i < |pending| ==> pending[i].vault in vaults
    requires answered.Length == |pending| && forall i :: 0 <= i < |pending| ==> answered[i] == Exists(pending[i], vaults)
    ensures paths == Paths(vaults, pending)
  {
    paths := [];
    for i := 0 to |pending|
      invariant paths == Paths(vaults, pending[..i])
    {
      assert pending[..i + 1][..i] == pending[..i];
      if answered[i] {
        paths := paths + [pending[i].path];
      }
    }
    assert pending[..|pending|] == pending;
  }

  /** The positions the first `g` buckets hold. */
  predicate Done(keys: seq<Id>, groups: seq<Group>, g: nat, i: nat)
    requires g <= |groups| && i < |keys|
  {
    exists h :: 0 <= h < g && groups[h].cid == keys[i]
  }

  /** The collections of the first `g` buckets that some path really names. */
  function NamedIn(vaults: Vaults, pending: seq<Pending>, groups: seq<Group>, g: nat): set<Id>
    requires g <= |groups| && forall i :: 0 <= i < |pending| ==> pending[i].vault in vaults
  {
    set h | 0 <= h < g && groups[h].cid in Named(vaults, pending) :: groups[h].cid
  }

  lemma {:induction false} NamedInGrows(vaults: Vaults, pending: seq<Pending>, groups: seq<Group>, g: nat)
    requires g < |groups| && forall i :: 0 <= i < |pending| ==> pending[i].vault in vaults
    ensures NamedIn(vaults, pending, groups, g + 1) ==
            NamedIn(vaults, pending, groups, g) + if groups[g].cid in Named(vaults, pending) then {groups[g].cid} else {}
  {
  }

  lemma {:induction false} NamedInAll(vaults: Vaults, pending: seq<Pending>, groups: seq<Group>)
    requires IsGrouping(Cids(pending), groups) && forall i :: 0 <= i < |pending| ==> pending[i].vault in vaults
    ensures NamedIn(vaults, pending, groups, |groups|) == Named(vaults, pending)
    ensures forall i :: 0 <= i < |pending| ==> Done(Cids(pending), groups, |groups|, i)
  {
    forall i | 0 <= i < |pending| ensures Done(Cids(pending), groups, |groups|, i) {
      var h := Holder(Cids(pending), groups, i);
    }
    forall c | c in Named(vaults, pending) ensures c in NamedIn(vaults, pending, groups, |groups|) {
      var i :| 0 <= i < |pending| && Exists(pending[i], vaults) && pending[i].cid == c;
      assert Done(Cids(pending), groups, |groups|, i);
    }
  }

  /** A bucket has a path that names something exactly when its collection is named. */
  lemma {:induction false} AnyIsNamed(vaults: Vaults, pending: seq<Pending>, groups: seq<Group>, g: nat)
    requires IsGrouping(Cids(pending), groups) && g < |groups| && forall i :: 0 <= i < |pending| ==> pending[i].vault in vaults
    ensures IsBucket(Cids(pending), groups[g])
    ensures groups[g].cid in Named(vaults, pending) <==>
            exists a :: 0 <= a < |groups[g].idxs| && Exists(pending[groups[g].idxs[a]], vaults)
  {
    assert IsBucket(Cids(pending), groups[g]);
    if groups[g].cid in Named(vaults, pending) {
      var i :| 0 <= i < |pending| && Exists(pending[i], vaults) && pending[i].cid == groups[g].cid;
      GroupIsKey(Cids(pending), groups, g, i);
      var a :| 0 <= a < |groups[g].idxs| && groups[g].idxs[a] == i;
    }
  }

  /** Locking what the next bucket names, if it is open. */
  lemma {:induction false} NextBucket(n: Names, vaults: Vaults, pending: seq<Pending>, groups: seq<Group>, g: nat, changed: seq<Id>)
    requires Consistent(n, vaults) && Linked(n, pending) && IsGrouping(Cids(pending), groups) && g < |groups|
    requires Announces(n, vaults, NamedIn(vaults, pending, groups, g), changed)
    ensures groups[g].cid in n.collections
    ensures var now, c := AfterLock(n, vaults, NamedIn(vaults, pending, groups, g)), groups[g].cid;
            var v := n.collections[c];
            var lock := c in Named(vaults, pending) && !now[v].locked;
            && AfterLock(n, vaults, NamedIn(vaults, pending, groups, g + 1)) == (if lock then now[v := Locked(now[v])] else now)
            && Announces(n, vaults, NamedIn(vaults, pending, groups, g + 1), if lock then changed + [c] else changed)
  {
    var cids, c := NamedIn(vaults, pending, groups, g), groups[g].cid;
    assert IsBucket(Cids(pending), groups[g]);
    assert c == pending[groups[g].idxs[0]].cid;
    NamedInGrows(vaults, pending, groups, g);
    assert c !in cids;
    AfterLockOne(n, vaults, cids, c);
    if c !in Named(vaults, pending) {
      assert NamedIn(vaults, pending, groups, g + 1) == cids;
    }
  }

  /** The marks after `g` buckets. */
  predicate Marked(vaults: Vaults, pending: seq<Pending>, groups: seq<Group>, g: nat, answered: seq<bool>)
    requires g <= |groups| && |answered| == |pending| && forall i :: 0 <= i < |pending| ==> pending[i].vault in vaults
  {
    forall i :: 0 <= i < |pending| ==> answered[i] == (Done(Cids(pending), groups, g, i) && Exists(pending[i], vaults))
  }

  /** Where the marks stand before and after a bucket. */
  lemma {:induction false} BucketFacts(n: Names, vaults: Vaults, pending: seq<Pending>, groups: seq<Group>, g: nat)
    requires IsGrouping(Cids(pending), groups) && g < |groups| && forall i :: 0 <= i < |pending| ==> pending[i].vault in vaults
    ensures forall i :: 0 <= i < |pending| ==>
              && (Done(Cids(pending), groups, g + 1, i) <==> Done(Cids(pending), groups, g, i) || i in groups[g].idxs)
              && !(Done(Cids(pending), groups, g, i) && i in groups[g].idxs)
              && (Exists(pending[i], AfterLock(n, vaults, NamedIn(vaults, pending, groups, g))) <==> Exists(pending[i], vaults))
  {
    forall i | 0 <= i < |pending|
      ensures Done(Cids(pending), groups, g + 1, i) <==> Done(Cids(pending), groups, g, i) || i in groups[g].idxs
      ensures !(Done(Cids(pending), groups, g, i) && i in groups[g].idxs)
    {
      GroupIsKey(Cids(pending), groups, g, i);
      if i in groups[g].idxs {
        assert groups[g].cid == Cids(pending)[i];
      }
    }
  }

  // ---- what the call does ----

  function NamedAt(n: Names, vaults: Vaults, objects: seq<Object>): set<nat> {
    set j: nat | j < |objects| && VaultBehind(n, vaults, objects[j]).Some?
  }

  /** Some path names something in the vault. */
  predicate Behind(n: Names, vaults: Vaults, objects: seq<Object>, v: Ref) {
    exists j :: 0 <= j < |objects| && VaultBehind(n, vaults, objects[j]) == Some(v)
  }

  /** Some path names something in the collection, and its vault is open. */
  predicate Opens(n: Names, vaults: Vaults, objects: seq<Object>, c: Id) {
    exists j :: 0 <= j < |objects| && IdBehind(n, objects[j]) == Some(c) && NamesOpen(n, vaults, objects[j])
  }

  /** An open vault some path names something in is locked and no longer pinned, its items the same;
      any other vault is as it was. */
  predicate LockedRight(before: Vault, after: Vault, behind: bool) {
    if behind && !before.locked then after.locked && !after.pinned && after.items == before.items else after == before
  }

  ghost predicate LocksExactly(n: Names, vaults: Vaults, objects: seq<Object>, after: Vaults) {
    vaults.Keys == after.Keys && forall v :: v in vaults ==> LockedRight(vaults[v], after[v], Behind(n, vaults, objects, v))
  }

  lemma {:induction false} OneNamed(n: Names, vaults: Vaults, o: Object)
    requires Consistent(n, vaults)
    ensures var p := PendingOf(n, o);
            && (VaultBehind(n, vaults, o).Some? <==> p.Some? && Exists(p.value, vaults))
            && (VaultBehind(n, vaults, o).Some? ==>
                  VaultBehind(n, vaults, o) == Some(p.value.vault) && IdBehind(n, o) == Some(p.value.cid) && p.value.path == o.path)
            && (p.Some? ==> p.value.vault in vaults)
  {
  }

  lemma {:induction false} NamedMore(n: Names, vaults: Vaults, objects: seq<Object>, o: Object)
    ensures NamedAt(n, vaults, objects + [o]) ==
              if VaultBehind(n, vaults, o).Some? then NamedAt(n, vaults, objects) + {|objects|} else NamedAt(n, vaults, objects)
  {
    assert forall j :: 0 <= j < |objects| ==> (objects + [o])[j] == objects[j];
  }

  lemma {:induction false} BehindMore(n: Names, vaults: Vaults, objects: seq<Object>, o: Object, v: Ref)
    ensures Behind(n, vaults, objects + [o], v) <==> Behind(n, vaults, objects, v) || VaultBehind(n, vaults, o) == Some(v)
  {
    var more := objects + [o];
    assert forall j :: 0 <= j < |objects| ==> more[j] == objects[j];
    assert more[|objects|] == o;
  }

  lemma {:induction false} OpensMore(n: Names, vaults: Vaults, objects: seq<Object>, o: Object, c: Id)
    ensures Opens(n, vaults, objects + [o], c) <==> Opens(n, vaults, objects, c) || (IdBehind(n, o) == Some(c) && NamesOpen(n, vaults, o))
  {
    var more := objects + [o];
    assert forall j :: 0 <= j < |objects| ==> more[j] == objects[j];
    assert more[|objects|] == o;
  }

  /** What the walk has done so far. */
  ghost predicate Walked(n: Names, vaults: Vaults, objects: seq<Object>, r: Run) {
    && LocksExactly(n, vaults, objects, r.vaults)
    && Picked(PathsOf(objects), NamedAt(n, vaults, objects), r.locked)
    && (forall c :: c in r.changed <==> Opens(n, vaults, objects, c))
  }

  lemma {:induction false} VaultsMore(n: Names, vaults: Vaults, objects: seq<Object>, o: Object, now: Vaults, after: Vaults)
    requires LocksExactly(n, vaults, objects, now)
    requires match VaultBehind(n, vaults, o)
             case None => after == now
             case Some(v) => after == if now[v].locked then now else now[v := Locked(now[v])]
    ensures LocksExactly(n, vaults, objects + [o], after)
  {
    forall v | v in vaults ensures LockedRight(vaults[v], after[v], Behind(n, vaults, objects + [o], v)) {
      BehindMore(n, vaults, objects, o, v);
      assert LockedRight(vaults[v], now[v], Behind(n, vaults, objects, v));
    }
  }

  lemma {:induction false} ChangedMore(n: Names, vaults: Vaults, objects: seq<Object>, o: Object, now: Vaults, changed: seq<Id>)
    requires Consistent(n, vaults) && LocksExactly(n, vaults, objects, now) && forall c :: c in changed <==> Opens(n, vaults, objects, c)
    ensures VaultBehind(n, vaults, o).None? ==> forall c :: c in changed <==> Opens(n, vaults, objects + [o], c)
    ensures VaultBehind(n, vaults, o).Some? && IdBehind(n, o).Some? ==>
              var more := if now[VaultBehind(n, vaults, o).value].locked then changed else changed + [IdBehind(n, o).value];
              forall c :: c in more <==> Opens(n, vaults, objects + [o], c)
  {
    forall c ensures Opens(n, vaults, objects + [o], c) <==> Opens(n, vaults, objects, c) || (IdBehind(n, o) == Some(c) && NamesOpen(n, vaults, o)) {
      OpensMore(n, vaults, objects, o, c);
    }
    if VaultBehind(n, vaults, o).Some? { AlreadyOpened(n, vaults, objects, o, now); }
  }

  /** A vault that was open and is locked by now was announced. */
  lemma {:induction false} AlreadyOpened(n: Names, vaults: Vaults, objects: seq<Object>, o: Object, now: Vaults)
    requires Consistent(n, vaults) && LocksExactly(n, vaults, objects, now) && VaultBehind(n, vaults, o).Some?
    ensures var v := VaultBehind(n, vaults, o).value;
            && IdBehind(n, o).Some? && (vaults[v].locked ==> now[v].locked)
            && (now[v].locked && !vaults[v].locked ==> Opens(n, vaults, objects, IdBehind(n, o).value))
  {
    var v := VaultBehind(n, vaults, o).value;
    assert LockedRight(vaults[v], now[v], Behind(n, vaults, objects, v));
    if Behind(n, vaults, objects, v) {
      var j :| 0 <= j < |objects| && VaultBehind(n, vaults, objects[j]) == Some(v);
      assert IdBehind(n, objects[j]) == IdBehind(n, o);
    }
  }

  lemma {:induction false} WalkedMore(n: Names, vaults: Vaults, objects: seq<Object>, o: Object, r: Run)
    requires Consistent(n, vaults) && Walked(n, vaults, objects, r)
    ensures PendingOf(n, o).Some? ==> PendingOf(n, o).value.vault in r.vaults
    ensures Walked(n, vaults, objects + [o], if PendingOf(n, o).Some? then LockOne(r, PendingOf(n, o).value) else r)
  {
    OneNamed(n, vaults, o);
    var p := PendingOf(n, o);
    if p.Some? { SameExists(n, vaults, objects, r.vaults, p.value); }
    var r' := if p.Some? then LockOne(r, p.value) else r;
    VaultsMore(n, vaults, objects, o, r.vaults, r'.vaults);
    ChangedMore(n, vaults, objects, o, r.vaults, r.changed);
    ListMore(n, vaults, objects, o, r.locked);
  }

  lemma {:induction false} SameExists(n: Names, vaults: Vaults, objects: seq<Object>, now: Vaults, p: Pending)
    requires LocksExactly(n, vaults, objects, now) && p.vault in vaults
    ensures p.vault in now && (Exists(p, now) <==> Exists(p, vaults))
  {
    assert LockedRight(vaults[p.vault], now[p.vault], Behind(n, vaults, objects, p.vault));
  }

  lemma {:induction false} ListMore(n: Names, vaults: Vaults, objects: seq<Object>, o: Object, locked: seq<string>)
    requires Picked(PathsOf(objects), NamedAt(n, vaults, objects), locked)
    ensures Picked(PathsOf(objects + [o]), NamedAt(n, vaults, objects + [o]), if VaultBehind(n, vaults, o).Some? then locked + [o.path] else locked)
  {
    NamedMore(n, vaults, objects, o);
    PathsMore(objects, o);
    PickedMore(PathsOf(objects), NamedAt(n, vaults, objects), locked, o.path);
  }

  lemma {:induction false} WalkDoes(n: Names, vaults: Vaults, objects: seq<Object>)
    requires Consistent(n, vaults)
    ensures Walked(n, vaults, objects, Walk(n, vaults, objects))
  {
    if objects == [] {
      PickedNone<string>();
      assert NamedAt(n, vaults, []) == {} && PathsOf([]) == [];
    } else {
      var init, o := objects[..|objects| - 1], objects[|objects| - 1];
      WalkDoes(n, vaults, init);
      assert objects == init + [o];
      WalkedMore(n, vaults, init, o, Walk(n, vaults, init));
    }
  }

  class Service {
    var vaults: Vaults

    constructor (vaults: Vaults)
      ensures this.vaults == vaults
    {
      this.vaults := vaults;
    }

    /** One bucket under one guard of its vault: mark the paths that name something, and say if any did. */
    method MarkBucket(vault: Ref, pending: seq<Pending>, answered: array<bool>, g: Group) returns (any: bool)
      requires vault in vaults && answered.Length == |pending| && IsBucket(Cids(pending), g)
      requires forall a :: 0 <= a < |g.idxs| ==> pending[g.idxs[a]].vault == vault && !answered[g.idxs[a]]
      modifies answered
      ensures forall i :: 0 <= i < |pending| && i !in g.idxs ==> answered[i] == old(answered[i])
      ensures forall a :: 0 <= a < |g.idxs| ==> answered[g.idxs[a]] == Exists(pending[g.idxs[a]], vaults)
      ensures any <==> exists a :: 0 <= a < |g.idxs| && Exists(pending[g.idxs[a]], vaults)
    {
      any := false;
      for k := 0 to |g.idxs|
        invariant forall i :: 0 <= i < |pending| && i !in g.idxs ==> answered[i] == old(answered[i])
        invariant forall a :: 0 <= a < k ==> answered[g.idxs[a]] == Exists(pending[g.idxs[a]], vaults)
        invariant forall a :: k <= a < |g.idxs| ==> !answered[g.idxs[a]]
        invariant any <==> exists a :: 0 <= a < k && Exists(pending[g.idxs[a]], vaults)
      {
        var i := g.idxs[k];
        if pending[i].item.None? || pending[i].item.value in vaults[vault].items {
          answered[i] := true;
          any := true;
        }
      }
    }
  
    /** One bucket: mark its paths, and lock its vault if any of them names something and it is open. */
    method LockBucket(ghost n: Names, ghost v0: Vaults, pending: seq<Pending>, answered: array<bool>, groups: seq<Group>, g: nat,
                      changed: seq<Id>)
      returns (more: seq<Id>)
      requires Consistent(n, v0) && Linked(n, pending) && IsGrouping(Cids(pending), groups) && g < |groups|
      requires vaults == AfterLock(n, v0, NamedIn(v0, pending, groups, g))
      requires Announces(n, v0, NamedIn(v0, pending, groups, g), changed)
      requires answered.Length == |pending| && Marked(v0, pending, groups, g, answered[..])
      modifies this, answered
      ensures vaults == AfterLock(n, v0, NamedIn(v0, pending, groups, g + 1))
      ensures Announces(n, v0, NamedIn(v0, pending, groups, g + 1), more)
      ensures Marked(v0, pending, groups, g + 1, answered[..])
    {
      var cid, vault := groups[g].cid, pending[groups[g].idxs[0]].vault;
      AnyIsNamed(v0, pending, groups, g);
      NextBucket(n, v0, pending, groups, g, changed);
      BucketFacts(n, v0, pending, groups, g);
      ghost var was := answered[..];
      var any := MarkBucket(vault, pending, answered, groups[g]);
      assert Marked(v0, pending, groups, g + 1, answered[..]) by {
        forall i | 0 <= i < |pending|
          ensures answered[..][i] == (Done(Cids(pending), groups, g + 1, i) && Exists(pending[i], v0))
        {
          assert was[i] == (Done(Cids(pending), groups, g, i) && Exists(pending[i], v0));
        }
      }
      more := changed;
      if any && !vaults[vault].locked {
        vaults := vaults[vault := Locked(vaults[vault])];
        more := changed + [cid];
      }
    }

    method LockGroups(ghost n: Names, pending: seq<Pending>, answered: array<bool>, groups: seq<Group>) returns (changed: seq<Id>)
      requires Consistent(n, vaults) && Linked(n, pending) && IsGrouping(Cids(pending), groups)
      requires answered.Length == |pending| && forall i :: 0 <= i < |pending| ==> !answered[i]
      modifies this, answered
      ensures vaults == AfterLock(n, old(vaults), Named(old(vaults), pending))
      ensures Announces(n, old(vaults), Named(old(vaults), pending), changed)
      ensures forall i :: 0 <= i < |pending| ==> answered[i] == Exists(pending[i], old(vaults))
    {
      changed := [];
      ghost var v0 := vaults;
      assert AfterLock(n, v0, {}) == v0;
      for g := 0 to |groups|
        invariant vaults == AfterLock(n, v0, NamedIn(v0, pending, groups, g))
        invariant Announces(n, v0, NamedIn(v0, pending, groups, g), changed)
        invariant Marked(v0, pending, groups, g, answered[..])
      {
        changed := LockBucket(n, v0, pending, answered, groups, g, changed);
      }
      NamedInAll(v0, pending, groups);
      assert forall i :: 0 <= i < |pending| ==> answered[i] == answered[..][i];
    }

    /** The batched call leaves the reply and the vaults the walk over single paths leaves, and
        announces the same collections, each once. */
    method Lock(n: Names, objects: seq<Object>) returns (locked: Option<seq<string>>, changed: seq<Id>)
      requires Consistent(n, vaults)
      modifies this
      ensures |objects| > MAX_LOCK_OBJECTS ==> locked.None? && changed == [] && vaults == old(vaults)
      ensures |objects| <= MAX_LOCK_OBJECTS ==>
                && LocksExactly(n, old(vaults), objects, vaults)
                && locked.Some? && Picked(PathsOf(objects), NamedAt(n, old(vaults), objects), locked.value)
                && (forall c :: c in changed <==> Opens(n, old(vaults), objects, c))
      ensures |objects| <= MAX_LOCK_OBJECTS ==>
                var walk := Walk(n, old(vaults), objects);
                && locked == Some(walk.locked) && vaults == walk.vaults
                && (forall c :: c in changed <==> c in walk.changed)
                && (forall i, j :: 0 <= i < j < |changed| ==> changed[i] != changed[j])
    {
      if |objects| > MAX_LOCK_OBJECTS {
        return None, [];
      }
      ghost var v0 := vaults;
      WalkComes(n, v0, objects);
      WalkDoes(n, v0, objects);
      var pending := ResolveAll(n, objects);
      var answered := new bool[|pending|](i => false);
      var groups := GroupByCollection(Cids(pending));
      changed := LockGroups(n, pending, answered, groups);
      var paths := Kept(pending, v0, answered);
      locked := Some(paths);
    }
  }
}
