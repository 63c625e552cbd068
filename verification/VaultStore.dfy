/**
 One vault behind its own lock: what is in memory, the sealed bytes it was last written as, and the
 file.  Sealing is ideal: a sealed vault opens under the key it was sealed with and no other.
 */
module VaultStore {
  import opened Options
  import opened VaultIndex
  import opened Selection

  type Key = string

  /** The header in the clear.  `nonce` is fresh for every save. */
  datatype Header = Header(salt: string, kdf: nat, indexSalt: string, nonce: nat, modified: nat, index: Index)

  /** Header, key and items of one successful seal. */
  datatype Sealed = Sealed(header: Header, key: Key, items: seq<Item>)

  datatype Memory = Locked | Unlocked(key: Key, items: seq<Item>)

  datatype Error =
    | Retired | IsLocked | WrongPassword | NoSuchItem(id: string) | ItemTooLarge | BadKdf | SaltReused
    | NoEntropy | HeaderTooLarge | EncodeFailed | SealFailed | FileTooLarge | PublishFailed
  datatype Result<T> = Ok(value: T) | Err(error: Error)

  /** What the clock, the random source and every step of one save will say. */
  datatype Attempt = Attempt(now: nat, nonce: Option<nat>, headerOk: bool, encodeOk: bool, sealOk: bool, sizeOk: bool, publishOk: bool)

  /** The first step of a save to fail. */
  function Fault(a: Attempt): Option<Error> {
    if a.nonce.None? then Some(NoEntropy)
    else if !a.headerOk then Some(HeaderTooLarge)
    else if !a.encodeOk then Some(EncodeFailed)
    else if !a.sealOk then Some(SealFailed)
    else if !a.sizeOk then Some(FileTooLarge)
    else if !a.publishOk then Some(PublishFailed) else None
  }

  predicate Saves(a: Attempt) {
    Fault(a).None?
  }

  // ---- undoing one change of the item list ----

  datatype ItemDelta =
    | Pushed
    | Replaced(index: nat, prior: Item)
    | Removed(index: nat, prior: Item)
    | RemovedMany(removed: seq<(nat, Item)>)

  function InsertAt(items: seq<Item>, index: nat, item: Item): seq<Item> {
    if index <= |items| then items[..index] + [item] + items[index..] else items
  }

  function ReinsertAll(items: seq<Item>, removed: seq<(nat, Item)>): seq<Item> {
    if removed == [] then items
    else
      var r := removed[|removed| - 1];
      InsertAt(ReinsertAll(items, removed[..|removed| - 1]), r.0, r.1)
  }

  function Restored(items: seq<Item>, delta: ItemDelta): seq<Item> {
    match delta
    case Pushed => if items == [] then [] else items[..|items| - 1]
    case Replaced(index, prior) => if index < |items| then items[index := prior] else items
    case Removed(index, prior) => InsertAt(items, index, prior)
    case RemovedMany(removed) => ReinsertAll(items, removed)
  }

  /** One pass over the list: what stays, and what goes with where it sat. */
  function Kept(items: seq<Item>, doomed: set<string>): seq<Item> {
    if items == [] then []
    else Kept(items[..|items| - 1], doomed) + if items[|items| - 1].id in doomed then [] else [items[|items| - 1]]
  }

  function Gone(items: seq<Item>, doomed: set<string>): seq<(nat, Item)> {
    if items == [] then []
    else
      var m := |items| - 1;
      Gone(items[..m], doomed) + if items[m].id in doomed then [(m, items[m])] else []
  }

  /** Every index is within the list by the time it is used. */
  predicate Lands(n: nat, removed: seq<(nat, Item)>) {
    forall j :: 0 <= j < |removed| ==> removed[j].0 <= n + j
  }

  lemma {:induction false} ReinsertLength(items: seq<Item>, removed: seq<(nat, Item)>)
    requires Lands(|items|, removed)
    ensures |ReinsertAll(items, removed)| == |items| + |removed|
  {
    if removed != [] {
      ReinsertLength(items, removed[..|removed| - 1]);
    }
  }

  lemma {:induction false} ReinsertBefore(items: seq<Item>, removed: seq<(nat, Item)>, x: Item)
    requires Lands(|items|, removed)
    ensures ReinsertAll(items + [x], removed) == ReinsertAll(items, removed) + [x]
  {
    if removed != [] {
      var init, r := removed[..|removed| - 1], removed[|removed| - 1];
      ReinsertBefore(items, init, x);
      ReinsertLength(items, init);
      var a := ReinsertAll(items, init);
      assert (a + [x])[..r.0] == a[..r.0] && (a + [x])[r.0..] == a[r.0..] + [x];
    }
  }

  lemma {:induction false} PassCounts(items: seq<Item>, doomed: set<string>)
    ensures |Kept(items, doomed)| + |Gone(items, doomed)| == |items| && Lands(|Kept(items, doomed)|, Gone(items, doomed))
  {
    if items != [] {
      PassCounts(items[..|items| - 1], doomed);
    }
  }

  /** Putting the removed items back, in the order they were collected, restores the list exactly. */
  lemma {:induction false} ReinsertRestores(items: seq<Item>, doomed: set<string>)
    ensures ReinsertAll(Kept(items, doomed), Gone(items, doomed)) == items
  {
    if items != [] {
      var m := |items| - 1;
      var init := items[..m];
      ReinsertRestores(init, doomed);
      PassCounts(init, doomed);
      assert items == init + [items[m]];
      if items[m].id in doomed {
        assert Gone(items, doomed)[..|Gone(init, doomed)|] == Gone(init, doomed);
        assert Kept(items, doomed) == Kept(init, doomed);
        assert init[..m] == init && init[m..] == [];
      } else {
        assert Kept(items, doomed) == Kept(init, doomed) + [items[m]] && Gone(items, doomed) == Gone(init, doomed);
        ReinsertBefore(Kept(init, doomed), Gone(init, doomed), items[m]);
      }
    }
  }

  // ---- looking things up ----

  function Position(items: seq<Item>, id: string): (p: Option<nat>)
    ensures p.Some? ==> p.value < |items| && items[p.value].id == id && forall j :: 0 <= j < p.value ==> items[j].id != id
    ensures p.None? ==> forall j :: 0 <= j < |items| ==> items[j].id != id
  {
    if items == [] then None
    else if items[0].id == id then Some(0)
    else
      var p := Position(items[1..], id);
      if p.None? then None else Some(p.value + 1)
  }

  function MatchAt(items: seq<Item>, attributes: map<string, string>): (p: Option<nat>)
    ensures p.Some? ==> p.value < |items| && items[p.value].attributes == attributes &&
                        forall j :: 0 <= j < p.value ==> items[j].attributes != attributes
    ensures p.None? ==> forall j :: 0 <= j < |items| ==> items[j].attributes != attributes
  {
    if items == [] then None
    else if items[0].attributes == attributes then Some(0)
    else
      var p := MatchAt(items[1..], attributes);
      if p.None? then None else Some(p.value + 1)
  }

  function FirstMissing(items: seq<Item>, ids: seq<string>): Option<string> {
    if ids == [] then None
    else if Position(items, ids[0]).None? then Some(ids[0]) else FirstMissing(items, ids[1..])
  }

  /** The first id in the order given that no item has. */
  predicate FirstUnknown(items: seq<Item>, ids: seq<string>, k: nat) {
    k < |ids| && (forall i :: 0 <= i < |items| ==> items[i].id != ids[k]) &&
    forall j :: 0 <= j < k ==> exists i :: 0 <= i < |items| && items[i].id == ids[j]
  }

  predicate AllKnown(items: seq<Item>, ids: seq<string>) {
    forall j :: 0 <= j < |ids| ==> exists i :: 0 <= i < |items| && items[i].id == ids[j]
  }

  lemma {:induction false} FirstMissingIs(items: seq<Item>, ids: seq<string>, k: nat)
    ensures FirstUnknown(items, ids, k) ==> FirstMissing(items, ids) == Some(ids[k])
    ensures FirstMissing(items, ids).None? <==> AllKnown(items, ids)
  {
    if ids != [] {
      var p := Position(items, ids[0]);
      FirstMissingIs(items, ids[1..], if k > 0 then k - 1 else 0);
      assert forall j :: 0 < j < |ids| ==> ids[j] == ids[1..][j - 1];
      if p.Some? {
        assert items[p.value].id == ids[0];
        assert AllKnown(items, ids) <==> AllKnown(items, ids[1..]);
        if k > 0 && FirstUnknown(items, ids, k) { assert FirstUnknown(items, ids[1..], k - 1); }
      }
    }
  }

  /** The places of the items that stay. */
  function StaysAt(items: seq<Item>, ids: seq<string>): set<nat> {
    set j: nat | j < |items| && items[j].id !in ids
  }

  lemma {:induction false} KeptPicks(items: seq<Item>, ids: seq<string>, doomed: set<string>)
    requires forall id :: id in doomed <==> id in ids
    ensures Picked(items, StaysAt(items, ids), Kept(items, doomed))
  {
    if items == [] {
      PickedNone<Item>();
      assert StaysAt(items, ids) == {};
    } else {
      var m := |items| - 1;
      KeptPicks(items[..m], ids, doomed);
      PickedMore(items[..m], StaysAt(items[..m], ids), Kept(items[..m], doomed), items[m]);
      assert items == items[..m] + [items[m]];
      if items[m].id in doomed {
        assert StaysAt(items, ids) == StaysAt(items[..m], ids) && Kept(items, doomed) == Kept(items[..m], doomed);
      } else {
        assert StaysAt(items, ids) == StaysAt(items[..m], ids) + {m};
      }
    }
  }

  // ---- the file against writers and deletes ----

  datatype Disk = Disk(file: bool, retired: bool, locked: bool)

  /** One guard of the vault: a saving write, a confirmed delete, a lock, an unlock with the right key,
      which may re-save the index, or a key rotation.  The flag says whether a save in it would reach
      the file, or the unlink succeed. */
  datatype Op = Write(ok: bool) | Delete(ok: bool) | LockIt | Open(resave: bool) | Rotate(saves: bool)

  function Do(d: Disk, op: Op): Disk {
    match op
    case Write(ok) => if ok && !d.retired && !d.locked then d.(file := true) else d
    case Delete(ok) =>
      if d.locked then d
      else if ok && d.file then d.(file := false, retired := true)
      else d.(retired := false)
    case LockIt => d.(locked := true)
    case Open(resave) =>
      if d.retired || !d.locked then d else d.(locked := false, file := d.file || resave)
    case Rotate(saves) => if saves && !d.retired then d.(file := true) else d
  }

  class Vault {
    var header: Header
    var sealed: Sealed
    var memory: Memory
    var retired: bool
    var pinned: bool
    var indexAttributes: bool        // the policy the index is to follow
    var indexWarning: bool           // the last unlock could not bring it in line
    var file: Option<Sealed>

    /** Memory, cached bytes and file tell the same story, the index is of the sealed items, and only
        an open vault is pinned. */
    ghost predicate Valid()
      reads this
    {
      && header == sealed.header && Indexed(header.index, header.indexSalt, sealed.items)
      && (memory.Unlocked? ==> memory.key == sealed.key && memory.items == sealed.items)
      && (file.Some? ==> file.value == sealed)
      && (pinned ==> memory.Unlocked?)
    }

    function OnDisk(): Disk
      reads this
    {
      Disk(file.Some?, retired, memory.Locked?)
    }

    /** The index does not follow the policy. */
    predicate Stale()
      reads this
    {
      HasAttributes(header.index) != (indexAttributes && AnyAttributes(sealed.items))
    }

    /** `open`: a vault as read from a file some save wrote. */
    constructor (file: Sealed)
      requires Indexed(file.header.index, file.header.indexSalt, file.items)
      ensures Valid() && OnDisk() == Disk(true, false, true) && sealed == file && indexAttributes
    {
      header, sealed, memory, retired, this.file := file.header, file, Locked, false, Some(file);
      pinned, indexAttributes, indexWarning := false, true, false;
    }

    method SetIndexAttributes(enabled: bool)
      requires Valid()
      modifies this`indexAttributes
      ensures Valid() && indexAttributes == enabled
    {
      indexAttributes := enabled;
    }

    method Lock()
      requires Valid()
      modifies this`memory, this`pinned
      ensures Valid() && memory.Locked? && !pinned && OnDisk() == Do(old(OnDisk()), LockIt)
    {
      memory, pinned := Locked, false;
    }

    /** A search answered from the header, locked or not: what a search of the items would find, if the
        index holds their attributes. */
    method FindIds(query: Attributes) returns (ids: seq<string>)
      requires Valid()
      ensures HasAttributes(header.index) || query == map[] ==> Picked(IdsOf(sealed.items), MatchesAt(sealed.items, query), ids)
      ensures !HasAttributes(header.index) && query != map[] ==> ids == []
    {
      ids := SearchIds(header.index, header.indexSalt, query);
      SearchPicks(sealed.items, query);
      LockedSearch(header.indexSalt, sealed.items, true, query);
      LockedSearch(header.indexSalt, sealed.items, false, query);
      HasWhen(header.indexSalt, sealed.items, false);
      if !HasAttributes(header.index) && query != map[] {
        DigestsEmpty(header.indexSalt, query);
        NoneMatch(header.index, Digests(header.indexSalt, query));
      }
    }

    /** `save`: the first step to fail names the error, and a failure of any kind leaves the vault
        exactly as it was. */
    method Save(a: Attempt) returns (r: Result<()>)
      modifies this`header, this`sealed, this`file
      ensures r == if retired then Err(Retired) else if memory.Locked? then Err(IsLocked)
                   else if Saves(a) then Ok(()) else Err(Fault(a).value)
      ensures !retired && memory.Unlocked? ==>
                && (a.nonce.None? ==> r == Err(NoEntropy))
                && (a.nonce.Some? && !a.headerOk ==> r == Err(HeaderTooLarge))
                && (a.nonce.Some? && a.headerOk && !a.encodeOk ==> r == Err(EncodeFailed))
                && (a.nonce.Some? && a.headerOk && a.encodeOk && !a.sealOk ==> r == Err(SealFailed))
                && (a.nonce.Some? && a.headerOk && a.encodeOk && a.sealOk && !a.sizeOk ==> r == Err(FileTooLarge))
      ensures r.Ok? <==> !retired && memory.Unlocked? && a.nonce.Some? && a.headerOk && a.encodeOk && a.sealOk && a.sizeOk && a.publishOk
      ensures r.Err? ==> header == old(header) && sealed == old(sealed) && file == old(file)
      ensures r.Ok? ==> header == old(header).(nonce := a.nonce.value, modified := a.now,
                                               index := BuildIndex(old(header).indexSalt, memory.items, indexAttributes))
      ensures r.Ok? ==> sealed == Sealed(header, memory.key, memory.items) && file == Some(sealed)
    {
      if retired {
        return Err(Retired);
      }
      if memory.Locked? {
        return Err(IsLocked);
      }
      if a.nonce.None? {
        return Err(NoEntropy);
      }
      var savedHeader := header;
      header := header.(modified := a.now);
      header := header.(nonce := a.nonce.value);
      header := header.(index := BuildIndex(header.indexSalt, memory.items, indexAttributes));
      if !a.headerOk {
        header := savedHeader;
        return Err(HeaderTooLarge);
      }
      if !a.encodeOk {
        header := savedHeader;
        return Err(EncodeFailed);
      }
      if !a.sealOk {
        header := savedHeader;
        return Err(SealFailed);
      }
      if !a.sizeOk {
        header := savedHeader;
        return Err(FileTooLarge);
      }
      if !a.publishOk {
        header := savedHeader;
        return Err(PublishFailed);
      }
      sealed := Sealed(header, memory.key, memory.items);
      file := Some(sealed);
      r := Ok(());
    }

    method ReinsertEach(removed: seq<(nat, Item)>)
      requires memory.Unlocked?
      modifies this`memory
      ensures memory == old(memory).(items := ReinsertAll(old(memory).items, removed))
    {
      for k := 0 to |removed|
        invariant memory == old(memory).(items := ReinsertAll(old(memory).items, removed[..k]))
      {
        assert removed[..k + 1][..k] == removed[..k];
        var index, prior := removed[k].0, removed[k].1;
        if index <= |memory.items| {
          memory := memory.(items := memory.items[..index] + [prior] + memory.items[index..]);
        }
      }
      assert removed[..|removed|] == removed;
    }

    method RestoreDelta(delta: ItemDelta)
      modifies this`memory
      ensures memory == if old(memory).Locked? then Locked else old(memory).(items := Restored(old(memory).items, delta))
    {
      if memory.Locked? {
        return;
      }
      match delta {
        case Pushed => if memory.items != [] { memory := memory.(items := memory.items[..|memory.items| - 1]); }
        case Replaced(index, prior) => if index < |memory.items| { memory := memory.(items := memory.items[index := prior]); }
        case Removed(index, prior) => memory := memory.(items := InsertAt(memory.items, index, prior));
        case RemovedMany(removed) => ReinsertEach(removed);
      }
    }

    /** `save_or_restore` on an item list already changed: all of it reaches the file, or none. */
    method SaveOrRestore(ghost before: seq<Item>, delta: ItemDelta, a: Attempt) returns (r: Result<()>)
      requires memory.Unlocked? && Restored(memory.items, delta) == before
      requires header == sealed.header && memory.key == sealed.key && before == sealed.items
      requires Indexed(header.index, header.indexSalt, before)
      requires file.Some? ==> file.value == sealed
      modifies this`header, this`sealed, this`file, this`memory
      ensures header == sealed.header && memory.Unlocked? && memory.key == sealed.key && memory.items == sealed.items
      ensures Indexed(header.index, header.indexSalt, sealed.items)
      ensures file.Some? ==> file.value == sealed
      ensures r == if retired then Err(Retired) else if Saves(a) then Ok(()) else Err(Fault(a).value)
      ensures r.Err? ==> memory.items == before && memory.key == old(memory).key && file == old(file) && sealed == old(sealed)
      ensures r.Ok? ==> memory == old(memory) && file == Some(sealed)
    {
      r := Save(a);
      if r.Err? {
        RestoreDelta(delta);
      }
    }
  
    /** Every item writer comes to this: the new list is in memory and in the file, or the vault is as
        it was. */
    twostate predicate AllOrNothing(r: bool, items: seq<Item>)
      reads this
    {
      && Valid() && retired == old(retired)
      && (r ==> old(memory).Unlocked? && memory == old(memory).(items := items) && file == Some(sealed))
      && (!r ==> memory == old(memory) && sealed == old(sealed) && file == old(file))
    }

    /** A new list with the step that undoes it: all of it reaches the file, or none. */
    method PutItems(items: seq<Item>, delta: ItemDelta, a: Attempt) returns (r: Result<()>)
      requires Valid() && memory.Unlocked? && Restored(items, delta) == memory.items
      modifies this`header, this`sealed, this`file, this`memory
      ensures memory.Unlocked? && AllOrNothing(r.Ok?, items)
      ensures r == if retired then Err(Retired) else if Saves(a) then Ok(()) else Err(Fault(a).value)
      ensures OnDisk() == Do(old(OnDisk()), Write(Saves(a)))
    {
      ghost var before := memory.items;
      memory := memory.(items := items);
      r := SaveOrRestore(before, delta, a);
    }

    method InsertItem(title: string, attributes: map<string, string>, secret: string, contentType: string, replace: bool,
                      newId: string, t: nat, capsOk: bool, a: Attempt)
      returns (r: Result<(string, bool)>)
      requires Valid()
      modifies this`header, this`sealed, this`file, this`memory
      ensures memory.Locked? <==> old(memory).Locked?
      ensures old(memory).Locked? ==> r == Err(IsLocked)
      ensures r.Ok? <==> old(memory).Unlocked? && capsOk && Saves(a) && !retired
      ensures old(memory).Unlocked? ==>
                var items := old(memory).items;
                var p := if replace then MatchAt(items, attributes) else None;
                if p.Some?
                then AllOrNothing(r.Ok?, items[p.value := items[p.value].(title := title, secret := secret, contentType := contentType, modified := t)])
                     && (r.Ok? ==> r.value == (items[p.value].id, true))
                else AllOrNothing(r.Ok?, items + [Item(newId, title, attributes, secret, contentType, t, t)])
                     && (r.Ok? ==> r.value == (newId, false))
      ensures OnDisk() == Do(old(OnDisk()), Write(capsOk && Saves(a)))
    {
      if memory.Locked? {
        return Err(IsLocked);
      }
      if !capsOk {
        return Err(ItemTooLarge);
      }
      var items := memory.items;
      var pos := if replace then MatchAt(items, attributes) else None;
      if pos.Some? {
        var prior := items[pos.value];
        var item := prior.(title := title, secret := secret, contentType := contentType, modified := t);
        assert items[pos.value := item][pos.value := prior] == items;
        var saved := PutItems(items[pos.value := item], Replaced(pos.value, prior), a);
        r := if saved.Ok? then Ok((prior.id, true)) else Err(saved.error);
      } else {
        var item := Item(newId, title, attributes, secret, contentType, t, t);
        assert (items + [item])[..|items|] == items;
        var saved := PutItems(items + [item], Pushed, a);
        r := if saved.Ok? then Ok((newId, false)) else Err(saved.error);
      }
    }

    method UpdateItem(id: string, f: Item -> Item, t: nat, fits: Item -> bool, a: Attempt) returns (r: Result<()>)
      requires Valid()
      modifies this`header, this`sealed, this`file, this`memory
      ensures memory.Locked? <==> old(memory).Locked?
      ensures old(memory).Locked? ==> r == Err(IsLocked)
      ensures old(memory).Unlocked? ==>
                var items := old(memory).items;
                var p := Position(items, id);
                if p.None? then r == Err(NoSuchItem(id)) && AllOrNothing(false, items)
                else
                  var item := f(items[p.value]).(modified := t);
                  (r.Ok? <==> fits(item) && Saves(a) && !retired) && AllOrNothing(r.Ok?, items[p.value := item])
      ensures OnDisk() == Do(old(OnDisk()), Write(r.Ok?))
    {
      if memory.Locked? {
        return Err(IsLocked);
      }
      var items := memory.items;
      var pos := Position(items, id);
      if pos.None? {
        return Err(NoSuchItem(id));
      }
      var prior := items[pos.value];
      memory := memory.(items := items[pos.value := f(prior).(modified := t)]);
      if !fits(memory.items[pos.value]) {
        memory := memory.(items := memory.items[pos.value := prior]);
        assert memory.items == items;
        return Err(ItemTooLarge);
      }
      assert memory.items[pos.value := prior] == items;
      r := SaveOrRestore(items, Replaced(pos.value, prior), a);
    }

    method DeleteItem(id: string, a: Attempt) returns (r: Result<()>)
      requires Valid()
      modifies this`header, this`sealed, this`file, this`memory
      ensures memory.Locked? <==> old(memory).Locked?
      ensures old(memory).Locked? ==> r == Err(IsLocked)
      ensures old(memory).Unlocked? ==>
                var items := old(memory).items;
                var p := Position(items, id);
                if p.None? then r == Err(NoSuchItem(id)) && AllOrNothing(false, items)
                else (r.Ok? <==> Saves(a) && !retired) && AllOrNothing(r.Ok?, items[..p.value] + items[p.value + 1..])
      ensures OnDisk() == Do(old(OnDisk()), Write(r.Ok?))
    {
      if memory.Locked? {
        return Err(IsLocked);
      }
      var items := memory.items;
      var pos := Position(items, id);
      if pos.None? {
        return Err(NoSuchItem(id));
      }
      var prior := items[pos.value];
      var rest := items[..pos.value] + items[pos.value + 1..];
      assert InsertAt(rest, pos.value, prior) == items;
      r := PutItems(rest, Removed(pos.value, prior), a);
    }

    /** Several items in one save; an unknown id, the first in the order given, refuses the batch. */
    method DeleteItems(ids: seq<string>, a: Attempt) returns (r: Result<()>)
      requires Valid()
      modifies this`header, this`sealed, this`file, this`memory
      ensures memory.Locked? <==> old(memory).Locked?
      ensures ids == [] ==> r == Ok(()) && unchanged(this)
      ensures ids != [] && old(memory).Locked? ==> r == Err(IsLocked)
      ensures ids != [] && old(memory).Unlocked? ==>
                var items := old(memory).items;
                && (forall k: nat :: FirstUnknown(items, ids, k) ==> r == Err(NoSuchItem(ids[k])))
                && (r.Ok? <==> AllKnown(items, ids) && Saves(a) && !retired)
                && (r.Ok? ==> Picked(items, StaysAt(items, ids), memory.items))
                && AllOrNothing(r.Ok?, if memory.Unlocked? then memory.items else [])
      ensures ids != [] ==> OnDisk() == Do(old(OnDisk()), Write(r.Ok?))
    {
      if ids == [] {
        return Ok(());
      }
      if memory.Locked? {
        return Err(IsLocked);
      }
      var items := memory.items;
      forall k: nat ensures FirstUnknown(items, ids, k) ==> FirstMissing(items, ids) == Some(ids[k]) {
        FirstMissingIs(items, ids, k);
      }
      FirstMissingIs(items, ids, 0);
      KeptPicks(items, ids, set id | id in ids);
      var missing := FindMissing(items, ids);
      if missing.Some? {
        return Err(NoSuchItem(missing.value));
      }
      var kept, removed := OnePass(items, set id | id in ids);
      ReinsertRestores(items, set id | id in ids);
      r := PutItems(kept, RemovedMany(removed), a);
    }

    /** The block of a confirmed delete: retire and unlink under one guard. */
    method DeleteFile(ok: bool) returns (deleted: bool)
      requires Valid()
      modifies this`retired, this`file
      ensures Valid() && OnDisk() == Do(old(OnDisk()), Delete(ok))
      ensures deleted <==> old(memory).Unlocked? && old(file).Some? && ok
      ensures deleted ==> retired && file.None?
      ensures !deleted && !old(retired) ==> unchanged(this)
    {
      if memory.Locked? {
        return false;
      }
      retired := true;
      if !ok || file.None? {
        retired := false;
        return false;
      }
      file := None;
      deleted := true;
    }

    /** `unlock_with_key`: a successful unlock re-saves an index that does not follow the policy, and
        warns exactly when it could not. */
    method UnlockWithKey(key: Key, a: Attempt) returns (r: Result<()>)
      requires Valid()
      modifies this`header, this`sealed, this`file, this`memory, this`indexWarning
      ensures Valid()
      ensures r == if retired then Err(Retired) else if key != old(sealed).key then Err(WrongPassword) else Ok(())
      ensures r.Err? ==> unchanged(this)
      ensures r.Ok? ==> memory == Unlocked(key, old(sealed).items) && sealed.items == old(sealed).items && sealed.key == key
      ensures header == old(header).(nonce := header.nonce, modified := header.modified, index := header.index)
      ensures r.Ok? && old(memory).Locked? ==>
                (indexWarning <==> old(Stale()) && !Saves(a)) &&
                (!indexWarning <==> header.index == BuildIndex(header.indexSalt, sealed.items, indexAttributes))
      ensures r.Ok? ==> OnDisk() == Do(old(OnDisk()), Open(old(Stale()) && Saves(a)))
    {
      if retired {
        return Err(Retired);
      }
      if memory.Unlocked? {
        return if memory.key == key then Ok(()) else Err(WrongPassword);
      }
      if sealed.key != key {
        return Err(WrongPassword);
      }
      StaleExactly(header.index, header.indexSalt, sealed.items, indexAttributes);
      memory := Unlocked(key, sealed.items);
      var wants := indexAttributes && AnyAttributes(memory.items);
      if HasAttributes(header.index) != wants {
        var saved := Save(a);
        indexWarning := saved.Err?;
      } else {
        indexWarning := false;
      }
      r := Ok(());
    }

    /** The control socket's unlock: the pin always reflects the last successful unlock. */
    method UnlockAndPin(key: Key, pin: bool, a: Attempt) returns (r: Result<()>)
      requires Valid()
      modifies this`header, this`sealed, this`file, this`memory, this`indexWarning, this`pinned
      ensures Valid()
      ensures r == if retired then Err(Retired) else if key != old(sealed).key then Err(WrongPassword) else Ok(())
      ensures r.Err? ==> unchanged(this)
      ensures r.Ok? ==> memory == Unlocked(key, old(sealed).items) && pinned == pin
    {
      r := UnlockWithKey(key, a);
      if r.Ok? {
        pinned := pin;
      }
    }

    /** The idle timer: a pinned vault is left alone. */
    method IdleLock() returns (locked: bool)
      requires Valid()
      modifies this`memory, this`pinned
      ensures Valid() && (locked <==> old(memory).Unlocked? && !old(pinned))
      ensures if locked then memory.Locked? && !pinned else memory == old(memory) && pinned == old(pinned)
    {
      if pinned || memory.Locked? {
        return false;
      }
      Lock();
      locked := true;
    }

    /** The rotation's first half: a locked vault is opened with the old key, an open one must have it. */
    method OpenOrVerify(oldKey: Key, a: Attempt) returns (r: Result<()>)
      requires Valid()
      modifies this`header, this`sealed, this`file, this`memory, this`indexWarning
      ensures Valid() && sealed.key == old(sealed).key && sealed.items == old(sealed).items
      ensures header.salt == old(header).salt && header.kdf == old(header).kdf && header.indexSalt == old(header).indexSalt
      ensures r.Ok? <==> oldKey == old(sealed).key && (old(memory).Unlocked? || !retired)
      ensures r.Err? ==> unchanged(this)
      ensures r.Ok? ==> memory.Unlocked? && memory.key == oldKey
      ensures file.Some? <==> old(file).Some? || (r.Ok? && old(memory).Locked? && old(Stale()) && Saves(a))
    {
      if memory.Locked? {
        r := UnlockWithKey(oldKey, a);
      } else {
        r := if memory.key == oldKey then Ok(()) else Err(WrongPassword);
      }
    }

    /** The rotation has passed every check but the saves. */
    predicate MayRotate(oldKey: Key, newSalt: string, kdfOk: bool, newIndexSalt: Option<string>)
      reads this
    {
      kdfOk && newSalt != header.salt && newIndexSalt.Some? && !retired && oldKey == sealed.key
    }

    /** Key rotation: the new key opens the vault afterwards, or the old one still does. */
    method ChangeKey(oldKey: Key, newSalt: string, newKdf: nat, kdfOk: bool, newKey: Key, newIndexSalt: Option<string>,
                     unlocking: Attempt, a: Attempt)
      returns (r: Result<()>)
      requires Valid()
      modifies this`header, this`sealed, this`file, this`memory, this`indexWarning, this`pinned
      ensures Valid() && (memory.Locked? <==> old(memory).Locked?)
      ensures sealed.items == old(sealed).items && (pinned == old(pinned) || old(memory).Locked?)
      ensures r.Ok? ==> sealed.key == newKey && header.salt == newSalt && header.kdf == newKdf &&
                        newIndexSalt == Some(header.indexSalt) && file == Some(sealed)
      ensures r.Err? ==> sealed.key == old(sealed).key && header.salt == old(header).salt && header.kdf == old(header).kdf &&
                         header.indexSalt == old(header).indexSalt
      ensures r.Ok? <==> old(MayRotate(oldKey, newSalt, kdfOk, newIndexSalt)) && Saves(a)
      ensures OnDisk() == Do(old(OnDisk()), Rotate(old(MayRotate(oldKey, newSalt, kdfOk, newIndexSalt)) &&
                                                   (Saves(a) || (old(memory).Locked? && old(Stale()) && Saves(unlocking)))))
    {
      if !kdfOk {
        return Err(BadKdf);
      }
      if newSalt == header.salt {
        return Err(SaltReused);
      }
      if newIndexSalt.None? {
        return Err(NoEntropy);
      }
      r := OpenAndReseal(oldKey, newSalt, newKdf, newKey, newIndexSalt.value, unlocking, a);
    }

    /** Past the checks that touch nothing. */
    method OpenAndReseal(oldKey: Key, newSalt: string, newKdf: nat, newKey: Key, newIndexSalt: string, unlocking: Attempt, a: Attempt)
      returns (r: Result<()>)
      requires Valid()
      modifies this`header, this`sealed, this`file, this`memory, this`indexWarning, this`pinned
      ensures Valid() && (memory.Locked? <==> old(memory).Locked?)
      ensures sealed.items == old(sealed).items && (pinned == old(pinned) || old(memory).Locked?)
      ensures r.Ok? ==> sealed.key == newKey && header.salt == newSalt && header.kdf == newKdf && header.indexSalt == newIndexSalt &&
                        file == Some(sealed)
      ensures r.Err? ==> sealed.key == old(sealed).key && header.salt == old(header).salt && header.kdf == old(header).kdf &&
                         header.indexSalt == old(header).indexSalt
      ensures r.Ok? <==> oldKey == old(sealed).key && !retired && Saves(a)
      ensures file.Some? <==>
                old(file).Some? ||
                (oldKey == old(sealed).key && !retired && (Saves(a) || (old(memory).Locked? && old(Stale()) && Saves(unlocking))))
    {
      var wasLocked := memory.Locked?;
      r := OpenOrVerify(oldKey, unlocking);
      if r.Ok? {
        r := Reseal(oldKey, newSalt, newKdf, newKey, newIndexSalt, a);
        if wasLocked {
          Lock();
        }
      }
    }

    /** The rotation of an open vault, once its old key is known. */
    method Reseal(oldKey: Key, newSalt: string, newKdf: nat, newKey: Key, newIndexSalt: string, a: Attempt) returns (r: Result<()>)
      requires Valid() && memory.Unlocked? && memory.key == oldKey
      modifies this`header, this`sealed, this`file, this`memory
      ensures Valid() && memory.Unlocked? && sealed.items == old(sealed).items
      ensures r == if retired then Err(Retired) else if Saves(a) then Ok(()) else Err(Fault(a).value)
      ensures r.Ok? ==> sealed.key == newKey && header.salt == newSalt && header.kdf == newKdf && header.indexSalt == newIndexSalt &&
                        file == Some(sealed)
      ensures r.Err? ==> unchanged(this)
    {
      var oldHeader := header;
      header := header.(salt := newSalt, kdf := newKdf, indexSalt := newIndexSalt);
      memory := memory.(key := newKey);
      r := Save(a);
      if r.Err? {
        header := header.(salt := oldHeader.salt, kdf := oldHeader.kdf, indexSalt := oldHeader.indexSalt);
        memory := memory.(key := oldKey);
      }
    }
  }

  method FindMissing(items: seq<Item>, ids: seq<string>) returns (missing: Option<string>)
    ensures missing == FirstMissing(items, ids)
  {
    var present := set i | i in items :: i.id;
    for k := 0 to |ids|
      invariant FirstMissing(items, ids) == FirstMissing(items, ids[k..])
    {
      assert ids[k..][1..] == ids[k + 1..];
      assert ids[k] in present <==> Position(items, ids[k]).Some?;
      if ids[k] !in present {
        return Some(ids[k]);
      }
    }
    missing := None;
  }

  method OnePass(items: seq<Item>, doomed: set<string>) returns (kept: seq<Item>, removed: seq<(nat, Item)>)
    ensures kept == Kept(items, doomed) && removed == Gone(items, doomed)
  {
    kept, removed := [], [];
    for k := 0 to |items|
      invariant kept == Kept(items[..k], doomed) && removed == Gone(items[..k], doomed)
    {
      assert items[..k + 1][..k] == items[..k];
      if items[k].id in doomed {
        removed := removed + [(k, items[k])];
      } else {
        kept := kept + [items[k]];
      }
    }
    assert items[..|items|] == items;
  }
}
