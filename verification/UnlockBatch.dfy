/**
 `Service::unlock`: resolve every path once, ask each distinct vault once, reassemble the reply in the
 request's own order, and register a prompt for what is locked.  Proved against the walk that treats
 one path at a time.
 */
module UnlockBatch {
  import opened Options
  import opened Selection
  import opened Batch

  const MAX_LOCK_OBJECTS := 1024

  /** The paths already unlocked, the locked ones, and the collections a prompt has to unlock. */
  datatype UnlockReply = UnlockReply(unlocked: seq<string>, requested: seq<string>, collections: seq<Id>)

  // ---- one path at a time ----

  /** Whether the target is locked; `None` for an item that does not exist. */
  function TargetLocked(t: PathTarget, vaults: Vaults): Option<bool>
    requires !t.Broken? ==> t.vault in vaults
  {
    match t
    case Broken(_) => Some(true)
    case Collection(_, v) => Some(vaults[v].locked)
    case Item(_, v, item) => if item in vaults[v].items then Some(vaults[v].locked) else None
  }

  function Answered(r: UnlockReply, path: string, cid: Id, answer: Option<bool>): UnlockReply {
    match answer
    case None => r
    case Some(locked) =>
      if !locked then r.(unlocked := r.unlocked + [path])
      else r.(requested := r.requested + [path],
              collections := if cid in r.collections then r.collections else r.collections + [cid])
  }

  function Walk(n: Names, vaults: Vaults, objects: seq<Object>): UnlockReply
    requires Consistent(n, vaults)
  {
    if objects == [] then UnlockReply([], [], [])
    else
      var r := Walk(n, vaults, objects[..|objects| - 1]);
      var o := objects[|objects| - 1];
      match Resolve(n, o.parsed)
      case None => r
      case Some(t) => Answered(r, o.path, t.id, TargetLocked(t, vaults))
  }

  /** A prompt is never asked to unlock the same collection twice. */
  lemma {:induction false} WalkDistinct(n: Names, vaults: Vaults, objects: seq<Object>)
    requires Consistent(n, vaults)
    ensures forall i, j :: 0 <= i < j < |Walk(n, vaults, objects).collections| ==>
              Walk(n, vaults, objects).collections[i] != Walk(n, vaults, objects).collections[j]
  {
    if objects != [] {
      WalkDistinct(n, vaults, objects[..|objects| - 1]);
    }
  }

  // ---- what the answer says ----

  function OpenAt(n: Names, vaults: Vaults, objects: seq<Object>): set<nat> {
    set j: nat | j < |objects| && NamesOpen(n, vaults, objects[j])
  }

  function LockedAt(n: Names, vaults: Vaults, objects: seq<Object>): set<nat> {
    set j: nat | j < |objects| && NamesLocked(n, vaults, objects[j])
  }

  /** `first` are the places at which a collection of the wanted objects is named for the first time. */
  ghost predicate FirstsAt(n: Names, objects: seq<Object>, wanted: set<nat>, cids: seq<Id>, first: seq<nat>) {
    && Increasing(first) && |first| == |cids|
    && (forall k :: 0 <= k < |first| ==> first[k] in wanted && first[k] < |objects| && IdBehind(n, objects[first[k]]) == Some(cids[k]))
    && (forall k, j :: 0 <= k < |first| && j in wanted && j < first[k] && j < |objects| ==> IdBehind(n, objects[j]) != Some(cids[k]))
    && (forall j :: j in wanted && j < |objects| ==> IdBehind(n, objects[j]).Some? && IdBehind(n, objects[j]).value in cids)
  }

  /** The collections behind the wanted objects, each once, in order of first appearance. */
  ghost predicate Collects(n: Names, objects: seq<Object>, wanted: set<nat>, cids: seq<Id>) {
    exists first :: FirstsAt(n, objects, wanted, cids, first)
  }

  /** The open paths, the locked ones, both in request order and as often as they were given, and the
      collections of the locked ones. */
  ghost predicate IsAnswer(n: Names, vaults: Vaults, objects: seq<Object>, unlocked: seq<string>, requested: seq<string>, collections: seq<Id>) {
    && Picked(PathsOf(objects), OpenAt(n, vaults, objects), unlocked)
    && Picked(PathsOf(objects), LockedAt(n, vaults, objects), requested)
    && Collects(n, objects, LockedAt(n, vaults, objects), collections)
  }

  lemma {:induction false} AtMore(n: Names, vaults: Vaults, objects: seq<Object>, o: Object)
    ensures OpenAt(n, vaults, objects + [o]) ==
              if NamesOpen(n, vaults, o) then OpenAt(n, vaults, objects) + {|objects|} else OpenAt(n, vaults, objects)
    ensures LockedAt(n, vaults, objects + [o]) ==
              if NamesLocked(n, vaults, o) then LockedAt(n, vaults, objects) + {|objects|} else LockedAt(n, vaults, objects)
  {
    assert forall j :: 0 <= j < |objects| ==> (objects + [o])[j] == objects[j];
  }

  lemma {:induction false} CollectsSame(n: Names, objects: seq<Object>, wanted: set<nat>, cids: seq<Id>, o: Object)
    requires Collects(n, objects, wanted, cids) && forall j :: j in wanted ==> j < |objects|
    ensures Collects(n, objects + [o], wanted, cids)
  {
    var first :| FirstsAt(n, objects, wanted, cids, first);
    assert forall j :: 0 <= j < |objects| ==> (objects + [o])[j] == objects[j];
    assert FirstsAt(n, objects + [o], wanted, cids, first);
  }

  lemma {:induction false} CollectsMore(n: Names, objects: seq<Object>, wanted: set<nat>, cids: seq<Id>, o: Object, cid: Id)
    requires Collects(n, objects, wanted, cids) && (forall j :: j in wanted ==> j < |objects|) && IdBehind(n, o) == Some(cid)
    ensures Collects(n, objects + [o], wanted + {|objects|}, if cid in cids then cids else cids + [cid])
  {
    var first :| FirstsAt(n, objects, wanted, cids, first);
    var more := objects + [o];
    assert forall j :: 0 <= j < |objects| ==> more[j] == objects[j];
    assert more[|objects|] == o;
    if cid in cids {
      assert FirstsAt(n, more, wanted + {|objects|}, cids, first);
    } else {
      NewFirst(n, objects, wanted, cids, first, o, cid);
    }
  }

  lemma {:induction false} NewFirst(n: Names, objects: seq<Object>, wanted: set<nat>, cids: seq<Id>, first: seq<nat>, o: Object, cid: Id)
    requires FirstsAt(n, objects, wanted, cids, first) && (forall j :: j in wanted ==> j < |objects|)
    requires IdBehind(n, o) == Some(cid) && cid !in cids
    ensures FirstsAt(n, objects + [o], wanted + {|objects|}, cids + [cid], first + [|objects|])
  {
    var more := objects + [o];
    assert forall j :: 0 <= j < |objects| ==> more[j] == objects[j];
    forall j | j in wanted ensures IdBehind(n, more[j]) != Some(cid) {
      assert IdBehind(n, objects[j]).value in cids;
    }
  }

  /** What one object adds. */
  lemma {:induction false} OneAnswer(n: Names, vaults: Vaults, o: Object)
    requires Consistent(n, vaults)
    ensures match Resolve(n, o.parsed)
            case None => !NamesOpen(n, vaults, o) && !NamesLocked(n, vaults, o)
            case Some(t) =>
              && IdBehind(n, o) == Some(t.id)
              && (NamesOpen(n, vaults, o) <==> TargetLocked(t, vaults) == Some(false))
              && (NamesLocked(n, vaults, o) <==> TargetLocked(t, vaults) == Some(true))
  {
  }

  /** The walk answers what it says it does. */
  lemma {:induction false} WalkAnswers(n: Names, vaults: Vaults, objects: seq<Object>)
    requires Consistent(n, vaults)
    ensures var r := Walk(n, vaults, objects);
            IsAnswer(n, vaults, objects, r.unlocked, r.requested, r.collections)
  {
    if objects == [] {
      PickedNone<string>();
      assert OpenAt(n, vaults, []) == {} && LockedAt(n, vaults, []) == {} && PathsOf([]) == [];
      assert FirstsAt(n, [], {}, [], []);
    } else {
      var init, o := objects[..|objects| - 1], objects[|objects| - 1];
      WalkAnswers(n, vaults, init);
      assert objects == init + [o];
      AnswerMore(n, vaults, init, o, Walk(n, vaults, init));
      OneAnswer(n, vaults, o);
    }
  }

  lemma {:induction false} AnswerMore(n: Names, vaults: Vaults, objects: seq<Object>, o: Object, r: UnlockReply)
    requires Consistent(n, vaults) && IsAnswer(n, vaults, objects, r.unlocked, r.requested, r.collections)
    ensures !NamesOpen(n, vaults, o) && !NamesLocked(n, vaults, o) ==> IsAnswer(n, vaults, objects + [o], r.unlocked, r.requested, r.collections)
    ensures NamesOpen(n, vaults, o) ==> IsAnswer(n, vaults, objects + [o], r.unlocked + [o.path], r.requested, r.collections)
    ensures NamesLocked(n, vaults, o) && IdBehind(n, o).Some? ==>
              var cid := IdBehind(n, o).value;
              IsAnswer(n, vaults, objects + [o], r.unlocked, r.requested + [o.path], if cid in r.collections then r.collections else r.collections + [cid])
  {
    AtMore(n, vaults, objects, o);
    PathsMore(objects, o);
    PickedMore(PathsOf(objects), OpenAt(n, vaults, objects), r.unlocked, o.path);
    PickedMore(PathsOf(objects), LockedAt(n, vaults, objects), r.requested, o.path);
    CollectsSame(n, objects, LockedAt(n, vaults, objects), r.collections, o);
    if IdBehind(n, o).Some? { CollectsMore(n, objects, LockedAt(n, vaults, objects), r.collections, o, IdBehind(n, o).value); }
  }

  // ---- the batch ----

  datatype Pending = Pending(path: string, cid: Id, vault: Option<Ref>, item: Option<string>)

  function PendingOf(n: Names, o: Object): Option<Pending> {
    match Resolve(n, o.parsed)
    case None => None
    case Some(Broken(id)) => Some(Pending(o.path, id, None, None))
    case Some(Collection(id, v)) => Some(Pending(o.path, id, Some(v), None))
    case Some(Item(id, v, item)) => Some(Pending(o.path, id, Some(v), Some(item)))
  }

  function AllPending(n: Names, objects: seq<Object>): seq<Pending> {
    if objects == [] then []
    else
      var rest := AllPending(n, objects[..|objects| - 1]);
      var p := PendingOf(n, objects[|objects| - 1]);
      if p.Some? then rest + [p.value] else rest
  }

  /** What one acquisition of the state mutex guarantees about everything resolved under it. */
  predicate Linked(n: Names, pending: seq<Pending>) {
    forall i :: 0 <= i < |pending| ==>
      if pending[i].vault.Some?
      then pending[i].cid in n.collections && n.collections[pending[i].cid] == pending[i].vault.value
      else pending[i].cid !in n.collections && pending[i].item.None?
  }

  lemma {:induction false} AllLinked(n: Names, objects: seq<Object>)
    ensures Linked(n, AllPending(n, objects))
  {
    if objects != [] {
      AllLinked(n, objects[..|objects| - 1]);
    }
  }

  function PendingLocked(p: Pending, vaults: Vaults): Option<bool>
    requires p.vault.Some? ==> p.vault.value in vaults
  {
    if p.vault.None? then Some(true)
    else if p.item.Some? && p.item.value !in vaults[p.vault.value].items then None
    else Some(vaults[p.vault.value].locked)
  }

  function Reply(vaults: Vaults, pending: seq<Pending>): UnlockReply
    requires forall i :: 0 <= i < |pending| ==> pending[i].vault.Some? ==> pending[i].vault.value in vaults
  {
    if pending == [] then UnlockReply([], [], [])
    else
      var p := pending[|pending| - 1];
      Answered(Reply(vaults, pending[..|pending| - 1]), p.path, p.cid, PendingLocked(p, vaults))
  }

  lemma {:induction false} WalkIsReply(n: Names, vaults: Vaults, objects: seq<Object>)
    requires Consistent(n, vaults)
    ensures forall i :: 0 <= i < |AllPending(n, objects)| ==>
              AllPending(n, objects)[i].vault.Some? ==> AllPending(n, objects)[i].vault.value in vaults
    ensures Walk(n, vaults, objects) == Reply(vaults, AllPending(n, objects))
  {
    AllLinked(n, objects);
    if objects != [] {
      var init := objects[..|objects| - 1];
      WalkIsReply(n, vaults, init);
      var p := PendingOf(n, objects[|objects| - 1]);
      if p.Some? {
        assert AllPending(n, objects)[..|AllPending(n, init)|] == AllPending(n, init);
      }
    }
  }

  method ResolveAll(n: Names, objects: seq<Object>) returns (pending: seq<Pending>)
    ensures pending == AllPending(n, objects)
  {
    pending := [];
    for i := 0 to |objects|
      invariant pending == AllPending(n, objects[..i])
    {
      assert objects[..i + 1][..i] == objects[..i];
      var p := PendingOf(n, objects[i]);
      if p.Some? {
        pending := pending + [p.value];
      }
    }
    assert objects[..|objects|] == objects;
  }

  function Cids(pending: seq<Pending>): (keys: seq<Id>)
    ensures |keys| == |pending| && forall i :: 0 <= i < |keys| ==> keys[i] == pending[i].cid
  {
    seq(|pending|, (i: nat) requires i < |pending| => pending[i].cid)
  }

  /** `ref` is the vault of one of the first `g` buckets. */
  predicate AskedBefore(n: Names, groups: seq<Group>, g: nat, ref: Ref)
    requires g <= |groups|
  {
    exists h :: 0 <= h < g && groups[h].cid in n.collections && n.collections[groups[h].cid] == ref
  }

  /** One bucket's answers, under one guard of its vault. */
  method FillBucket(ghost n: Names, vaults: Vaults, pending: seq<Pending>, verdict: array<Option<bool>>, g: Group)
    requires Consistent(n, vaults) && Linked(n, pending) && verdict.Length == |pending|
    requires IsBucket(Cids(pending), g)
    requires forall i :: i in g.idxs ==> i < verdict.Length && verdict[i] == None
    modifies verdict
    ensures forall i :: 0 <= i < |pending| ==>
              verdict[i] == if i in g.idxs then PendingLocked(pending[i], vaults) else old(verdict[i])
  {
    var vault := pending[g.idxs[0]].vault;
    for k := 0 to |g.idxs|
      invariant forall i :: 0 <= i < |pending| ==>
                  verdict[i] == if i in g.idxs[..k] then PendingLocked(pending[i], vaults) else old(verdict[i])
    {
      var i := g.idxs[k];
      assert g.idxs[..k + 1] == g.idxs[..k] + [i];
      assert pending[i].vault == vault;
      if vault.None? {
        verdict[i] := Some(true);
      } else if pending[i].item.None? || pending[i].item.value in vaults[vault.value].items {
        verdict[i] := Some(vaults[vault.value].locked);
      }
    }
    assert g.idxs[..|g.idxs|] == g.idxs;
  }

  /** Grouping by collection, each bucket's vault guarded once, gives every element its own answer. */
  method Verdicts(ghost n: Names, vaults: Vaults, pending: seq<Pending>) returns (answers: seq<Option<bool>>, acquired: seq<Ref>)
    requires Consistent(n, vaults) && Linked(n, pending)
    ensures |answers| == |pending| && forall i :: 0 <= i < |pending| ==> answers[i] == PendingLocked(pending[i], vaults)
    ensures forall a, b :: 0 <= a < b < |acquired| ==> acquired[a] != acquired[b]
  {
    var verdict := new Option<bool>[|pending|](i => None);
    acquired := [];
    var keys := Cids(pending);
    var groups := GroupByCollection(keys);
    for g := 0 to |groups|
      invariant forall i :: 0 <= i < |pending| ==>
                  verdict[i] == if InSome(groups[..g], i) then PendingLocked(pending[i], vaults) else None
      invariant forall a :: 0 <= a < |acquired| ==> AskedBefore(n, groups, g, acquired[a])
      invariant forall a, b :: 0 <= a < b < |acquired| ==> acquired[a] != acquired[b]
    {
      forall i | 0 <= i < |pending|
        ensures InSome(groups[..g + 1], i) <==> InSome(groups[..g], i) || i in groups[g].idxs
        ensures !(InSome(groups[..g], i) && i in groups[g].idxs)
      {
        SomeGrows(keys, groups, g, i);
      }
      var vault := pending[groups[g].idxs[0]].vault;
      assert IsBucket(keys, groups[g]);
      assert forall r :: AskedBefore(n, groups, g, r) ==> AskedBefore(n, groups, g + 1, r);
      if vault.Some? {
        assert n.collections[groups[g].cid] == vault.value;
        acquired := acquired + [vault.value];
      }
      FillBucket(n, vaults, pending, verdict, groups[g]);
    }
    assert groups[..|groups|] == groups;
    answers := verdict[..];
  }

  lemma {:induction false} SomeGrows(keys: seq<Id>, groups: seq<Group>, g: nat, i: nat)
    requires IsGrouping(keys, groups) && g < |groups| && i < |keys|
    ensures InSome(groups[..g + 1], i) <==> InSome(groups[..g], i) || i in groups[g].idxs
    ensures !(InSome(groups[..g], i) && i in groups[g].idxs)
  {
    if InSome(groups[..g + 1], i) {
      var h :| 0 <= h < g + 1 && i in groups[..g + 1][h].idxs;
      assert h < g ==> groups[..g][h] == groups[h];
    }
    if InSome(groups[..g], i) {
      var h :| 0 <= h < g && i in groups[..g][h].idxs;
      assert groups[..g + 1][h] == groups[h];
      GroupIsKey(keys, groups, h, i);
      GroupIsKey(keys, groups, g, i);
    }
    if i in groups[g].idxs {
      assert groups[..g + 1][g] == groups[g];
    }
  }

  method Assemble(vaults: Vaults, pending: seq<Pending>, answers: seq<Option<bool>>) returns (r: UnlockReply)
    requires forall i :: 0 <= i < |pending| ==> pending[i].vault.Some? ==> pending[i].vault.value in vaults
    requires |answers| == |pending| && forall i :: 0 <= i < |pending| ==> answers[i] == PendingLocked(pending[i], vaults)
    ensures r == Reply(vaults, pending)
  {
    var unlocked, requested, collections := [], [], [];
    var seen := {};
    for i := 0 to |pending|
      invariant UnlockReply(unlocked, requested, collections) == Reply(vaults, pending[..i])
      invariant forall c :: c in seen <==> c in collections
    {
      assert pending[..i + 1][..i] == pending[..i];
      if answers[i].Some? {
        if !answers[i].value {
          unlocked := unlocked + [pending[i].path];
        } else {
          if pending[i].cid !in seen {
            seen := seen + {pending[i].cid};
            collections := collections + [pending[i].cid];
          }
          requested := requested + [pending[i].path];
        }
      }
    }
    assert pending[..|pending|] == pending;
    r := UnlockReply(unlocked, requested, collections);
  }

  /** The batched call answers what the walk over single paths answers, asking each vault once. */
  method Answer(n: Names, vaults: Vaults, objects: seq<Object>) returns (r: UnlockReply, acquired: seq<Ref>)
    requires Consistent(n, vaults)
    ensures r == Walk(n, vaults, objects)
    ensures IsAnswer(n, vaults, objects, r.unlocked, r.requested, r.collections)
    ensures forall a, b :: 0 <= a < b < |acquired| ==> acquired[a] != acquired[b]
  {
    WalkAnswers(n, vaults, objects);
    var pending := ResolveAll(n, objects);
    AllLinked(n, objects);
    WalkIsReply(n, vaults, objects);
    var answers;
    answers, acquired := Verdicts(n, vaults, pending);
    r := Assemble(vaults, pending, answers);
  }

  // ---- the prompt ----

  type Client = string
  type Path = nat    // the number of a prompt

  const MAX_PROMPTS_PER_OWNER := 8

  datatype Error = TooManyObjects | NoSender | TooManyPrompts | ExportFailed

  /** Everything was open, or a prompt is to open the rest, or the call is refused. */
  datatype Outcome =
    | AllOpen(unlocked: seq<string>)
    | Prompted(unlocked: seq<string>, prompt: Path, collections: seq<Id>, requested: seq<string>)
    | Refused(error: Error)

  function OwnedBy(owners: map<Path, Client>, client: Client): set<Path> {
    set p | p in owners && owners[p] == client
  }

  /** No client has more prompts than the quota, and every number was handed out. */
  ghost predicate WithinQuota(owners: map<Path, Client>, next: Path) {
    (forall p :: p in owners ==> p <= next) && forall client :: |OwnedBy(owners, client)| <= MAX_PROMPTS_PER_OWNER
  }

  lemma {:induction false} OwnedGrows(owners: map<Path, Client>, p: Path, owner: Client, client: Client)
    requires p !in owners
    ensures OwnedBy(owners[p := owner], client) == if client == owner then OwnedBy(owners, client) + {p} else OwnedBy(owners, client)
  {
  }

  lemma {:induction false} CountGrows(owned: set<Path>, p: Path)
    ensures |owned + {p}| <= |owned| + 1
  {
    if p in owned { assert owned + {p} == owned; }
  }

  lemma {:induction false} QuotaGrows(owners: map<Path, Client>, p: Path, owner: Client, client: Client)
    requires p !in owners && |OwnedBy(owners, client)| <= MAX_PROMPTS_PER_OWNER && |OwnedBy(owners, owner)| < MAX_PROMPTS_PER_OWNER
    ensures |OwnedBy(owners[p := owner], client)| <= MAX_PROMPTS_PER_OWNER
  {
    OwnedGrows(owners, p, owner, client);
    CountGrows(OwnedBy(owners, client), p);
  }

  lemma {:induction false} OneMore(owners: map<Path, Client>, next: Path, owner: Client)
    requires WithinQuota(owners, next) && |OwnedBy(owners, owner)| < MAX_PROMPTS_PER_OWNER
    ensures next + 1 !in owners && WithinQuota(owners[next + 1 := owner], next + 1)
  {
    var more := owners[next + 1 := owner];
    forall client ensures |OwnedBy(more, client)| <= MAX_PROMPTS_PER_OWNER {
      QuotaGrows(owners, next + 1, owner, client);
    }
  }

  lemma {:induction false} NoneLocked(n: Names, vaults: Vaults, objects: seq<Object>, r: UnlockReply)
    requires IsAnswer(n, vaults, objects, r.unlocked, r.requested, r.collections)
    ensures r.collections == [] <==> LockedAt(n, vaults, objects) == {}
  {
    var wanted := LockedAt(n, vaults, objects);
    var first :| FirstsAt(n, objects, wanted, r.collections, first);
    if r.collections != [] { assert first[0] in wanted; }
    forall j | j in wanted ensures r.collections != [] {
      assert IdBehind(n, objects[j]).value in r.collections;
    }
  }

  class Prompts {
    var owners: map<Path, Client>
    var next: Path

    constructor ()
      ensures owners == map[] && WithinQuota(owners, next)
    {
      owners, next := map[], 0;
      new;
      assert forall client :: OwnedBy(owners, client) == {};
    }

    /** The whole call: a client at its quota is refused only when something is locked, and a prompt's
        number is its own. */
    method Unlock(n: Names, vaults: Vaults, objects: seq<Object>, sender: Option<Client>, exported: bool) returns (r: Outcome)
      requires Consistent(n, vaults) && WithinQuota(owners, next)
      modifies this
      ensures WithinQuota(owners, next)
      ensures |objects| > MAX_LOCK_OBJECTS ==> r == Refused(TooManyObjects)
      ensures |objects| <= MAX_LOCK_OBJECTS && sender.None? ==> r == Refused(NoSender)
      ensures |objects| <= MAX_LOCK_OBJECTS && sender.Some? ==>
                && (r.AllOpen? <==> LockedAt(n, vaults, objects) == {})
                && (r == Refused(TooManyPrompts) <==>
                      LockedAt(n, vaults, objects) != {} && |OwnedBy(old(owners), sender.value)| >= MAX_PROMPTS_PER_OWNER)
                && (r.Prompted? <==>
                      LockedAt(n, vaults, objects) != {} && |OwnedBy(old(owners), sender.value)| < MAX_PROMPTS_PER_OWNER && exported)
      ensures r.AllOpen? ==> Picked(PathsOf(objects), OpenAt(n, vaults, objects), r.unlocked)
      ensures r.Prompted? ==> IsAnswer(n, vaults, objects, r.unlocked, r.requested, r.collections) && r.prompt == next
      ensures r.Prompted? ==> r.prompt !in old(owners) && owners == old(owners)[r.prompt := sender.value]
      ensures !r.Prompted? ==> owners == old(owners)
      ensures next == old(next) + if r.Prompted? || r == Refused(ExportFailed) then 1 else 0
    {
      if |objects| > MAX_LOCK_OBJECTS {
        return Refused(TooManyObjects);
      }
      if sender.None? {
        return Refused(NoSender);
      }
      var reply, _ := Answer(n, vaults, objects);
      NoneLocked(n, vaults, objects, reply);
      if reply.collections == [] {
        return AllOpen(reply.unlocked);
      }
      if |OwnedBy(owners, sender.value)| >= MAX_PROMPTS_PER_OWNER {
        return Refused(TooManyPrompts);
      }
      OneMore(owners, next, sender.value);
      next := next + 1;
      owners := owners[next := sender.value];
      if !exported {
        owners := owners - {next};
        assert owners == old(owners);
        return Refused(ExportFailed);
      }
      r := Prompted(reply.unlocked, next, reply.collections, reply.requested);
    }
  }
}
