/**
 The guards each operation of the daemon takes, as programs, and that all of them are ranked: so
 whatever mix of them runs, there is no cyclic wait and no deadlock.
 */
module DaemonLocks {
  import opened LockOrder

  /** Vaults, in the order a loop comes across them. */
  type Refs = seq<nat>

  // ---- parts ----

  const STATE := Guard(StateLock, Skip)

  function One(r: Res): Prog {
    Guard(r, Skip)
  }

  /** One step after the other. */
  function Chain(ps: seq<Prog>): Prog {
    if ps == [] then Skip else Then(ps[0], Chain(ps[1..]))
  }

  /** A loop over vaults, one guard at a time, that may pass any of them by. */
  function Vaults(vs: Refs): Prog {
    if vs == [] then Skip else Then(May(One(VaultLock(vs[0]))), Vaults(vs[1..]))
  }

  /** A collection's vault, looked up and then locked: every property of a collection or an item, and
      the check of one path. */
  function Read(v: nat): Prog {
    Chain([STATE, One(VaultLock(v))])
  }

  function Reads(vs: Refs): Prog {
    if vs == [] then Skip else Then(May(Read(vs[0])), Reads(vs[1..]))
  }

  /** `notify_collection_changed`: the aliases, then `Locked` of the collection and of each alias. */
  function Notify(vs: Refs): Prog {
    Chain([STATE, Reads(vs)])
  }

  function Notifies(each: seq<Refs>): Prog {
    if each == [] then Skip else Then(Notify(each[0]), Notifies(each[1..]))
  }

  /** Each vault locked in turn, and announced. */
  function Relocks(vs: Refs, each: seq<Refs>): Prog
    decreases |vs|
  {
    if vs == [] then Skip
    else Then(Chain([May(One(VaultLock(vs[0]))), May(Notify(if each == [] then [] else each[0]))]),
              Relocks(vs[1..], if each == [] then [] else each[1..]))
  }

  /** `update_aliases`: read and write back, up to `n` times. */
  function AliasRounds(n: nat): Prog {
    if n == 0 then Skip else Then(Chain([STATE, STATE]), AliasRounds(n - 1))
  }

  const ALIAS_UPDATE_ATTEMPTS := 8

  // ---- the operations ----

  datatype Operation =
    // the service
    | OpenSession | CloseSession | ReadAlias | ListCollections
    | SearchAll(vs: Refs) | GetSecrets(vs: Refs)
    | UnlockCall(vs: Refs) | LockCall(vs: Refs, each: seq<Refs>)
    | CreateCall | SetAlias
    // a collection and an item
    | DeleteCall(v: nat) | Property(v: nat) | SetLabel(v: nat) | CreateItem(v: nat)
    | DeleteItems(vs: Refs, v: nat)
    | GetSecret(v: nat) | SetSecret(v: nat) | DeleteItem(v: nat) | UpdateItem(v: nat)
    // a prompt and its task
    | PromptCall(p: nat) | DismissCall(p: nat)
    | UnlockTask(ids: seq<(nat, Refs)>, vs: Refs, each: seq<Refs>, requested: Refs)
    | CreateTask(v: nat) | DeleteTask(v: nat)
    // in the background
    | WatchClient(vs: Refs, each: seq<Refs>) | IdleLock(vs: Refs, each: seq<Refs>) | GpgPreset(vs: Refs)
    | Unregister
    // a control connection
    | ControlLock(vs: Refs, each: seq<Refs>) | ControlStatus(vs: Refs) | ControlUnlock(v: nat, vs: Refs)
    | ControlChangeKey(v: nat) | ControlReload(vs: Refs)

  /** One password attempt, inside the dialog slot: still loaded, parameters, derivation, still
      loaded, record, open, and then either drop the record or announce the unlock. */
  function Attempt(v: nat, vs: Refs): Prog {
    Chain([STATE, One(VaultLock(v)), One(Kdf), STATE, STATE, One(VaultLock(v)), May(STATE),
           May(Chain([STATE, STATE, Notify(vs)]))])
  }

  /** One collection of an unlock: owner check, lookup, peek, then up to three attempts in one slot. */
  function UnlockOne(v: nat, vs: Refs): Prog {
    Chain([STATE, STATE, One(VaultLock(v)),
           Guard(Dialog, Chain([Attempt(v, vs), May(Attempt(v, vs)), May(Attempt(v, vs))]))])
  }

  function UnlockEach(ids: seq<(nat, Refs)>): Prog {
    if ids == [] then Skip else Then(May(UnlockOne(ids[0].0, ids[0].1)), UnlockEach(ids[1..]))
  }

  /** One attempt at a free name: pick it, then create the vault under a derivation slot. */
  const NAME_ATTEMPT := Chain([STATE, One(Kdf)])

  function Program(op: Operation): Prog {
    match op
    case OpenSession => Chain([STATE, STATE, May(STATE)])
    case CloseSession => STATE
    case ReadAlias => STATE
    case ListCollections => STATE
    case SearchAll(vs) => Chain([STATE, Vaults(vs)])
    case GetSecrets(vs) => Chain([STATE, Vaults(vs)])
    case UnlockCall(vs) => Chain([STATE, Vaults(vs), STATE, May(STATE)])
    case LockCall(vs, each) => Chain([STATE, Vaults(vs), Notifies(each)])
    case CreateCall => Chain([STATE, May(STATE)])
    case SetAlias => AliasRounds(ALIAS_UPDATE_ATTEMPTS)
    case DeleteCall(v) => Chain([Read(v), STATE, May(STATE)])
    case Property(v) => Read(v)
    case SetLabel(v) => Read(v)
    case CreateItem(v) => Chain([Read(v), STATE])
    case DeleteItems(vs, v) => Chain([STATE, Vaults(vs), Read(v), STATE])
    case GetSecret(v) => Chain([Read(v), STATE])
    case SetSecret(v) => Chain([Read(v), STATE])
    case DeleteItem(v) => Chain([Read(v), STATE])
    case UpdateItem(v) => Read(v)
    case PromptCall(p) => Chain([STATE, One(ActionLock(p)), STATE])
    case DismissCall(p) => Chain([STATE, One(ActionLock(p)), STATE, STATE])
    case UnlockTask(ids, vs, each, requested) =>
      Chain([UnlockEach(ids), STATE, May(Chain([STATE, Relocks(vs, each)])), Reads(requested), STATE])
    case CreateTask(v) =>
      Chain([STATE, One(Dialog), NAME_ATTEMPT, May(NAME_ATTEMPT), May(NAME_ATTEMPT), STATE,
             May(AliasRounds(ALIAS_UPDATE_ATTEMPTS)), Read(v), STATE, STATE])
    case DeleteTask(v) =>
      Chain([Read(v), One(Dialog), One(VaultLock(v)), STATE, AliasRounds(ALIAS_UPDATE_ATTEMPTS), STATE])
    case WatchClient(vs, each) => Chain([STATE, Relocks(vs, each)])
    case IdleLock(vs, each) => Chain([STATE, Vaults(vs), Notifies(each)])
    case GpgPreset(vs) => Chain([STATE, Vaults(vs)])
    case Unregister => STATE
    case ControlLock(vs, each) => Guard(Conn, Chain([STATE, Vaults(vs), Notifies(each)]))
    case ControlStatus(vs) => Guard(Conn, Chain([STATE, Vaults(vs)]))
    case ControlUnlock(v, vs) => Guard(Conn, Chain([Read(v), STATE, STATE, Notify(vs)]))
    case ControlChangeKey(v) => Guard(Conn, Read(v))
    case ControlReload(vs) => Guard(Conn, Guard(Reload, Chain([STATE, STATE, STATE, Reads(vs), May(STATE)])))
  }

  // ---- all of them ranked ----

  lemma {:induction false} ChainRanked(ps: seq<Prog>, under: int)
    requires forall i :: 0 <= i < |ps| ==> Ranked(ps[i], under)
    ensures Ranked(Chain(ps), under)
  {
    if ps != [] { ChainRanked(ps[1..], under); }
  }

  lemma {:induction false} VaultsRanked(vs: Refs, under: int)
    requires under < 4
    ensures Ranked(Vaults(vs), under)
  {
    if vs != [] {
      assert Ranked(One(VaultLock(vs[0])), under);
      VaultsRanked(vs[1..], under);
    }
  }

  lemma {:induction false} ReadRanked(v: nat, under: int)
    requires under < 4
    ensures Ranked(Read(v), under)
  {
    ChainRanked([STATE, One(VaultLock(v))], under);
  }

  lemma {:induction false} ReadsRanked(vs: Refs, under: int)
    requires under < 4
    ensures Ranked(Reads(vs), under)
  {
    if vs != [] {
      ReadRanked(vs[0], under);
      ReadsRanked(vs[1..], under);
    }
  }

  lemma {:induction false} NotifyRanked(vs: Refs, under: int)
    requires under < 4
    ensures Ranked(Notify(vs), under)
  {
    ReadsRanked(vs, under);
    ChainRanked([STATE, Reads(vs)], under);
  }

  lemma {:induction false} NotifiesRanked(each: seq<Refs>, under: int)
    requires under < 4
    ensures Ranked(Notifies(each), under)
  {
    if each != [] {
      NotifyRanked(each[0], under);
      NotifiesRanked(each[1..], under);
    }
  }

  lemma {:induction false} RelocksRanked(vs: Refs, each: seq<Refs>, under: int)
    requires under < 4
    ensures Ranked(Relocks(vs, each), under)
    decreases |vs|
  {
    if vs != [] {
      var mine := if each == [] then [] else each[0];
      NotifyRanked(mine, under);
      ChainRanked([May(One(VaultLock(vs[0]))), May(Notify(mine))], under);
      RelocksRanked(vs[1..], if each == [] then [] else each[1..], under);
    }
  }

  lemma {:induction false} AliasRanked(n: nat, under: int)
    requires under < 4
    ensures Ranked(AliasRounds(n), under)
  {
    if n > 0 {
      ChainRanked([STATE, STATE], under);
      AliasRanked(n - 1, under);
    }
  }

  lemma {:induction false} AttemptRanked(v: nat, vs: Refs)
    ensures Ranked(Attempt(v, vs), Rank(Dialog))
  {
    NotifyRanked(vs, Rank(Dialog));
    ChainRanked([STATE, STATE, Notify(vs)], Rank(Dialog));
    ChainRanked([STATE, One(VaultLock(v)), One(Kdf), STATE, STATE, One(VaultLock(v)), May(STATE),
                 May(Chain([STATE, STATE, Notify(vs)]))], Rank(Dialog));
  }

  lemma {:induction false} UnlockOneRanked(v: nat, vs: Refs)
    ensures Ranked(UnlockOne(v, vs), -1)
  {
    AttemptRanked(v, vs);
    var three := [Attempt(v, vs), May(Attempt(v, vs)), May(Attempt(v, vs))];
    ChainRanked(three, Rank(Dialog));
    ChainRanked([STATE, STATE, One(VaultLock(v)), Guard(Dialog, Chain(three))], -1);
  }

  lemma {:induction false} UnlockEachRanked(ids: seq<(nat, Refs)>)
    ensures Ranked(UnlockEach(ids), -1)
  {
    if ids != [] {
      UnlockOneRanked(ids[0].0, ids[0].1);
      UnlockEachRanked(ids[1..]);
    }
  }

  lemma {:induction false} UnlockTaskRanked(ids: seq<(nat, Refs)>, vs: Refs, each: seq<Refs>, requested: Refs)
    ensures Ranked(Program(UnlockTask(ids, vs, each, requested)), -1)
  {
    UnlockEachRanked(ids);
    RelocksRanked(vs, each, -1);
    ChainRanked([STATE, Relocks(vs, each)], -1);
    ReadsRanked(requested, -1);
    ChainRanked([UnlockEach(ids), STATE, May(Chain([STATE, Relocks(vs, each)])), Reads(requested), STATE], -1);
  }

  lemma {:induction false} CreateTaskRanked(v: nat)
    ensures Ranked(Program(CreateTask(v)), -1)
  {
    ChainRanked([STATE, One(Kdf)], -1);
    AliasRanked(ALIAS_UPDATE_ATTEMPTS, -1);
    ReadRanked(v, -1);
    ChainRanked([STATE, One(Dialog), NAME_ATTEMPT, May(NAME_ATTEMPT), May(NAME_ATTEMPT), STATE,
                 May(AliasRounds(ALIAS_UPDATE_ATTEMPTS)), Read(v), STATE, STATE], -1);
  }

  lemma {:induction false} DeleteTaskRanked(v: nat)
    ensures Ranked(Program(DeleteTask(v)), -1)
  {
    AliasRanked(ALIAS_UPDATE_ATTEMPTS, -1);
    ReadRanked(v, -1);
    ChainRanked([Read(v), One(Dialog), One(VaultLock(v)), STATE, AliasRounds(ALIAS_UPDATE_ATTEMPTS), STATE], -1);
  }

  /** Vaults one at a time, then the signals. */
  lemma {:induction false} SweepRanked(vs: Refs, each: seq<Refs>, under: int)
    requires under < 4
    ensures Ranked(Chain([STATE, Vaults(vs)]), under) && Ranked(Chain([STATE, Vaults(vs), Notifies(each)]), under)
  {
    VaultsRanked(vs, under);
    NotifiesRanked(each, under);
    ChainRanked([STATE, Vaults(vs)], under);
    ChainRanked([STATE, Vaults(vs), Notifies(each)], under);
  }

  lemma {:induction false} ServiceRanked(op: Operation)
    requires op.OpenSession? || op.CloseSession? || op.ReadAlias? || op.ListCollections? || op.SearchAll? || op.GetSecrets? ||
             op.UnlockCall? || op.LockCall? || op.CreateCall? || op.SetAlias?
    ensures Ranked(Program(op), -1)
  {
    match op
    case OpenSession => ChainRanked([STATE, STATE, May(STATE)], -1);
    case SearchAll(vs) => SweepRanked(vs, [], -1);
    case GetSecrets(vs) => SweepRanked(vs, [], -1);
    case UnlockCall(vs) =>
      VaultsRanked(vs, -1);
      ChainRanked([STATE, Vaults(vs), STATE, May(STATE)], -1);
    case LockCall(vs, each) => SweepRanked(vs, each, -1);
    case CreateCall => ChainRanked([STATE, May(STATE)], -1);
    case SetAlias => AliasRanked(ALIAS_UPDATE_ATTEMPTS, -1);
    case _ =>
  }

  lemma {:induction false} ObjectRanked(op: Operation)
    requires op.DeleteCall? || op.Property? || op.SetLabel? || op.CreateItem? || op.DeleteItems? || op.GetSecret? || op.SetSecret? ||
             op.DeleteItem? || op.UpdateItem?
    ensures Ranked(Program(op), -1)
  {
    ReadRanked(op.v, -1);
    ChainRanked([Read(op.v), STATE], -1);
    ChainRanked([Read(op.v), STATE, May(STATE)], -1);
    if op.DeleteItems? {
      VaultsRanked(op.vs, -1);
      ChainRanked([STATE, Vaults(op.vs), Read(op.v), STATE], -1);
    }
  }

  lemma {:induction false} PromptRanked(op: Operation)
    requires op.PromptCall? || op.DismissCall? || op.UnlockTask? || op.CreateTask? || op.DeleteTask?
    ensures Ranked(Program(op), -1)
  {
    match op
    case PromptCall(p) => ChainRanked([STATE, One(ActionLock(p)), STATE], -1);
    case DismissCall(p) => ChainRanked([STATE, One(ActionLock(p)), STATE, STATE], -1);
    case UnlockTask(ids, vs, each, requested) => UnlockTaskRanked(ids, vs, each, requested);
    case CreateTask(v) => CreateTaskRanked(v);
    case DeleteTask(v) => DeleteTaskRanked(v);
  }

  lemma {:induction false} ReloadRanked(vs: Refs)
    ensures Ranked(Program(ControlReload(vs)), -1)
  {
    ReadsRanked(vs, Rank(Reload));
    ChainRanked([STATE, STATE, STATE, Reads(vs), May(STATE)], Rank(Reload));
  }

  /** Every operation nests its guards in rank order, whatever vaults it comes across. */
  lemma {:induction false} AllRanked(op: Operation)
    ensures Ranked(Program(op), -1)
  {
    match op
    case WatchClient(vs, each) =>
      RelocksRanked(vs, each, -1);
      ChainRanked([STATE, Relocks(vs, each)], -1);
    case IdleLock(vs, each) => SweepRanked(vs, each, -1);
    case GpgPreset(vs) => SweepRanked(vs, [], -1);
    case Unregister =>
    case ControlLock(vs, each) => SweepRanked(vs, each, Rank(Conn));
    case ControlStatus(vs) => SweepRanked(vs, [], Rank(Conn));
    case ControlUnlock(v, vs) =>
      ReadRanked(v, Rank(Conn));
      NotifyRanked(vs, Rank(Conn));
      ChainRanked([Read(v), STATE, STATE, Notify(vs)], Rank(Conn));
    case ControlChangeKey(v) => ReadRanked(v, Rank(Conn));
    case ControlReload(vs) => ReloadRanked(vs);
    case DeleteCall(_) => ObjectRanked(op);
    case Property(_) => ObjectRanked(op);
    case SetLabel(_) => ObjectRanked(op);
    case CreateItem(_) => ObjectRanked(op);
    case DeleteItems(_, _) => ObjectRanked(op);
    case GetSecret(_) => ObjectRanked(op);
    case SetSecret(_) => ObjectRanked(op);
    case DeleteItem(_) => ObjectRanked(op);
    case UpdateItem(_) => ObjectRanked(op);
    case PromptCall(_) => PromptRanked(op);
    case DismissCall(_) => PromptRanked(op);
    case UnlockTask(_, _, _, _) => PromptRanked(op);
    case CreateTask(_) => PromptRanked(op);
    case DeleteTask(_) => PromptRanked(op);
    case _ => ServiceRanked(op);
  }

  /** Only operations of the daemon are started: the `i`th event, if it starts anything, starts `ops[i]`. */
  predicate DaemonRun(es: seq<Event>, ops: seq<Operation>) {
    |ops| == |es| && forall i :: 0 <= i < |es| && es[i].Start? ==> es[i].p == Program(ops[i])
  }

  lemma {:induction false} DaemonDisciplined(es: seq<Event>, ops: seq<Operation>)
    requires DaemonRun(es, ops)
    ensures Disciplined(es)
  {
    forall i | 0 <= i < |es| && es[i].Start? ensures Ranked(es[i].p, -1) {
      AllRanked(ops[i]);
    }
  }

  /** In every state any run of the daemon reaches, following who waits for whom never comes back. */
  lemma {:induction false} DaemonNoCycle(es: seq<Event>, ops: seq<Operation>, path: seq<nat>)
    requires DaemonRun(es, ops) && Runs(map[], es) && |path| >= 2
    requires forall i :: 0 <= i < |path| - 1 ==> WaitsFor(Final(map[], es), path[i], path[i + 1])
    ensures path[0] != path[|path| - 1]
  {
    DaemonDisciplined(es, ops);
    NoCycle(es, path);
  }

  /** And while any operation is unfinished, some operation can take its next step. */
  lemma {:induction false} DaemonNoDeadlock(es: seq<Event>, ops: seq<Operation>, t: nat) returns (u: nat)
    requires DaemonRun(es, ops) && Runs(map[], es) && t in Final(map[], es) && Final(map[], es)[t].rest != []
    ensures CanStep(Final(map[], es), u)
  {
    DaemonDisciplined(es, ops);
    u := NoDeadlock(es, t);
  }
}
