/**
 All prompts together with what they share: the loaded collections, the vaults behind their own
 locks, and the watcher that reclaims the prompts of a departed client.  Locks, unlocks and loads
 by anyone else (the bus, the control socket, the idle timer, a reload) may happen at any time.
 */
module PromptSystem {
  import opened Options
  import opened PromptModel
  import opened PromptInvariant

  /** A vault behind its own lock.  `holders` is history: the prompts whose `unlock_with_key`
      succeeded on it since it was last locked. */
  datatype Vault = Vault(id: Id, locked: bool, pinned: bool, retired: bool, holders: set<Path>)

  type RelockList = seq<(Id, Option<Ref>)>

  datatype Watcher =
    | Idle
    | Sweeping(todo: set<Path>, relock: RelockList)  // holding the state mutex
    | Relocking(relock: RelockList)

  /** A create on the blocking pool, which runs to its end whoever still awaits it. */
  datatype Job = Making(id: Id) | Made(id: Id, result: CreateResult)

  /** `files` are the collections with a file on disk.  `missed` is history: the vaults a prompt held
      open that were no longer loaded when its record was turned into vaults to lock. */
  datatype State = State(
    prompts: map<Path, Local>,
    loaded: map<Id, Ref>,
    vaults: map<Ref, Vault>,
    watcher: Watcher,
    files: set<Id>,
    jobs: map<Path, Job>,
    missed: set<(Path, Ref)>)

  datatype Action =
    | NewPrompt(p: Path, client: Client, kind: Kind)
    | OfPrompt(p: Path, e: Event)
    | BeginSweep(client: Client) | ReclaimOne(p: Path) | EndSweep | RelockOne | EndRelock
    | LockVault(ref: Ref) | IdleLock(ref: Ref) | UnlockVault(ref: Ref, pin: bool) | SaveVault(ref: Ref)
    | Load(id: Id, ref: Ref, locked: bool)
    | EndJob(p: Path, ok: bool)

  function Get(loaded: map<Id, Ref>, id: Id): Option<Ref> {
    if id in loaded then Some(loaded[id]) else None
  }

  /** `lock`: drop the key and clear the pin. */
  function Locked(v: Vault): Vault {
    v.(locked := true, pinned := false, holders := {})
  }

  function LockIn(vaults: map<Ref, Vault>, ref: Option<Ref>): map<Ref, Vault> {
    if ref.Some? && ref.value in vaults then vaults[ref.value := Locked(vaults[ref.value])] else vaults
  }

  /** The current vaults behind a list of ids, as `reclaim_prompt` and `run` snapshot them. */
  function Snapshot(loaded: map<Id, Ref>, ids: seq<Id>): RelockList {
    if ids == [] then [] else Snapshot(loaded, ids[..|ids| - 1]) + [(ids[|ids| - 1], Get(loaded, ids[|ids| - 1]))]
  }

  predicate IsLoaded(loaded: map<Id, Ref>, vaults: map<Ref, Vault>, ref: Ref) {
    ref in vaults && vaults[ref].id in loaded && loaded[vaults[ref].id] == ref
  }

  /** What `p` holds open and a snapshot taken now does not find. */
  function Unlisted(p: Path, loaded: map<Id, Ref>, vaults: map<Ref, Vault>): set<(Path, Ref)> {
    set ref | ref in vaults && p in vaults[ref].holders && !IsLoaded(loaded, vaults, ref) :: (p, ref)
  }

  predicate StillThere(loaded: map<Id, Ref>, l: Local, i: nat, ref: Ref) {
    l.kind.Unlock? && i < |l.kind.ids| && Get(loaded, l.kind.ids[i]) == Some(ref)
  }

  /** What a task step is told agrees with the shared state. */
  predicate InputOk(loaded: map<Id, Ref>, vaults: map<Ref, Vault>, files: set<Id>, l: Local, input: Input) {
    match l.task
    case Before(i, before) =>
      (before.Lookup? && l.kind.Unlock? && i < |l.kind.ids| ==> input.found == Get(loaded, l.kind.ids[i])) &&
      (before.Peek? && before.ref in vaults ==> input.ok == vaults[before.ref].locked)
    case After(i, ref, _, after) => after.Recheck? ==> input.ok == StillThere(loaded, l, i, ref)
    case Opening(i, ref, _, opening) =>
      (opening.StillLoaded? ==> input.ok == StillThere(loaded, l, i, ref)) &&
      (opening.Open? && ref in vaults && vaults[ref].retired ==> !input.res.OpenOk?)
    case Leaving(leaving) => leaving.TakeRecord? ==> input.vaults == Snapshot(loaded, l.unlockedNow)
    case Consent(consent) => consent.DelLookup? && l.kind.Delete? ==> input.found == Get(loaded, l.kind.id)
    case Work(work) =>
      (work.Insert? ==> input.found.Some? && input.found.value !in vaults) &&
      (work.Unlink? && work.ref in vaults ==>
         (input.unlinked.WasLocked? <==> vaults[work.ref].locked) &&
         (input.unlinked.Gone? ==> vaults[work.ref].id in files))
    case _ => true
  }

  /** A task awaiting its create resumes with the job's own result. */
  predicate Joins(s: State, p: Path, l: Local, e: Event) {
    e.TaskStep? && l.task.Work? && l.task.work.Await? ==>
      p in s.jobs && s.jobs[p] == Made(l.task.work.id, e.input.created)
  }

  predicate Enabled(s: State, a: Action) {
    match a
    case NewPrompt(p, client, kind) =>
      p !in s.prompts && !s.watcher.Sweeping? && (kind.Unlock? ==> Distinct(kind.ids))
    case OfPrompt(p, e) =>
      p in s.prompts && !e.Reclaim? && CanDo(s.prompts[p], e) &&
      (UsesState(s.prompts[p], e) ==> !s.watcher.Sweeping?) &&
      (e.WatchLoad? ==> s.watcher.Sweeping? && p in s.watcher.todo) &&
      (e.TaskStep? ==> InputOk(s.loaded, s.vaults, s.files, s.prompts[p], e.input)) && Joins(s, p, s.prompts[p], e)
    case BeginSweep(client) => s.watcher.Idle?
    case ReclaimOne(p) => s.watcher.Sweeping? && p in s.watcher.todo && p in s.prompts && s.prompts[p].seen.Some?
    case EndSweep => s.watcher.Sweeping? && s.watcher.todo == {}
    case RelockOne => s.watcher.Relocking? && s.watcher.relock != []
    case EndRelock => s.watcher.Relocking? && s.watcher.relock == []
    case LockVault(ref) => ref in s.vaults
    case IdleLock(ref) => ref in s.vaults && !s.vaults[ref].pinned
    case UnlockVault(ref, _) => ref in s.vaults && !s.vaults[ref].retired
    case SaveVault(ref) => ref in s.vaults && !s.vaults[ref].retired && !s.vaults[ref].locked
    case Load(_, ref, _) => ref !in s.vaults && !s.watcher.Sweeping?
    case EndJob(p, _) => p in s.jobs && s.jobs[p].Making?
  }

  /** What a step of prompt `p` does to the vaults. */
  function VaultsAfter(vaults: map<Ref, Vault>, p: Path, l: Local, e: Event): map<Ref, Vault> {
    if !e.TaskStep? then vaults
    else
      match l.task
      case Opening(_, ref, _, opening) =>
        if opening.Open? && e.input.res.OpenOk? && ref in vaults
        then vaults[ref := vaults[ref].(locked := false, holders := vaults[ref].holders + {p})]
        else vaults
      case Leaving(leaving) =>
        if leaving.SelfRelock? && leaving.todo != [] then LockIn(vaults, leaving.todo[0].1) else vaults
      case Work(work) =>
        if work.Unlink? && !e.input.unlinked.WasLocked? && work.ref in vaults
        then vaults[work.ref := vaults[work.ref].(retired := e.input.unlinked.Gone?)]
        else if work.Insert? && e.input.found.Some?
        then vaults[e.input.found.value := Vault(work.id, false, false, false, {})]
        else vaults
      case _ => vaults
  }

  function LoadedAfter(loaded: map<Id, Ref>, l: Local, e: Event): map<Id, Ref> {
    if e.TaskStep? && l.task.Work? && l.task.work.Insert? && e.input.found.Some?
    then loaded[l.task.work.id := e.input.found.value]
    else if e.TaskStep? && l.task == Work(Unlist) && l.kind.Delete? then loaded - {l.kind.id}
    else loaded
  }

  function FilesAfter(files: set<Id>, vaults: map<Ref, Vault>, l: Local, e: Event): set<Id> {
    if e.TaskStep? && l.task.Work? && l.task.work.Unlink? && e.input.unlinked.Gone? && l.task.work.ref in vaults
    then files - {vaults[l.task.work.ref].id} else files
  }

  function JobsAfter(jobs: map<Path, Job>, p: Path, l: Local, e: Event): map<Path, Job> {
    if !e.TaskStep? || !l.task.Work? then jobs
    else if l.task.work.Spawn? then jobs[p := Making(l.task.work.id)]
    else if l.task.work.Await? then jobs - {p} else jobs
  }

  function MissedAfter(missed: set<(Path, Ref)>, loaded: map<Id, Ref>, vaults: map<Ref, Vault>, p: Path, l: Local, e: Event): set<(Path, Ref)> {
    if e.TaskStep? && l.task == Leaving(TakeRecord) then missed + Unlisted(p, loaded, vaults) else missed
  }

  /** `Vault::create` reserves its name exclusively. */
  function JobResult(s: State, id: Id, ok: bool): CreateResult {
    if id in s.files then NameTaken else if ok then Created else CreateFailed
  }

  function Apply(s: State, a: Action): State
    requires Enabled(s, a)
  {
    match a
    case NewPrompt(p, client, kind) => s.(prompts := s.prompts[p := NewLocal(client, kind)])
    case OfPrompt(p, e) =>
      var l := s.prompts[p];
      s.(prompts := s.prompts[p := Step(l, e)], vaults := VaultsAfter(s.vaults, p, l, e), loaded := LoadedAfter(s.loaded, l, e),
         files := FilesAfter(s.files, s.vaults, l, e), jobs := JobsAfter(s.jobs, p, l, e),
         missed := MissedAfter(s.missed, s.loaded, s.vaults, p, l, e))
    case BeginSweep(client) =>
      s.(watcher := Sweeping(set p | p in s.prompts && s.prompts[p].row.owner == Some(client), []))
    case ReclaimOne(p) =>
      var l := s.prompts[p];
      s.(prompts := s.prompts[p := ReclaimRows(l)],
         watcher := Sweeping(s.watcher.todo - {p}, s.watcher.relock + Snapshot(s.loaded, Taken(l))),
         missed := if LeftToTask(l) then s.missed else s.missed + Unlisted(p, s.loaded, s.vaults))
    case EndSweep => s.(watcher := Relocking(s.watcher.relock))
    case RelockOne =>
      s.(vaults := LockIn(s.vaults, s.watcher.relock[0].1), watcher := Relocking(s.watcher.relock[1..]))
    case EndRelock => s.(watcher := Idle)
    case LockVault(ref) => s.(vaults := s.vaults[ref := Locked(s.vaults[ref])])
    case IdleLock(ref) => s.(vaults := s.vaults[ref := Locked(s.vaults[ref])])
    case UnlockVault(ref, pin) => s.(vaults := s.vaults[ref := s.vaults[ref].(locked := false, pinned := pin)])
    case SaveVault(ref) => s.(files := s.files + {s.vaults[ref].id})
    case EndJob(p, ok) =>
      var id := s.jobs[p].id;
      var result := JobResult(s, id, ok);
      s.(files := if result.Created? then s.files + {id} else s.files, jobs := s.jobs[p := Made(id, result)])
    case Load(id, ref, locked) =>
      s.(loaded := s.loaded[id := ref], vaults := s.vaults[ref := Vault(id, locked, false, false, {})])
  }

  // ---- runs ----

  predicate Init(s: State) {
    s.prompts == map[] && s.watcher.Idle? && s.jobs == map[] && s.missed == {} && LoadedInv(s.loaded, s.vaults) &&
    forall r :: r in s.vaults ==> s.vaults[r].holders == {} && !s.vaults[r].pinned
  }

  predicate Runs(s: State, acts: seq<Action>)
    decreases |acts|
  {
    acts == [] || (Enabled(s, acts[0]) && Runs(Apply(s, acts[0]), acts[1..]))
  }

  function Final(s: State, acts: seq<Action>): State
    requires Runs(s, acts)
    decreases |acts|
  {
    if acts == [] then s else Final(Apply(s, acts[0]), acts[1..])
  }

  predicate LoadedInv(loaded: map<Id, Ref>, vaults: map<Ref, Vault>) {
    forall id :: id in loaded ==> loaded[id] in vaults && vaults[loaded[id]].id == id
  }
}
