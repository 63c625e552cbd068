/**
 What every step of the whole system keeps.  The heart is `Duty`: once a prompt's owner was
 reclaimed, every vault still open on that prompt's behalf is somebody's job to lock, unless it was
 already gone from the loaded collections when the record was turned into vaults.
 */
module PromptGlobal {
  import opened Options
  import opened PromptModel
  import opened PromptInvariant
  import opened PromptSystem

  type Vaults = map<Ref, Vault>
  type Missed = set<(Path, Ref)>

  // ---- the invariant ----

  predicate RefIs(l: Local, i: nat, ref: Ref, vaults: Vaults) {
    ref in vaults && l.kind.Unlock? && i < |l.kind.ids| && vaults[ref].id == l.kind.ids[i]
  }

  predicate DoomedIs(l: Local, ref: Ref, vaults: Vaults) {
    ref in vaults && l.kind.Delete? && vaults[ref].id == l.kind.id
  }

  /** The vault a task works on is the one it took for the collection it is at. */
  predicate TaskRefOk(l: Local, vaults: Vaults) {
    match l.task
    case Before(i, before) => before.Lookup? || RefIs(l, i, before.ref, vaults)
    case After(i, ref, _, _) => RefIs(l, i, ref, vaults)
    case Opening(i, ref, _, _) => RefIs(l, i, ref, vaults)
    case Consent(consent) => l.kind.Delete? && !consent.DelLookup? ==> DoomedIs(l, consent.ref, vaults)
    case Work(work) => l.kind.Delete? && work.Unlink? ==> DoomedIs(l, work.ref, vaults)
    case _ => true
  }

  predicate InRelock(relock: RelockList, ref: Ref) {
    exists k :: 0 <= k < |relock| && relock[k].1 == Some(ref)
  }

  /** The task still has its own re-locking of `ref` ahead of it. */
  predicate TaskWillRelock(l: Local, ref: Ref) {
    HasIndex(l.task) ||
    (l.task.Leaving? && (l.task.leaving.SelfRelock? ==> InRelock(l.task.leaving.todo, ref)))
  }

  /** `ref` is open on behalf of `p`. */
  predicate Held(p: Path, vaults: Vaults, ref: Ref) {
    ref in vaults && p in vaults[ref].holders
  }

  predicate SeenTo(p: Path, l: Local, missed: Missed, relock: RelockList, ref: Ref) {
    (p, ref) in missed || if l.hist.left then TaskWillRelock(l, ref) else InRelock(relock, ref)
  }

  ghost predicate Duty(p: Path, l: Local, vaults: Vaults, missed: Missed, relock: RelockList) {
    l.hist.fate.Reclaimed? && !(l.hist.left && l.hist.sawOwner) ==>
      forall ref :: Held(p, vaults, ref) ==> SeenTo(p, l, missed, relock, ref)
  }

  function RelockOf(w: Watcher): RelockList {
    if w.Idle? then [] else w.relock
  }

  ghost predicate PromptInv(p: Path, l: Local, vaults: Vaults, missed: Missed, relock: RelockList) {
    LocalInv(l) && TaskRefOk(l, vaults) && Duty(p, l, vaults, missed, relock)
  }

  ghost predicate PromptsInv(prompts: map<Path, Local>, vaults: Vaults, missed: Missed, relock: RelockList) {
    forall p :: p in prompts ==> PromptInv(p, prompts[p], vaults, missed, relock)
  }

  predicate HeldInv(ref: Ref, v: Vault, prompts: map<Path, Local>) {
    && (v.locked ==> v.holders == {})
    && (forall p :: p in v.holders ==> p in prompts && v.id in prompts[p].hist.openedIds)
  }

  predicate HoldersInv(vaults: Vaults, prompts: map<Path, Local>) {
    forall ref :: ref in vaults ==> HeldInv(ref, vaults[ref], prompts)
  }

  /** While the watcher sweeps it holds the state mutex, so its victims keep their owner rows. */
  predicate WatchInv(w: Watcher, prompts: map<Path, Local>) {
    && (w.Sweeping? ==> forall p :: p in w.todo ==> p in prompts && prompts[p].row.owner.Some?)
    && (forall p :: p in prompts && prompts[p].seen.Some? ==> w.Sweeping? && p in w.todo)
  }

  /** Only a task that won its claim has work on the pool. */
  predicate JobsInv(jobs: map<Path, Job>, prompts: map<Path, Local>) {
    forall p :: p in jobs ==> p in prompts && prompts[p].hist.mutated
  }

  /** A vault is never listed again once it is not. */
  predicate MissedInv(missed: Missed, loaded: map<Id, Ref>, vaults: Vaults) {
    forall m :: m in missed ==> m.1 in vaults && !IsLoaded(loaded, vaults, m.1)
  }

  ghost predicate Inv(s: State) {
    && PromptsInv(s.prompts, s.vaults, s.missed, RelockOf(s.watcher))
    && LoadedInv(s.loaded, s.vaults)
    && HoldersInv(s.vaults, s.prompts)
    && WatchInv(s.watcher, s.prompts)
    && JobsInv(s.jobs, s.prompts)
    && MissedInv(s.missed, s.loaded, s.vaults)
  }

  // ---- what a step may do to a prompt it is not a step of ----

  predicate SameIds(vaults: Vaults, vaults': Vaults) {
    forall ref :: ref in vaults ==> ref in vaults' && vaults'[ref].id == vaults[ref].id
  }

  /** Nothing new is open for `p`, and what still is stays seen to. */
  ghost predicate Calmer(p: Path, vaults: Vaults, missed: Missed, relock: RelockList, vaults': Vaults, missed': Missed, relock': RelockList) {
    && SameIds(vaults, vaults')
    && missed <= missed'
    && (forall ref :: Held(p, vaults', ref) ==> Held(p, vaults, ref))
    && (forall ref :: Held(p, vaults', ref) && InRelock(relock, ref) ==> InRelock(relock', ref))
  }

  lemma {:induction false} OthersKeep(p: Path, l: Local, vaults: Vaults, missed: Missed, relock: RelockList, vaults': Vaults, missed': Missed, relock': RelockList)
    requires PromptInv(p, l, vaults, missed, relock) && Calmer(p, vaults, missed, relock, vaults', missed', relock')
    ensures PromptInv(p, l, vaults', missed', relock')
  {
  }

  // ---- steps of one prompt ----

  /** A created vault is a new one. */
  predicate Fresh(vaults: Vaults, l: Local, e: Event) {
    e.TaskStep? && l.task.Work? && l.task.work.Insert? ==> e.input.found.Some? && e.input.found.value !in vaults
  }

  predicate Opens(l: Local, e: Event) {
    e.TaskStep? && l.task.Opening? && l.task.opening.Open? && e.input.res.OpenOk?
  }

  lemma {:induction false} StepSameIds(vaults: Vaults, p: Path, l: Local, e: Event)
    requires Fresh(vaults, l, e)
    ensures SameIds(vaults, VaultsAfter(vaults, p, l, e))
  {
  }

  /** Only an open makes anything newly open for a prompt, and only for its own. */
  lemma {:induction false} StepOpens(vaults: Vaults, p: Path, l: Local, e: Event, q: Path, ref: Ref)
    requires Fresh(vaults, l, e) && Held(q, VaultsAfter(vaults, p, l, e), ref)
    ensures Held(q, vaults, ref) || (q == p && Opens(l, e) && l.task.ref == ref && ref in vaults)
  {
  }

  /** A task keeps the vault it took, and takes one only as the loaded one under its id. */
  lemma {:induction false} BeforeRefs(loaded: map<Id, Ref>, vaults: Vaults, files: set<Id>, l: Local, input: Input, vaults': Vaults)
    requires KindInv(l.kind, l.task) && TaskRefOk(l, vaults) && LoadedInv(loaded, vaults)
    requires InputOk(loaded, vaults, files, l, input) && SameIds(vaults, vaults') && l.task.Before?
    ensures TaskRefOk(BeforeNext(l, input), vaults')
  {
  }

  lemma {:induction false} LaterRefs(vaults: Vaults, l: Local, input: Input, vaults': Vaults)
    requires KindInv(l.kind, l.task) && TaskRefOk(l, vaults) && SameIds(vaults, vaults')
    ensures l.task.After? ==> TaskRefOk(AfterNext(l, input), vaults')
    ensures l.task.Opening? ==> TaskRefOk(OpeningNext(l, input), vaults')
  {
  }

  lemma {:induction false} OneShotRefs(loaded: map<Id, Ref>, vaults: Vaults, files: set<Id>, l: Local, input: Input, vaults': Vaults)
    requires KindInv(l.kind, l.task) && TaskRefOk(l, vaults) && LoadedInv(loaded, vaults)
    requires InputOk(loaded, vaults, files, l, input) && SameIds(vaults, vaults')
    ensures l.task.Consent? ==> TaskRefOk(ConsentNext(l, input), vaults')
    ensures l.task.Work? ==> TaskRefOk(WorkNext(l, input), vaults')
  {
  }

  lemma {:induction false} EndRefs(l: Local, input: Input, vaults: Vaults)
    ensures l.task.Between? && l.kind.Unlock? ==> TaskRefOk(BetweenNext(l), vaults)
    ensures l.task.Leaving? ==> TaskRefOk(LeavingNext(l, input), vaults)
    ensures TaskRefOk(FinishNext(l), vaults) && TaskRefOk(EmitNext(l), vaults)
  {
  }

  lemma {:induction false} TaskRefs(loaded: map<Id, Ref>, vaults: Vaults, files: set<Id>, l: Local, input: Input, vaults': Vaults)
    requires KindInv(l.kind, l.task) && TaskRefOk(l, vaults) && LoadedInv(loaded, vaults)
    requires InputOk(loaded, vaults, files, l, input) && SameIds(vaults, vaults')
    ensures TaskRefOk(TaskNext(l, input), vaults')
  {
    match l.task
    case Before(_, _) => BeforeRefs(loaded, vaults, files, l, input, vaults');
    case After(_, _, _, _) => LaterRefs(vaults, l, input, vaults');
    case Opening(_, _, _, _) => LaterRefs(vaults, l, input, vaults');
    case Consent(_) => OneShotRefs(loaded, vaults, files, l, input, vaults');
    case Work(_) => OneShotRefs(loaded, vaults, files, l, input, vaults');
    case _ => EndRefs(l, input, vaults');
  }

  lemma {:induction false} StepRefs(loaded: map<Id, Ref>, vaults: Vaults, files: set<Id>, p: Path, l: Local, e: Event)
    requires CanDo(l, e) && Fresh(vaults, l, e) && (e.TaskStep? ==> InputOk(loaded, vaults, files, l, e.input))
    requires LoadedInv(loaded, vaults) && KindInv(l.kind, l.task) && TaskRefOk(l, vaults)
    ensures TaskRefOk(Step(l, e), VaultsAfter(vaults, p, l, e))
  {
    StepSameIds(vaults, p, l, e);
    if e.TaskStep? {
      TaskRefs(loaded, vaults, files, l, e.input, VaultsAfter(vaults, p, l, e));
    }
  }

  // ---- the duty through a step of the task ----

  lemma {:induction false} SnapshotHas(loaded: map<Id, Ref>, ids: seq<Id>, id: Id)
    requires id in ids && id in loaded
    ensures InRelock(Snapshot(loaded, ids), loaded[id])
  {
    var init := Snapshot(loaded, ids[..|ids| - 1]);
    if ids[|ids| - 1] == id {
      assert Snapshot(loaded, ids)[|init|].1 == Some(loaded[id]);
    } else {
      SnapshotHas(loaded, ids[..|ids| - 1], id);
      var k :| 0 <= k < |init| && init[k].1 == Some(loaded[id]);
      assert Snapshot(loaded, ids)[k] == init[k];
    }
  }

  /** A snapshot of what a prompt opened finds every vault it holds, or the vault is unlisted. */
  lemma {:induction false} SnapshotCovers(p: Path, loaded: map<Id, Ref>, vaults: Vaults, ids: seq<Id>, ref: Ref)
    requires Held(p, vaults, ref) && vaults[ref].id in ids
    ensures InRelock(Snapshot(loaded, ids), ref) || (p, ref) in Unlisted(p, loaded, vaults)
  {
    if IsLoaded(loaded, vaults, ref) { SnapshotHas(loaded, ids, vaults[ref].id); }
  }

  lemma {:induction false} RelockDuty(vaults: Vaults, todo: RelockList, p: Path, ref: Ref)
    requires InRelock(todo, ref) && Held(p, LockIn(vaults, todo[0].1), ref)
    ensures InRelock(todo[1..], ref)
  {
    var k :| 0 <= k < |todo| && todo[k].1 == Some(ref);
    assert k > 0;
    assert todo[1..][k - 1] == todo[k];
  }

  /** Leaving the loop: the task's own list covers what is open, and each lock shortens both. */
  lemma {:induction false} LeavingDuty(p: Path, l: Local, loaded: map<Id, Ref>, vaults: Vaults, input: Input, ref: Ref)
    requires l.task.Leaving? && l.row.owner.None? && ListInv(l.kind, l.task, l.unlockedNow, l.hist.openedIds) && l.kind.Unlock?
    requires l.task.leaving.TakeRecord? ==> input.vaults == Snapshot(loaded, l.unlockedNow)
    requires Held(p, vaults, ref) && vaults[ref].id in l.hist.openedIds && TaskWillRelock(l, ref)
    requires Held(p, VaultsAfter(vaults, p, l, TaskStep(input)), ref)
    ensures TaskWillRelock(LeavingNext(l, input), ref) || (p, ref) in MissedAfter({}, loaded, vaults, p, l, TaskStep(input))
  {
    match l.task.leaving
    case FinalCheck =>
    case TakeRecord =>
      assert l.unlockedNow == l.hist.openedIds;
      SnapshotCovers(p, loaded, vaults, l.unlockedNow, ref);
    case SelfRelock(todo) => RelockDuty(vaults, todo, p, ref);
  }

  /** Inside the loop a task goes on to its next step, and every way out passes the final check. */
  lemma {:induction false} LoopEndsAtCheck(l: Local, input: Input)
    requires KindInv(l.kind, l.task) && l.kind.Unlock? && HasIndex(l.task)
    ensures HasIndex(TaskNext(l, input).task) || TaskNext(l, input).task == Leaving(FinalCheck)
  {
    match l.task
    case Between(_, _) => assert TaskNext(l, input) == BetweenNext(l);
    case Before(_, _) => assert TaskNext(l, input) == BeforeNext(l, input);
    case After(_, _, _, _) => assert TaskNext(l, input) == AfterNext(l, input);
    case Opening(_, _, _, _) => assert TaskNext(l, input) == OpeningNext(l, input);
  }

  /** What a prompt holds open is on its list. */
  ghost predicate Listed(p: Path, l: Local, vaults: Vaults) {
    forall ref :: Held(p, vaults, ref) ==> l.kind.Unlock? && vaults[ref].id in l.hist.openedIds
  }

  /** A task a reclaim left alone keeps its own re-locking ahead of whatever it holds open. */
  lemma {:induction false} LeftTaskDuty(p: Path, l: Local, loaded: map<Id, Ref>, vaults: Vaults, missed: Missed, relock: RelockList, input: Input, ref: Ref)
    requires LocalInv(l) && Listed(p, l, vaults) && Duty(p, l, vaults, missed, relock) && Fresh(vaults, l, TaskStep(input))
    requires l.task == Leaving(TakeRecord) ==> input.vaults == Snapshot(loaded, l.unlockedNow)
    requires l.hist.left && l.hist.fate.Reclaimed? && !l.hist.sawOwner && Running(l.task)
    requires Held(p, VaultsAfter(vaults, p, l, TaskStep(input)), ref)
    ensures TaskWillRelock(TaskNext(l, input), ref) || (p, ref) in MissedAfter(missed, loaded, vaults, p, l, TaskStep(input))
  {
    StepOpens(vaults, p, l, TaskStep(input), p, ref);
    if HasIndex(l.task) {
      LoopEndsAtCheck(l, input);
    } else if (p, ref) !in missed {
      LeavingDuty(p, l, loaded, vaults, input, ref);
    }
  }

  /** A task whose record was taken opens nothing more. */
  lemma {:induction false} TakenTaskDuty(p: Path, l: Local, vaults: Vaults, missed: Missed, relock: RelockList, input: Input, ref: Ref)
    requires LocalInv(l) && Duty(p, l, vaults, missed, relock) && Fresh(vaults, l, TaskStep(input))
    requires !l.hist.left && l.hist.fate.Reclaimed?
    requires Held(p, VaultsAfter(vaults, p, l, TaskStep(input)), ref)
    ensures (p, ref) in missed || InRelock(relock, ref)
  {
    assert l.hist.recTaken;
    StepOpens(vaults, p, l, TaskStep(input), p, ref);
  }

  predicate SameFate(h: History, h': History) {
    h'.fate == h.fate && h'.left == h.left && (h.sawOwner ==> h'.sawOwner)
  }

  lemma {:induction false} LoopFate(l: Local, input: Input)
    ensures l.task.Before? ==> SameFate(l.hist, BeforeNext(l, input).hist)
    ensures l.task.Leaving? ==> SameFate(l.hist, LeavingNext(l, input).hist)
  {
  }

  lemma {:induction false} OneShotFate(l: Local, input: Input)
    ensures l.task.Consent? ==> SameFate(l.hist, ConsentNext(l, input).hist)
    ensures l.task.Work? ==> SameFate(l.hist, WorkNext(l, input).hist)
  {
  }

  lemma {:induction false} TaskFate(l: Local, input: Input)
    ensures l.task.Finish? || SameFate(l.hist, TaskNext(l, input).hist)
  {
    match l.task
    case Before(_, _) => LoopFate(l, input);
    case Leaving(_) => LoopFate(l, input);
    case Consent(_) => OneShotFate(l, input);
    case Work(_) => OneShotFate(l, input);
    case _ =>
  }

  lemma {:induction false} FinishFate(l: Local)
    requires FinishNext(l).hist.fate.Reclaimed?
    ensures SameFate(l.hist, FinishNext(l).hist)
  {
  }

  lemma {:induction false} OwnTaskDuty(p: Path, l: Local, loaded: map<Id, Ref>, vaults: Vaults, missed: Missed, relock: RelockList, input: Input)
    requires LocalInv(l) && Listed(p, l, vaults) && Duty(p, l, vaults, missed, relock) && Fresh(vaults, l, TaskStep(input))
    requires (l.task == Leaving(TakeRecord) ==> input.vaults == Snapshot(loaded, l.unlockedNow)) && Running(l.task)
    ensures Duty(p, TaskNext(l, input), VaultsAfter(vaults, p, l, TaskStep(input)),
                 MissedAfter(missed, loaded, vaults, p, l, TaskStep(input)), relock)
  {
    var e := TaskStep(input);
    if TaskNext(l, input).hist.fate.Reclaimed? {
      TaskFate(l, input);
      if l.task.Finish? { FinishFate(l); }
      if !(l.hist.left && TaskNext(l, input).hist.sawOwner) {
        forall ref | Held(p, VaultsAfter(vaults, p, l, e), ref)
          ensures SeenTo(p, TaskNext(l, input), MissedAfter(missed, loaded, vaults, p, l, e), relock, ref)
        {
          if l.hist.left {
            LeftTaskDuty(p, l, loaded, vaults, missed, relock, input, ref);
          } else {
            TakenTaskDuty(p, l, vaults, missed, relock, input, ref);
          }
        }
      }
    }
  }

  // ---- and through any other step of the prompt ----

  /** What a step other than the task's leaves of a reclaimed prompt. */
  lemma {:induction false} CallFate(l: Local, c: CallId)
    requires c in l.calls && ActionInv(l.action, l.task, l.calls) && CallNext(l, c).hist.fate.Reclaimed?
    ensures SameFate(l.hist, CallNext(l, c).hist)
    ensures l.task.NotStarted? || CallNext(l, c).task == l.task
  {
  }

  lemma {:induction false} QuietDuty(p: Path, l: Local, l': Local, vaults: Vaults, missed: Missed, relock: RelockList)
    requires Duty(p, l, vaults, missed, relock)
    requires l'.hist.fate.Reclaimed? ==> SameFate(l.hist, l'.hist) && (l.hist.left ==> l'.task == l.task)
    ensures Duty(p, l', vaults, missed, relock)
  {
  }

  lemma {:induction false} OtherDuty(p: Path, l: Local, e: Event, vaults: Vaults, missed: Missed, relock: RelockList)
    requires Control(l) && CanDo(l, e) && !e.TaskStep? && !e.Reclaim? && Duty(p, l, vaults, missed, relock)
    ensures Duty(p, Step(l, e), vaults, missed, relock)
  {
    if e.CallStep? && CallNext(l, e.c).hist.fate.Reclaimed? {
      CallFate(l, e.c);
    }
    QuietDuty(p, l, Step(l, e), vaults, missed, relock);
  }

  /** What is open for a prompt, the prompt has on its list. */
  lemma {:induction false} HoldingsListed(p: Path, vaults: Vaults, prompts: map<Path, Local>)
    requires HoldersInv(vaults, prompts) && p in prompts && Lists(prompts[p])
    ensures Listed(p, prompts[p], vaults)
  {
    forall ref | Held(p, vaults, ref) ensures prompts[p].kind.Unlock? && vaults[ref].id in prompts[p].hist.openedIds {
      assert HeldInv(ref, vaults[ref], prompts);
    }
  }
}
