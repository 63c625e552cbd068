/**
 Every action of the system keeps the invariant, so every reachable state has it.
 */
module PromptRuns {
  import opened Options
  import opened PromptModel
  import opened PromptInvariant
  import opened PromptSystem
  import opened PromptGlobal
  import PromptControl
  import PromptLists

  // ---- a step of one prompt ----

  lemma {:induction false} LoopKeepsOpened(l: Local, input: Input)
    ensures l.task.Before? ==> BeforeNext(l, input).hist.openedIds == l.hist.openedIds
    ensures l.task.Leaving? ==> LeavingNext(l, input).hist.openedIds == l.hist.openedIds
    ensures l.task.Opening? && l.kind.Unlock? && l.task.i < |l.kind.ids| ==> l.hist.openedIds <= OpeningNext(l, input).hist.openedIds
  {
  }

  lemma {:induction false} OneShotKeepsOpened(l: Local, input: Input)
    ensures l.task.Consent? ==> ConsentNext(l, input).hist.openedIds == l.hist.openedIds
    ensures l.task.Work? ==> WorkNext(l, input).hist.openedIds == l.hist.openedIds
    ensures FinishNext(l).hist.openedIds == EmitNext(l).hist.openedIds == l.hist.openedIds
  {
  }

  lemma {:induction false} TaskKeepsOpened(l: Local, input: Input)
    ensures l.hist.openedIds <= TaskNext(l, input).hist.openedIds
  {
    match l.task
    case Between(_, _) =>
    case Before(_, _) => LoopKeepsOpened(l, input);
    case After(_, _, _, _) =>
    case Opening(_, _, _, _) => LoopKeepsOpened(l, input);
    case Leaving(_) => LoopKeepsOpened(l, input);
    case _ => OneShotKeepsOpened(l, input);
  }

  lemma {:induction false} CallKeepsOpened(l: Local, c: CallId)
    requires c in l.calls
    ensures CallNext(l, c).hist.openedIds == l.hist.openedIds
  {
    assert HistoryAfter(l, c, l.calls[c]).openedIds == l.hist.openedIds;
  }

  lemma {:induction false} StepKeepsOpened(l: Local, e: Event)
    requires CanDo(l, e)
    ensures l.hist.openedIds <= Step(l, e).hist.openedIds
  {
    match e
    case TaskStep(input) => TaskKeepsOpened(l, input);
    case CallStep(c) => CallKeepsOpened(l, c);
    case _ =>
  }

  /** A prompt whose list of opened collections only grew still backs its holdings. */
  lemma {:induction false} GrownKeepsHeld(ref: Ref, v: Vault, prompts: map<Path, Local>, p: Path, l': Local)
    requires p in prompts && HeldInv(ref, v, prompts) && prompts[p].hist.openedIds <= l'.hist.openedIds
    ensures HeldInv(ref, v, prompts[p := l'])
  {
  }

  lemma {:induction false} GrownKeepsHolders(vaults: Vaults, prompts: map<Path, Local>, p: Path, l': Local)
    requires p in prompts && HoldersInv(vaults, prompts) && prompts[p].hist.openedIds <= l'.hist.openedIds
    ensures HoldersInv(vaults, prompts[p := l'])
  {
    forall ref | ref in vaults ensures HeldInv(ref, vaults[ref], prompts[p := l']) {
      GrownKeepsHeld(ref, vaults[ref], prompts, p, l');
    }
  }

  /** A step that opens nothing leaves each vault's holders or clears them. */
  lemma {:induction false} CalmKeepsHolders(vaults: Vaults, prompts: map<Path, Local>, p: Path, l: Local, e: Event)
    requires HoldersInv(vaults, prompts) && Fresh(vaults, l, e) && !Opens(l, e)
    ensures HoldersInv(VaultsAfter(vaults, p, l, e), prompts)
  {
    forall ref | ref in VaultsAfter(vaults, p, l, e) ensures HeldInv(ref, VaultsAfter(vaults, p, l, e)[ref], prompts) {
      assert ref in vaults ==> HeldInv(ref, vaults[ref], prompts);
    }
  }

  /** A successful open is noted in the same step. */
  lemma {:induction false} OpenNoted(l: Local, vaults: Vaults, input: Input)
    requires KindInv(l.kind, l.task) && TaskRefOk(l, vaults) && Opens(l, TaskStep(input))
    ensures l.task.ref in vaults && vaults[l.task.ref].id in TaskNext(l, input).hist.openedIds
  {
    assert TaskNext(l, input) == OpeningNext(l, input);
    assert OpeningNext(l, input).hist.openedIds == l.hist.openedIds + [l.kind.ids[l.task.i]];
  }

  lemma {:induction false} OpenKeepsHolders(vaults: Vaults, prompts: map<Path, Local>, p: Path, ref: Ref)
    requires HoldersInv(vaults, prompts) && p in prompts && ref in vaults && vaults[ref].id in prompts[p].hist.openedIds
    ensures HoldersInv(vaults[ref := vaults[ref].(locked := false, holders := vaults[ref].holders + {p})], prompts)
  {
    assert HeldInv(ref, vaults[ref], prompts);
  }

  lemma {:induction false} StepHolders(vaults: Vaults, prompts: map<Path, Local>, p: Path, e: Event)
    requires p in prompts && HoldersInv(vaults, prompts) && CanDo(prompts[p], e) && Fresh(vaults, prompts[p], e)
    requires KindInv(prompts[p].kind, prompts[p].task) && TaskRefOk(prompts[p], vaults)
    ensures HoldersInv(VaultsAfter(vaults, p, prompts[p], e), prompts[p := Step(prompts[p], e)])
  {
    var l := prompts[p];
    StepKeepsOpened(l, e);
    GrownKeepsHolders(vaults, prompts, p, Step(l, e));
    if Opens(l, e) {
      OpenNoted(l, vaults, e.input);
      OpenKeepsHolders(vaults, prompts[p := Step(l, e)], p, l.task.ref);
    } else {
      CalmKeepsHolders(vaults, prompts[p := Step(l, e)], p, l, e);
    }
  }

  lemma {:induction false} LoopKeepsOwner(l: Local, input: Input)
    ensures l.task.Between? && l.kind.Unlock? ==> BetweenNext(l).row == l.row
    ensures l.task.Before? ==> BeforeNext(l, input).row == l.row
    ensures l.task.After? ==> AfterNext(l, input).row == l.row
    ensures l.task.Opening? && l.kind.Unlock? && l.task.i < |l.kind.ids| ==> OpeningNext(l, input).row.owner == l.row.owner
  {
  }

  lemma {:induction false} EndKeepsOwner(l: Local, input: Input)
    ensures l.task.Leaving? ==> LeavingNext(l, input).row.owner == l.row.owner
    ensures l.task.Consent? ==> ConsentNext(l, input).row == l.row
    ensures l.task.Work? ==> WorkNext(l, input).row == l.row
    ensures EmitNext(l).row == l.row
  {
  }

  lemma {:induction false} TaskKeepsOwner(l: Local, input: Input)
    requires !TaskUsesState(l.task)
    ensures TaskNext(l, input).row.owner == l.row.owner
  {
    if HasIndex(l.task) { LoopKeepsOwner(l, input); } else { EndKeepsOwner(l, input); }
  }

  lemma {:induction false} TaskKeepsSeen(l: Local, input: Input)
    ensures TaskNext(l, input).seen == l.seen
  {
    match l.task
    case Before(_, _) => assert TaskNext(l, input) == BeforeNext(l, input);
    case After(_, _, _, _) => assert TaskNext(l, input) == AfterNext(l, input);
    case Leaving(_) => assert TaskNext(l, input) == LeavingNext(l, input);
    case Consent(_) => assert TaskNext(l, input) == ConsentNext(l, input);
    case Work(_) => assert TaskNext(l, input) == WorkNext(l, input);
    case _ =>
  }

  /** An owner row only goes under the state mutex, and only the watcher leaves a mark in `seen`. */
  lemma {:induction false} StepWatched(l: Local, e: Event)
    requires CanDo(l, e) && !e.Reclaim?
    ensures !UsesState(l, e) ==> Step(l, e).row.owner == l.row.owner
    ensures Step(l, e).seen.Some? ==> e.WatchLoad? || l.seen.Some?
  {
    if e.TaskStep? {
      TaskKeepsSeen(l, e.input);
      if !TaskUsesState(l.task) { TaskKeepsOwner(l, e.input); }
    }
  }

  lemma {:induction false} StagesKeepMutated(l: Local, input: Input)
    ensures l.task.Before? ==> BeforeNext(l, input).hist.mutated == l.hist.mutated
    ensures l.task.Leaving? ==> LeavingNext(l, input).hist.mutated == l.hist.mutated
    ensures l.task.Consent? ==> ConsentNext(l, input).hist.mutated == l.hist.mutated
    ensures l.task.Work? ==> WorkNext(l, input).hist.mutated == (l.hist.mutated || l.task.work.Spawn? ||
                                                                 (l.task.work.Unlink? && !input.unlinked.WasLocked?))
  {
  }

  lemma {:induction false} TaskKeepsMutated(l: Local, input: Input)
    ensures l.hist.mutated ==> TaskNext(l, input).hist.mutated
    ensures l.task.Work? && l.task.work.Spawn? ==> TaskNext(l, input).hist.mutated
  {
    match l.task
    case Before(_, _) => StagesKeepMutated(l, input);
    case Leaving(_) => StagesKeepMutated(l, input);
    case Consent(_) => StagesKeepMutated(l, input);
    case Work(_) => StagesKeepMutated(l, input);
    case _ =>
  }

  lemma {:induction false} CallKeepsMutated(l: Local, c: CallId)
    requires c in l.calls
    ensures CallNext(l, c).hist.mutated == l.hist.mutated
  {
    assert HistoryAfter(l, c, l.calls[c]).mutated == l.hist.mutated;
  }

  /** Work goes to the pool only from a task that has claimed. */
  lemma {:induction false} StepJobs(jobs: map<Path, Job>, prompts: map<Path, Local>, p: Path, e: Event)
    requires p in prompts && JobsInv(jobs, prompts) && CanDo(prompts[p], e)
    ensures JobsInv(JobsAfter(jobs, p, prompts[p], e), prompts[p := Step(prompts[p], e)])
  {
    var l := prompts[p];
    match e
    case TaskStep(input) => TaskKeepsMutated(l, input);
    case CallStep(c) => CallKeepsMutated(l, c);
    case _ =>
  }

  lemma {:induction false} StepWatchers(s: State, p: Path, e: Event)
    requires WatchInv(s.watcher, s.prompts) && Enabled(s, OfPrompt(p, e))
    ensures WatchInv(s.watcher, s.prompts[p := Step(s.prompts[p], e)])
  {
    StepWatched(s.prompts[p], e);
  }

  lemma {:induction false} StepLoaded(loaded: map<Id, Ref>, vaults: Vaults, p: Path, l: Local, e: Event)
    requires LoadedInv(loaded, vaults) && Fresh(vaults, l, e)
    ensures LoadedInv(LoadedAfter(loaded, l, e), VaultsAfter(vaults, p, l, e))
  {
  }

  /** What is not listed is never listed again: only new vaults are. */
  lemma {:induction false} StepMissed(loaded: map<Id, Ref>, vaults: Vaults, missed: Missed, p: Path, l: Local, e: Event)
    requires MissedInv(missed, loaded, vaults) && Fresh(vaults, l, e)
    ensures MissedInv(MissedAfter(missed, loaded, vaults, p, l, e), LoadedAfter(loaded, l, e), VaultsAfter(vaults, p, l, e))
  {
    StepSameIds(vaults, p, l, e);
    if e.TaskStep? && l.task == Leaving(TakeRecord) {
      assert VaultsAfter(vaults, p, l, e) == vaults && LoadedAfter(loaded, l, e) == loaded;
    }
  }

  lemma {:induction false} StepOwn(s: State, p: Path, e: Event)
    requires p in s.prompts && PromptInv(p, s.prompts[p], s.vaults, s.missed, RelockOf(s.watcher)) && Enabled(s, OfPrompt(p, e))
    requires LoadedInv(s.loaded, s.vaults) && Listed(p, s.prompts[p], s.vaults)
    ensures PromptInv(p, Step(s.prompts[p], e), VaultsAfter(s.vaults, p, s.prompts[p], e),
                      MissedAfter(s.missed, s.loaded, s.vaults, p, s.prompts[p], e), RelockOf(s.watcher))
  {
    var l := s.prompts[p];
    PromptControl.StepKeeps(l, e);
    PromptLists.StepKeeps(l, e);
    StepRefs(s.loaded, s.vaults, s.files, p, l, e);
    if e.TaskStep? {
      OwnTaskDuty(p, l, s.loaded, s.vaults, s.missed, RelockOf(s.watcher), e.input);
    } else {
      OtherDuty(p, l, e, s.vaults, s.missed, RelockOf(s.watcher));
    }
  }

  lemma {:induction false} StepCalmer(vaults: Vaults, loaded: map<Id, Ref>, missed: Missed, relock: RelockList, p: Path, l: Local, e: Event, q: Path)
    requires Fresh(vaults, l, e) && q != p
    ensures Calmer(q, vaults, missed, relock, VaultsAfter(vaults, p, l, e), MissedAfter(missed, loaded, vaults, p, l, e), relock)
  {
    StepSameIds(vaults, p, l, e);
    forall ref | Held(q, VaultsAfter(vaults, p, l, e), ref) ensures Held(q, vaults, ref) {
      StepOpens(vaults, p, l, e, q, ref);
    }
  }

  lemma {:induction false} StepPrompts(s: State, p: Path, e: Event)
    requires Inv(s) && Enabled(s, OfPrompt(p, e))
    ensures PromptsInv(s.prompts[p := Step(s.prompts[p], e)], VaultsAfter(s.vaults, p, s.prompts[p], e),
                       MissedAfter(s.missed, s.loaded, s.vaults, p, s.prompts[p], e), RelockOf(s.watcher))
  {
    var l := s.prompts[p];
    HoldingsListed(p, s.vaults, s.prompts);
    StepOwn(s, p, e);
    var vaults', missed' := VaultsAfter(s.vaults, p, l, e), MissedAfter(s.missed, s.loaded, s.vaults, p, l, e);
    forall q | q in s.prompts && q != p ensures PromptInv(q, s.prompts[q], vaults', missed', RelockOf(s.watcher)) {
      StepCalmer(s.vaults, s.loaded, s.missed, RelockOf(s.watcher), p, l, e, q);
      OthersKeep(q, s.prompts[q], s.vaults, s.missed, RelockOf(s.watcher), vaults', missed', RelockOf(s.watcher));
    }
  }

  lemma {:induction false} StepKeeps(s: State, p: Path, e: Event)
    requires Inv(s) && Enabled(s, OfPrompt(p, e))
    ensures Inv(Apply(s, OfPrompt(p, e)))
  {
    assert PromptInv(p, s.prompts[p], s.vaults, s.missed, RelockOf(s.watcher));
    StepPrompts(s, p, e);
    StepLoaded(s.loaded, s.vaults, p, s.prompts[p], e);
    StepHolders(s.vaults, s.prompts, p, e);
    StepWatchers(s, p, e);
    StepJobs(s.jobs, s.prompts, p, e);
    StepMissed(s.loaded, s.vaults, s.missed, p, s.prompts[p], e);
  }

  // ---- the watcher ----

  /** A task left alone has its own re-locking ahead of it, unless its last owner check is past. */
  lemma {:induction false} LeftDuty(l: Local, ref: Ref)
    requires Control(l) && l.kind.Unlock? && l.seen.Some? && LeftToTask(l) && !l.hist.sawOwner
    ensures TaskWillRelock(l, ref)
  {
  }

  /** A record taken is what the prompt opened. */
  lemma {:induction false} TakenIsOpened(l: Local)
    requires LocalInv(l) && l.seen.Some? && !LeftToTask(l)
    ensures Taken(l) == l.hist.openedIds
  {
  }

  lemma {:induction false} InAppended(relock: RelockList, more: RelockList, ref: Ref)
    requires InRelock(relock, ref) || InRelock(more, ref)
    ensures InRelock(relock + more, ref)
  {
    if InRelock(relock, ref) {
      var k :| 0 <= k < |relock| && relock[k].1 == Some(ref);
      assert (relock + more)[k] == relock[k];
    } else {
      var k :| 0 <= k < |more| && more[k].1 == Some(ref);
      assert (relock + more)[|relock| + k] == more[k];
    }
  }

  function MissedByReclaim(missed: Missed, p: Path, l: Local, loaded: map<Id, Ref>, vaults: Vaults): Missed {
    if LeftToTask(l) then missed else missed + Unlisted(p, loaded, vaults)
  }

  /** A reclaim hands everything open for the prompt to the task, or what of it is loaded to the watcher. */
  lemma {:induction false} ReclaimDuty(p: Path, l: Local, loaded: map<Id, Ref>, vaults: Vaults, missed: Missed, relock: RelockList)
    requires LocalInv(l) && Listed(p, l, vaults) && l.seen.Some?
    ensures Duty(p, ReclaimRows(l), vaults, MissedByReclaim(missed, p, l, loaded, vaults), relock + Snapshot(loaded, Taken(l)))
  {
    if !(LeftToTask(l) && l.hist.sawOwner) {
      forall ref | Held(p, vaults, ref)
        ensures SeenTo(p, ReclaimRows(l), MissedByReclaim(missed, p, l, loaded, vaults), relock + Snapshot(loaded, Taken(l)), ref)
      {
        if LeftToTask(l) {
          LeftDuty(l, ref);
        } else {
          TakenIsOpened(l);
          SnapshotCovers(p, loaded, vaults, Taken(l), ref);
          if InRelock(Snapshot(loaded, Taken(l)), ref) { InAppended(relock, Snapshot(loaded, Taken(l)), ref); }
        }
      }
    }
  }

  lemma {:induction false} ReclaimOwn(p: Path, l: Local, loaded: map<Id, Ref>, vaults: Vaults, missed: Missed, relock: RelockList)
    requires PromptInv(p, l, vaults, missed, relock) && Listed(p, l, vaults) && l.seen.Some?
    ensures PromptInv(p, ReclaimRows(l), vaults, MissedByReclaim(missed, p, l, loaded, vaults), relock + Snapshot(loaded, Taken(l)))
  {
    PromptControl.StepKeeps(l, Reclaim);
    PromptLists.StepKeeps(l, Reclaim);
    ReclaimDuty(p, l, loaded, vaults, missed, relock);
  }

  lemma {:induction false} LongerCalmer(q: Path, vaults: Vaults, missed: Missed, missed': Missed, relock: RelockList, more: RelockList)
    requires missed <= missed'
    ensures Calmer(q, vaults, missed, relock, vaults, missed', relock + more)
  {
    forall ref: Ref | InRelock(relock, ref) ensures InRelock(relock + more, ref) {
      InAppended(relock, more, ref);
    }
  }

  lemma {:induction false} ReclaimPrompts(s: State, p: Path)
    requires Inv(s) && Enabled(s, ReclaimOne(p))
    ensures PromptsInv(s.prompts[p := ReclaimRows(s.prompts[p])], s.vaults, MissedByReclaim(s.missed, p, s.prompts[p], s.loaded, s.vaults),
                       s.watcher.relock + Snapshot(s.loaded, Taken(s.prompts[p])))
  {
    var l, relock := s.prompts[p], s.watcher.relock;
    var missed', more := MissedByReclaim(s.missed, p, l, s.loaded, s.vaults), Snapshot(s.loaded, Taken(l));
    assert PromptInv(p, l, s.vaults, s.missed, relock);
    HoldingsListed(p, s.vaults, s.prompts);
    ReclaimOwn(p, l, s.loaded, s.vaults, s.missed, relock);
    forall q | q in s.prompts && q != p ensures PromptInv(q, s.prompts[q], s.vaults, missed', relock + more) {
      LongerCalmer(q, s.vaults, s.missed, missed', relock, more);
      OthersKeep(q, s.prompts[q], s.vaults, s.missed, relock, s.vaults, missed', relock + more);
    }
  }

  lemma {:induction false} ReclaimWatchers(s: State, p: Path)
    requires WatchInv(s.watcher, s.prompts) && JobsInv(s.jobs, s.prompts) && Enabled(s, ReclaimOne(p))
    ensures WatchInv(Sweeping(s.watcher.todo - {p}, s.watcher.relock + Snapshot(s.loaded, Taken(s.prompts[p]))),
                     s.prompts[p := ReclaimRows(s.prompts[p])])
    ensures JobsInv(s.jobs, s.prompts[p := ReclaimRows(s.prompts[p])])
  {
  }

  lemma {:induction false} ReclaimKeeps(s: State, p: Path)
    requires Inv(s) && Enabled(s, ReclaimOne(p))
    ensures Inv(Apply(s, ReclaimOne(p)))
  {
    ReclaimPrompts(s, p);
    GrownKeepsHolders(s.vaults, s.prompts, p, ReclaimRows(s.prompts[p]));
    ReclaimWatchers(s, p);
  }

  // ---- the actions that touch no prompt ----

  predicate Outside(a: Action) {
    !a.NewPrompt? && !a.OfPrompt? && !a.ReclaimOne?
  }

  /** Locking the head of the list and dropping it leaves the rest of the duty on the tail. */
  lemma {:induction false} RelockCalmer(vaults: Vaults, missed: Missed, relock: RelockList, q: Path)
    requires relock != []
    ensures Calmer(q, vaults, missed, relock, LockIn(vaults, relock[0].1), missed, relock[1..])
  {
    forall ref: Ref | Held(q, LockIn(vaults, relock[0].1), ref) && InRelock(relock, ref) ensures InRelock(relock[1..], ref) {
      RelockDuty(vaults, relock, q, ref);
    }
  }

  predicate OfVault(a: Action) {
    a.LockVault? || a.IdleLock? || a.UnlockVault? || a.Load?
  }

  /** Locks, unlocks and loads by anyone else open nothing for a prompt. */
  lemma {:induction false} VaultCalmer(s: State, a: Action, q: Path)
    requires Enabled(s, a) && OfVault(a)
    ensures Calmer(q, s.vaults, s.missed, RelockOf(s.watcher), Apply(s, a).vaults, s.missed, RelockOf(s.watcher))
  {
  }

  lemma {:induction false} OutsideCalmer(s: State, a: Action, q: Path)
    requires Enabled(s, a) && Outside(a)
    ensures Calmer(q, s.vaults, s.missed, RelockOf(s.watcher), Apply(s, a).vaults, Apply(s, a).missed, RelockOf(Apply(s, a).watcher))
  {
    if a.RelockOne? {
      RelockCalmer(s.vaults, s.missed, s.watcher.relock, q);
    } else if OfVault(a) {
      VaultCalmer(s, a, q);
    }
  }

  lemma {:induction false} OutsidePrompts(s: State, a: Action)
    requires PromptsInv(s.prompts, s.vaults, s.missed, RelockOf(s.watcher)) && Enabled(s, a) && Outside(a)
    ensures PromptsInv(s.prompts, Apply(s, a).vaults, Apply(s, a).missed, RelockOf(Apply(s, a).watcher))
  {
    var s' := Apply(s, a);
    forall q | q in s.prompts ensures PromptInv(q, s.prompts[q], s'.vaults, s'.missed, RelockOf(s'.watcher)) {
      OutsideCalmer(s, a, q);
      OthersKeep(q, s.prompts[q], s.vaults, s.missed, RelockOf(s.watcher), s'.vaults, s'.missed, RelockOf(s'.watcher));
    }
  }

  lemma {:induction false} OutsideHolders(s: State, a: Action)
    requires HoldersInv(s.vaults, s.prompts) && Enabled(s, a) && Outside(a)
    ensures HoldersInv(Apply(s, a).vaults, s.prompts)
  {
    forall ref | ref in Apply(s, a).vaults ensures HeldInv(ref, Apply(s, a).vaults[ref], s.prompts) {
      assert ref in s.vaults ==> HeldInv(ref, s.vaults[ref], s.prompts);
    }
  }

  lemma {:induction false} OutsideLoaded(s: State, a: Action)
    requires LoadedInv(s.loaded, s.vaults) && MissedInv(s.missed, s.loaded, s.vaults) && Enabled(s, a) && Outside(a)
    ensures LoadedInv(Apply(s, a).loaded, Apply(s, a).vaults) && MissedInv(Apply(s, a).missed, Apply(s, a).loaded, Apply(s, a).vaults)
  {
  }

  lemma {:induction false} OutsideWatchers(s: State, a: Action)
    requires WatchInv(s.watcher, s.prompts) && JobsInv(s.jobs, s.prompts) && Enabled(s, a) && Outside(a)
    ensures WatchInv(Apply(s, a).watcher, s.prompts) && JobsInv(Apply(s, a).jobs, s.prompts) && Apply(s, a).prompts == s.prompts
  {
  }

  lemma {:induction false} OutsideKeeps(s: State, a: Action)
    requires Inv(s) && Enabled(s, a) && Outside(a)
    ensures Inv(Apply(s, a))
  {
    OutsidePrompts(s, a);
    OutsideHolders(s, a);
    OutsideLoaded(s, a);
    OutsideWatchers(s, a);
  }

  // ---- registration ----

  lemma {:induction false} NewLocalInv(client: Client, kind: Kind)
    requires kind.Unlock? ==> Distinct(kind.ids)
    ensures LocalInv(NewLocal(client, kind))
  {
  }

  lemma {:induction false} NewPrompts(prompts: map<Path, Local>, vaults: Vaults, missed: Missed, relock: RelockList, p: Path, client: Client, kind: Kind)
    requires PromptsInv(prompts, vaults, missed, relock) && p !in prompts && (kind.Unlock? ==> Distinct(kind.ids))
    ensures PromptsInv(prompts[p := NewLocal(client, kind)], vaults, missed, relock)
  {
    NewLocalInv(client, kind);
    assert PromptInv(p, NewLocal(client, kind), vaults, missed, relock);
  }

  lemma {:induction false} NewHolders(vaults: Vaults, prompts: map<Path, Local>, p: Path, l: Local)
    requires HoldersInv(vaults, prompts) && p !in prompts
    ensures HoldersInv(vaults, prompts[p := l])
  {
    forall ref | ref in vaults ensures HeldInv(ref, vaults[ref], prompts[p := l]) {
      assert HeldInv(ref, vaults[ref], prompts);
    }
  }

  lemma {:induction false} NewWatchers(s: State, p: Path, client: Client, kind: Kind)
    requires WatchInv(s.watcher, s.prompts) && JobsInv(s.jobs, s.prompts) && Enabled(s, NewPrompt(p, client, kind))
    ensures WatchInv(s.watcher, s.prompts[p := NewLocal(client, kind)]) && JobsInv(s.jobs, s.prompts[p := NewLocal(client, kind)])
  {
  }

  lemma {:induction false} NewKeeps(s: State, p: Path, client: Client, kind: Kind)
    requires Inv(s) && Enabled(s, NewPrompt(p, client, kind))
    ensures Inv(Apply(s, NewPrompt(p, client, kind)))
  {
    NewPrompts(s.prompts, s.vaults, s.missed, RelockOf(s.watcher), p, client, kind);
    NewHolders(s.vaults, s.prompts, p, NewLocal(client, kind));
    NewWatchers(s, p, client, kind);
  }

  // ---- runs ----

  lemma {:induction false} ActionKeeps(s: State, a: Action)
    requires Inv(s) && Enabled(s, a)
    ensures Inv(Apply(s, a))
  {
    match a
    case NewPrompt(p, client, kind) => NewKeeps(s, p, client, kind);
    case OfPrompt(p, e) => StepKeeps(s, p, e);
    case ReclaimOne(p) => ReclaimKeeps(s, p);
    case _ => OutsideKeeps(s, a);
  }

  lemma {:induction false} RunKeeps(s: State, acts: seq<Action>)
    requires Inv(s) && Runs(s, acts)
    ensures Inv(Final(s, acts))
    decreases |acts|
  {
    if acts != [] {
      ActionKeeps(s, acts[0]);
      RunKeeps(Apply(s, acts[0]), acts[1..]);
    }
  }

  /** Every state the daemon can reach, in any interleaving, has the invariant. */
  lemma {:induction false} Reachable(s: State, acts: seq<Action>)
    requires Init(s) && Runs(s, acts)
    ensures Inv(Final(s, acts))
  {
    RunKeeps(s, acts);
  }
}
