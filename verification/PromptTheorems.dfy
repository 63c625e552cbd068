/**
 What the prompt protocol promises, over every run of the daemon: any number of clients, prompts
 and vaults, any interleaving of method calls, tasks, aborts, disconnects, locks, unlocks and loads.
 */
module PromptTheorems {
  import opened Options
  import opened PromptModel
  import opened PromptInvariant
  import opened PromptSystem
  import opened PromptGlobal
  import opened PromptRuns

  /** What the invariant says of one prompt of a reachable state. */
  lemma {:induction false} PromptAt(s0: State, acts: seq<Action>, p: Path)
    requires Init(s0) && Runs(s0, acts) && p in Final(s0, acts).prompts
    ensures var s := Final(s0, acts);
            PromptInv(p, s.prompts[p], s.vaults, s.missed, RelockOf(s.watcher))
  {
    Reachable(s0, acts);
    var s := Final(s0, acts);
    assert PromptInv(p, s.prompts[p], s.vaults, s.missed, RelockOf(s.watcher));
  }

  lemma {:induction false} LocalAt(s0: State, acts: seq<Action>, p: Path)
    requires Init(s0) && Runs(s0, acts) && p in Final(s0, acts).prompts
    ensures LocalInv(Final(s0, acts).prompts[p])
  {
    PromptAt(s0, acts, p);
  }

  // ---- how a prompt's past grows ----

  /** A decided fate is final, dismissals and wins are never taken back, and a `Dismiss` that won
      its claim freezes what the prompt opened, created or deleted. */
  predicate Later(h: History, h': History) {
    && (h.fate.Live? || (h'.fate == h.fate && h'.claimant == h.claimant))
    && h.signals <= h'.signals
    && h.openedIds <= h'.openedIds
    && (h.taskWon ==> h'.taskWon)
    && (h.dismissWon ==> h'.dismissWon && h'.openedIds == h.openedIds && h'.mutated == h.mutated)
  }

  lemma {:induction false} OpeningLater(l: Local, input: Input)
    requires GateInv(l.kind, l.task, l.committed, l.cancelled, l.hist.taskWon, l.hist.dismissWon, l.hist.mutated)
    requires l.task.Opening? && l.kind.Unlock? && l.task.i < |l.kind.ids|
    ensures Later(l.hist, OpeningNext(l, input).hist)
  {
  }

  lemma {:induction false} OneShotLater(l: Local, input: Input)
    requires GateInv(l.kind, l.task, l.committed, l.cancelled, l.hist.taskWon, l.hist.dismissWon, l.hist.mutated)
    requires !l.kind.Unlock?
    ensures l.task.Consent? ==> Later(l.hist, ConsentNext(l, input).hist)
    ensures l.task.Work? ==> Later(l.hist, WorkNext(l, input).hist)
  {
  }

  lemma {:induction false} FinishLater(l: Local)
    requires FateInv(l.client, l.row.owner, l.hist.fate, l.hist.claimant, l.seen)
    ensures Later(l.hist, FinishNext(l).hist)
  {
  }

  lemma {:induction false} EmitLater(l: Local)
    ensures Later(l.hist, EmitNext(l).hist)
  {
  }

  lemma {:induction false} LoopLater(l: Local, input: Input)
    ensures l.task.Before? ==> Later(l.hist, BeforeNext(l, input).hist)
    ensures l.task.Leaving? ==> Later(l.hist, LeavingNext(l, input).hist)
  {
  }

  lemma {:induction false} TaskLater(l: Local, input: Input)
    requires KindInv(l.kind, l.task) && FateInv(l.client, l.row.owner, l.hist.fate, l.hist.claimant, l.seen)
    requires GateInv(l.kind, l.task, l.committed, l.cancelled, l.hist.taskWon, l.hist.dismissWon, l.hist.mutated)
    ensures Later(l.hist, TaskNext(l, input).hist)
  {
    match l.task
    case Before(_, _) => LoopLater(l, input);
    case Opening(_, _, _, _) => OpeningLater(l, input);
    case Leaving(_) => LoopLater(l, input);
    case Consent(_) => OneShotLater(l, input);
    case Work(_) => OneShotLater(l, input);
    case Finish => FinishLater(l);
    case Emit => EmitLater(l);
    case _ =>
  }

  lemma {:induction false} CallLater(l: Local, c: CallId)
    requires FateInv(l.client, l.row.owner, l.hist.fate, l.hist.claimant, l.seen) && c in l.calls
    ensures Later(l.hist, CallNext(l, c).hist)
  {
  }

  lemma {:induction false} StepLater(l: Local, e: Event)
    requires Control(l) && CanDo(l, e)
    ensures Later(l.hist, Step(l, e).hist)
  {
    match e
    case TaskStep(input) => TaskLater(l, input);
    case CallStep(c) => CallLater(l, c);
    case _ =>
  }

  /** What the steps that are neither a task's nor a call's leave alone. */
  lemma {:induction false} OtherSame(l: Local, e: Event)
    requires CanDo(l, e) && !e.TaskStep? && !e.CallStep?
    ensures var l' := Step(l, e);
            && l'.kind == l.kind && l'.cancelled == l.cancelled && l'.committed == l.committed
            && (l'.task == l.task || l'.task == Dropped) && l'.hist.claimant == l.hist.claimant
            && (l'.hist.fate == l.hist.fate || !l'.hist.fate.Live?)
            && l'.hist.taskWon == l.hist.taskWon && l'.hist.mutated == l.hist.mutated
  {
  }

  lemma {:induction false} OthersSame(s: State, a: Action, p: Path)
    requires Enabled(s, a) && p in s.prompts && !(a.OfPrompt? && a.p == p) && a != ReclaimOne(p)
    ensures p in Apply(s, a).prompts && Apply(s, a).prompts[p] == s.prompts[p]
  {
  }

  lemma {:induction false} ActionLater(s: State, a: Action, p: Path)
    requires p in s.prompts && LocalInv(s.prompts[p]) && Enabled(s, a)
    ensures p in Apply(s, a).prompts && Later(s.prompts[p].hist, Apply(s, a).prompts[p].hist)
  {
    if a.OfPrompt? && a.p == p {
      StepLater(s.prompts[p], a.e);
    } else if a == ReclaimOne(p) {
      StepLater(s.prompts[p], Reclaim);
    } else {
      OthersSame(s, a, p);
    }
  }

  lemma {:induction false} InvLocal(s: State, p: Path)
    requires Inv(s) && p in s.prompts
    ensures LocalInv(s.prompts[p])
  {
    assert PromptInv(p, s.prompts[p], s.vaults, s.missed, RelockOf(s.watcher));
  }

  lemma {:induction false} RunLater(s: State, acts: seq<Action>, p: Path)
    requires Inv(s) && Runs(s, acts) && p in s.prompts
    ensures p in Final(s, acts).prompts && Later(s.prompts[p].hist, Final(s, acts).prompts[p].hist)
    decreases |acts|
  {
    if acts != [] {
      ActionKeeps(s, acts[0]);
      InvLocal(s, p);
      ActionLater(s, acts[0], p);
      RunLater(Apply(s, acts[0]), acts[1..], p);
    }
  }

  // ---- a dismissed unlock works on no further collection ----

  /** The task has read the dismissal flag for the collection it is at. */
  predicate PastCancelRead(t: Task) {
    t.Before? || t.After? || t.Opening? || (t.Between? && t.between.OwnerCheck?)
  }

  predicate OnlyAt(t: Task, cancelled: bool, i: int) {
    cancelled && (PastCancelRead(t) ==> t.i == i)
  }

  lemma {:induction false} LoopOnlyAt(l: Local, input: Input, i: int)
    requires OnlyAt(l.task, l.cancelled, i)
    ensures l.task.Between? && l.kind.Unlock? ==> OnlyAt(BetweenNext(l).task, BetweenNext(l).cancelled, i)
    ensures l.task.Before? ==> OnlyAt(BeforeNext(l, input).task, BeforeNext(l, input).cancelled, i)
    ensures l.task.After? ==> OnlyAt(AfterNext(l, input).task, AfterNext(l, input).cancelled, i)
  {
  }

  lemma {:induction false} EndOnlyAt(l: Local, input: Input, i: int)
    requires OnlyAt(l.task, l.cancelled, i)
    ensures l.task.Leaving? ==> OnlyAt(LeavingNext(l, input).task, LeavingNext(l, input).cancelled, i)
    ensures l.task.Consent? ==> OnlyAt(ConsentNext(l, input).task, ConsentNext(l, input).cancelled, i)
    ensures l.task.Work? ==> OnlyAt(WorkNext(l, input).task, WorkNext(l, input).cancelled, i)
  {
  }

  lemma {:induction false} TaskOnlyAt(l: Local, input: Input, i: int)
    requires OnlyAt(l.task, l.cancelled, i)
    ensures OnlyAt(TaskNext(l, input).task, TaskNext(l, input).cancelled, i)
  {
    match l.task
    case Between(_, _) => LoopOnlyAt(l, input, i);
    case Before(_, _) => LoopOnlyAt(l, input, i);
    case After(_, _, _, _) => LoopOnlyAt(l, input, i);
    case Leaving(_) => EndOnlyAt(l, input, i);
    case Consent(_) => EndOnlyAt(l, input, i);
    case Work(_) => EndOnlyAt(l, input, i);
    case _ =>
  }

  lemma {:induction false} StepOnlyAt(l: Local, e: Event, i: int)
    requires CanDo(l, e) && OnlyAt(l.task, l.cancelled, i)
    ensures OnlyAt(Step(l, e).task, Step(l, e).cancelled, i)
  {
    if e.TaskStep? {
      TaskOnlyAt(l, e.input, i);
    }
  }

  lemma {:induction false} ActionOnlyAt(s: State, a: Action, p: Path, i: int)
    requires Enabled(s, a) && p in s.prompts && OnlyAt(s.prompts[p].task, s.prompts[p].cancelled, i)
    ensures p in Apply(s, a).prompts && OnlyAt(Apply(s, a).prompts[p].task, Apply(s, a).prompts[p].cancelled, i)
  {
    if a.OfPrompt? && a.p == p {
      StepOnlyAt(s.prompts[p], a.e, i);
    } else if a != ReclaimOne(p) {
      OthersSame(s, a, p);
    }
  }

  lemma {:induction false} RunOnlyAt(s: State, acts: seq<Action>, p: Path, i: int)
    requires Runs(s, acts) && p in s.prompts && OnlyAt(s.prompts[p].task, s.prompts[p].cancelled, i)
    ensures p in Final(s, acts).prompts && OnlyAt(Final(s, acts).prompts[p].task, Final(s, acts).prompts[p].cancelled, i)
    decreases |acts|
  {
    if acts != [] {
      ActionOnlyAt(s, acts[0], p, i);
      RunOnlyAt(Apply(s, acts[0]), acts[1..], p, i);
    }
  }

  /** Once a `Dismiss` has recorded itself, whichever way its claim goes, the task is never again at
      a collection it had not already reached: no later one is looked up, asked about or opened. */
  lemma {:induction false} DismissedGoesNoFurther(s: State, acts: seq<Action>, p: Path)
    requires Runs(s, acts) && p in s.prompts && s.prompts[p].cancelled
    ensures p in Final(s, acts).prompts
    ensures var t, t' := s.prompts[p].task, Final(s, acts).prompts[p].task;
            PastCancelRead(t') ==> PastCancelRead(t) && t'.i == t.i
  {
    RunOnlyAt(s, acts, p, if PastCancelRead(s.prompts[p].task) then s.prompts[p].task.i else -1);
  }

  // ---- a dismissed prompt is never re-armed ----

  /** A `Dismiss` past its first check has taken the action, whoever had it. */
  predicate Disarmed(l: Local) {
    && (l.cancelled ==> !l.action)
    && (forall c :: c in l.calls && l.calls[c].DCancel? ==> !l.action)
  }

  /** Nothing is left that could start a task. */
  predicate Spent(l: Local) {
    !l.action && l.task.NotStarted? && forall c :: c in l.calls ==> !l.calls[c].PRegister?
  }

  predicate SameArms(l: Local, l': Local) {
    l'.action == l.action && l'.cancelled == l.cancelled && l'.calls == l.calls
  }

  lemma {:induction false} LoopArms(l: Local, input: Input)
    ensures l.task.Before? ==> SameArms(l, BeforeNext(l, input))
    ensures l.task.After? ==> SameArms(l, AfterNext(l, input))
    ensures l.task.Opening? && l.kind.Unlock? && l.task.i < |l.kind.ids| ==> SameArms(l, OpeningNext(l, input))
  {
  }

  lemma {:induction false} EndArms(l: Local, input: Input)
    ensures l.task.Leaving? ==> SameArms(l, LeavingNext(l, input))
    ensures l.task.Consent? ==> SameArms(l, ConsentNext(l, input))
    ensures l.task.Work? ==> SameArms(l, WorkNext(l, input))
  {
  }

  lemma {:induction false} TaskArms(l: Local, input: Input)
    ensures SameArms(l, TaskNext(l, input))
  {
    LoopArms(l, input);
    EndArms(l, input);
  }

  lemma {:induction false} CallDisarmed(l: Local, c: CallId)
    requires c in l.calls
    ensures Disarmed(l) ==> Disarmed(CallNext(l, c))
    ensures Spent(l) ==> Spent(CallNext(l, c))
  {
  }

  lemma {:induction false} OtherDisarmed(l: Local, e: Event)
    requires CanDo(l, e) && !e.TaskStep? && !e.CallStep?
    ensures Disarmed(l) ==> Disarmed(Step(l, e))
    ensures Spent(l) ==> Spent(Step(l, e))
  {
  }

  lemma {:induction false} StepDisarmed(l: Local, e: Event)
    requires CanDo(l, e)
    ensures Disarmed(l) ==> Disarmed(Step(l, e))
    ensures Spent(l) ==> Spent(Step(l, e))
  {
    match e
    case TaskStep(input) => TaskArms(l, input);
    case CallStep(c) => CallDisarmed(l, c);
    case _ => OtherDisarmed(l, e);
  }

  lemma {:induction false} ActionDisarmed(s: State, a: Action, p: Path)
    requires Enabled(s, a) && (p in s.prompts ==> Disarmed(s.prompts[p]))
    ensures p in Apply(s, a).prompts ==> Disarmed(Apply(s, a).prompts[p])
    ensures p in s.prompts && Spent(s.prompts[p]) ==> p in Apply(s, a).prompts && Spent(Apply(s, a).prompts[p])
  {
    if a.OfPrompt? && a.p == p {
      StepDisarmed(s.prompts[p], a.e);
    } else if a == ReclaimOne(p) {
      StepDisarmed(s.prompts[p], Reclaim);
    } else if p in s.prompts {
      OthersSame(s, a, p);
    }
  }

  lemma {:induction false} RunDisarmed(s: State, acts: seq<Action>, p: Path)
    requires Runs(s, acts) && (p in s.prompts ==> Disarmed(s.prompts[p]))
    ensures p in Final(s, acts).prompts ==> Disarmed(Final(s, acts).prompts[p])
    ensures p in s.prompts && Spent(s.prompts[p]) ==> p in Final(s, acts).prompts && Spent(Final(s, acts).prompts[p])
    decreases |acts|
  {
    if acts != [] {
      ActionDisarmed(s, acts[0], p);
      RunDisarmed(Apply(s, acts[0]), acts[1..], p);
    }
  }

  /** Once a `Dismiss` is recorded on a prompt no `Prompt` call is starting, no task is ever started for
      it, in any later run, however often `Prompt` is called. */
  lemma {:induction false} NeverRearmed(s0: State, acts: seq<Action>, more: seq<Action>, p: Path)
    requires Init(s0) && Runs(s0, acts) && p in Final(s0, acts).prompts && Runs(Final(s0, acts), more)
    requires var l := Final(s0, acts).prompts[p];
             l.cancelled && l.task.NotStarted? && forall c :: c in l.calls ==> !l.calls[c].PRegister?
    ensures var s := Final(Final(s0, acts), more);
            p in s.prompts && s.prompts[p].task.NotStarted?
  {
    RunDisarmed(s0, acts, p);
    RunDisarmed(Final(s0, acts), more, p);
  }

  // ---- a dismissed create or delete asks nobody and acts on no answer ----

  /** The task of a create or delete is past its last look at the dismissal. */
  predicate Committing(t: Task) {
    t.Work? || (t.Consent? && t.consent.OneClaim?)
  }

  predicate Asking(t: Task) {
    t.Consent? && t.consent.Ask?
  }

  predicate Silenced(l: Local, asking: bool) {
    l.cancelled && !l.kind.Unlock? && KindInv(l.kind, l.task) && !Committing(l.task) && (Asking(l.task) ==> asking)
  }

  lemma {:induction false} TaskSilenced(l: Local, input: Input, asking: bool)
    requires Silenced(l, asking)
    ensures Silenced(TaskNext(l, input), asking)
  {
  }

  lemma {:induction false} CallSilenced(l: Local, c: CallId, asking: bool)
    requires Silenced(l, asking) && c in l.calls
    ensures Silenced(CallNext(l, c), asking)
  {
  }

  lemma {:induction false} StepSilenced(l: Local, e: Event, asking: bool)
    requires CanDo(l, e) && Silenced(l, asking)
    ensures Silenced(Step(l, e), asking)
  {
    match e
    case TaskStep(input) => TaskSilenced(l, input, asking);
    case CallStep(c) => CallSilenced(l, c, asking);
    case _ => OtherSame(l, e);
  }

  lemma {:induction false} ActionSilenced(s: State, a: Action, p: Path, asking: bool)
    requires Enabled(s, a) && p in s.prompts && Silenced(s.prompts[p], asking)
    ensures p in Apply(s, a).prompts && Silenced(Apply(s, a).prompts[p], asking)
  {
    if a.OfPrompt? && a.p == p {
      StepSilenced(s.prompts[p], a.e, asking);
    } else if a == ReclaimOne(p) {
      StepSilenced(s.prompts[p], Reclaim, asking);
    } else {
      OthersSame(s, a, p);
    }
  }

  lemma {:induction false} RunSilenced(s: State, acts: seq<Action>, p: Path, asking: bool)
    requires Runs(s, acts) && p in s.prompts && Silenced(s.prompts[p], asking)
    ensures p in Final(s, acts).prompts && Silenced(Final(s, acts).prompts[p], asking)
    decreases |acts|
  {
    if acts != [] {
      ActionSilenced(s, acts[0], p, asking);
      RunSilenced(Apply(s, acts[0]), acts[1..], p, asking);
    }
  }

  /** Once a `Dismiss` has recorded itself on a create or delete, whichever way its claim goes and
      whether or not it aborts the task, no later run raises the dialog, and none acts on an answer the
      task had not already taken past its second look. */
  lemma {:induction false} DismissedAsksNobody(s0: State, acts: seq<Action>, more: seq<Action>, p: Path)
    requires Init(s0) && Runs(s0, acts) && Runs(Final(s0, acts), more) && p in Final(s0, acts).prompts
    requires var l := Final(s0, acts).prompts[p];
             l.cancelled && !l.kind.Unlock? && !Committing(l.task)
    ensures var s := Final(s0, acts);
            var s' := Final(s, more);
            p in s'.prompts && !Committing(s'.prompts[p].task) && (Asking(s'.prompts[p].task) ==> Asking(s.prompts[p].task))
  {
    LocalAt(s0, acts, p);
    RunSilenced(Final(s0, acts), more, p, Asking(Final(s0, acts).prompts[p].task));
  }

  // ---- an abort is not lost ----

  /** The `Dismiss` that took the abort handle has used it, or is about to. */
  predicate AbortKept(l: Local) {
    var taker := l.hist.taker;
    taker.Some? && !(taker.value in l.calls && l.calls[taker.value] == DAbort(true)) ==> l.aborted || !Running(l.task)
  }

  predicate SameEnd(l: Local, l': Local) {
    l'.calls == l.calls && l'.aborted == l.aborted && l'.hist.taker == l.hist.taker
  }

  lemma {:induction false} LoopEnds(l: Local, input: Input)
    ensures l.task.Before? ==> SameEnd(l, BeforeNext(l, input))
    ensures l.task.After? ==> SameEnd(l, AfterNext(l, input))
    ensures l.task.Opening? && l.kind.Unlock? && l.task.i < |l.kind.ids| ==> SameEnd(l, OpeningNext(l, input))
  {
  }

  lemma {:induction false} RestEnds(l: Local, input: Input)
    ensures l.task.Leaving? ==> SameEnd(l, LeavingNext(l, input))
    ensures l.task.Consent? ==> SameEnd(l, ConsentNext(l, input))
    ensures l.task.Work? ==> SameEnd(l, WorkNext(l, input))
  {
  }

  lemma {:induction false} TaskEnds(l: Local, input: Input)
    ensures SameEnd(l, TaskNext(l, input))
  {
    match l.task
    case Before(_, _) => LoopEnds(l, input);
    case After(_, _, _, _) => LoopEnds(l, input);
    case Opening(_, _, _, _) => LoopEnds(l, input);
    case Leaving(_) => RestEnds(l, input);
    case Consent(_) => RestEnds(l, input);
    case Work(_) => RestEnds(l, input);
    case _ =>
  }

  lemma {:induction false} CallAborts(l: Local, c: CallId)
    requires c in l.calls && AbortKept(l) && ActionInv(l.action, l.task, l.calls)
    requires StartInv(l.task, l.row, l.aborted, l.unlockedNow, l.hist)
    requires TakerInv(l.row, l.calls, l.hist.taker, l.aborted, l.hist.recTaken)
    ensures AbortKept(CallNext(l, c))
  {
  }

  lemma {:induction false} KeptSame(l: Local, l': Local)
    requires AbortKept(l) && l'.hist.taker == l.hist.taker && l'.calls == l.calls && (l.aborted ==> l'.aborted)
    requires Running(l'.task) ==> Running(l.task)
    ensures AbortKept(l')
  {
  }

  lemma {:induction false} ArriveAborts(l: Local, c: CallId, call: Call)
    requires AbortKept(l) && c !in l.calls && (call.PCheck? || call.DCheck?)
    ensures AbortKept(l.(calls := l.calls[c := call]))
  {
  }

  lemma {:induction false} OtherEnds(l: Local, e: Event)
    requires CanDo(l, e) && !e.TaskStep? && !e.CallStep? && !e.Arrive?
    ensures var l' := Step(l, e);
            l'.hist.taker == l.hist.taker && l'.calls == l.calls && (l.aborted ==> l'.aborted)
  {
    match e
    case Export(exported) => assert Step(l, e) == l.(exporting := if exported then Exported else ExportFailed);
    case Withdraw => assert Step(l, e).calls == l.calls && Step(l, e).aborted == l.aborted;
    case Drop => assert Step(l, e) == l.(task := Dropped);
    case WatchLoad => assert Step(l, e).calls == l.calls && Step(l, e).aborted == l.aborted;
    case Reclaim => assert Step(l, e) == ReclaimRows(l);
  }

  lemma {:induction false} OtherAborts(l: Local, e: Event)
    requires CanDo(l, e) && !e.TaskStep? && !e.CallStep? && AbortKept(l)
    ensures AbortKept(Step(l, e))
  {
    if e.Arrive? {
      ArriveAborts(l, e.c, e.call);
    } else {
      OtherEnds(l, e);
      OtherSame(l, e);
      KeptSame(l, Step(l, e));
    }
  }

  lemma {:induction false} StepAborts(l: Local, e: Event)
    requires CanDo(l, e) && Control(l) && AbortKept(l)
    ensures AbortKept(Step(l, e))
  {
    match e
    case TaskStep(input) => TaskEnds(l, input);
    case CallStep(c) => CallAborts(l, c);
    case _ => OtherAborts(l, e);
  }

  lemma {:induction false} ActionAborts(s: State, a: Action, p: Path)
    requires Enabled(s, a) && (p in s.prompts ==> Control(s.prompts[p]) && AbortKept(s.prompts[p]))
    ensures p in Apply(s, a).prompts ==> AbortKept(Apply(s, a).prompts[p])
  {
    if a.OfPrompt? && a.p == p {
      StepAborts(s.prompts[p], a.e);
    } else if a == ReclaimOne(p) {
      StepAborts(s.prompts[p], Reclaim);
    } else if p in s.prompts {
      OthersSame(s, a, p);
    }
  }

  lemma {:induction false} RunAborts(s: State, acts: seq<Action>, p: Path)
    requires Inv(s) && Runs(s, acts) && (p in s.prompts ==> AbortKept(s.prompts[p]))
    ensures p in Final(s, acts).prompts ==> AbortKept(Final(s, acts).prompts[p])
    decreases |acts|
  {
    if acts != [] {
      ActionKeeps(s, acts[0]);
      if p in s.prompts { InvLocal(s, p); }
      ActionAborts(s, acts[0], p);
      RunAborts(Apply(s, acts[0]), acts[1..], p);
    }
  }

  /** In every run a `Dismiss` that took the abort handle and is past using it has aborted the task, or
      the task was no longer running. */
  lemma {:induction false} DismissAborts(s0: State, acts: seq<Action>, p: Path)
    requires Init(s0) && Runs(s0, acts) && p in Final(s0, acts).prompts && Final(s0, acts).prompts[p].hist.taker.Some?
    ensures var l := Final(s0, acts).prompts[p];
            var c := l.hist.taker.value;
            (c in l.calls && l.calls[c] == DAbort(true)) || l.aborted || !Running(l.task)
  {
    Reachable(s0, []);
    RunAborts(s0, acts, p);
  }

  lemma {:induction false} StagesKeepKind(l: Local, input: Input)
    ensures l.task.Before? ==> BeforeNext(l, input).kind == l.kind
    ensures l.task.Leaving? ==> LeavingNext(l, input).kind == l.kind
    ensures l.task.Consent? ==> ConsentNext(l, input).kind == l.kind
    ensures l.task.Work? ==> WorkNext(l, input).kind == l.kind
  {
  }

  lemma {:induction false} TaskKind(l: Local, input: Input)
    ensures TaskNext(l, input).kind == l.kind
  {
    match l.task
    case Before(_, _) => StagesKeepKind(l, input);
    case Leaving(_) => StagesKeepKind(l, input);
    case Consent(_) => StagesKeepKind(l, input);
    case Work(_) => StagesKeepKind(l, input);
    case _ =>
  }

  lemma {:induction false} ActionKind(s: State, a: Action, p: Path)
    requires Enabled(s, a) && p in s.prompts
    ensures p in Apply(s, a).prompts && Apply(s, a).prompts[p].kind == s.prompts[p].kind
  {
    if a.OfPrompt? && a.p == p {
      if a.e.TaskStep? { TaskKind(s.prompts[p], a.e.input); }
    } else if a != ReclaimOne(p) {
      OthersSame(s, a, p);
    }
  }

  lemma {:induction false} RunKind(s: State, acts: seq<Action>, p: Path)
    requires Runs(s, acts) && p in s.prompts
    ensures p in Final(s, acts).prompts && Final(s, acts).prompts[p].kind == s.prompts[p].kind
    decreases |acts|
  {
    if acts != [] {
      ActionKind(s, acts[0], p);
      RunKind(Apply(s, acts[0]), acts[1..], p);
    }
  }

  /** What holds of a prompt of every state a continued run reaches. */
  lemma {:induction false} LocalLater(s0: State, past: seq<Action>, acts: seq<Action>, p: Path)
    requires Init(s0) && Runs(s0, past) && Runs(Final(s0, past), acts) && p in Final(s0, past).prompts
    ensures var s := Final(s0, past);
            var t := Final(s, acts);
            p in t.prompts && LocalInv(t.prompts[p]) && Later(s.prompts[p].hist, t.prompts[p].hist) && t.prompts[p].kind == s.prompts[p].kind
  {
    var s := Final(s0, past);
    Reachable(s0, past);
    RunKeeps(s, acts);
    RunLater(s, acts, p);
    RunKind(s, acts, p);
    InvLocal(Final(s, acts), p);
  }

  lemma {:induction false} VetoedOpensNothing(l: Local)
    requires Control(l) && l.kind.Unlock? && l.hist.dismissWon
    ensures !l.task.After? && !l.task.Opening?
  {
  }

  /** A `Dismiss` that wins the gate of an unlock keeps the task from ever opening again, aborted or
      not: the task is at no derived key, and the collections it opened stay the ones it had. */
  lemma {:induction false} DismissWinsUnlock(s0: State, past: seq<Action>, acts: seq<Action>, p: Path)
    requires Init(s0) && Runs(s0, past) && Runs(Final(s0, past), acts)
    requires p in Final(s0, past).prompts && Final(s0, past).prompts[p].hist.dismissWon
    requires Final(s0, past).prompts[p].kind.Unlock?
    ensures var t := Final(Final(s0, past), acts);
            && p in t.prompts && !t.prompts[p].task.After? && !t.prompts[p].task.Opening?
            && t.prompts[p].hist.openedIds == Final(s0, past).prompts[p].hist.openedIds
  {
    LocalLater(s0, past, acts, p);
    VetoedOpensNothing(Final(Final(s0, past), acts).prompts[p]);
  }

  // ---- create and delete ----

  lemma {:induction false} OneShotLocal(l: Local)
    requires Control(l) && !l.kind.Unlock?
    ensures !(l.hist.taskWon && l.hist.dismissWon)
    ensures l.hist.dismissWon ==> !l.hist.mutated && !l.task.Work? && !l.task.Leaving? && !l.task.Opening?
    ensures l.hist.taskWon ==> !l.hist.dismissAborted && !(l.hist.claimant.Some? && l.hist.claimant.value.ByCall?)
  {
  }

  /** The one-shot gate: the task or a `Dismiss` wins, never both.  If a `Dismiss` wins, nothing was
      handed to the pool and no file was gone for; if the task wins, no `Dismiss` aborts it or
      completes the prompt. */
  lemma {:induction false} OneShotGate(s0: State, acts: seq<Action>, p: Path)
    requires Init(s0) && Runs(s0, acts) && p in Final(s0, acts).prompts && !Final(s0, acts).prompts[p].kind.Unlock?
    ensures var h := Final(s0, acts).prompts[p].hist;
            && !(h.taskWon && h.dismissWon)
            && (h.dismissWon ==> !h.mutated && p !in Final(s0, acts).jobs)
            && (h.taskWon ==> !h.dismissAborted && !(h.claimant.Some? && h.claimant.value.ByCall?))
  {
    LocalAt(s0, acts, p);
    OneShotLocal(Final(s0, acts).prompts[p]);
    JobsAt(s0, acts);
  }

  lemma {:induction false} JobsAt(s0: State, acts: seq<Action>)
    requires Init(s0) && Runs(s0, acts)
    ensures JobsInv(Final(s0, acts).jobs, Final(s0, acts).prompts)
  {
    Reachable(s0, acts);
  }

  /** And no step the dismissed prompt can still take, in any run, changes a file, a vault, the loaded
      collections or the pool. */
  lemma {:induction false} DismissedTouchesNothing(s0: State, acts: seq<Action>, p: Path, e: Event)
    requires Init(s0) && Runs(s0, acts) && Enabled(Final(s0, acts), OfPrompt(p, e))
    requires !Final(s0, acts).prompts[p].kind.Unlock? && Final(s0, acts).prompts[p].hist.dismissWon
    ensures var s := Final(s0, acts);
            var s' := Apply(s, OfPrompt(p, e));
            s'.vaults == s.vaults && s'.loaded == s.loaded && s'.files == s.files && s'.jobs == s.jobs
  {
    LocalAt(s0, acts, p);
    OneShotLocal(Final(s0, acts).prompts[p]);
  }

  lemma {:induction false} ClaimedIsAbortable(l: Local)
    requires Control(l) && !l.kind.Unlock? && l.hist.taskWon && Running(l.task) && l.seen.Some?
    ensures l.row.handle && !l.aborted && (ReclaimRows(l).aborted <==> !l.seen.value)
  {
  }

  /** A reclaim spares a create or delete that won its claim exactly when the claim came before the
      reclaim looked at the gate. */
  lemma {:induction false} ReclaimSparesClaimed(s0: State, acts: seq<Action>, p: Path)
    requires Init(s0) && Runs(s0, acts) && Enabled(Final(s0, acts), ReclaimOne(p))
    requires var l := Final(s0, acts).prompts[p];
             !l.kind.Unlock? && l.hist.taskWon && Running(l.task)
    ensures var l := Final(s0, acts).prompts[p];
            l.row.handle && !l.aborted && (ReclaimRows(l).aborted <==> !l.seen.value)
  {
    LocalAt(s0, acts, p);
    ClaimedIsAbortable(Final(s0, acts).prompts[p]);
  }

  // ---- whose prompt it is ----

  /** A `Prompt` or `Dismiss` call from anyone but the client the prompt was made for returns at its
      first check and changes nothing at all, in every state any run reaches. */
  lemma {:induction false} StrangersRefused(s0: State, acts: seq<Action>, p: Path, c: CallId)
    requires Init(s0) && Runs(s0, acts) && Enabled(Final(s0, acts), OfPrompt(p, CallStep(c)))
    requires var l := Final(s0, acts).prompts[p];
             (l.calls[c].PCheck? || l.calls[c].DCheck?) && l.calls[c].who != l.client
    ensures var s := Final(s0, acts);
            var l := s.prompts[p];
            Apply(s, OfPrompt(p, CallStep(c))) == s.(prompts := s.prompts[p := l.(calls := l.calls - {c})])
  {
    LocalAt(s0, acts, p);
    StrangerLeaves(Final(s0, acts).prompts[p], c);
  }

  lemma {:induction false} StrangerLeaves(l: Local, c: CallId)
    requires FateInv(l.client, l.row.owner, l.hist.fate, l.hist.claimant, l.seen)
    requires c in l.calls && (l.calls[c].PCheck? || l.calls[c].DCheck?) && l.calls[c].who != l.client
    ensures CallNext(l, c) == l.(calls := l.calls - {c})
  {
  }

  // ---- one fate ----

  /** Exactly one of: the owner row is live, a `finish` claimed the completion, a disconnect
      reclaimed the prompt, a failed export withdrew it.  Once decided it never changes, and
      `Completed` is emitted at most once, by whoever claimed it. */
  lemma {:induction false} OneFate(s0: State, past: seq<Action>, acts: seq<Action>, p: Path)
    requires Init(s0) && Runs(s0, past) && Runs(Final(s0, past), acts) && p in Final(s0, past).prompts
    ensures var l := Final(s0, past).prompts[p];
            && (l.row.owner == Some(l.client) <==> l.hist.fate.Live?)
            && (l.hist.claimant.Some? <==> l.hist.fate.Completed?)
            && l.hist.signals <= 1 && (l.hist.signals == 1 ==> l.hist.fate.Completed?)
            && p in Final(Final(s0, past), acts).prompts
            && (!l.hist.fate.Live? ==>
                  var h' := Final(Final(s0, past), acts).prompts[p].hist;
                  h'.fate == l.hist.fate && h'.claimant == l.hist.claimant)
  {
    LocalAt(s0, past, p);
    LocalLater(s0, past, acts, p);
  }

  // ---- no bookkeeping is left behind ----

  lemma {:induction false} QuietRowEmpty(l: Local)
    requires LocalInv(l) && !l.hist.fate.Live? && !Running(l.task) && l.calls == map[]
    ensures l.row == EMPTY_ROW
  {
  }

  /** A decided prompt with no task running and no call in flight is in none of the four tables. */
  lemma {:induction false} NoLeak(s0: State, acts: seq<Action>, p: Path)
    requires Init(s0) && Runs(s0, acts) && p in Final(s0, acts).prompts
    requires var l := Final(s0, acts).prompts[p];
             !l.hist.fate.Live? && !Running(l.task) && l.calls == map[]
    ensures Final(s0, acts).prompts[p].row == EMPTY_ROW
  {
    LocalAt(s0, acts, p);
    QuietRowEmpty(Final(s0, acts).prompts[p]);
  }

  // ---- the unlock record ----

  lemma {:induction false} LiveRecord(l: Local)
    requires LocalInv(l) && l.hist.fate.Live?
    ensures RecordIds(l.row.record) == l.hist.openedIds + Extra(l.kind, l.task) && |Extra(l.kind, l.task)| <= 1
    ensures forall id :: id in l.hist.openedIds ==>
              id in l.hist.openedAt && l.kind.Unlock? && l.hist.openedAt[id] < |l.kind.ids| &&
              l.kind.ids[l.hist.openedAt[id]] == id && l.hist.openedAt[id] !in l.hist.foundOpen
  {
  }

  /** While the prompt is live its record is what it opened, plus at most the attempt in progress;
      nothing it found already open is among them. */
  lemma {:induction false} RecordIsExact(s0: State, acts: seq<Action>, p: Path)
    requires Init(s0) && Runs(s0, acts) && p in Final(s0, acts).prompts
    requires Final(s0, acts).prompts[p].hist.fate.Live?
    ensures var l := Final(s0, acts).prompts[p];
            && RecordIds(l.row.record) == l.hist.openedIds + Extra(l.kind, l.task) && |Extra(l.kind, l.task)| <= 1
            && (forall id :: id in l.hist.openedIds ==>
                  id in l.hist.openedAt && l.kind.Unlock? && l.hist.openedAt[id] < |l.kind.ids| &&
                  l.kind.ids[l.hist.openedAt[id]] == id && l.hist.openedAt[id] !in l.hist.foundOpen)
  {
    LocalAt(s0, acts, p);
    LiveRecord(Final(s0, acts).prompts[p]);
  }

  /** Whenever a reclaim takes the record, it takes exactly what this prompt opened. */
  lemma {:induction false} ReclaimTakesWhatWasOpened(s0: State, acts: seq<Action>, p: Path)
    requires Init(s0) && Runs(s0, acts) && Enabled(Final(s0, acts), ReclaimOne(p))
    ensures var l := Final(s0, acts).prompts[p];
            !LeftToTask(l) ==> Taken(l) == l.hist.openedIds
  {
    LocalAt(s0, acts, p);
    if !LeftToTask(Final(s0, acts).prompts[p]) { TakenIsOpened(Final(s0, acts).prompts[p]); }
  }

  // ---- a departed owner ----

  /** A prompt holds a vault open from its successful open until that vault is locked. */
  lemma {:induction false} HoldUntilLocked(s: State, a: Action, p: Path, ref: Ref)
    requires Enabled(s, a) && ref in s.vaults
    ensures ref in Apply(s, a).vaults
    ensures Held(p, s.vaults, ref) ==> Held(p, Apply(s, a).vaults, ref) || Apply(s, a).vaults[ref].locked
    ensures a.OfPrompt? && a.p == p && Opens(s.prompts[p], a.e) && s.prompts[p].task.ref == ref ==>
              Held(p, Apply(s, a).vaults, ref) && !Apply(s, a).vaults[ref].locked
  {
  }

  /** The step turns `p`'s record into vaults to lock: the watcher's reclaim of it, or its own task. */
  predicate Snapshots(s: State, a: Action, p: Path) {
    p in s.prompts &&
    ((a == ReclaimOne(p) && !LeftToTask(s.prompts[p])) ||
     (a.OfPrompt? && a.p == p && a.e.TaskStep? && s.prompts[p].task == Leaving(TakeRecord)))
  }

  lemma {:induction false} MissedByStep(s: State, a: Action, p: Path, ref: Ref)
    requires Enabled(s, a) && (p, ref) in Apply(s, a).missed && (p, ref) !in s.missed
    ensures Held(p, s.vaults, ref) && !IsLoaded(s.loaded, s.vaults, ref) && Snapshots(s, a, p)
  {
  }

  lemma {:induction false} RunShift(s: State, acts: seq<Action>, j: nat)
    requires acts != [] && j < |acts| && Enabled(s, acts[0]) && Runs(Apply(s, acts[0]), acts[1..][..j])
    ensures Runs(s, acts[..j + 1]) && Final(s, acts[..j + 1]) == Final(Apply(s, acts[0]), acts[1..][..j])
  {
    assert acts[..j + 1][1..] == acts[1..][..j];
  }

  lemma {:induction false} MissedAlong(s: State, acts: seq<Action>, p: Path, ref: Ref) returns (k: nat)
    requires Runs(s, acts) && (p, ref) in Final(s, acts).missed && (p, ref) !in s.missed
    ensures k < |acts| && Runs(s, acts[..k])
    ensures var t := Final(s, acts[..k]);
            Held(p, t.vaults, ref) && !IsLoaded(t.loaded, t.vaults, ref) && Snapshots(t, acts[k], p)
    decreases |acts|
  {
    if (p, ref) in Apply(s, acts[0]).missed {
      MissedByStep(s, acts[0], p, ref);
      k := 0;
    } else {
      var j := MissedAlong(Apply(s, acts[0]), acts[1..], p, ref);
      RunShift(s, acts, j);
      k := j + 1;
    }
  }

  /** In every run, a vault escapes the re-locking only at some moment its prompt's record is turned
      into vaults to lock, and only if it is held open and not loaded at that moment. */
  lemma {:induction false} MissedWhen(s0: State, acts: seq<Action>, p: Path, ref: Ref) returns (k: nat)
    requires Init(s0) && Runs(s0, acts) && (p, ref) in Final(s0, acts).missed
    ensures k < |acts| && Runs(s0, acts[..k])
    ensures var s := Final(s0, acts[..k]);
            Held(p, s.vaults, ref) && !IsLoaded(s.loaded, s.vaults, ref) && Snapshots(s, acts[k], p)
  {
    k := MissedAlong(s0, acts, p, ref);
  }

  /** Once the owner's disconnect is processed, unless a task it was left to had already made its last
      owner check: when the task has ended or been dropped and the watcher has worked off its list,
      every vault this prompt opened has been locked again since, but for those that were no longer
      loaded when its record was turned into vaults to lock, and those still are not. */
  lemma {:induction false} DepartedOwner(s0: State, acts: seq<Action>, p: Path, ref: Ref)
    requires Init(s0) && Runs(s0, acts) && p in Final(s0, acts).prompts
    requires var s := Final(s0, acts);
             var l := s.prompts[p];
             l.hist.fate.Reclaimed? && !(l.hist.left && l.hist.sawOwner) && !Running(l.task) && RelockOf(s.watcher) == []
    ensures var s := Final(s0, acts);
            Held(p, s.vaults, ref) ==> (p, ref) in s.missed && !IsLoaded(s.loaded, s.vaults, ref)
  {
    PromptAt(s0, acts, p);
    MissedAt(s0, acts);
  }

  lemma {:induction false} MissedAt(s0: State, acts: seq<Action>)
    requires Init(s0) && Runs(s0, acts)
    ensures MissedInv(Final(s0, acts).missed, Final(s0, acts).loaded, Final(s0, acts).vaults)
  {
    Reachable(s0, acts);
  }

  lemma {:induction false} ListedAt(s0: State, acts: seq<Action>, p: Path)
    requires Init(s0) && Runs(s0, acts) && p in Final(s0, acts).prompts
    ensures LocalInv(Final(s0, acts).prompts[p]) && Listed(p, Final(s0, acts).prompts[p], Final(s0, acts).vaults)
  {
    Reachable(s0, acts);
    InvLocal(Final(s0, acts), p);
    HoldingsListed(p, Final(s0, acts).vaults, Final(s0, acts).prompts);
  }

  lemma {:induction false} LeftCovers(l: Local, ref: Ref)
    requires Control(l) && l.kind.Unlock? && l.seen.Some? && LeftToTask(l)
    ensures TaskWillRelock(ReclaimRows(l), ref) <==> !l.task.Finish?
  {
  }

  /** A reclaim sees to an open, loaded collection, through the watcher's list or the task's own,
      exactly when the task it leaves alone is not already past its last owner check. */
  lemma {:induction false} ReclaimCovers(s0: State, acts: seq<Action>, p: Path, ref: Ref)
    requires Init(s0) && Runs(s0, acts) && Enabled(Final(s0, acts), ReclaimOne(p))
    requires Held(p, Final(s0, acts).vaults, ref) && IsLoaded(Final(s0, acts).loaded, Final(s0, acts).vaults, ref)
    ensures var s := Final(s0, acts);
            var l := s.prompts[p];
            (if LeftToTask(l) then TaskWillRelock(ReclaimRows(l), ref) else InRelock(Snapshot(s.loaded, Taken(l)), ref))
            <==> !(LeftToTask(l) && l.task.Finish?)
  {
    var s := Final(s0, acts);
    var l := s.prompts[p];
    ListedAt(s0, acts, p);
    if LeftToTask(l) {
      LeftCovers(l, ref);
    } else {
      TakenIsOpened(l);
      SnapshotCovers(p, s.loaded, s.vaults, Taken(l), ref);
    }
  }

  // ---- pins ----

  predicate PinsInv(vaults: Vaults) {
    forall r :: r in vaults && vaults[r].locked ==> !vaults[r].pinned
  }

  lemma {:induction false} TaskPins(vaults: Vaults, p: Path, l: Local, e: Event)
    requires PinsInv(vaults)
    ensures PinsInv(VaultsAfter(vaults, p, l, e))
  {
  }

  lemma {:induction false} ActionPins(s: State, a: Action)
    requires PinsInv(s.vaults) && Enabled(s, a)
    ensures PinsInv(Apply(s, a).vaults)
  {
    if a.OfPrompt? { TaskPins(s.vaults, a.p, s.prompts[a.p], a.e); }
  }

  /** Whoever locks a vault, the pin of the login that opened it goes with the lock: no vault that is
      locked is still exempt from the idle timer. */
  lemma {:induction false} LockedUnpinned(s0: State, acts: seq<Action>)
    requires PinsInv(s0.vaults) && Runs(s0, acts)
    ensures PinsInv(Final(s0, acts).vaults)
    decreases |acts|
  {
    if acts != [] {
      ActionPins(s0, acts[0]);
      LockedUnpinned(Apply(s0, acts[0]), acts[1..]);
    }
  }
}
