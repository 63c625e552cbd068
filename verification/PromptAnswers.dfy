/**
 What the task of an unlock was told, read off a run's own inputs, and that it goes by it: it claims
 the gate and opens a collection only after a password for it, goes no further once a dialog was
 cancelled, and ends with every collection accounted for.
 */
module PromptAnswers {
  import opened Options
  import opened PromptModel
  import opened PromptInvariant
  import opened PromptSystem
  import opened PromptGlobal
  import opened PromptRuns
  import opened PromptTheorems

  // ---- what was heard ----

  /** Why the task is done with a collection. */
  datatype Reason = NotLoaded | FoundOpen | NoSlot | DialogFailed | Unloaded | NoKey | NotOpened | Opened

  /** By place in the request: the collections done with, and the passwords entered for each.  `stopped`
      is whether a dialog was cancelled or never free. */
  datatype Answers = Answers(passed: map<nat, Reason>, pins: map<nat, nat>, stopped: bool)

  const NOTHING := Answers(map[], map[], false)

  function Passed(a: Answers, i: nat, why: Reason): Answers {
    a.(passed := a.passed[i := why])
  }

  function Pins(a: Answers, i: nat): nat {
    if i in a.pins then a.pins[i] else 0
  }

  function DialogSaid(a: Answers, i: nat, answer: Answer): Answers {
    match answer
    case Pin => a.(pins := a.pins[i := Pins(a, i) + 1])
    case AnsFailed => Passed(a, i, DialogFailed)
    case _ => a.(stopped := true)
  }

  function BeforeNoted(a: Answers, i: nat, before: BeforeStep, input: Input): Answers {
    match before
    case Lookup => if input.found.None? then Passed(a, i, NotLoaded) else a
    case Peek(_) => if input.ok then a else Passed(a, i, FoundOpen)
    case WaitSlot(_) =>
      if input.slot.SlotBusy? then a.(stopped := true) else if input.slot.SlotFailed? then Passed(a, i, NoSlot) else a
    case Dialog(_) => DialogSaid(a, i, input.answer)
    case Claim(_) => a
  }

  function AfterNoted(a: Answers, i: nat, after: AfterStep, input: Input): Answers {
    match after
    case Recheck => if input.ok then a else Passed(a, i, Unloaded)
    case Params => a
    case Derive => if input.ok then a else Passed(a, i, NoKey)
    case Redialog => DialogSaid(a, i, input.answer)
  }

  function OpeningNoted(a: Answers, i: nat, opening: OpenStep, input: Input): Answers {
    match opening
    case StillLoaded => if input.ok then a else Passed(a, i, Unloaded)
    case Open =>
      if input.res.OpenOk? then Passed(a, i, Reason.Opened)
      else if input.res.WrongPassword? && Pins(a, i) < 3 then a else Passed(a, i, NotOpened)
    case _ => a
  }

  /** The answers after a task at `t` is told `input`.  Nothing is said of where the task goes. */
  function Noted(a: Answers, t: Task, input: Input): Answers {
    match t
    case Before(i, before) => BeforeNoted(a, i, before, input)
    case After(i, _, _, after) => AfterNoted(a, i, after, input)
    case Opening(i, _, _, opening) => OpeningNoted(a, i, opening, input)
    case _ => a
  }

  function HeardNow(s: State, act: Action, p: Path, a: Answers): Answers
    requires Enabled(s, act)
  {
    if act.OfPrompt? && act.p == p && act.e.TaskStep? then Noted(a, s.prompts[p].task, act.e.input) else a
  }

  /** What `p`'s task hears over a run. */
  function Heard(s: State, acts: seq<Action>, p: Path, a: Answers): Answers
    requires Runs(s, acts)
    decreases |acts|
  {
    if acts == [] then a else Heard(Apply(s, acts[0]), acts[1..], p, HeardNow(s, acts[0], p, a))
  }

  // ---- going by it ----

  /** Collection `t.i` is settled, with some tidying left to do. */
  predicate Settled(t: Task) {
    t.Opening? && (t.opening.Note? || (t.opening.Unrecord? && (!t.opening.retry || t.n + 1 >= 3)))
  }

  predicate PinsAt(t: Task, pins: map<nat, nat>) {
    match t
    case Between(i, _) => i !in pins
    case Before(i, before) => if before.Claim? then i in pins && pins[i] == 1 else i !in pins
    case After(i, _, n, after) => n < 3 && i in pins && pins[i] == if after.Redialog? then n else n + 1
    case Opening(i, _, n, _) => n < 3 && i in pins && pins[i] == n + 1
    case _ => true
  }

  /** At most three passwords for any collection, and none for one that was not reached. */
  predicate PinsTold(t: Task, pins: map<nat, nat>) {
    PinsAt(t, pins) && forall j :: j in pins ==> 1 <= pins[j] <= 3 && (HasIndex(t) ==> j <= t.i)
  }

  /** In the loop, exactly the collections before this one are done with, and nobody said stop. */
  ghost predicate LoopTold(t: Task, a: Answers) {
    HasIndex(t) ==> !a.stopped && forall j: nat :: j in a.passed <==> j < t.i || (j == t.i && Settled(t))
  }

  /** A loop left early was stopped, cancelled, or lost its owner. */
  predicate EndTold(ids: seq<Id>, t: Task, cancelled: bool, fate: Fate, claimant: Option<Claimant>, a: Answers) {
    AtEnd(t) && !t.Dropped? && !a.stopped && !cancelled && (fate.Live? || claimant == Some(ByTask)) ==>
      forall j: nat :: j < |ids| ==> j in a.passed
  }

  /** The gate of a collection not yet claimed is taken by a `Dismiss` only. */
  predicate GateTold(t: Task, committed: bool, cancelled: bool) {
    committed && (t.Before? || (t.Between? && !t.between.Top?)) ==> cancelled
  }

  /** What was opened and what was found open is what the vaults said. */
  ghost predicate OpenTold(ids: seq<Id>, openedIds: seq<Id>, openedAt: map<Id, nat>, foundOpen: set<nat>, passed: map<nat, Reason>) {
    && (forall id :: id in openedAt ==> openedAt[id] in passed && passed[openedAt[id]] == Reason.Opened)
    && (forall j :: j in passed && passed[j] == Reason.Opened ==> j < |ids| && ids[j] in openedIds)
    && (forall j :: j in foundOpen <==> j in passed && passed[j] == FoundOpen)
  }

  ghost predicate PathTold(l: Local, a: Answers)
    requires l.kind.Unlock?
  {
    && (l.task.NotStarted? ==> a == NOTHING)
    && PinsTold(l.task, a.pins) && LoopTold(l.task, a)
    && EndTold(l.kind.ids, l.task, l.cancelled, l.hist.fate, l.hist.claimant, a)
    && GateTold(l.task, l.committed, l.cancelled)
  }

  ghost predicate ListTold(l: Local, a: Answers)
    requires l.kind.Unlock?
  {
    OpenTold(l.kind.ids, l.hist.openedIds, l.hist.openedAt, l.hist.foundOpen, a.passed)
  }

  ghost predicate Told(l: Local, a: Answers)
    requires l.kind.Unlock?
  {
    PathTold(l, a) && ListTold(l, a)
  }

  // ---- every step keeps the path ----

  lemma {:induction false} BetweenGoes(l: Local, a: Answers)
    requires l.kind.Unlock? && l.task.Between? && PathTold(l, a) && KindInv(l.kind, l.task)
    requires FateInv(l.client, l.row.owner, l.hist.fate, l.hist.claimant, l.seen)
    requires EmitInv(l.task, l.calls, l.hist.claimant, l.hist.signals, l.hist.dismissWon)
    ensures PathTold(BetweenNext(l), a)
  {
  }

  /** On to the next collection. */
  lemma {:induction false} PassesOn(t: Task, a: Answers, why: Reason)
    requires HasIndex(t) && !Settled(t) && PinsTold(t, a.pins) && LoopTold(t, a)
    ensures var a' := Passed(a, t.i, why);
            PinsTold(Between(t.i + 1, Top), a'.pins) && LoopTold(Between(t.i + 1, Top), a')
  {
  }

  /** Another step on the same collection. */
  lemma {:induction false} StaysOn(t: Task, t': Task, a: Answers)
    requires HasIndex(t) && HasIndex(t') && t'.i == t.i && !Settled(t) && !Settled(t') && LoopTold(t, a)
    ensures LoopTold(t', a)
  {
  }

  /** A password for it. */
  lemma {:induction false} PinGiven(t: Task, t': Task, a: Answers)
    requires HasIndex(t) && HasIndex(t') && t'.i == t.i && PinsTold(t, a.pins) && Pins(a, t.i) < 3
    requires PinsAt(t', a.pins[t.i := Pins(a, t.i) + 1])
    ensures PinsTold(t', a.pins[t.i := Pins(a, t.i) + 1])
  {
  }

  /** No password this time. */
  lemma {:induction false} PinsStay(t: Task, t': Task, pins: map<nat, nat>)
    requires HasIndex(t) && PinsTold(t, pins) && PinsAt(t', pins) && (HasIndex(t') ==> t'.i >= t.i)
    ensures PinsTold(t', pins)
  {
  }

  lemma {:induction false} BeforePinsAt(l: Local, a: Answers, input: Input)
    requires l.task.Before? && PinsTold(l.task, a.pins)
    ensures var t' := BeforeNext(l, input).task;
            (HasIndex(t') ==> t'.i >= l.task.i) && PinsAt(t', BeforeNoted(a, l.task.i, l.task.before, input).pins)
  {
  }

  lemma {:induction false} BeforePins(l: Local, a: Answers, input: Input)
    requires l.task.Before? && PinsTold(l.task, a.pins)
    ensures PinsTold(BeforeNext(l, input).task, BeforeNoted(a, l.task.i, l.task.before, input).pins)
  {
    var t' := BeforeNext(l, input).task;
    BeforePinsAt(l, a, input);
    if l.task.before.Dialog? && input.answer.Pin? {
      PinGiven(l.task, t', a);
    } else {
      assert BeforeNoted(a, l.task.i, l.task.before, input).pins == a.pins;
      PinsStay(l.task, t', a.pins);
    }
  }

  lemma {:induction false} BeforeLoop(l: Local, a: Answers, input: Input)
    requires l.task.Before? && PinsTold(l.task, a.pins) && LoopTold(l.task, a)
    ensures LoopTold(BeforeNext(l, input).task, BeforeNoted(a, l.task.i, l.task.before, input))
  {
    PassesOn(l.task, a, NotLoaded);
    PassesOn(l.task, a, FoundOpen);
    PassesOn(l.task, a, NoSlot);
    PassesOn(l.task, a, DialogFailed);
    var t' := BeforeNext(l, input).task;
    if HasIndex(t') && t'.i == l.task.i { StaysOn(l.task, t', a); }
  }

  lemma {:induction false} BeforeEnds(l: Local, a: Answers, input: Input)
    requires l.kind.Unlock? && l.task.Before? && GateTold(l.task, l.committed, l.cancelled)
    ensures var l' := BeforeNext(l, input);
            && GateTold(l'.task, l'.committed, l'.cancelled)
            && EndTold(l.kind.ids, l'.task, l'.cancelled, l'.hist.fate, l'.hist.claimant, BeforeNoted(a, l.task.i, l.task.before, input))
  {
  }

  lemma {:induction false} BeforeGoes(l: Local, a: Answers, input: Input)
    requires l.kind.Unlock? && l.task.Before? && PathTold(l, a)
    ensures BeforeNext(l, input).kind == l.kind && PathTold(BeforeNext(l, input), BeforeNoted(a, l.task.i, l.task.before, input))
  {
    BeforePins(l, a, input);
    BeforeLoop(l, a, input);
    BeforeEnds(l, a, input);
  }

  lemma {:induction false} AfterLoop(l: Local, a: Answers, input: Input)
    requires l.task.After? && PinsTold(l.task, a.pins) && LoopTold(l.task, a)
    ensures LoopTold(AfterNext(l, input).task, AfterNoted(a, l.task.i, l.task.after, input))
  {
    PassesOn(l.task, a, Unloaded);
    PassesOn(l.task, a, NoKey);
    PassesOn(l.task, a, DialogFailed);
    var t' := AfterNext(l, input).task;
    if HasIndex(t') && t'.i == l.task.i { StaysOn(l.task, t', a); }
  }

  lemma {:induction false} AfterPinsAt(l: Local, a: Answers, input: Input)
    requires l.task.After? && PinsTold(l.task, a.pins)
    ensures var t' := AfterNext(l, input).task;
            (HasIndex(t') ==> t'.i >= l.task.i) && PinsAt(t', AfterNoted(a, l.task.i, l.task.after, input).pins)
  {
  }

  lemma {:induction false} AfterPins(l: Local, a: Answers, input: Input)
    requires l.task.After? && PinsTold(l.task, a.pins)
    ensures PinsTold(AfterNext(l, input).task, AfterNoted(a, l.task.i, l.task.after, input).pins)
  {
    var t' := AfterNext(l, input).task;
    AfterPinsAt(l, a, input);
    if l.task.after.Redialog? && input.answer.Pin? {
      PinGiven(l.task, t', a);
    } else {
      assert AfterNoted(a, l.task.i, l.task.after, input).pins == a.pins;
      PinsStay(l.task, t', a.pins);
    }
  }

  lemma {:induction false} AfterGoes(l: Local, a: Answers, input: Input)
    requires l.kind.Unlock? && l.task.After? && PathTold(l, a)
    ensures AfterNext(l, input).kind == l.kind && PathTold(AfterNext(l, input), AfterNoted(a, l.task.i, l.task.after, input))
  {
    AfterPins(l, a, input);
    AfterLoop(l, a, input);
  }

  lemma {:induction false} OpeningGoes(l: Local, a: Answers, input: Input)
    requires l.kind.Unlock? && l.task.Opening? && l.task.i < |l.kind.ids| && PathTold(l, a)
    ensures PathTold(OpeningNext(l, input), OpeningNoted(a, l.task.i, l.task.opening, input))
  {
  }

  lemma {:induction false} LeavingGoes(l: Local, a: Answers, input: Input)
    requires l.kind.Unlock? && l.task.Leaving? && PathTold(l, a)
    ensures LeavingNext(l, input).kind == l.kind && PathTold(LeavingNext(l, input), a)
  {
  }

  lemma {:induction false} FinishGoes(l: Local, a: Answers)
    requires l.kind.Unlock? && l.task.Finish? && PathTold(l, a) && FateInv(l.client, l.row.owner, l.hist.fate, l.hist.claimant, l.seen)
    ensures FinishNext(l).kind == l.kind && PathTold(FinishNext(l), a)
  {
  }

  lemma {:induction false} EmitGoes(l: Local, a: Answers)
    requires l.kind.Unlock? && l.task.Emit? && PathTold(l, a)
    ensures EmitNext(l).kind == l.kind && PathTold(EmitNext(l), a)
  {
  }

  lemma {:induction false} TaskPath(l: Local, a: Answers, input: Input)
    requires Control(l) && l.kind.Unlock? && Running(l.task) && PathTold(l, a)
    ensures TaskNext(l, input).kind == l.kind && PathTold(TaskNext(l, input), Noted(a, l.task, input))
  {
    TaskKind(l, input);
    match l.task
    case Between(_, _) => BetweenGoes(l, a);
    case Before(_, _) => BeforeGoes(l, a, input);
    case After(_, _, _, _) => AfterGoes(l, a, input);
    case Opening(_, _, _, _) => OpeningGoes(l, a, input);
    case Leaving(_) => LeavingGoes(l, a, input);
    case Finish => FinishGoes(l, a);
    case Emit => EmitGoes(l, a);
  }

  lemma {:induction false} CallPath(l: Local, a: Answers, c: CallId)
    requires l.kind.Unlock? && c in l.calls && PathTold(l, a)
    requires ActionInv(l.action, l.task, l.calls) && DismissInv(l.calls, l.cancelled, l.hist.dismissWon)
    requires FateInv(l.client, l.row.owner, l.hist.fate, l.hist.claimant, l.seen)
    ensures PathTold(CallNext(l, c), a)
  {
  }

  lemma {:induction false} OtherPath(l: Local, a: Answers, e: Event)
    requires l.kind.Unlock? && PathTold(l, a) && CanDo(l, e) && !e.TaskStep? && !e.CallStep?
    ensures Step(l, e).kind == l.kind && PathTold(Step(l, e), a)
  {
    OtherSame(l, e);
    if HasIndex(l.task) { PinsStay(l.task, Dropped, a.pins); }
  }

  // ---- and the lists ----

  lemma {:induction false} ListPassed(l: Local, a: Answers, i: nat, why: Reason)
    requires l.kind.Unlock? && ListTold(l, a) && i !in a.passed && !why.Opened? && !why.FoundOpen?
    ensures ListTold(l, Passed(a, i, why))
  {
  }

  lemma {:induction false} ListFound(l: Local, a: Answers, i: nat)
    requires l.kind.Unlock? && ListTold(l, a) && i !in a.passed
    ensures ListTold(l.(hist := l.hist.(foundOpen := l.hist.foundOpen + {i})), Passed(a, i, FoundOpen))
  {
  }

  lemma {:induction false} ListOpened(l: Local, a: Answers, i: nat)
    requires l.kind.Unlock? && ListTold(l, a) && i !in a.passed && i < |l.kind.ids|
    ensures var id := l.kind.ids[i];
            ListTold(l.(hist := l.hist.(openedIds := l.hist.openedIds + [id], openedAt := l.hist.openedAt[id := i])), Passed(a, i, Reason.Opened))
  {
  }

  /** Only what the prompt opened and found open matters. */
  predicate SameLists(l: Local, l': Local) {
    l'.kind == l.kind && l'.hist.openedIds == l.hist.openedIds && l'.hist.openedAt == l.hist.openedAt && l'.hist.foundOpen == l.hist.foundOpen
  }

  lemma {:induction false} ListSame(l: Local, l': Local, a: Answers)
    requires l.kind.Unlock? && SameLists(l, l') && ListTold(l, a)
    ensures ListTold(l', a)
  {
  }

  lemma {:induction false} BeforeSame(l: Local, input: Input)
    requires l.task.Before?
    ensures if l.task.before.Peek? && !input.ok
            then SameLists(l.(hist := l.hist.(foundOpen := l.hist.foundOpen + {l.task.i})), BeforeNext(l, input))
            else SameLists(l, BeforeNext(l, input))
  {
  }

  lemma {:induction false} BeforePasses(l: Local, a: Answers, input: Input)
    requires l.kind.Unlock? && l.task.Before? && !(l.task.before.Peek? && !input.ok) && ListTold(l, a) && l.task.i !in a.passed
    ensures ListTold(l, BeforeNoted(a, l.task.i, l.task.before, input))
  {
    ListPassed(l, a, l.task.i, NotLoaded);
    ListPassed(l, a, l.task.i, NoSlot);
    ListPassed(l, a, l.task.i, DialogFailed);
  }

  lemma {:induction false} BeforeList(l: Local, a: Answers, input: Input)
    requires l.kind.Unlock? && l.task.Before? && ListTold(l, a) && l.task.i !in a.passed
    ensures BeforeNext(l, input).kind == l.kind && ListTold(BeforeNext(l, input), BeforeNoted(a, l.task.i, l.task.before, input))
  {
    var i := l.task.i;
    BeforeSame(l, input);
    var a' := BeforeNoted(a, i, l.task.before, input);
    if l.task.before.Peek? && !input.ok {
      ListFound(l, a, i);
      ListSame(l.(hist := l.hist.(foundOpen := l.hist.foundOpen + {i})), BeforeNext(l, input), a');
    } else {
      BeforePasses(l, a, input);
      ListSame(l, BeforeNext(l, input), a');
    }
  }

  lemma {:induction false} AfterList(l: Local, a: Answers, input: Input)
    requires l.kind.Unlock? && l.task.After? && ListTold(l, a) && l.task.i !in a.passed
    ensures ListTold(AfterNext(l, input), AfterNoted(a, l.task.i, l.task.after, input))
  {
    var i := l.task.i;
    ListPassed(l, a, i, Unloaded);
    ListPassed(l, a, i, NoKey);
    ListPassed(l, a, i, DialogFailed);
  }

  lemma {:induction false} OpeningList(l: Local, a: Answers, input: Input)
    requires l.kind.Unlock? && l.task.Opening? && l.task.i < |l.kind.ids| && ListTold(l, a)
    requires l.task.opening.StillLoaded? || l.task.opening.Open? ==> l.task.i !in a.passed
    ensures ListTold(OpeningNext(l, input), OpeningNoted(a, l.task.i, l.task.opening, input))
  {
    var i := l.task.i;
    if l.task.opening.StillLoaded? || l.task.opening.Open? {
      ListPassed(l, a, i, Unloaded);
      ListPassed(l, a, i, NotOpened);
      ListOpened(l, a, i);
    }
  }

  lemma {:induction false} LeavingSame(l: Local, input: Input)
    requires l.task.Leaving?
    ensures SameLists(l, LeavingNext(l, input))
  {
  }

  lemma {:induction false} RestSame(l: Local)
    ensures l.task.Between? && l.kind.Unlock? ==> SameLists(l, BetweenNext(l))
    ensures SameLists(l, FinishNext(l)) && SameLists(l, EmitNext(l))
  {
  }

  lemma {:induction false} RestList(l: Local, a: Answers, input: Input)
    requires l.kind.Unlock? && KindInv(l.kind, l.task) && ListTold(l, a) && !l.task.Before? && !l.task.After? && !l.task.Opening?
    ensures TaskNext(l, input).kind == l.kind && ListTold(TaskNext(l, input), a)
  {
    RestSame(l);
    if l.task.Leaving? { LeavingSame(l, input); }
    assert SameLists(l, TaskNext(l, input));
    ListSame(l, TaskNext(l, input), a);
  }

  lemma {:induction false} TaskList(l: Local, a: Answers, input: Input)
    requires KindInv(l.kind, l.task) && l.kind.Unlock? && ListTold(l, a) && LoopTold(l.task, a)
    ensures TaskNext(l, input).kind == l.kind && ListTold(TaskNext(l, input), Noted(a, l.task, input))
  {
    TaskKind(l, input);
    match l.task
    case Before(_, _) => BeforeList(l, a, input);
    case After(_, _, _, _) => AfterList(l, a, input);
    case Opening(_, _, _, _) => OpeningList(l, a, input);
    case _ => RestList(l, a, input);
  }

  lemma {:induction false} OtherList(l: Local, a: Answers, e: Event)
    requires l.kind.Unlock? && ListTold(l, a) && CanDo(l, e) && !e.TaskStep?
    ensures Step(l, e).kind == l.kind && ListTold(Step(l, e), a)
  {
  }

  lemma {:induction false} StepTold(l: Local, a: Answers, e: Event)
    requires Control(l) && l.kind.Unlock? && Told(l, a) && CanDo(l, e)
    ensures Step(l, e).kind == l.kind && Told(Step(l, e), if e.TaskStep? then Noted(a, l.task, e.input) else a)
  {
    match e
    case TaskStep(input) =>
      TaskPath(l, a, input);
      TaskList(l, a, input);
    case CallStep(c) =>
      CallPath(l, a, c);
      OtherList(l, a, e);
    case _ =>
      OtherPath(l, a, e);
      OtherList(l, a, e);
  }

  // ---- every run ----

  ghost predicate SystemTold(s: State, p: Path, a: Answers) {
    if p in s.prompts then s.prompts[p].kind.Unlock? ==> Told(s.prompts[p], a) else a == NOTHING
  }

  lemma {:induction false} NewTold(client: Client, kind: Kind)
    requires kind.Unlock?
    ensures Told(NewLocal(client, kind), NOTHING)
  {
  }

  lemma {:induction false} OwnTold(s: State, p: Path, e: Event, a: Answers)
    requires p in s.prompts && Control(s.prompts[p]) && SystemTold(s, p, a) && Enabled(s, OfPrompt(p, e))
    ensures SystemTold(Apply(s, OfPrompt(p, e)), p, HeardNow(s, OfPrompt(p, e), p, a))
  {
    ActionKind(s, OfPrompt(p, e), p);
    if s.prompts[p].kind.Unlock? { StepTold(s.prompts[p], a, e); }
  }

  lemma {:induction false} ReclaimTold(s: State, p: Path, a: Answers)
    requires p in s.prompts && Control(s.prompts[p]) && SystemTold(s, p, a) && Enabled(s, ReclaimOne(p))
    ensures SystemTold(Apply(s, ReclaimOne(p)), p, a)
  {
    if s.prompts[p].kind.Unlock? { StepTold(s.prompts[p], a, Reclaim); }
  }

  lemma {:induction false} FirstTold(s: State, act: Action, p: Path)
    requires p !in s.prompts && Enabled(s, act)
    ensures SystemTold(Apply(s, act), p, NOTHING)
  {
    if act.NewPrompt? && act.p == p && act.kind.Unlock? { NewTold(act.client, act.kind); }
  }

  lemma {:induction false} ActionTold(s: State, act: Action, p: Path, a: Answers)
    requires (p in s.prompts ==> Control(s.prompts[p])) && SystemTold(s, p, a) && Enabled(s, act)
    ensures SystemTold(Apply(s, act), p, HeardNow(s, act, p, a))
  {
    if act.OfPrompt? && act.p == p {
      OwnTold(s, p, act.e, a);
    } else if act == ReclaimOne(p) {
      ReclaimTold(s, p, a);
    } else if p in s.prompts {
      OthersSame(s, act, p);
    } else {
      FirstTold(s, act, p);
    }
  }

  lemma {:induction false} RunTold(s: State, acts: seq<Action>, p: Path, a: Answers)
    requires Inv(s) && Runs(s, acts) && SystemTold(s, p, a)
    ensures SystemTold(Final(s, acts), p, Heard(s, acts, p, a))
    decreases |acts|
  {
    if acts != [] {
      ActionKeeps(s, acts[0]);
      if p in s.prompts { InvLocal(s, p); }
      ActionTold(s, acts[0], p, a);
      RunTold(Apply(s, acts[0]), acts[1..], p, HeardNow(s, acts[0], p, a));
    }
  }

  lemma {:induction false} ToldAt(s0: State, acts: seq<Action>, p: Path)
    requires Init(s0) && Runs(s0, acts)
    ensures SystemTold(Final(s0, acts), p, Heard(s0, acts, p, NOTHING))
  {
    Reachable(s0, []);
    RunTold(s0, acts, p, NOTHING);
  }

  // ---- what follows ----

  /** The dialog `p`'s task is at, if it is at one, and the collection it is for. */
  predicate AtDialog(t: Task, i: nat) {
    (t.Before? && t.before.Dialog? && t.i == i) || (t.After? && t.after.Redialog? && t.i == i)
  }

  /** The step is `p`'s user entering a password for collection `i`. */
  predicate EntersPin(s: State, act: Action, p: Path, i: nat) {
    act.OfPrompt? && act.p == p && act.e.TaskStep? && p in s.prompts && AtDialog(s.prompts[p].task, i) && act.e.input.answer.Pin?
  }

  lemma {:induction false} PinNoted(a: Answers, t: Task, input: Input, i: nat)
    requires i in Noted(a, t, input).pins && i !in a.pins
    ensures AtDialog(t, i) && input.answer.Pin?
  {
  }

  lemma {:induction false} PinAlong(s: State, acts: seq<Action>, p: Path, a: Answers, i: nat) returns (k: nat)
    requires Runs(s, acts) && i in Heard(s, acts, p, a).pins && i !in a.pins
    ensures k < |acts| && Runs(s, acts[..k]) && EntersPin(Final(s, acts[..k]), acts[k], p, i)
    decreases |acts|
  {
    var a' := HeardNow(s, acts[0], p, a);
    if i in a'.pins {
      PinNoted(a, s.prompts[p].task, acts[0].e.input, i);
      k := 0;
    } else {
      var j := PinAlong(Apply(s, acts[0]), acts[1..], p, a', i);
      RunShift(s, acts, j);
      k := j + 1;
    }
  }

  /** In every run, a task that has claimed the gate for a collection or holds a key for it was given a
      password for that collection, no more than three times; and the task opens nothing otherwise. */
  lemma {:induction false} PinFirst(s0: State, acts: seq<Action>, p: Path) returns (k: nat)
    requires Init(s0) && Runs(s0, acts) && p in Final(s0, acts).prompts
    requires var l := Final(s0, acts).prompts[p];
             l.kind.Unlock? && (l.task.After? || l.task.Opening?)
    ensures var i := Final(s0, acts).prompts[p].task.i;
            && k < |acts| && Runs(s0, acts[..k]) && EntersPin(Final(s0, acts[..k]), acts[k], p, i)
            && 1 <= Pins(Heard(s0, acts, p, NOTHING), i) <= 3
  {
    ToldAt(s0, acts, p);
    k := PinAlong(s0, acts, p, NOTHING, Final(s0, acts).prompts[p].task.i);
  }

  /** The step is `p`'s user cancelling a dialog, or no dialog being free. */
  predicate SaysStop(s: State, act: Action, p: Path) {
    act.OfPrompt? && act.p == p && act.e.TaskStep? && p in s.prompts &&
    var t := s.prompts[p].task;
    || (HasIndex(t) && AtDialog(t, t.i) && (act.e.input.answer.AnsCancelled? || act.e.input.answer.AnsBusy?))
    || (t.Before? && t.before.WaitSlot? && act.e.input.slot.SlotBusy?)
  }

  lemma {:induction false} StopNoted(a: Answers, t: Task, input: Input)
    ensures a.stopped ==> Noted(a, t, input).stopped
    ensures HasIndex(t) && AtDialog(t, t.i) && (input.answer.AnsCancelled? || input.answer.AnsBusy?) ==> Noted(a, t, input).stopped
    ensures t.Before? && t.before.WaitSlot? && input.slot.SlotBusy? ==> Noted(a, t, input).stopped
  {
  }

  lemma {:induction false} StopNow(s: State, act: Action, p: Path, a: Answers)
    requires Enabled(s, act)
    ensures a.stopped || SaysStop(s, act, p) ==> HeardNow(s, act, p, a).stopped
  {
    if act.OfPrompt? && act.p == p && act.e.TaskStep? { StopNoted(a, s.prompts[p].task, act.e.input); }
  }

  lemma {:induction false} StopStays(s: State, acts: seq<Action>, p: Path, a: Answers)
    requires Runs(s, acts) && a.stopped
    ensures Heard(s, acts, p, a).stopped
    decreases |acts|
  {
    if acts != [] {
      StopNow(s, acts[0], p, a);
      StopStays(Apply(s, acts[0]), acts[1..], p, HeardNow(s, acts[0], p, a));
    }
  }

  lemma {:induction false} StopAlong(s: State, acts: seq<Action>, p: Path, a: Answers, k: nat)
    requires Runs(s, acts) && k < |acts| && Runs(s, acts[..k]) && SaysStop(Final(s, acts[..k]), acts[k], p)
    ensures Heard(s, acts, p, a).stopped
    decreases k
  {
    var a' := HeardNow(s, acts[0], p, a);
    if k == 0 {
      StopNow(s, acts[0], p, a);
      StopStays(Apply(s, acts[0]), acts[1..], p, a');
    } else {
      assert acts[..k][1..] == acts[1..][..k - 1];
      StopAlong(Apply(s, acts[0]), acts[1..], p, a', k - 1);
    }
  }

  /** Cancel means cancel: once a dialog of an unlock was cancelled or never free, its task looks up,
      asks about and opens no collection any more, in any run. */
  lemma {:induction false} CancelMeansCancel(s0: State, acts: seq<Action>, p: Path, k: nat)
    requires Init(s0) && Runs(s0, acts) && k < |acts| && Runs(s0, acts[..k]) && SaysStop(Final(s0, acts[..k]), acts[k], p)
    requires p in Final(s0, acts).prompts && Final(s0, acts).prompts[p].kind.Unlock?
    ensures AtEnd(Final(s0, acts).prompts[p].task)
  {
    ToldAt(s0, acts, p);
    LocalAt(s0, acts, p);
    StopAlong(s0, acts, p, NOTHING, k);
  }

  /** An unlock its own task completed, that nobody stopped or cancelled, has an answer for every
      collection it was asked for: opened, found open by a look at its vault, or why not.  What it
      counts as opened and as found open is exactly what the vaults said. */
  lemma {:induction false} Accounted(s0: State, acts: seq<Action>, p: Path)
    requires Init(s0) && Runs(s0, acts) && p in Final(s0, acts).prompts && Final(s0, acts).prompts[p].kind.Unlock?
    requires var l := Final(s0, acts).prompts[p];
             l.hist.claimant == Some(ByTask) && !l.task.Dropped? && !l.cancelled && !Heard(s0, acts, p, NOTHING).stopped
    ensures var l := Final(s0, acts).prompts[p];
            var passed := Heard(s0, acts, p, NOTHING).passed;
            forall j: nat :: j < |l.kind.ids| ==>
              && j in passed
              && (passed[j] == Reason.Opened <==> l.kind.ids[j] in l.hist.openedIds)
              && (passed[j] == FoundOpen <==> j in l.hist.foundOpen)
  {
    ToldAt(s0, acts, p);
    LocalAt(s0, acts, p);
    EachAccounted(Final(s0, acts).prompts[p], Heard(s0, acts, p, NOTHING));
  }

  lemma {:induction false} EachAccounted(l: Local, a: Answers)
    requires l.kind.Unlock? && LocalInv(l) && Told(l, a) && l.hist.claimant == Some(ByTask) && !l.task.Dropped? && !l.cancelled && !a.stopped
    ensures forall j: nat :: j < |l.kind.ids| ==>
              && j in a.passed
              && (a.passed[j] == Reason.Opened <==> l.kind.ids[j] in l.hist.openedIds)
              && (a.passed[j] == FoundOpen <==> j in l.hist.foundOpen)
  {
    assert AtEnd(l.task);
    forall j: nat | j < |l.kind.ids|
      ensures j in a.passed && (a.passed[j] == Reason.Opened <==> l.kind.ids[j] in l.hist.openedIds)
    {
      if l.kind.ids[j] in l.hist.openedIds {
        assert l.hist.openedAt[l.kind.ids[j]] == j;
      }
    }
  }
}
