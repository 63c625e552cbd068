/**
 What the task of a create or delete was told, read off a run's own inputs, and that it goes by it:
 nothing is claimed, handed to the pool, unlinked or listed without a yes, and a task that runs to its
 end has carried out or accounted for whatever it was told.
 */
module PromptConsent {
  import opened Options
  import opened PromptModel
  import opened PromptInvariant
  import opened PromptSystem
  import opened PromptGlobal
  import opened PromptRuns
  import opened PromptTheorems

  // ---- what was heard ----

  datatype Answers = Answers(
    yes: bool, no: bool,          // the user's confirmation
    absent: bool,                 // nothing to delete
    taken: nat, failed: bool,     // names that were taken; a create that failed
    made: Option<Id>, listed: bool,
    gone: bool, kept: bool, unlisted: bool)

  const NOTHING := Answers(false, false, false, 0, false, None, false, false, false, false)

  function ConsentNoted(a: Answers, consent: ConsentStep, input: Input): Answers {
    match consent
    case DelLookup => a.(absent := input.found.None?)
    case Ask(_) => a.(yes := input.ok, no := !input.ok)
    case _ => a
  }

  function WorkNoted(a: Answers, work: WorkStep, input: Input): Answers {
    a.(made := if work.Await? && input.created.Created? then Some(work.id) else a.made,
       taken := if work.Await? && input.created.NameTaken? then a.taken + 1 else a.taken,
       failed := a.failed || (work.Await? && input.created.CreateFailed?),
       listed := a.listed || work.Insert?,
       gone := a.gone || (work.Unlink? && input.unlinked.Gone?),
       kept := a.kept || (work.Unlink? && !input.unlinked.Gone?),
       unlisted := a.unlisted || work.Unlist?)
  }

  /** The answers after a task at `t` is told `input`.  Nothing is said of where the task goes. */
  function Noted(a: Answers, t: Task, input: Input): Answers {
    if t.Consent? then ConsentNoted(a, t.consent, input) else if t.Work? then WorkNoted(a, t.work, input) else a
  }

  /** What `p`'s task hears over a run. */
  function Heard(s: State, acts: seq<Action>, p: Path, a: Answers): Answers
    requires Runs(s, acts)
    decreases |acts|
  {
    if acts == [] then a else Heard(Apply(s, acts[0]), acts[1..], p, HeardNow(s, acts[0], p, a))
  }

  function HeardNow(s: State, act: Action, p: Path, a: Answers): Answers
    requires Enabled(s, act)
  {
    if act.OfPrompt? && act.p == p && act.e.TaskStep? then Noted(a, s.prompts[p].task, act.e.input) else a
  }

  // ---- going by it ----

  predicate ConsentTold(k: Kind, consent: ConsentStep, a: Answers) {
    a == NOTHING.(yes := consent.PostCancel? || consent.OneClaim?) && (k.Create? ==> !consent.DelLookup? && !consent.DelCount?)
  }

  predicate WorkTold(k: Kind, work: WorkStep, a: Answers) {
    match work
    case PickName(n) => k.Create? && n < 3 && a == NOTHING.(yes := true, taken := n)
    case Spawn(n, _) => k.Create? && n < 3 && a == NOTHING.(yes := true, taken := n)
    case Await(n, _) => k.Create? && n < 3 && a == NOTHING.(yes := true, taken := n)
    case Insert(id) => k.Create? && a.taken < 3 && a == NOTHING.(yes := true, taken := a.taken, made := Some(id))
    case Unlink(_) => k.Delete? && a == NOTHING.(yes := true)
    case Unlist => k.Delete? && a == NOTHING.(yes := true, gone := true)
  }

  /** A task that ran to its end did what it was told and is accounted for. */
  predicate DoneTold(k: Kind, cancelled: bool, taskWon: bool, a: Answers) {
    && (a.made.Some? <==> a.listed) && (a.gone <==> a.unlisted)
    && (taskWon ==> if k.Create? then a.listed || a.taken == 3 || a.failed else a.unlisted || a.kept)
    && (!taskWon ==> a.no || a.absent || cancelled)
  }

  /** What holds wherever the task is. */
  predicate AlwaysTold(k: Kind, taskWon: bool, mutated: bool, a: Answers) {
    && (taskWon || mutated ==> a.yes) && (a.yes ==> !a.no && !a.absent) && a.taken <= 3
    && (a.listed ==> a.made.Some?) && (a.unlisted ==> a.gone) && !(a.gone && a.kept)
    && (a.made.Some? || a.failed || a.taken > 0 ==> k.Create? && taskWon)
    && (a.gone || a.kept ==> k.Delete? && taskWon)
  }

  predicate Told(k: Kind, t: Task, cancelled: bool, taskWon: bool, mutated: bool, a: Answers) {
    && AlwaysTold(k, taskWon, mutated, a)
    && (t.NotStarted? ==> a == NOTHING && !taskWon && !mutated)
    && (t.Consent? ==> !taskWon && !mutated && ConsentTold(k, t.consent, a))
    && (t.Work? ==> taskWon && WorkTold(k, t.work, a))
    && (t.Finish? || t.Emit? || t.Ended? ==> DoneTold(k, cancelled, taskWon, a))
  }

  predicate LocalTold(l: Local, a: Answers) {
    Told(l.kind, l.task, l.cancelled, l.hist.taskWon, l.hist.mutated, a)
  }

  // ---- every step keeps it ----

  lemma {:induction false} ConsentGoes(l: Local, a: Answers, input: Input)
    requires !l.kind.Unlock? && l.task.Consent? && LocalTold(l, a) && DismissInv(l.calls, l.cancelled, l.hist.dismissWon)
    requires GateInv(l.kind, l.task, l.committed, l.cancelled, l.hist.taskWon, l.hist.dismissWon, l.hist.mutated)
    ensures LocalTold(ConsentNext(l, input), Noted(a, l.task, input))
  {
  }

  lemma {:induction false} WorkGoes(l: Local, a: Answers, input: Input)
    requires !l.kind.Unlock? && l.task.Work? && LocalTold(l, a)
    ensures LocalTold(WorkNext(l, input), Noted(a, l.task, input))
  {
  }

  lemma {:induction false} EndGoes(l: Local, a: Answers)
    requires LocalTold(l, a)
    ensures l.task.Finish? ==> LocalTold(FinishNext(l), a)
    ensures l.task.Emit? ==> LocalTold(EmitNext(l), a)
  {
  }

  lemma {:induction false} TaskTold(l: Local, a: Answers, input: Input)
    requires Control(l) && !l.kind.Unlock? && Running(l.task) && LocalTold(l, a)
    ensures LocalTold(TaskNext(l, input), Noted(a, l.task, input))
  {
    if l.task.Consent? {
      ConsentGoes(l, a, input);
    } else if l.task.Work? {
      WorkGoes(l, a, input);
    } else {
      EndGoes(l, a);
    }
  }

  lemma {:induction false} CallTold(l: Local, a: Answers, c: CallId)
    requires c in l.calls && !l.kind.Unlock? && ActionInv(l.action, l.task, l.calls) && LocalTold(l, a)
    ensures LocalTold(CallNext(l, c), a)
  {
  }

  lemma {:induction false} OtherTold(l: Local, a: Answers, e: Event)
    requires CanDo(l, e) && !e.TaskStep? && !e.CallStep?
    ensures Step(l, e).kind == l.kind && (LocalTold(l, a) ==> LocalTold(Step(l, e), a))
  {
    OtherSame(l, e);
  }

  lemma {:induction false} StepTold(l: Local, a: Answers, e: Event)
    requires Control(l) && !l.kind.Unlock? && LocalTold(l, a) && CanDo(l, e)
    ensures LocalTold(Step(l, e), if e.TaskStep? then Noted(a, l.task, e.input) else a)
  {
    match e
    case TaskStep(input) => TaskTold(l, a, input);
    case CallStep(c) => CallTold(l, a, c);
    case _ => OtherTold(l, a, e);
  }

  // ---- every run ----

  predicate SystemTold(s: State, p: Path, a: Answers) {
    if p in s.prompts then !s.prompts[p].kind.Unlock? ==> LocalTold(s.prompts[p], a) else a == NOTHING
  }

  lemma {:induction false} OwnTold(s: State, p: Path, e: Event, a: Answers)
    requires p in s.prompts && Control(s.prompts[p]) && SystemTold(s, p, a) && Enabled(s, OfPrompt(p, e))
    ensures SystemTold(Apply(s, OfPrompt(p, e)), p, HeardNow(s, OfPrompt(p, e), p, a))
  {
    ActionKind(s, OfPrompt(p, e), p);
    if !s.prompts[p].kind.Unlock? { StepTold(s.prompts[p], a, e); }
  }

  lemma {:induction false} ActionTold(s: State, act: Action, p: Path, a: Answers)
    requires (p in s.prompts ==> Control(s.prompts[p])) && SystemTold(s, p, a) && Enabled(s, act)
    ensures SystemTold(Apply(s, act), p, HeardNow(s, act, p, a))
  {
    if act.OfPrompt? && act.p == p {
      OwnTold(s, p, act.e, a);
    } else if act == ReclaimOne(p) {
      OtherTold(s.prompts[p], a, Reclaim);
    } else if p in s.prompts {
      OthersSame(s, act, p);
    }
  }

  lemma {:induction false} RunTold(s: State, acts: seq<Action>, p: Path, a: Answers)
    requires Inv(s) && Runs(s, acts) && SystemTold(s, p, a)
    ensures SystemTold(Final(s, acts), p, Heard(s, acts, p, a))
    decreases |acts|
  {
    if acts != [] {
      ActionKeeps(s, acts[0]);
      if p in s.prompts { InvLocal(s, p); }
      ActionTold(s, acts[0], p, a);
      RunTold(Apply(s, acts[0]), acts[1..], p, HeardNow(s, acts[0], p, a));
    }
  }

  lemma {:induction false} ToldAt(s0: State, acts: seq<Action>, p: Path)
    requires Init(s0) && Runs(s0, acts)
    ensures SystemTold(Final(s0, acts), p, Heard(s0, acts, p, NOTHING))
  {
    Reachable(s0, []);
    RunTold(s0, acts, p, NOTHING);
  }

  // ---- what follows ----

  /** The step asks `p`'s user to confirm, and the user says yes. */
  predicate SaysYes(s: State, act: Action, p: Path) {
    act.OfPrompt? && act.p == p && act.e.TaskStep? && p in s.prompts &&
    s.prompts[p].task.Consent? && s.prompts[p].task.consent.Ask? && act.e.input.ok
  }

  lemma {:induction false} WorkSaysNothing(a: Answers, work: WorkStep, input: Input)
    ensures WorkNoted(a, work, input).yes == a.yes
  {
  }

  lemma {:induction false} ConsentYes(a: Answers, consent: ConsentStep, input: Input)
    requires ConsentNoted(a, consent, input).yes && !a.yes
    ensures consent.Ask? && input.ok
  {
  }

  lemma {:induction false} YesNoted(a: Answers, t: Task, input: Input)
    requires Noted(a, t, input).yes && !a.yes
    ensures t.Consent? && t.consent.Ask? && input.ok
  {
    if t.Consent? {
      ConsentYes(a, t.consent, input);
    } else if t.Work? {
      WorkSaysNothing(a, t.work, input);
    }
  }

  lemma {:induction false} YesNow(s: State, act: Action, p: Path, a: Answers)
    requires Enabled(s, act) && HeardNow(s, act, p, a).yes && !a.yes
    ensures SaysYes(s, act, p)
  {
    YesNoted(a, s.prompts[p].task, act.e.input);
  }

  lemma {:induction false} YesAlong(s: State, acts: seq<Action>, p: Path, a: Answers) returns (k: nat)
    requires Runs(s, acts) && Heard(s, acts, p, a).yes && !a.yes
    ensures k < |acts| && Runs(s, acts[..k]) && SaysYes(Final(s, acts[..k]), acts[k], p)
    decreases |acts|
  {
    var a' := HeardNow(s, acts[0], p, a);
    if a'.yes {
      YesNow(s, acts[0], p, a);
      k := 0;
    } else {
      var j := YesAlong(Apply(s, acts[0]), acts[1..], p, a');
      RunShift(s, acts, j);
      k := j + 1;
    }
  }

  /** In every run, a create or delete that won its gate, was handed to the pool or went for the file
      was confirmed: there is a step of the run at which its user was asked and said yes. */
  lemma {:induction false} ConfirmedFirst(s0: State, acts: seq<Action>, p: Path) returns (k: nat)
    requires Init(s0) && Runs(s0, acts) && p in Final(s0, acts).prompts && !Final(s0, acts).prompts[p].kind.Unlock?
    requires var s := Final(s0, acts);
             s.prompts[p].hist.taskWon || s.prompts[p].hist.mutated || p in s.jobs
    ensures k < |acts| && Runs(s0, acts[..k]) && SaysYes(Final(s0, acts[..k]), acts[k], p)
  {
    ToldAt(s0, acts, p);
    JobsAt(s0, acts);
    k := YesAlong(s0, acts, p, NOTHING);
  }

  /** Whose prompt a step belongs to, if it is a prompt's or its create's. */
  predicate OfP(act: Action, p: Path) {
    (act.OfPrompt? || act.EndJob?) && act.p == p
  }

  lemma {:induction false} ChangesAtWork(s: State, act: Action, p: Path)
    requires Enabled(s, act) && OfP(act, p) && JobsInv(s.jobs, s.prompts) && (p in s.prompts ==> Control(s.prompts[p]))
    requires Apply(s, act).files != s.files || Apply(s, act).loaded != s.loaded || Apply(s, act).jobs != s.jobs
    ensures p in s.prompts && !s.prompts[p].kind.Unlock? && (s.prompts[p].task.Work? || p in s.jobs)
  {
  }

  /** And no step of a prompt or of its create changes a file, the collections or the pool otherwise. */
  lemma {:induction false} ChangedOnlyOnYes(s0: State, acts: seq<Action>, act: Action, p: Path) returns (k: nat)
    requires Init(s0) && Runs(s0, acts) && Enabled(Final(s0, acts), act) && OfP(act, p)
    requires var s := Final(s0, acts);
             Apply(s, act).files != s.files || Apply(s, act).loaded != s.loaded || Apply(s, act).jobs != s.jobs
    ensures k < |acts| && Runs(s0, acts[..k]) && SaysYes(Final(s0, acts[..k]), acts[k], p)
  {
    var s := Final(s0, acts);
    JobsAt(s0, acts);
    if p in s.prompts { LocalAt(s0, acts, p); }
    ChangesAtWork(s, act, p);
    ToldAt(s0, acts, p);
    k := YesAlong(s0, acts, p, NOTHING);
  }

  /** A create or delete whose task ran to its end carried out what it was told.  If it was not
      confirmed, it did nothing.  A create ends with its collection listed exactly when its file was
      made, after three taken names, or on a failed create; a delete ends with its collection unlisted
      exactly when its file is gone, or on a vault that was locked or an unlink that failed. */
  lemma {:induction false} CarriedOut(s0: State, acts: seq<Action>, p: Path)
    requires Init(s0) && Runs(s0, acts) && p in Final(s0, acts).prompts && !Final(s0, acts).prompts[p].kind.Unlock?
    requires Final(s0, acts).prompts[p].task.Ended?
    ensures var l := Final(s0, acts).prompts[p];
            var a := Heard(s0, acts, p, NOTHING);
            && (a.no || a.absent ==> !l.hist.taskWon && !l.hist.mutated)
            && (!l.hist.taskWon ==> a.no || a.absent || l.cancelled)
            && (l.hist.taskWon && l.kind.Create? ==> a.listed || a.taken == 3 || a.failed)
            && (l.hist.taskWon && l.kind.Delete? ==> a.unlisted || a.kept)
            && (a.listed <==> a.made.Some?) && (a.unlisted <==> a.gone) && a.taken <= 3
  {
    ToldAt(s0, acts, p);
  }

  lemma {:induction false} OwnStep(l: Local, vaults: Vaults, files: set<Id>, loaded: map<Id, Ref>, a: Answers, e: Event)
    requires KindInv(l.kind, l.task) && TaskRefOk(l, vaults) && (!l.kind.Unlock? ==> LocalTold(l, a))
    requires e.TaskStep? && l.task.Work? && l.task.work.Unlink? && e.input.unlinked.Gone? ==> vaults[l.task.work.ref].id in files
    ensures l.kind.Unlock? ==> FilesAfter(files, vaults, l, e) == files && LoadedAfter(loaded, l, e) == loaded
    ensures l.kind.Create? ==> FilesAfter(files, vaults, l, e) == files
    ensures l.kind.Create? && LoadedAfter(loaded, l, e) != loaded ==>
              a.made.Some? && e.TaskStep? && e.input.found.Some? && LoadedAfter(loaded, l, e) == loaded[a.made.value := e.input.found.value]
    ensures l.kind.Delete? && FilesAfter(files, vaults, l, e) != files ==> l.kind.id in files && FilesAfter(files, vaults, l, e) == files - {l.kind.id}
    ensures l.kind.Delete? && LoadedAfter(loaded, l, e) != loaded ==> a.gone && LoadedAfter(loaded, l, e) == loaded - {l.kind.id}
  {
  }

  /** A prompt touches its own collection only: an unlock no file and no listing, a create lists what
      the pool made for it, a delete removes the file and then the listing of the id it was made for. */
  lemma {:induction false} OwnOnly(s0: State, acts: seq<Action>, p: Path, e: Event)
    requires Init(s0) && Runs(s0, acts) && Enabled(Final(s0, acts), OfPrompt(p, e))
    ensures var s := Final(s0, acts);
            var s' := Apply(s, OfPrompt(p, e));
            var a := Heard(s0, acts, p, NOTHING);
            match s.prompts[p].kind
            case Unlock(_) => s'.files == s.files && s'.loaded == s.loaded
            case Create(_) =>
              s'.files == s.files &&
              (s'.loaded == s.loaded || (a.made.Some? && e.TaskStep? && e.input.found.Some? && s'.loaded == s.loaded[a.made.value := e.input.found.value]))
            case Delete(id) =>
              && (s'.files == s.files || (id in s.files && s'.files == s.files - {id}))
              && (s'.loaded == s.loaded || (a.gone && s'.loaded == s.loaded - {id}))
  {
    var s := Final(s0, acts);
    PromptAt(s0, acts, p);
    ToldAt(s0, acts, p);
    OwnStep(s.prompts[p], s.vaults, s.files, s.loaded, Heard(s0, acts, p, NOTHING), e);
  }

  // ---- and what came of it ----

  /** A new collection is listed under the name it was made with, with a new vault, open. */
  predicate ListsNew(id: Id, vaults: Vaults, vaults': Vaults, loaded': map<Id, Ref>) {
    id in loaded' && loaded'[id] !in vaults && loaded'[id] in vaults' &&
    vaults'[loaded'[id]].id == id && !vaults'[loaded'[id]].locked && !vaults'[loaded'[id]].retired
  }

  /** The file of a collection was there and is gone, and an open vault of it is retired. */
  ghost predicate RemovesFile(id: Id, files: set<Id>, files': set<Id>, vaults': Vaults) {
    id in files && files' == files - {id} &&
    exists ref :: ref in vaults' && vaults'[ref].id == id && vaults'[ref].retired && !vaults'[ref].locked
  }

  /** No vault is retired that was not. */
  predicate NoneRetired(vaults: Vaults, vaults': Vaults) {
    forall ref :: ref in vaults' && vaults'[ref].retired ==> ref in vaults && vaults[ref].retired
  }

  lemma {:induction false} CreateDone(p: Path, l: Local, vaults: Vaults, loaded: map<Id, Ref>, a: Answers, input: Input)
    requires l.kind.Create? && l.task.Work? && LocalTold(l, a) && WorkNoted(a, l.task.work, input).listed && !a.listed
    requires l.task.work.Insert? ==> input.found.Some? && input.found.value !in vaults
    ensures a.made.Some? && ListsNew(a.made.value, vaults, VaultsAfter(vaults, p, l, TaskStep(input)), LoadedAfter(loaded, l, TaskStep(input)))
  {
  }

  lemma {:induction false} DeleteDone(p: Path, l: Local, vaults: Vaults, files: set<Id>, loaded: map<Id, Ref>, a: Answers, input: Input)
    requires l.kind.Delete? && l.task.Work? && LocalTold(l, a) && TaskRefOk(l, vaults) && InputOk(loaded, vaults, files, l, input)
    ensures var a' := WorkNoted(a, l.task.work, input);
            var vaults' := VaultsAfter(vaults, p, l, TaskStep(input));
            var files' := FilesAfter(files, vaults, l, TaskStep(input));
            && (a'.gone && !a.gone ==> RemovesFile(l.kind.id, files, files', vaults'))
            && (a'.kept && !a.kept ==> files' == files && NoneRetired(vaults, vaults'))
            && (a'.unlisted && !a.unlisted ==> LoadedAfter(loaded, l, TaskStep(input)) == loaded - {l.kind.id})
  {
    if l.task.work.Unlink? && input.unlinked.Gone? {
      var after := VaultsAfter(vaults, p, l, TaskStep(input))[l.task.work.ref];
      assert after.id == l.kind.id && after.retired && !after.locked;
    }
  }

  /** What a task was told at a step is what that step did: told to list, the collection is listed with
      a new open vault; told the file is gone, it is, and its vault refuses every later save; told it
      stays, it stays and no vault is retired; then the collection is unlisted. */
  lemma {:induction false} DoneAsTold(s0: State, acts: seq<Action>, p: Path, input: Input)
    requires Init(s0) && Runs(s0, acts) && Enabled(Final(s0, acts), OfPrompt(p, TaskStep(input))) && !Final(s0, acts).prompts[p].kind.Unlock?
    ensures var s := Final(s0, acts);
            var s' := Apply(s, OfPrompt(p, TaskStep(input)));
            var a := Heard(s0, acts, p, NOTHING);
            var a' := HeardNow(s, OfPrompt(p, TaskStep(input)), p, a);
            match s.prompts[p].kind
            case Unlock(_) => true
            case Create(_) => a'.listed && !a.listed ==> a.made.Some? && ListsNew(a.made.value, s.vaults, s'.vaults, s'.loaded)
            case Delete(id) =>
              && (a'.gone && !a.gone ==> RemovesFile(id, s.files, s'.files, s'.vaults))
              && (a'.kept && !a.kept ==> s'.files == s.files && NoneRetired(s.vaults, s'.vaults))
              && (a'.unlisted && !a.unlisted ==> s'.loaded == s.loaded - {id})
  {
    var s := Final(s0, acts);
    var l := s.prompts[p];
    var a := Heard(s0, acts, p, NOTHING);
    PromptAt(s0, acts, p);
    ToldAt(s0, acts, p);
    if l.task.Work? && l.kind.Delete? {
      DeleteDone(p, l, s.vaults, s.files, s.loaded, a, input);
    } else if l.task.Work? && WorkNoted(a, l.task.work, input).listed && !a.listed {
      CreateDone(p, l, s.vaults, s.loaded, a, input);
    }
  }

  // ---- a create makes a new file ----

  /** The pool ends `p`'s create of a name no file had, and now one has. */
  predicate MakesNew(s: State, act: Action, p: Path, id: Id)
    requires Enabled(s, act)
  {
    act == EndJob(p, true) && p in s.jobs && s.jobs[p] == Making(id) && id !in s.files && Apply(s, act).files == s.files + {id}
  }

  predicate IsMade(s: State, p: Path, a: Answers, id: Id) {
    a.made == Some(id) || (p in s.jobs && s.jobs[p] == Made(id, Created))
  }

  lemma {:induction false} MadeNoted(a: Answers, t: Task, input: Input, id: Id)
    ensures Noted(a, t, input).made == Some(id) && a.made != Some(id) ==>
              t.Work? && t.work.Await? && t.work.id == id && input.created.Created?
  {
    if t.Consent? { assert ConsentNoted(a, t.consent, input).made == a.made; }
  }

  /** A task hears of it from its own job. */
  lemma {:induction false} MadeHeard(s: State, act: Action, p: Path, a: Answers, id: Id)
    requires Enabled(s, act) && HeardNow(s, act, p, a).made == Some(id) && a.made != Some(id)
    ensures p in s.jobs && s.jobs[p] == Made(id, Created)
  {
    var l := s.prompts[p];
    MadeNoted(a, l.task, act.e.input, id);
    assert Joins(s, p, l, act.e);
  }

  /** No step of a prompt ends a job. */
  lemma {:induction false} JobEnds(jobs: map<Path, Job>, q: Path, l: Local, e: Event, p: Path, id: Id)
    ensures p in JobsAfter(jobs, q, l, e) && JobsAfter(jobs, q, l, e)[p] == Made(id, Created) ==> p in jobs && jobs[p] == Made(id, Created)
  {
  }

  lemma {:induction false} MadeJob(s: State, act: Action, p: Path, id: Id)
    requires Enabled(s, act) && !(p in s.jobs && s.jobs[p] == Made(id, Created))
    ensures p in Apply(s, act).jobs && Apply(s, act).jobs[p] == Made(id, Created) ==> MakesNew(s, act, p, id)
  {
    match act
    case OfPrompt(q, e) => JobEnds(s.jobs, q, s.prompts[q], e, p, id);
    case EndJob(q, ok) =>
    case _ => assert Apply(s, act).jobs == s.jobs;
  }

  lemma {:induction false} MadeNow(s: State, act: Action, p: Path, a: Answers, id: Id)
    requires Enabled(s, act) && !IsMade(s, p, a, id) && IsMade(Apply(s, act), p, HeardNow(s, act, p, a), id)
    ensures MakesNew(s, act, p, id)
  {
    if HeardNow(s, act, p, a).made == Some(id) {
      MadeHeard(s, act, p, a, id);
    } else {
      MadeJob(s, act, p, id);
    }
  }

  lemma {:induction false} MadeAlong(s: State, acts: seq<Action>, p: Path, a: Answers, id: Id) returns (k: nat)
    requires Runs(s, acts) && !IsMade(s, p, a, id) && Heard(s, acts, p, a).made == Some(id)
    ensures k < |acts| && Runs(s, acts[..k]) && Enabled(Final(s, acts[..k]), acts[k]) && MakesNew(Final(s, acts[..k]), acts[k], p, id)
    decreases |acts|
  {
    var a' := HeardNow(s, acts[0], p, a);
    if IsMade(Apply(s, acts[0]), p, a', id) {
      MadeNow(s, acts[0], p, a, id);
      k := 0;
    } else {
      var j := MadeAlong(Apply(s, acts[0]), acts[1..], p, a', id);
      RunShift(s, acts, j);
      k := j + 1;
    }
  }

  /** A create told that its collection was made owes it to a step of the run that made a file where
      there was none: no create takes over an existing file. */
  lemma {:induction false} MadeNew(s0: State, acts: seq<Action>, p: Path) returns (k: nat)
    requires Init(s0) && Runs(s0, acts) && Heard(s0, acts, p, NOTHING).made.Some?
    ensures k < |acts| && Runs(s0, acts[..k]) && Enabled(Final(s0, acts[..k]), acts[k]) && MakesNew(Final(s0, acts[..k]), acts[k], p, Heard(s0, acts, p, NOTHING).made.value)
  {
    k := MadeAlong(s0, acts, p, NOTHING, Heard(s0, acts, p, NOTHING).made.value);
  }
}
