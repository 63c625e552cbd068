/**
 Three runs through the windows the protocol leaves open: an owner who leaves after the task's last
 owner check, a collection deleted while a departed owner's prompt holds it open, and a reclaim that
 aborts a task which claims its gate after the reclaim looked.
 */
module PromptWitness {
  import opened Options
  import opened PromptModel
  import opened PromptInvariant
  import opened PromptSystem
  import opened PromptGlobal

  /** `acts` leads from `s0` to `s`. */
  predicate Leads(s0: State, acts: seq<Action>, s: State) {
    Runs(s0, acts) && Final(s0, acts) == s
  }

  lemma {:induction false} Extend(s0: State, acts: seq<Action>, s: State, a: Action)
    requires Leads(s0, acts, s) && Enabled(s, a)
    ensures Leads(s0, acts + [a], Apply(s, a))
    decreases |acts|
  {
    if acts != [] {
      assert (acts + [a])[1..] == acts[1..] + [a];
      Extend(Apply(s0, acts[0]), acts[1..], s, a);
    }
  }

  lemma {:induction false} Go(s0: State, acts: seq<Action>, s: State, a: Action, s': State) returns (r: seq<Action>)
    requires Leads(s0, acts, s) && Moves(s, a, s')
    ensures Leads(s0, r, s')
  {
    r := acts + [a];
    Extend(s0, acts, s, a);
  }

  predicate Moves(s: State, a: Action, s': State) {
    Enabled(s, a) && Apply(s, a) == s'
  }

  /** `s` with prompt `p` as `l`. */
  function With(s: State, p: Path, l: Local): State {
    s.(prompts := s.prompts[p := l])
  }

  lemma {:induction false} WithTwice(s: State, p: Path, l: Local, l': Local)
    ensures s.prompts[p := l][p := l'] == s.prompts[p := l']
  {
  }

  const YES := Input(true, Some(0), Got, Pin, OpenOk, Gone, [("a", None)], "n", Created)

  /** A step that touches only the prompt. */
  lemma {:induction false} GoStep(s0: State, acts: seq<Action>, s: State, p: Path, l: Local, e: Event, l': Local)
    returns (r: seq<Action>)
    requires Leads(s0, acts, With(s, p, l)) && Enabled(With(s, p, l), OfPrompt(p, e)) && Step(l, e) == l'
    requires VaultsAfter(s.vaults, p, l, e) == s.vaults && LoadedAfter(s.loaded, l, e) == s.loaded
    requires FilesAfter(s.files, s.vaults, l, e) == s.files && JobsAfter(s.jobs, p, l, e) == s.jobs
    requires MissedAfter(s.missed, s.loaded, s.vaults, p, l, e) == s.missed
    ensures Leads(s0, r, With(s, p, l'))
  {
    assert s.prompts[p := l][p := l'] == s.prompts[p := l'];
    r := Go(s0, acts, With(s, p, l), OfPrompt(p, e), With(s, p, l'));
  }

  predicate Quiet(t: Task) {
    match t
    case Opening(_, _, _, opening) => !opening.Open?
    case Leaving(leaving) => leaving.FinalCheck?
    case Work(work) => work.PickName?
    case _ => true
  }

  lemma {:induction false} GoTask(s0: State, acts: seq<Action>, s: State, p: Path, l: Local, l': Local) returns (r: seq<Action>)
    requires Leads(s0, acts, With(s, p, l)) && s.watcher.Idle? && Quiet(l.task)
    requires TaskMay(l) && InputOk(s.loaded, s.vaults, s.files, l, YES) && TaskNext(l, YES) == l'
    ensures Leads(s0, r, With(s, p, l'))
  {
    r := GoStep(s0, acts, s, p, l, TaskStep(YES), l');
  }

  lemma {:induction false} GoCall(s0: State, acts: seq<Action>, s: State, p: Path, l: Local, e: Event, l': Local) returns (r: seq<Action>)
    requires Leads(s0, acts, With(s, p, l)) && s.watcher.Idle?
    requires (e.Export? || e.Arrive? || e.CallStep?) && CanDo(l, e) && Step(l, e) == l'
    ensures Leads(s0, r, With(s, p, l'))
  {
    r := GoStep(s0, acts, s, p, l, e, l');
  }

  // ---- starting a prompt ----

  /** One call of `Prompt` on a prompt whose task is not started. */
  function Called(client: Client, kind: Kind, call: Call, action: bool): Local {
    NewLocal(client, kind).(exporting := Exported, calls := map[0 := call], action := action)
  }

  /** The prompt with its task started. */
  function Started(client: Client, kind: Kind, t: Task): Local {
    NewLocal(client, kind).(row := Row(Some(client), true, true, None), exporting := Exported, action := false, task := t)
  }

  lemma {:induction false} ToCall(s0: State, acts: seq<Action>, s: State, p: Path, client: Client, kind: Kind) returns (r: seq<Action>)
    requires Leads(s0, acts, s) && p !in s.prompts && s.watcher.Idle? && (kind.Unlock? ==> Distinct(kind.ids))
    ensures Leads(s0, r, With(s, p, Called(client, kind, PCheck(client), true)))
  {
    var l0 := NewLocal(client, kind);
    var l1 := l0.(exporting := Exported);
    r := Go(s0, acts, s, NewPrompt(p, client, kind), With(s, p, l0));
    r := GoCall(s0, r, s, p, l0, Export(true), l1);
    r := GoCall(s0, r, s, p, l1, Arrive(0, PCheck(client)), Called(client, kind, PCheck(client), true));
  }

  lemma {:induction false} ToStart(s0: State, acts: seq<Action>, s: State, p: Path, client: Client, kind: Kind) returns (r: seq<Action>)
    requires Leads(s0, acts, With(s, p, Called(client, kind, PCheck(client), true))) && s.watcher.Idle?
    ensures Leads(s0, r, With(s, p, Started(client, kind, FirstTask(kind))))
  {
    var l2, l3, l4 := Called(client, kind, PCheck(client), true), Called(client, kind, PTake, true), Called(client, kind, PRegister, false);
    assert l2.calls[0 := PTake] == l3.calls && l3.calls[0 := PRegister] == l4.calls && l4.calls - {0} == map[];
    r := GoCall(s0, acts, s, p, l2, CallStep(0), l3);
    r := GoCall(s0, r, s, p, l3, CallStep(0), l4);
    r := GoCall(s0, r, s, p, l4, CallStep(0), Started(client, kind, FirstTask(kind)));
  }

  /** A create or delete from its cancellation check to its claim of the gate. */
  lemma {:induction false} ToConsent(s0: State, acts: seq<Action>, s: State, p: Path, client: Client, kind: Kind, ref: Ref) returns (r: seq<Action>)
    requires Leads(s0, acts, With(s, p, Started(client, kind, Consent(PreCancel(ref))))) && s.watcher.Idle?
    ensures Leads(s0, r, With(s, p, Started(client, kind, Consent(OneClaim(ref)))))
  {
    r := GoTask(s0, acts, s, p, Started(client, kind, Consent(PreCancel(ref))), Started(client, kind, Consent(Ask(ref))));
    r := GoTask(s0, r, s, p, Started(client, kind, Consent(Ask(ref))), Started(client, kind, Consent(PostCancel(ref))));
    r := GoTask(s0, r, s, p, Started(client, kind, Consent(PostCancel(ref))), Started(client, kind, Consent(OneClaim(ref))));
  }

  // ---- reclaiming one ----

  lemma {:induction false} SweepMoves(s: State, p: Path, l: Local)
    requires s.watcher.Idle? && l.row.owner == Some("c")
    requires forall q :: q in s.prompts && q != p ==> s.prompts[q].row.owner != Some("c")
    ensures Moves(With(s, p, l), BeginSweep("c"), With(s.(watcher := Sweeping({p}, [])), p, l))
  {
    assert Apply(With(s, p, l), BeginSweep("c")).watcher.todo == {p};
  }

  lemma {:induction false} LookMoves(s: State, p: Path, l: Local)
    requires s.watcher == Sweeping({p}, []) && l.row.owner.Some? && l.row.gate && l.seen.None?
    ensures Moves(With(s, p, l), OfPrompt(p, WatchLoad), With(s, p, l.(seen := Some(l.committed))))
  {
    WithTwice(s, p, l, l.(seen := Some(l.committed)));
  }

  /** The watcher starts on `p`'s owner and loads its gate. */
  lemma {:induction false} ToLooked(s0: State, acts: seq<Action>, s: State, p: Path, l: Local) returns (r: seq<Action>)
    requires Leads(s0, acts, With(s, p, l)) && s.watcher.Idle? && l.row.owner == Some("c") && l.row.gate && l.seen.None?
    requires forall q :: q in s.prompts && q != p ==> s.prompts[q].row.owner != Some("c")
    ensures Leads(s0, r, With(s.(watcher := Sweeping({p}, [])), p, l.(seen := Some(l.committed))))
  {
    var t := s.(watcher := Sweeping({p}, []));
    SweepMoves(s, p, l);
    LookMoves(t, p, l);
    r := Go(s0, acts, With(s, p, l), BeginSweep("c"), With(t, p, l));
    r := Go(s0, r, With(t, p, l), OfPrompt(p, WatchLoad), With(t, p, l.(seen := Some(l.committed))));
  }

  lemma {:induction false} ReclaimMoves(s: State, p: Path, l: Local)
    requires s.watcher == Sweeping({p}, []) && l.seen.Some? && Taken(l) == []
    requires LeftToTask(l) || Unlisted(p, s.loaded, s.vaults) == {}
    ensures Moves(With(s, p, l), ReclaimOne(p), With(s.(watcher := Sweeping({}, [])), p, ReclaimRows(l)))
  {
    WithTwice(s, p, l, ReclaimRows(l));
    var none: RelockList := [];
    assert {p} - {p} == {} && s.missed + {} == s.missed && none + Snapshot(s.loaded, []) == none;
    assert Apply(With(s, p, l), ReclaimOne(p)).watcher == Sweeping({}, []);
    assert Apply(With(s, p, l), ReclaimOne(p)).missed == s.missed;
  }

  /** It reclaims `p`, with nothing to re-lock itself. */
  lemma {:induction false} ToRetired(s0: State, acts: seq<Action>, s: State, p: Path, l: Local) returns (r: seq<Action>)
    requires Leads(s0, acts, With(s, p, l)) && s.watcher == Sweeping({p}, []) && l.seen.Some? && Taken(l) == []
    requires LeftToTask(l) || Unlisted(p, s.loaded, s.vaults) == {}
    ensures Leads(s0, r, With(s.(watcher := Sweeping({}, [])), p, ReclaimRows(l)))
  {
    ReclaimMoves(s, p, l);
    r := Go(s0, acts, With(s, p, l), ReclaimOne(p), With(s.(watcher := Sweeping({}, [])), p, ReclaimRows(l)));
  }

  lemma {:induction false} ToSwept(s0: State, acts: seq<Action>, s: State) returns (r: seq<Action>)
    requires Leads(s0, acts, s.(watcher := Sweeping({}, [])))
    ensures Leads(s0, r, s.(watcher := Idle))
  {
    r := Go(s0, acts, s.(watcher := Sweeping({}, [])), EndSweep, s.(watcher := Relocking([])));
    r := Go(s0, r, s.(watcher := Relocking([])), EndRelock, s.(watcher := Idle));
  }

  // ---- an unlock of "a" ----

  const KIND := Unlock(["a"])
  const SHUT := Vault("a", true, false, false, {})
  const OPEN := Vault("a", false, false, false, {0})

  /** One collection, "a", with its file. */
  const WORLD := State(map[], map["a" := 0], map[0 := SHUT], Idle, {"a"}, map[], {})
  const HELD := WORLD.(vaults := map[0 := OPEN])

  /** Prompt 0 with nothing opened. */
  function Asking(t: Task, committed: bool, record: Option<seq<Id>>): Local {
    var l := Started("c", KIND, t);
    l.(row := l.row.(record := record), committed := committed, hist := l.hist.(taskWon := committed))
  }

  const FULL := Row(Some("c"), true, true, Some(["a"]))
  const REST := Row(None, false, false, Some(["a"]))

  /** And with "a" opened. */
  function Opened(t: Task, now: seq<Id>, row: Row, fate: Fate, saw: bool): Local {
    var l := Asking(t, true, None);
    l.(row := row, unlockedNow := now,
       hist := l.hist.(openedIds := ["a"], openedAt := map["a" := 0], fate := fate, sawOwner := saw, left := fate.Reclaimed?))
  }

  lemma {:induction false} ToPeek(s0: State, acts: seq<Action>) returns (r: seq<Action>)
    requires Leads(s0, acts, With(WORLD, 0, Asking(Between(0, Top), false, None)))
    ensures Leads(s0, r, With(WORLD, 0, Asking(Before(0, Peek(0)), false, None)))
  {
    r := GoTask(s0, acts, WORLD, 0, Asking(Between(0, Top), false, None), Asking(Between(0, ReadCancel), false, None));
    r := GoTask(s0, r, WORLD, 0, Asking(Between(0, ReadCancel), false, None), Asking(Between(0, OwnerCheck), false, None));
    r := GoTask(s0, r, WORLD, 0, Asking(Between(0, OwnerCheck), false, None), Asking(Before(0, Lookup), false, None));
    r := GoTask(s0, r, WORLD, 0, Asking(Before(0, Lookup), false, None), Asking(Before(0, Peek(0)), false, None));
  }

  lemma {:induction false} ToClaim(s0: State, acts: seq<Action>) returns (r: seq<Action>)
    requires Leads(s0, acts, With(WORLD, 0, Asking(Before(0, Peek(0)), false, None)))
    ensures Leads(s0, r, With(WORLD, 0, Asking(Before(0, Claim(0)), false, None)))
  {
    r := GoTask(s0, acts, WORLD, 0, Asking(Before(0, Peek(0)), false, None), Asking(Before(0, WaitSlot(0)), false, None));
    r := GoTask(s0, r, WORLD, 0, Asking(Before(0, WaitSlot(0)), false, None), Asking(Before(0, Dialog(0)), false, None));
    r := GoTask(s0, r, WORLD, 0, Asking(Before(0, Dialog(0)), false, None), Asking(Before(0, Claim(0)), false, None));
  }

  lemma {:induction false} ToKey(s0: State, acts: seq<Action>) returns (r: seq<Action>)
    requires Leads(s0, acts, With(WORLD, 0, Asking(Before(0, Claim(0)), false, None)))
    ensures Leads(s0, r, With(WORLD, 0, Asking(Opening(0, 0, 0, StillLoaded), true, None)))
  {
    r := GoTask(s0, acts, WORLD, 0, Asking(Before(0, Claim(0)), false, None), Asking(After(0, 0, 0, Recheck), true, None));
    r := GoTask(s0, r, WORLD, 0, Asking(After(0, 0, 0, Recheck), true, None), Asking(After(0, 0, 0, Params), true, None));
    r := GoTask(s0, r, WORLD, 0, Asking(After(0, 0, 0, Params), true, None), Asking(After(0, 0, 0, Derive), true, None));
    r := GoTask(s0, r, WORLD, 0, Asking(After(0, 0, 0, Derive), true, None), Asking(Opening(0, 0, 0, StillLoaded), true, None));
  }

  lemma {:induction false} ToOpen(s0: State, acts: seq<Action>) returns (r: seq<Action>)
    requires Leads(s0, acts, With(WORLD, 0, Asking(Opening(0, 0, 0, StillLoaded), true, None)))
    ensures Leads(s0, r, With(WORLD, 0, Asking(Opening(0, 0, 0, Open), true, Some(["a"]))))
  {
    r := GoTask(s0, acts, WORLD, 0, Asking(Opening(0, 0, 0, StillLoaded), true, None), Asking(Opening(0, 0, 0, Record), true, None));
    assert [] + ["a"] == ["a"];
    r := GoTask(s0, r, WORLD, 0, Asking(Opening(0, 0, 0, Record), true, None), Asking(Opening(0, 0, 0, Open), true, Some(["a"])));
  }

  lemma {:induction false} OpenMoves(l: Local, l': Local)
    requires l == Asking(Opening(0, 0, 0, Open), true, Some(["a"])) && l' == Opened(Opening(0, 0, 0, Note), [], FULL, Live, false)
    ensures Moves(With(WORLD, 0, l), OfPrompt(0, TaskStep(YES)), With(HELD, 0, l'))
  {
    assert [] + ["a"] == ["a"] && {} + {0} == {0} && WORLD.vaults[0 := OPEN] == HELD.vaults;
    assert TaskNext(l, YES) == OpeningNext(l, YES) == l';
    WithTwice(WORLD, 0, l, l');
  }

  lemma {:induction false} ToOpened(s0: State, acts: seq<Action>) returns (r: seq<Action>)
    requires Leads(s0, acts, With(WORLD, 0, Asking(Opening(0, 0, 0, Open), true, Some(["a"]))))
    ensures Leads(s0, r, With(HELD, 0, Opened(Opening(0, 0, 0, Note), [], FULL, Live, false)))
  {
    var l := Asking(Opening(0, 0, 0, Open), true, Some(["a"]));
    var l' := Opened(Opening(0, 0, 0, Note), [], FULL, Live, false);
    OpenMoves(l, l');
    r := Go(s0, acts, With(WORLD, 0, l), OfPrompt(0, TaskStep(YES)), With(HELD, 0, l'));
  }

  lemma {:induction false} ToLast(s0: State, acts: seq<Action>) returns (r: seq<Action>)
    requires Leads(s0, acts, With(HELD, 0, Opened(Opening(0, 0, 0, Note), [], FULL, Live, false)))
    ensures Leads(s0, r, With(HELD, 0, Opened(Leaving(FinalCheck), ["a"], FULL, Live, false)))
  {
    var l0 := Opened(Opening(0, 0, 0, Note), [], FULL, Live, false);
    var l1 := Opened(Between(1, Top), ["a"], FULL, Live, false);
    assert [] + ["a"] == ["a"];
    r := GoTask(s0, acts, HELD, 0, l0, l1);
    r := GoTask(s0, r, HELD, 0, l1, Opened(Leaving(FinalCheck), ["a"], FULL, Live, false));
  }

  /** From an empty daemon to the task's last owner check. */
  lemma {:induction false} ToHeld(s0: State) returns (r: seq<Action>)
    requires s0 == WORLD
    ensures Leads(s0, r, With(HELD, 0, Opened(Leaving(FinalCheck), ["a"], FULL, Live, false)))
  {
    r := ToCall(s0, [], WORLD, 0, "c", KIND);
    r := ToStart(s0, r, WORLD, 0, "c", KIND);
    r := ToPeek(s0, r);
    r := ToClaim(s0, r);
    r := ToKey(s0, r);
    r := ToOpen(s0, r);
    r := ToOpened(s0, r);
    r := ToLast(s0, r);
  }

  /** The reclaim of a task left to its own re-locking. */
  lemma {:induction false} ToLeft(s0: State, acts: seq<Action>, s: State, t: Task, saw: bool) returns (r: seq<Action>)
    requires Leads(s0, acts, With(s, 0, Opened(t, ["a"], FULL, Live, saw))) && s.watcher.Idle?
    requires forall q :: q in s.prompts && q != 0 ==> s.prompts[q].row.owner != Some("c")
    ensures Leads(s0, r, With(s, 0, Opened(t, ["a"], REST, Reclaimed, saw)))
  {
    var l := Opened(t, ["a"], FULL, Live, saw);
    var l1 := l.(seen := Some(true));
    assert ReclaimRows(l1) == Opened(t, ["a"], REST, Reclaimed, saw);
    r := ToLooked(s0, acts, s, 0, l);
    r := ToRetired(s0, r, s.(watcher := Sweeping({0}, [])), 0, l1);
    r := ToSwept(s0, r, With(s, 0, ReclaimRows(l1)));
  }

  // ---- an owner who leaves after the last check ----

  lemma {:induction false} ToEnded(s0: State, acts: seq<Action>, s: State, l: Local) returns (r: seq<Action>)
    requires l.task.Finish? && l.row.owner.None? && l.seen.None? && Leads(s0, acts, With(s, 0, l)) && s.watcher.Idle?
    ensures Leads(s0, r, With(s, 0, l.(row := EMPTY_ROW, task := Ended, hist := l.hist.(recTaken := true))))
  {
    assert TaskNext(l, YES) == FinishNext(l);
    r := GoTask(s0, acts, s, 0, l, l.(row := EMPTY_ROW, task := Ended, hist := l.hist.(recTaken := true)));
  }

  lemma {:induction false} ToChecked(s0: State, acts: seq<Action>) returns (r: seq<Action>)
    requires Leads(s0, acts, With(HELD, 0, Opened(Leaving(FinalCheck), ["a"], FULL, Live, false)))
    ensures Leads(s0, r, With(HELD, 0, Opened(Finish, ["a"], FULL, Live, true)))
  {
    r := GoTask(s0, acts, HELD, 0, Opened(Leaving(FinalCheck), ["a"], FULL, Live, false), Opened(Finish, ["a"], FULL, Live, true));
  }

  /** The window `DepartedOwner` leaves out is real: an owner who leaves between the task's last
      check and `finish` leaves the collection open with the prompt gone and nobody left to lock it. */
  lemma {:induction false} LateDepartureStaysOpen() returns (s0: State, acts: seq<Action>)
    ensures Init(s0) && Runs(s0, acts) && 0 in Final(s0, acts).prompts
    ensures var s := Final(s0, acts);
            var l := s.prompts[0];
            && l.hist.fate.Reclaimed? && l.task.Ended? && l.calls == map[] && l.row == EMPTY_ROW
            && s.watcher.Idle? && Held(0, s.vaults, 0) && !s.vaults[0].locked && IsLoaded(s.loaded, s.vaults, 0)
  {
    s0 := WORLD;
    acts := ToHeld(s0);
    acts := ToChecked(s0, acts);
    acts := ToLeft(s0, acts, HELD, Finish, true);
    acts := ToEnded(s0, acts, HELD, Opened(Finish, ["a"], REST, Reclaimed, true));
  }

  // ---- a collection deleted while it is held open ----

  const ERASE := Delete("a")
  const BOTH := With(HELD, 0, Opened(Leaving(FinalCheck), ["a"], FULL, Live, false))
  const ERASED := BOTH.(vaults := map[0 := OPEN.(retired := true)], files := {})
  const GONE := ERASED.(loaded := map[])

  /** Prompt 1, another client's delete of "a", after its claim. */
  function Erasing(t: Task, mutated: bool): Local {
    var l := Started("d", ERASE, t);
    l.(committed := true, hist := l.hist.(taskWon := true, mutated := mutated))
  }

  lemma {:induction false} ToLookup(s0: State, acts: seq<Action>) returns (r: seq<Action>)
    requires Leads(s0, acts, With(BOTH, 1, Started("d", ERASE, Consent(DelLookup))))
    ensures Leads(s0, r, With(BOTH, 1, Started("d", ERASE, Consent(PreCancel(0)))))
  {
    r := GoTask(s0, acts, BOTH, 1, Started("d", ERASE, Consent(DelLookup)), Started("d", ERASE, Consent(DelCount(0))));
    r := GoTask(s0, r, BOTH, 1, Started("d", ERASE, Consent(DelCount(0))), Started("d", ERASE, Consent(PreCancel(0))));
  }

  lemma {:induction false} ToErase(s0: State, acts: seq<Action>) returns (r: seq<Action>)
    requires Leads(s0, acts, BOTH)
    ensures Leads(s0, r, With(BOTH, 1, Erasing(Work(Unlink(0)), false)))
  {
    r := ToCall(s0, acts, BOTH, 1, "d", ERASE);
    r := ToStart(s0, r, BOTH, 1, "d", ERASE);
    r := ToLookup(s0, r);
    r := ToConsent(s0, r, BOTH, 1, "d", ERASE, 0);
    r := GoTask(s0, r, BOTH, 1, Started("d", ERASE, Consent(OneClaim(0))), Erasing(Work(Unlink(0)), false));
  }

  lemma {:induction false} EraseNext(l: Local, l1: Local, l2: Local)
    requires l == Erasing(Work(Unlink(0)), false) && l1 == Erasing(Work(Unlist), true) && l2 == Erasing(Finish, true)
    ensures TaskMay(l) && TaskNext(l, YES) == l1 && TaskMay(l1) && TaskNext(l1, YES) == l2
  {
    assert TaskNext(l, YES) == WorkNext(l, YES) && TaskNext(l1, YES) == WorkNext(l1, YES);
  }

  lemma {:induction false} UnlinkMoves(s: State, l: Local, l': Local)
    requires l.task == Work(Unlink(0)) && TaskMay(l) && TaskNext(l, YES) == l'
    requires s.watcher.Idle? && s.vaults == map[0 := OPEN] && s.files == {"a"}
    ensures Moves(With(s, 1, l), OfPrompt(1, TaskStep(YES)), With(s.(vaults := map[0 := OPEN.(retired := true)], files := {}), 1, l'))
  {
    assert s.vaults[0 := OPEN.(retired := true)] == map[0 := OPEN.(retired := true)] && s.files - {"a"} == {};
    WithTwice(s, 1, l, l');
  }

  lemma {:induction false} UnlistMoves(s: State, l: Local, l': Local)
    requires l.task == Work(Unlist) && l.kind == ERASE && TaskMay(l) && TaskNext(l, YES) == l'
    requires s.watcher.Idle? && s.loaded == map["a" := 0]
    ensures Moves(With(s, 1, l), OfPrompt(1, TaskStep(YES)), With(s.(loaded := map[]), 1, l'))
  {
    assert s.loaded - {"a"} == map[];
    WithTwice(s, 1, l, l');
  }

  lemma {:induction false} ToGone(s0: State, acts: seq<Action>) returns (r: seq<Action>)
    requires Leads(s0, acts, With(BOTH, 1, Erasing(Work(Unlink(0)), false)))
    ensures Leads(s0, r, With(GONE, 1, Erasing(Finish, true)))
  {
    var l, l1, l2 := Erasing(Work(Unlink(0)), false), Erasing(Work(Unlist), true), Erasing(Finish, true);
    EraseNext(l, l1, l2);
    UnlinkMoves(BOTH, l, l1);
    UnlistMoves(ERASED, l1, l2);
    r := Go(s0, acts, With(BOTH, 1, l), OfPrompt(1, TaskStep(YES)), With(ERASED, 1, l1));
    r := Go(s0, r, With(ERASED, 1, l1), OfPrompt(1, TaskStep(YES)), With(GONE, 1, l2));
  }

  /** Prompt 0 with its record taken. */
  function Relisted(t: Task): Local {
    var l := Opened(t, ["a"], REST.(record := None), Reclaimed, false);
    l.(hist := l.hist.(recTaken := true))
  }

  lemma {:induction false} MissedHere(loaded: map<Id, Ref>, vaults: map<Ref, Vault>)
    requires loaded == map[] && vaults == GONE.vaults
    ensures Snapshot(loaded, ["a"]) == YES.vaults && Unlisted(0, loaded, vaults) == {(0, 0)}
  {
    var one: RelockList := [("a", None)];
    assert ["a"][..0] == [] && [] + one == one;
    assert (0, 0) in Unlisted(0, loaded, vaults);
  }

  lemma {:induction false} RelockNext(l0: Local, l1: Local, l2: Local, l3: Local)
    requires l0 == Opened(Leaving(TakeRecord), ["a"], REST, Reclaimed, false)
    requires l1 == Relisted(Leaving(SelfRelock([("a", None)]))) && l2 == Relisted(Leaving(SelfRelock([]))) && l3 == Relisted(Finish)
    ensures TaskMay(l0) && TaskNext(l0, YES) == l1
    ensures TaskMay(l1) && TaskNext(l1, YES) == l2
    ensures TaskMay(l2) && TaskNext(l2, YES) == l3
  {
    var one: RelockList := [("a", None)];
    assert one[1..] == [];
    assert TaskNext(l0, YES) == LeavingNext(l0, YES) && TaskNext(l1, YES) == LeavingNext(l1, YES);
    assert TaskNext(l2, YES) == LeavingNext(l2, YES);
  }

  /** Prompt 0 takes its record after the delete. */
  lemma {:induction false} TakeMoves(s: State, l: Local, l': Local)
    requires s.watcher.Idle? && s.loaded == map[] && s.vaults == GONE.vaults && s.missed == {}
    requires l.task == Leaving(TakeRecord) && l.unlockedNow == ["a"] && TaskMay(l) && TaskNext(l, YES) == l'
    ensures Moves(With(s, 0, l), OfPrompt(0, TaskStep(YES)), With(s.(missed := {(0, 0)}), 0, l'))
  {
    MissedHere(s.loaded, s.vaults);
    WithTwice(s, 0, l, l');
  }

  lemma {:induction false} RelockMoves(s: State, l: Local, l': Local)
    requires s.watcher.Idle? && l.task.Leaving? && (l.task.leaving == SelfRelock([("a", None)]) || l.task.leaving == SelfRelock([]))
    requires TaskMay(l) && TaskNext(l, YES) == l'
    ensures Moves(With(s, 0, l), OfPrompt(0, TaskStep(YES)), With(s, 0, l'))
  {
    WithTwice(s, 0, l, l');
  }

  /** Prompt 0's own re-locking, after the delete. */
  lemma {:induction false} ToMissed(s0: State, acts: seq<Action>, s: State) returns (r: seq<Action>)
    requires s.watcher.Idle? && s.loaded == map[] && s.vaults == GONE.vaults && s.missed == {}
    requires Leads(s0, acts, With(s, 0, Opened(Leaving(TakeRecord), ["a"], REST, Reclaimed, false)))
    ensures Leads(s0, r, With(s.(missed := {(0, 0)}), 0, Relisted(Finish)))
  {
    var t := s.(missed := {(0, 0)});
    var l0 := Opened(Leaving(TakeRecord), ["a"], REST, Reclaimed, false);
    var l1, l2, l3 := Relisted(Leaving(SelfRelock([("a", None)]))), Relisted(Leaving(SelfRelock([]))), Relisted(Finish);
    RelockNext(l0, l1, l2, l3);
    TakeMoves(s, l0, l1);
    RelockMoves(t, l1, l2);
    RelockMoves(t, l2, l3);
    r := Go(s0, acts, With(s, 0, l0), OfPrompt(0, TaskStep(YES)), With(t, 0, l1));
    r := Go(s0, r, With(t, 0, l1), OfPrompt(0, TaskStep(YES)), With(t, 0, l2));
    r := Go(s0, r, With(t, 0, l2), OfPrompt(0, TaskStep(YES)), With(t, 0, l3));
  }

  /** The owner of prompt 0 leaves, and the watcher and the task do their parts. */
  lemma {:induction false} ToAlone(s0: State, acts: seq<Action>, s: State) returns (r: seq<Action>)
    requires s == With(GONE, 1, Erasing(Finish, true)) && Leads(s0, acts, s)
    ensures Leads(s0, r, With(s.(missed := {(0, 0)}), 0, Relisted(Finish)))
  {
    var l := Opened(Leaving(FinalCheck), ["a"], FULL, Live, false);
    assert With(s, 0, l) == s;
    r := ToLeft(s0, acts, s, Leaving(FinalCheck), false);
    r := GoTask(s0, r, s, 0, Opened(Leaving(FinalCheck), ["a"], REST, Reclaimed, false),
                Opened(Leaving(TakeRecord), ["a"], REST, Reclaimed, false));
    r := ToMissed(s0, r, s);
  }

  /** The other window `DepartedOwner` leaves out is real too: a collection deleted while the prompt
      held it open is not found by the snapshot, and nobody locks its vault. */
  lemma {:induction false} DeletedStaysOpen() returns (s0: State, acts: seq<Action>)
    ensures Init(s0) && Runs(s0, acts) && 0 in Final(s0, acts).prompts
    ensures var s := Final(s0, acts);
            var l := s.prompts[0];
            && l.hist.fate.Reclaimed? && !l.hist.sawOwner && l.task.Ended? && l.row == EMPTY_ROW && s.watcher.Idle?
            && Held(0, s.vaults, 0) && !s.vaults[0].locked && s.vaults[0].retired && (0, 0) in s.missed
  {
    s0 := WORLD;
    acts := ToHeld(s0);
    acts := ToErase(s0, acts);
    acts := ToGone(s0, acts);
    var s := With(GONE, 1, Erasing(Finish, true));
    acts := ToAlone(s0, acts, s);
    acts := ToEnded(s0, acts, s.(missed := {(0, 0)}), Relisted(Finish));
  }

  // ---- a reclaim that looked too early ----

  const MAKE := Create("n")

  /** A create under way: `seen` is the gate as the reclaim loaded it. */
  function Making(t: Task, seen: Option<bool>, claimed: bool): Local {
    var l := Started("c", MAKE, t);
    l.(committed := claimed, seen := seen, hist := l.hist.(taskWon := claimed))
  }

  /** And reclaimed, its task aborted. */
  function Unmade(t: Task, mutated: bool): Local {
    var l := Making(t, None, true);
    l.(row := EMPTY_ROW, aborted := true, hist := l.hist.(fate := Reclaimed, recTaken := true, mutated := mutated))
  }

  /** The task claims its gate after the reclaim has loaded it. */
  lemma {:induction false} ToLateClaim(s0: State, acts: seq<Action>, s: State) returns (r: seq<Action>)
    requires s == WORLD.(watcher := Sweeping({0}, []))
    requires Leads(s0, acts, With(s, 0, Making(Consent(OneClaim(0)), Some(false), false)))
    ensures Leads(s0, r, With(s, 0, Making(Work(PickName(0)), Some(false), true)))
  {
    var l, l' := Making(Consent(OneClaim(0)), Some(false), false), Making(Work(PickName(0)), Some(false), true);
    assert TaskNext(l, YES) == ConsentNext(l, YES) == l';
    r := GoStep(s0, acts, s, 0, l, TaskStep(YES), l');
  }

  /** The reclaim aborts it and is done. */
  lemma {:induction false} ToAborted(s0: State, acts: seq<Action>) returns (r: seq<Action>)
    requires Leads(s0, acts, With(WORLD.(watcher := Sweeping({0}, [])), 0, Making(Work(PickName(0)), Some(false), true)))
    ensures Leads(s0, r, With(WORLD, 0, Unmade(Work(PickName(0)), false)))
  {
    var l := Making(Work(PickName(0)), Some(false), true);
    assert ReclaimRows(l) == Unmade(Work(PickName(0)), false) && Unlisted(0, WORLD.loaded, WORLD.vaults) == {};
    r := ToRetired(s0, acts, WORLD.(watcher := Sweeping({0}, [])), 0, l);
    r := ToSwept(s0, r, With(WORLD, 0, ReclaimRows(l)));
  }

  const MAKING := WORLD.(jobs := map[0 := Job.Making("n")])
  const MADE := WORLD.(jobs := map[0 := Made("n", Created)], files := {"a", "n"})

  lemma {:induction false} SpawnMoves(l: Local, l': Local)
    requires l == Unmade(Work(Spawn(0, "n")), false) && l' == Unmade(Work(Await(0, "n")), true)
    ensures Moves(With(WORLD, 0, l), OfPrompt(0, TaskStep(YES)), With(MAKING, 0, l'))
  {
    assert TaskNext(l, YES) == WorkNext(l, YES) == l';
    WithTwice(WORLD, 0, l, l');
  }

  /** Still in the poll it was aborted in, the task picks a name and hands the create to the pool. */
  lemma {:induction false} ToSpawned(s0: State, acts: seq<Action>) returns (r: seq<Action>)
    requires Leads(s0, acts, With(WORLD, 0, Unmade(Work(PickName(0)), false)))
    ensures Leads(s0, r, With(MAKING, 0, Unmade(Work(Await(0, "n")), true)))
  {
    var l, l1, l2 := Unmade(Work(PickName(0)), false), Unmade(Work(Spawn(0, "n")), false), Unmade(Work(Await(0, "n")), true);
    SpawnMoves(l1, l2);
    r := GoTask(s0, acts, WORLD, 0, l, l1);
    r := Go(s0, r, With(WORLD, 0, l1), OfPrompt(0, TaskStep(YES)), With(MAKING, 0, l2));
  }

  lemma {:induction false} EndJobMoves(l: Local)
    ensures Moves(With(MAKING, 0, l), EndJob(0, true), With(MADE, 0, l))
  {
    assert MAKING.jobs[0 := Made("n", Created)] == MADE.jobs && MAKING.files + {"n"} == MADE.files;
  }

  /** It is dropped at its first await, and the pool makes the file all the same. */
  lemma {:induction false} ToOrphan(s0: State, acts: seq<Action>) returns (r: seq<Action>)
    requires Leads(s0, acts, With(MAKING, 0, Unmade(Work(Await(0, "n")), true)))
    ensures Leads(s0, r, With(MADE, 0, Unmade(Dropped, true)))
  {
    var l := Unmade(Dropped, true);
    r := GoStep(s0, acts, MAKING, 0, Unmade(Work(Await(0, "n")), true), Drop, l);
    EndJobMoves(l);
    r := Go(s0, r, With(MAKING, 0, l), EndJob(0, true), With(MADE, 0, l));
  }

  lemma {:induction false} ToMade(s0: State) returns (r: seq<Action>)
    requires s0 == WORLD
    ensures Leads(s0, r, With(MADE, 0, Unmade(Dropped, true)))
  {
    r := ToCall(s0, [], WORLD, 0, "c", MAKE);
    r := ToStart(s0, r, WORLD, 0, "c", MAKE);
    r := ToConsent(s0, r, WORLD, 0, "c", MAKE, 0);
    r := ToLooked(s0, r, WORLD, 0, Making(Consent(OneClaim(0)), None, false));
    r := ToLateClaim(s0, r, WORLD.(watcher := Sweeping({0}, [])));
    r := ToAborted(s0, r);
    r := ToSpawned(s0, r);
    r := ToOrphan(s0, r);
  }

  /** A reclaim can abort a create its user confirmed: the task claims its gate between the reclaim's
      look at it and the abort, and the collection's file is made with nobody left to list it. */
  lemma {:induction false} ConfirmedCreateAborted() returns (s0: State, acts: seq<Action>)
    ensures Init(s0) && Runs(s0, acts) && 0 in Final(s0, acts).prompts
    ensures var s := Final(s0, acts);
            var l := s.prompts[0];
            && l.hist.taskWon && l.hist.fate.Reclaimed? && l.task.Dropped? && l.row == EMPTY_ROW && l.calls == map[]
            && s.watcher.Idle? && "n" !in s0.files && "n" in s.files && "n" !in s.loaded && s.loaded == s0.loaded
  {
    s0 := WORLD;
    acts := ToMade(s0);
  }
}
