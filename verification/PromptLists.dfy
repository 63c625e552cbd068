/**
 Every step of one prompt keeps `Lists`: the record row holds exactly what the prompt opened, in
 order, plus at most the attempt in progress.
 */
module PromptLists {
  import opened Options
  import opened PromptModel
  import opened PromptInvariant

  /** A move of the task that neither starts nor ends an attempt, and never goes back. */
  predicate Onward(k: Kind, t: Task, t': Task) {
    && !InNote(t) && !InNote(t') && Extra(k, t) == Extra(k, t')
    && (HasIndex(t') ==> HasIndex(t) && t.i <= t'.i)
  }

  lemma {:induction false} OnwardKeeps(l: Local, l': Local)
    requires Lists(l) && SameLists(l, l') && (l'.task == l.task || Onward(l.kind, l.task, l'.task))
    ensures Lists(l')
  {
  }

  /** A step that leaves the lists alone. */
  predicate SameLists(l: Local, l': Local) {
    l'.kind == l.kind && l'.row.record == l.row.record && l'.unlockedNow == l.unlockedNow &&
    l'.hist.openedIds == l.hist.openedIds && l'.hist.openedAt == l.hist.openedAt && l'.hist.foundOpen == l.hist.foundOpen && l'.hist.recTaken == l.hist.recTaken
  }

  /** A step that takes or forgets the record row. */
  lemma {:induction false} ForgetKeeps(l: Local, l': Local)
    requires Lists(l) && l'.hist.recTaken && l'.row.record.None?
    requires SameLists(l, l'.(row := l'.row.(record := l.row.record), hist := l'.hist.(recTaken := l.hist.recTaken)))
    requires l'.task == l.task || (!InNote(l.task) && AtEnd(l'.task))
    ensures Lists(l')
  {
  }

  /** A task that still opens things has its record row. */
  lemma {:induction false} NotTaken(l: Local)
    requires Control(l) && l.task.Opening?
    ensures !l.hist.recTaken
  {
  }

  lemma {:induction false} RecordKeeps(l: Local, input: Input)
    requires KindInv(l.kind, l.task) && !l.hist.recTaken && Lists(l) && l.task.Opening? && l.task.opening.Record?
    ensures Lists(OpeningNext(l, input))
  {
  }

  lemma {:induction false} OpenKeeps(l: Local, input: Input)
    requires KindInv(l.kind, l.task) && !l.hist.recTaken && Lists(l) && l.task.Opening? && l.task.opening.Open? && input.res.OpenOk?
    ensures Lists(OpeningNext(l, input))
  {
  }

  /** The attempt's id is the last of the record, so dropping its last occurrence restores it. */
  lemma {:induction false} UnrecordRestores(row: Row, before: seq<Id>, id: Id)
    requires RecordIds(row.record) == before + [id]
    ensures var record := UnrecordRow(row, id).record;
            RecordIds(record) == before && (record.Some? ==> record.value != [])
  {
    var ids := RecordIds(row.record);
    assert ids[|ids| - 1] == id && ids[..|ids| - 1] == before;
  }

  /** Going on without a note leaves the other lists right. */
  lemma {:induction false} ListOnward(k: Kind, t: Task, t': Task, now: seq<Id>, openedIds: seq<Id>)
    requires !InNote(t) && !InNote(t') && ListInv(k, t, now, openedIds)
    ensures ListInv(k, t', now, openedIds)
  {
  }

  lemma {:induction false} HandledOnward(k: Kind, t: Task, t': Task, x: nat)
    requires (HasIndex(t') ==> HasIndex(t) && t.i <= t'.i) && !InNote(t) && !InNote(t') && Handled(k, t, x)
    ensures Handled(k, t', x)
  {
  }

  lemma {:induction false} OpenedOnward(k: Kind, t: Task, t': Task, openedIds: seq<Id>, openedAt: map<Id, nat>, foundOpen: set<nat>)
    requires !InNote(t) && !InNote(t') && (HasIndex(t') ==> HasIndex(t) && t.i <= t'.i) && OpenedInv(k, t, openedIds, openedAt, foundOpen)
    ensures OpenedInv(k, t', openedIds, openedAt, foundOpen)
  {
    forall x: nat | Handled(k, t, x) ensures Handled(k, t', x) {
      HandledOnward(k, t, t', x);
    }
  }

  lemma {:induction false} UnrecordTask(l: Local, input: Input)
    requires l.kind.Unlock? && l.task.Opening? && l.task.i < |l.kind.ids| && l.task.opening.Unrecord?
    ensures var l' := OpeningNext(l, input);
            && !InNote(l'.task) && Extra(l.kind, l'.task) == [] && (HasIndex(l'.task) ==> l.task.i <= l'.task.i)
            && l' == l.(row := UnrecordRow(l.row, l.kind.ids[l.task.i]), task := l'.task)
  {
  }

  lemma {:induction false} UnrecordKeeps(l: Local, input: Input)
    requires KindInv(l.kind, l.task) && !l.hist.recTaken && Lists(l) && l.task.Opening? && l.task.opening.Unrecord?
    ensures Lists(OpeningNext(l, input))
  {
    var h := l.hist;
    UnrecordTask(l, input);
    UnrecordRestores(l.row, h.openedIds, l.kind.ids[l.task.i]);
    var t' := OpeningNext(l, input).task;
    ListOnward(l.kind, l.task, t', l.unlockedNow, h.openedIds);
    OpenedOnward(l.kind, l.task, t', h.openedIds, h.openedAt, h.foundOpen);
    assert h.openedIds + [] == h.openedIds;
  }

  lemma {:induction false} NoteKeeps(l: Local, input: Input)
    requires KindInv(l.kind, l.task) && !l.hist.recTaken && Lists(l) && l.task.Opening? && l.task.opening.Note?
    ensures Lists(OpeningNext(l, input))
  {
  }

  /** A vault no longer loaded, or a wrong key: nothing was opened. */
  lemma {:induction false} NotOpenedKeeps(l: Local, input: Input)
    requires KindInv(l.kind, l.task) && Lists(l) && l.task.Opening?
    requires l.task.opening.StillLoaded? || (l.task.opening.Open? && !input.res.OpenOk?)
    ensures Lists(OpeningNext(l, input))
  {
    OnwardKeeps(l, OpeningNext(l, input));
  }

  lemma {:induction false} OpeningKeeps(l: Local, input: Input)
    requires Control(l) && Lists(l) && l.task.Opening?
    ensures Lists(OpeningNext(l, input))
  {
    NotTaken(l);
    match l.task.opening
    case StillLoaded => NotOpenedKeeps(l, input);
    case Record => RecordKeeps(l, input);
    case Open => if input.res.OpenOk? { OpenKeeps(l, input); } else { NotOpenedKeeps(l, input); }
    case Unrecord(_) => UnrecordKeeps(l, input);
    case Note => NoteKeeps(l, input);
  }

  lemma {:induction false} BeforeKeeps(l: Local, input: Input)
    requires Control(l) && Lists(l) && l.task.Before?
    ensures Lists(BeforeNext(l, input))
  {
    if l.task.before.Peek? && !input.ok {
      FoundOpenKeeps(l);
    } else {
      OnwardKeeps(l, BeforeNext(l, input));
    }
  }

  lemma {:induction false} FoundOpenKeeps(l: Local)
    requires Control(l) && Lists(l) && l.task.Before?
    ensures Lists(l.(task := Between(l.task.i + 1, Top), hist := l.hist.(foundOpen := l.hist.foundOpen + {l.task.i})))
  {
  }

  lemma {:induction false} LeavingKeeps(l: Local, input: Input)
    requires Lists(l) && l.task.Leaving?
    ensures Lists(LeavingNext(l, input))
  {
    if l.task.leaving.TakeRecord? {
      ForgetKeeps(l, LeavingNext(l, input));
    } else {
      OnwardKeeps(l, LeavingNext(l, input));
    }
  }

  lemma {:induction false} OneShotKeeps(l: Local, input: Input)
    requires Lists(l) && (l.task.Consent? || l.task.Work?)
    ensures l.task.Consent? ==> Lists(ConsentNext(l, input))
    ensures l.task.Work? ==> Lists(WorkNext(l, input))
  {
    if l.task.Consent? { OnwardKeeps(l, ConsentNext(l, input)); } else { OnwardKeeps(l, WorkNext(l, input)); }
  }

  lemma {:induction false} MoveKeeps(l: Local, input: Input)
    requires KindInv(l.kind, l.task) && Lists(l)
    ensures l.task.Between? && l.kind.Unlock? ==> Lists(BetweenNext(l))
    ensures l.task.After? ==> Lists(AfterNext(l, input))
  {
    if l.task.Between? && l.kind.Unlock? { OnwardKeeps(l, BetweenNext(l)); }
    if l.task.After? { OnwardKeeps(l, AfterNext(l, input)); }
  }

  lemma {:induction false} FinishKeeps(l: Local)
    requires Lists(l)
    ensures l.task.Finish? ==> Lists(FinishNext(l))
    ensures l.task.Emit? ==> Lists(EmitNext(l))
  {
    if l.task.Finish? { ForgetKeeps(l, FinishNext(l)); }
    if l.task.Emit? { OnwardKeeps(l, EmitNext(l)); }
  }

  lemma {:induction false} TaskKeeps(l: Local, input: Input)
    requires Control(l) && Lists(l) && TaskMay(l)
    ensures Lists(TaskNext(l, input))
  {
    match l.task
    case Between(_, _) => MoveKeeps(l, input);
    case Before(_, _) => BeforeKeeps(l, input);
    case After(_, _, _, _) => MoveKeeps(l, input);
    case Opening(_, _, _, _) => OpeningKeeps(l, input);
    case Leaving(_) => LeavingKeeps(l, input);
    case Consent(_) => OneShotKeeps(l, input);
    case Work(_) => OneShotKeeps(l, input);
    case Finish => FinishKeeps(l);
    case Emit => FinishKeeps(l);
  }

  lemma {:induction false} RegisterKeeps(l: Local, c: CallId)
    requires Control(l) && Lists(l) && At(l, c, PRegister)
    ensures Lists(CallNext(l, c))
  {
  }

  /** No other call but a `finish` touches the lists. */
  lemma {:induction false} CallSame(l: Local, c: CallId)
    requires c in l.calls && !l.calls[c].PRegister? && !l.calls[c].DFinish?
    ensures SameLists(l, CallNext(l, c)) && CallNext(l, c).task == l.task
  {
  }

  lemma {:induction false} CallKeeps(l: Local, c: CallId)
    requires Control(l) && Lists(l) && CallMay(l, c)
    ensures Lists(CallNext(l, c))
  {
    if l.calls[c].DFinish? {
      ForgetKeeps(l, CallNext(l, c));
    } else if l.calls[c].PRegister? {
      RegisterKeeps(l, c);
    } else {
      CallSame(l, c);
      OnwardKeeps(l, CallNext(l, c));
    }
  }

  lemma {:induction false} ReclaimKeeps(l: Local)
    requires Lists(l) && l.seen.Some?
    ensures Lists(ReclaimRows(l))
  {
    if LeftToTask(l) { OnwardKeeps(l, ReclaimRows(l)); } else { ForgetKeeps(l, ReclaimRows(l)); }
  }

  lemma {:induction false} QuietKeeps(l: Local, e: Event)
    requires CanDo(l, e) && Control(l) && Lists(l) && !e.TaskStep? && !e.CallStep? && !e.Reclaim?
    ensures Lists(Step(l, e))
  {
    assert SameLists(l, Step(l, e)) && (Step(l, e).task == l.task || e.Drop?);
    OnwardKeeps(l, Step(l, e));
  }

  /** Every step of one prompt keeps `Lists`. */
  lemma {:induction false} StepKeeps(l: Local, e: Event)
    requires LocalInv(l) && CanDo(l, e)
    ensures Lists(Step(l, e))
  {
    match e
    case TaskStep(input) => TaskKeeps(l, input);
    case CallStep(c) => CallKeeps(l, c);
    case Reclaim => ReclaimKeeps(l);
    case _ => QuietKeeps(l, e);
  }
}
