/**
 Every step of one prompt keeps `Control`: first the task moves that change nothing but the
 task's position, then each step that changes something else, then all of them together.
 */
module PromptControl {
  import opened Options
  import opened PromptModel
  import opened PromptInvariant

  // ---- task steps ----

  /** What a move of the task alone has to respect. */
  predicate MoveOk(l: Local, t: Task) {
    && Running(l.task) && Running(t) && !l.task.Emit? && !t.Emit?
    && KindInv(l.kind, t) && SeenInv(l.seen, l.row.handle, l.kind, t)
    && GateInv(l.kind, t, l.committed, l.cancelled, l.hist.taskWon, l.hist.dismissWon, l.hist.mutated)
    && TakenInv(l.kind, t, l.committed, l.cancelled, l.aborted, l.row.owner, l.hist.recTaken)
    && CheckInv(l.kind, t, l.row.owner, l.hist.sawOwner)
    && (l.aborted ==> !t.Opening?)
  }

  lemma {:induction false} MoveKeeps(l: Local, t: Task)
    requires Control(l) && MoveOk(l, t)
    ensures Control(l.(task := t))
  {
  }

  lemma {:induction false} BetweenMoveOk(l: Local)
    requires Control(l) && l.task.Between? && TaskMay(l) && !(l.task.between.Top? && l.task.i < |l.kind.ids|)
    ensures MoveOk(l, BetweenNext(l).task)
  {
  }

  lemma {:induction false} BetweenKeeps(l: Local)
    requires Control(l) && l.task.Between? && TaskMay(l)
    ensures Control(BetweenNext(l))
  {
    if l.task.between.Top? && l.task.i < |l.kind.ids| {
      ResetKeeps(l);
    } else {
      BetweenMoveOk(l);
      MoveKeeps(l, BetweenNext(l).task);
    }
  }

  /** The gate is reset before `cancelled` is read, so a `Dismiss` that had won it is still seen. */
  lemma {:induction false} ResetKeeps(l: Local)
    requires Control(l) && l.task.Between? && l.task.between.Top? && l.task.i < |l.kind.ids|
    ensures Control(l.(committed := false, task := Between(l.task.i, ReadCancel)))
  {
  }

  lemma {:induction false} BeforeMoveOk(l: Local, input: Input)
    requires Control(l) && l.task.Before? && TaskMay(l) && !l.task.before.Claim?
    ensures MoveOk(l, BeforeNext(l, input).task)
  {
    var t := BeforeNext(l, input).task;
    assert t == Between(l.task.i + 1, Top) || t == Leaving(FinalCheck) || (t.Before? && t.i == l.task.i);
  }

  lemma {:induction false} FoundKeeps(l: Local, foundOpen: set<nat>)
    requires Control(l) && !l.task.NotStarted?
    ensures Control(l.(hist := l.hist.(foundOpen := foundOpen)))
  {
  }

  lemma {:induction false} BeforeMoves(l: Local, input: Input)
    requires Control(l) && l.task.Before? && TaskMay(l) && !l.task.before.Claim?
    ensures Control(BeforeNext(l, input))
  {
    var l' := BeforeNext(l, input);
    BeforeMoveOk(l, input);
    MoveKeeps(l, l'.task);
    FoundKeeps(l.(task := l'.task), l'.hist.foundOpen);
    assert l' == l.(task := l'.task, hist := l.hist.(foundOpen := l'.hist.foundOpen));
  }

  lemma {:induction false} LostKeeps(l: Local, input: Input)
    requires Control(l) && l.task.Before? && l.task.before.Claim? && l.committed
    ensures Control(BeforeNext(l, input))
  {
    MoveKeeps(l, Leaving(FinalCheck));
    assert BeforeNext(l, input) == l.(task := Leaving(FinalCheck));
  }

  lemma {:induction false} BeforeKeeps(l: Local, input: Input)
    requires Control(l) && l.task.Before? && TaskMay(l)
    ensures Control(BeforeNext(l, input))
  {
    if !l.task.before.Claim? {
      BeforeMoves(l, input);
    } else if l.committed {
      LostKeeps(l, input);
    } else {
      ClaimKeeps(l);
    }
  }

  lemma {:induction false} ClaimKeeps(l: Local)
    requires Control(l) && l.task.Before? && l.task.before.Claim? && !l.committed
    ensures Control(l.(committed := true, task := After(l.task.i, l.task.before.ref, 0, Recheck),
                       hist := l.hist.(taskWon := true)))
  {
  }

  lemma {:induction false} AfterKeeps(l: Local, input: Input)
    requires Control(l) && l.task.After? && TaskMay(l)
    ensures Control(AfterNext(l, input))
  {
    MoveKeeps(l, AfterNext(l, input).task);
  }

  lemma {:induction false} OpeningKeeps(l: Local, input: Input)
    requires Control(l) && l.task.Opening? && TaskMay(l)
    ensures Control(OpeningNext(l, input))
  {
    MoveKeeps(l, OpeningNext(l, input).task);
  }

  lemma {:induction false} OnwardKeeps(l: Local, input: Input)
    requires Control(l) && l.task.Leaving? && TaskMay(l) && !l.task.leaving.TakeRecord?
    requires l.task.leaving.FinalCheck? ==> l.row.owner.None?
    ensures Control(LeavingNext(l, input))
  {
    var t := LeavingNext(l, input).task;
    MoveKeeps(l, t);
    assert LeavingNext(l, input) == l.(task := t);
  }

  lemma {:induction false} LeavingKeeps(l: Local, input: Input)
    requires Control(l) && l.task.Leaving? && TaskMay(l)
    ensures Control(LeavingNext(l, input))
  {
    if l.task.leaving.TakeRecord? {
      TakeRecordKeeps(l, input.vaults);
    } else if l.task.leaving.FinalCheck? && l.row.owner.Some? {
      SawOwnerKeeps(l);
    } else {
      OnwardKeeps(l, input);
    }
  }

  lemma {:induction false} TakeRecordKeeps(l: Local, todo: seq<(Id, Option<Ref>)>)
    requires Control(l) && l.task == Leaving(TakeRecord)
    ensures Control(l.(row := l.row.(record := None), task := Leaving(SelfRelock(todo)), hist := l.hist.(recTaken := true)))
  {
  }

  lemma {:induction false} SawOwnerKeeps(l: Local)
    requires Control(l) && l.task.Leaving? && l.task.leaving.FinalCheck?
    ensures Control(l.(task := Finish, hist := l.hist.(sawOwner := true)))
  {
  }

  lemma {:induction false} ConsentMoves(l: Local, input: Input)
    requires Control(l) && l.task.Consent? && TaskMay(l) && !(l.task.consent.OneClaim? && !l.committed)
    ensures Control(ConsentNext(l, input))
  {
    var t := ConsentNext(l, input).task;
    assert t.Finish? || t.Consent?;
    MoveKeeps(l, t);
    assert ConsentNext(l, input) == l.(task := t);
  }

  lemma {:induction false} ConsentKeeps(l: Local, input: Input)
    requires Control(l) && l.task.Consent? && TaskMay(l)
    ensures Control(ConsentNext(l, input))
  {
    if l.task.consent.OneClaim? && !l.committed {
      OneClaimKeeps(l, ConsentNext(l, input).task);
    } else {
      ConsentMoves(l, input);
    }
  }

  lemma {:induction false} OneClaimKeeps(l: Local, t: Task)
    requires Control(l) && l.task.Consent? && !l.committed && t.Work?
    ensures Control(l.(committed := true, task := t,
                       hist := l.hist.(taskWon := true)))
  {
  }

  lemma {:induction false} WorkKeeps(l: Local, input: Input)
    requires Control(l) && l.task.Work? && TaskMay(l)
    ensures Control(WorkNext(l, input))
  {
    MoveKeeps(l, WorkNext(l, input).task);
  }

  lemma {:induction false} FinishKeeps(l: Local)
    requires Control(l) && l.task.Finish? && TaskMay(l)
    ensures Control(FinishNext(l))
  {
  }

  lemma {:induction false} EmitKeeps(l: Local)
    requires Control(l) && l.task.Emit?
    ensures Control(EmitNext(l))
  {
  }

  lemma {:induction false} DropKeeps(l: Local)
    requires Control(l) && l.aborted && Running(l.task)
    ensures Control(l.(task := Dropped))
  {
  }

  lemma {:induction false} TaskKeeps(l: Local, input: Input)
    requires Control(l) && TaskMay(l)
    ensures Control(TaskNext(l, input))
  {
    match l.task
    case Between(_, _) => BetweenKeeps(l);
    case Before(_, _) => BeforeKeeps(l, input);
    case After(_, _, _, _) => AfterKeeps(l, input);
    case Opening(_, _, _, _) => OpeningKeeps(l, input);
    case Leaving(_) => LeavingKeeps(l, input);
    case Consent(_) => ConsentKeeps(l, input);
    case Work(_) => WorkKeeps(l, input);
    case Finish => FinishKeeps(l);
    case Emit => EmitKeeps(l);
    case _ =>
  }

  // ---- method calls ----

  lemma {:induction false} ArriveKeeps(l: Local, c: CallId, call: Call)
    requires Control(l) && CanDo(l, Arrive(c, call))
    ensures Control(l.(calls := l.calls[c := call]))
  {
  }

  lemma {:induction false} CheckKeeps(l: Local, c: CallId)
    requires Control(l) && c in l.calls && (l.calls[c].PCheck? || l.calls[c].DCheck?)
    ensures Control(CallNext(l, c))
  {
  }

  lemma {:induction false} TakeKeeps(l: Local, c: CallId)
    requires Control(l) && c in l.calls && (l.calls[c].PTake? || l.calls[c].DTake?)
    ensures Control(CallNext(l, c))
  {
  }

  lemma {:induction false} RegisterKeeps(l: Local, c: CallId)
    requires Control(l) && At(l, c, PRegister) && l.seen.None?
    ensures Control(CallNext(l, c))
  {
  }

  lemma {:induction false} CancelKeeps(l: Local, c: CallId)
    requires Control(l) && At(l, c, DCancel)
    ensures Control(CallNext(l, c))
  {
  }

  /** A `Dismiss` that wins finds the task short of its own claim, and leaves it vetoed. */
  lemma {:induction false} DismissClaimsKeeps(l: Local, c: CallId)
    requires Control(l) && At(l, c, DClaim) && l.seen.None? && !l.committed
    ensures Control(CallNext(l, c))
  {
  }

  lemma {:induction false} DismissLosesKeeps(l: Local, c: CallId)
    requires Control(l) && At(l, c, DClaim) && l.committed
    ensures Control(CallNext(l, c))
  {
  }

  lemma {:induction false} DismissAbortsKeeps(l: Local, c: CallId)
    requires Control(l) && c in l.calls && l.calls[c].DAbort?
    ensures Control(CallNext(l, c))
  {
  }

  lemma {:induction false} CallFinishKeeps(l: Local, c: CallId)
    requires Control(l) && At(l, c, DFinish) && l.seen.None?
    ensures Control(CallNext(l, c))
  {
  }

  lemma {:induction false} CallEmitKeeps(l: Local, c: CallId)
    requires Control(l) && At(l, c, DEmit)
    ensures Control(CallNext(l, c))
  {
  }

  lemma {:induction false} CallKeeps(l: Local, c: CallId)
    requires Control(l) && CallMay(l, c)
    ensures Control(CallNext(l, c))
  {
    match l.calls[c]
    case PCheck(_) => CheckKeeps(l, c);
    case PTake => TakeKeeps(l, c);
    case PRegister => RegisterKeeps(l, c);
    case DCheck(_) => CheckKeeps(l, c);
    case DTake => TakeKeeps(l, c);
    case DCancel => CancelKeeps(l, c);
    case DClaim => if l.committed { DismissLosesKeeps(l, c); } else { DismissClaimsKeeps(l, c); }
    case DAbort(_) => DismissAbortsKeeps(l, c);
    case DFinish => CallFinishKeeps(l, c);
    case DEmit => CallEmitKeeps(l, c);
  }

  // ---- the reclaim ----

  lemma {:induction false} WatchLoadKeeps(l: Local)
    requires Control(l) && l.seen.None? && l.row.owner.Some?
    ensures Control(l.(seen := Some(l.row.gate && l.committed)))
  {
  }

  lemma {:induction false} ReclaimKeeps(l: Local)
    requires Control(l) && l.seen.Some?
    ensures Control(ReclaimRows(l))
  {
  }

  /** Every step of one prompt keeps `Control`. */
  lemma {:induction false} StepKeeps(l: Local, e: Event)
    requires Control(l) && CanDo(l, e)
    ensures Control(Step(l, e))
  {
    match e
    case Export(_) =>
    case Withdraw =>
    case Arrive(c, call) => ArriveKeeps(l, c, call);
    case CallStep(c) => CallKeeps(l, c);
    case TaskStep(input) => TaskKeeps(l, input);
    case Drop => DropKeeps(l);
    case WatchLoad => WatchLoadKeeps(l);
    case Reclaim => ReclaimKeeps(l);
  }
}
