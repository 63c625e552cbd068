/**
 One prompt object and everything that may act on it, as a machine with one step per
 lock-guarded block and one per atomic operation (sequentially consistent atomics).

 `Local` is one prompt: its row of the four state tables (`prompt_owners`, `prompt_tasks`,
 `prompt_commits`, `prompt_unlocked`), its two atomics, the method calls in flight on it, its
 spawned task, and history variables that no guard reads.  `CanDo` and `Step` are the moves.
 What a step learns from the rest of the daemon (which vault is loaded under an id, whether it
 is locked, what the dialog answered) is its `Input`; `PromptSystem` ties inputs to the shared
 state.
 */
module PromptModel {
  import opened Options

  type Path = nat      // a prompt object path; the daemon numbers them
  type Client = string // a unique bus name
  type Id = string     // a collection id
  type Ref = nat       // the identity of one vault object (`Arc::ptr_eq`)
  type CallId = nat    // one D-Bus method call in flight

  datatype Kind = Unlock(ids: seq<Id>) | Create(name: string) | Delete(id: Id)

  /** One path's entries in the four tables behind the state mutex. */
  datatype Row = Row(owner: Option<Client>, handle: bool, gate: bool, record: Option<seq<Id>>)

  const EMPTY_ROW := Row(None, false, false, None)

  function RecordIds(record: Option<seq<Id>>): seq<Id> {
    match record
    case None => []
    case Some(ids) => ids
  }

  datatype Export = Exporting | Exported | ExportFailed | Withdrawn

  /** A `Prompt` (P) or `Dismiss` (D) call, by what it is about to do. */
  datatype Call =
    | PCheck(who: Client) | PTake | PRegister
    | DCheck(who: Client) | DTake | DCancel | DClaim | DAbort(held: bool) | DFinish | DEmit

  /**
   The spawned task, by what it is about to do, in stages cut at the commit gate.  `i` is the
   collection of the request being worked on, `ref` the vault taken for it and `n` the attempt.
   */
  datatype Task =
    | NotStarted
    // `run` for an unlock, and `unlock_collection_inner`
    | Between(i: nat, between: BetweenStep)               // not yet committed to collection i
    | Before(i: nat, before: BeforeStep)                  // the gate is not yet claimed for it
    | After(i: nat, ref: Ref, n: nat, after: AfterStep)   // the task holds the gate
    | Opening(i: nat, ref: Ref, n: nat, opening: OpenStep)  // and a derived key
    | Leaving(leaving: LeaveStep)                         // past the last collection
    // `create_collection` and `delete_collection`
    | Consent(consent: ConsentStep)                       // before the task's claim
    | Work(work: WorkStep)                                // after it
    // `finish`
    | Finish | Emit | Ended | Dropped

  datatype BetweenStep = Top | ReadCancel | OwnerCheck
  datatype BeforeStep = Lookup | Peek(ref: Ref) | WaitSlot(ref: Ref) | Dialog(ref: Ref) | Claim(ref: Ref)
  datatype AfterStep = Recheck | Params | Derive | Redialog
  datatype OpenStep = StillLoaded | Record | Open | Unrecord(retry: bool) | Note
  datatype LeaveStep = FinalCheck | TakeRecord | SelfRelock(todo: seq<(Id, Option<Ref>)>)
  datatype ConsentStep =
    | DelLookup | DelCount(ref: Ref) | PreCancel(ref: Ref) | Ask(ref: Ref) | PostCancel(ref: Ref) | OneClaim(ref: Ref)
  /** A create picks a free name under the state mutex, hands the work to the blocking pool and awaits
      it, up to three times; then it lists the vault. */
  datatype WorkStep =
    | PickName(n: nat) | Spawn(n: nat, id: Id) | Await(n: nat, id: Id) | Insert(id: Id)
    | Unlink(ref: Ref) | Unlist

  datatype Fate = Live | Completed | Reclaimed | FateWithdrawn
  datatype Claimant = ByTask | ByCall(call: CallId)

  /** What happened so far; no guard reads it. */
  datatype History = History(
    fate: Fate,
    claimant: Option<Claimant>,    // who claimed the completion
    signals: nat,                  // `Completed` signals emitted
    openedIds: seq<Id>,            // collections `unlock_with_key` succeeded on, in order
    openedAt: map<Id, nat>,        // and where in the request each of them stood
    foundOpen: set<nat>,           // collections found `AlreadyUnlocked`, by place
    recTaken: bool,                // the record row was taken or forgotten
    left: bool,                    // a reclaim left the re-locking to the task
    sawOwner: bool,                // the task's last owner check found the owner
    taskWon: bool, dismissWon: bool, dismissAborted: bool,
    taker: Option<CallId>,         // the `Dismiss` that took the abort handle
    mutated: bool)                 // a create was handed to the pool, or a delete went for the file

  datatype Local = Local(
    client: Client,
    kind: Kind,
    row: Row,
    exporting: Export,
    action: bool,                  // `Prompt::action` is still `Some`
    committed: bool,
    cancelled: bool,
    calls: map<CallId, Call>,
    task: Task,
    aborted: bool,                 // `abort` was called on the task's handle
    unlockedNow: seq<Id>,          // the task's own list
    seen: Option<bool>,            // the gate as a reclaim under way has loaded it
    hist: History)

  function NewLocal(client: Client, kind: Kind): Local {
    Local(client, kind, Row(Some(client), false, false, None), Exporting, true, false, false, map[],
          NotStarted, false, [], None,
          History(Live, None, 0, [], map[], {}, false, false, false, false, false, false, None, false))
  }

  datatype Slot = Got | SlotBusy | SlotFailed
  datatype Answer = Pin | AnsCancelled | AnsBusy | AnsFailed
  datatype OpenResult = OpenOk | WrongPassword | OpenFailed
  datatype UnlinkResult = WasLocked | Gone | UnlinkFailed
  datatype CreateResult = Created | NameTaken | CreateFailed

  /** Everything the rest of the daemon may tell a task; each step reads its own part. */
  datatype Input = Input(
    ok: bool,                            // the vault is locked / still loaded / the key derived / confirmed
    found: Option<Ref>,                  // the vault loaded under the id, or the one just created
    slot: Slot, answer: Answer, res: OpenResult, unlinked: UnlinkResult,
    vaults: seq<(Id, Option<Ref>)>,      // the vaults behind the task's own list
    newId: Id,                           // the name picked for a new collection
    created: CreateResult)

  datatype Event =
    | Export(exported: bool) | Withdraw
    | Arrive(c: CallId, call: Call) | CallStep(c: CallId)
    | TaskStep(input: Input) | Drop
    | WatchLoad | Reclaim

  /** The task steps that hold the state mutex. */
  predicate TaskUsesState(t: Task) {
    match t
    case Between(_, between) => between.OwnerCheck?
    case Before(_, before) => before.Lookup?
    case After(_, _, _, after) => after.Recheck?
    case Opening(_, _, _, opening) => !opening.Open?
    case Leaving(leaving) => !leaving.SelfRelock?
    case Consent(consent) => consent.DelLookup?
    case Work(work) => work.PickName? || work.Insert? || work.Unlist?
    case Finish => true
    case _ => false
  }

  /** A dialog and a blocking derivation always suspend, and an aborted task never resumes. */
  predicate Suspends(t: Task) {
    (t.Before? && t.before.Dialog?) || (t.After? && (t.after.Derive? || t.after.Redialog?)) ||
    (t.Consent? && t.consent.Ask?) || (t.Work? && t.work.Await?)
  }

  predicate Running(t: Task) {
    !t.NotStarted? && !t.Ended? && !t.Dropped?
  }

  /** While a reclaim is under way for this prompt it holds the state mutex. */
  predicate TaskMay(l: Local) {
    Running(l.task) && (Suspends(l.task) ==> !l.aborted) && (TaskUsesState(l.task) ==> l.seen.None?)
  }

  predicate CallUsesState(call: Call) {
    call.PCheck? || call.PRegister? || call.DCheck? || call.DClaim? || call.DFinish?
  }

  predicate CallMay(l: Local, c: CallId) {
    c in l.calls && (CallUsesState(l.calls[c]) ==> l.seen.None?)
  }

  predicate UsesState(l: Local, e: Event) {
    e.Withdraw? || (e.TaskStep? && TaskUsesState(l.task)) ||
    (e.CallStep? && e.c in l.calls && CallUsesState(l.calls[e.c]))
  }

  predicate At(l: Local, c: CallId, call: Call) {
    c in l.calls && l.calls[c] == call
  }

  predicate CanDo(l: Local, e: Event) {
    match e
    case Export(_) => l.exporting.Exporting?
    case Withdraw => l.exporting.ExportFailed? && l.seen.None?
    case Arrive(c, call) => l.exporting.Exported? && c !in l.calls && (call.PCheck? || call.DCheck?)
    case CallStep(c) => CallMay(l, c)
    case TaskStep(_) => TaskMay(l)
    case Drop => l.aborted && Running(l.task)
    case WatchLoad => l.seen.None? && l.row.owner.Some?
    case Reclaim => l.seen.Some?
  }

  // ---- method calls ----

  /** Where a started task begins, by what it was asked for. */
  function FirstTask(kind: Kind): Task {
    match kind
    case Unlock(_) => Between(0, Top)
    case Create(_) => Consent(PreCancel(0))
    case Delete(_) => Consent(DelLookup)
  }

  /** The body `finish` runs under the state mutex: forget every row, and claim the completion
      exactly when the owner row was still there. */
  function FinishHistory(h: History, owner: Option<Client>, who: Claimant): History {
    h.(recTaken := true,
       fate := if owner.Some? then Completed else h.fate,
       claimant := if owner.Some? then Some(who) else h.claimant)
  }

  /** Where a call goes next; `None` when it returns. */
  function CallAfter(l: Local, call: Call): Option<Call> {
    match call
    case PCheck(who) => if l.row.owner == Some(who) then Some(PTake) else None
    case PTake => if l.action then Some(PRegister) else None
    case PRegister => None
    case DCheck(who) => if l.row.owner == Some(who) then Some(DTake) else None
    case DTake => Some(DCancel)
    case DCancel => Some(DClaim)
    case DClaim => if l.committed then None else Some(DAbort(l.row.handle))
    case DAbort(_) => Some(DFinish)
    case DFinish => if l.row.owner.Some? then Some(DEmit) else None
    case DEmit => None
  }

  function RowAfter(row: Row, call: Call, wins: bool): Row {
    match call
    case PRegister => row.(handle := true, gate := true)
    case DClaim => if wins then row.(handle := false) else row
    case DFinish => EMPTY_ROW
    case _ => row
  }

  function HistoryAfter(l: Local, c: CallId, call: Call): History {
    var h := l.hist;
    var wins := call.DClaim? && !l.committed;
    var claims := call.DFinish? && l.row.owner.Some?;
    h.(dismissWon := h.dismissWon || wins,
       taker := if wins && l.row.handle then Some(c) else h.taker,
       dismissAborted := h.dismissAborted || (call == DAbort(true) && Running(l.task)),
       recTaken := h.recTaken || call.DFinish?,
       fate := if claims then Completed else h.fate,
       claimant := if claims then Some(ByCall(c)) else h.claimant,
       signals := if call.DEmit? then h.signals + 1 else h.signals)
  }

  /** `Prompt` and `Dismiss`: taking the action, registering the task and its gate, recording the
      dismissal, and claiming the gate with the abort handle under one guard. */
  function CallNext(l: Local, c: CallId): Local
    requires c in l.calls
  {
    var call := l.calls[c];
    var next := CallAfter(l, call);
    l.(calls := if next.Some? then l.calls[c := next.value] else l.calls - {c},
       action := l.action && !call.PTake? && !call.DTake?,
       cancelled := l.cancelled || call.DCancel?,
       committed := l.committed || call.DClaim?,
       task := if call.PRegister? then FirstTask(l.kind) else l.task,
       aborted := l.aborted || (call == DAbort(true) && Running(l.task)),
       row := RowAfter(l.row, call, !l.committed),
       hist := HistoryAfter(l, c, call))
  }

  // ---- the reclaim of a departed client's prompt ----

  /** `reclaim_prompt` leaves a committed task alone: it re-locks what it opened for itself. */
  predicate LeftToTask(l: Local) {
    l.row.handle && l.seen.Some? && l.seen.value
  }

  /** What `reclaim_prompt` leaves in the four tables. */
  function ReclaimedRow(row: Row, left: bool): Row {
    Row(None, false, false, if left then row.record else None)
  }

  /** `reclaim_prompt`, given the gate it loaded: a task not left alone is aborted, if there is a
      handle to abort it by, and the record is taken either way. */
  function ReclaimRows(l: Local): Local
    requires l.seen.Some?
  {
    l.(seen := None,
       row := ReclaimedRow(l.row, LeftToTask(l)),
       aborted := l.aborted || (l.row.handle && !LeftToTask(l)),
       hist := l.hist.(fate := Reclaimed, left := LeftToTask(l), recTaken := l.hist.recTaken || !LeftToTask(l)))
  }

  /** The ids `reclaim_prompt` hands to its caller for re-locking. */
  function Taken(l: Local): seq<Id>
    requires l.seen.Some?
  {
    if LeftToTask(l) then [] else RecordIds(l.row.record)
  }

  // ---- the task ----

  /** `rposition` and `remove`: drop the last occurrence of `id`. */
  function RemoveLast(ids: seq<Id>, id: Id): seq<Id> {
    if ids == [] then []
    else if ids[|ids| - 1] == id then ids[..|ids| - 1]
    else RemoveLast(ids[..|ids| - 1], id) + [ids[|ids| - 1]]
  }

  function UnrecordRow(row: Row, id: Id): Row {
    match row.record
    case None => row
    case Some(ids) =>
      var rest := RemoveLast(ids, id);
      row.(record := if rest == [] then None else Some(rest))
  }

  function BetweenNext(l: Local): Local
    requires l.kind.Unlock? && l.task.Between?
  {
    var i := l.task.i;
    var more := i < |l.kind.ids|;
    l.(committed := l.committed && !(l.task.between.Top? && more),
       task := match l.task.between
               case Top => if more then Between(i, ReadCancel) else Leaving(FinalCheck)
               case ReadCancel => if l.cancelled then Leaving(FinalCheck) else Between(i, OwnerCheck)
               case OwnerCheck => if l.row.owner.None? then Leaving(FinalCheck) else Before(i, Lookup))
  }

  function BeforeNext(l: Local, input: Input): Local
    requires l.task.Before?
  {
    var i, before := l.task.i, l.task.before;
    l.(committed := l.committed || before.Claim?,
       hist := l.hist.(foundOpen := if before.Peek? && !input.ok then l.hist.foundOpen + {i} else l.hist.foundOpen,
                       taskWon := l.hist.taskWon || (before.Claim? && !l.committed)),
       task := match before
               case Lookup => if input.found.None? then Between(i + 1, Top) else Before(i, Peek(input.found.value))
               case Peek(ref) => if input.ok then Before(i, WaitSlot(ref)) else Between(i + 1, Top)
               case WaitSlot(ref) =>
                 if input.slot.Got? then Before(i, Dialog(ref))
                 else if input.slot.SlotBusy? then Leaving(FinalCheck) else Between(i + 1, Top)
               case Dialog(ref) =>
                 if input.answer.Pin? then Before(i, Claim(ref))
                 else if input.answer.AnsFailed? then Between(i + 1, Top) else Leaving(FinalCheck)
               case Claim(ref) => if l.committed then Leaving(FinalCheck) else After(i, ref, 0, Recheck))
  }

  function AfterNext(l: Local, input: Input): Local
    requires l.task.After?
  {
    var i, ref, n := l.task.i, l.task.ref, l.task.n;
    l.(task :=
         match l.task.after
         case Recheck => if input.ok then After(i, ref, n, Params) else Between(i + 1, Top)
         case Params => After(i, ref, n, Derive)
         case Derive => if input.ok then Opening(i, ref, n, StillLoaded) else Between(i + 1, Top)
         case Redialog =>
           if input.answer.Pin? then After(i, ref, n, Recheck)
           else if input.answer.AnsFailed? then Between(i + 1, Top) else Leaving(FinalCheck))
  }

  function OpeningNext(l: Local, input: Input): Local
    requires l.task.Opening? && l.kind.Unlock? && l.task.i < |l.kind.ids|
  {
    var i, ref, n, opening := l.task.i, l.task.ref, l.task.n, l.task.opening;
    var id := l.kind.ids[i];
    l.(row := if opening.Record? then l.row.(record := Some(RecordIds(l.row.record) + [id]))
              else if opening.Unrecord? then UnrecordRow(l.row, id) else l.row,
       unlockedNow := if opening.Note? then l.unlockedNow + [id] else l.unlockedNow,
       hist := if opening.Open? && input.res.OpenOk?
               then l.hist.(openedIds := l.hist.openedIds + [id], openedAt := l.hist.openedAt[id := i]) else l.hist,
       task := match opening
               case StillLoaded => if input.ok then Opening(i, ref, n, Record) else Between(i + 1, Top)
               case Record => Opening(i, ref, n, Open)
               case Open => Opening(i, ref, n, if input.res.OpenOk? then Note else Unrecord(input.res.WrongPassword?))
               case Unrecord(retry) => if retry && n + 1 < 3 then After(i, ref, n + 1, Redialog) else Between(i + 1, Top)
               case Note => Between(i + 1, Top))
  }

  function LeavingNext(l: Local, input: Input): Local
    requires l.task.Leaving?
  {
    var leaving := l.task.leaving;
    l.(row := if leaving.TakeRecord? then l.row.(record := None) else l.row,
       hist := l.hist.(sawOwner := l.hist.sawOwner || (leaving.FinalCheck? && l.row.owner.Some?),
                       recTaken := l.hist.recTaken || leaving.TakeRecord?),
       task := match leaving
               case FinalCheck => if l.row.owner.None? then Leaving(TakeRecord) else Finish
               case TakeRecord => Leaving(SelfRelock(input.vaults))
               case SelfRelock(todo) => if todo == [] then Finish else Leaving(SelfRelock(todo[1..])))
  }

  function ConsentNext(l: Local, input: Input): Local
    requires l.task.Consent?
  {
    var consent := l.task.consent;
    var wins := consent.OneClaim? && !l.committed;
    l.(committed := l.committed || wins,
       hist := l.hist.(taskWon := l.hist.taskWon || wins),
       task := match consent
               case DelLookup => if input.found.None? then Finish else Consent(DelCount(input.found.value))
               case DelCount(ref) => Consent(PreCancel(ref))
               case PreCancel(ref) => if l.cancelled then Finish else Consent(Ask(ref))
               case Ask(ref) => if input.ok then Consent(PostCancel(ref)) else Finish
               case PostCancel(ref) => if l.cancelled then Finish else Consent(OneClaim(ref))
               case OneClaim(ref) =>
                 if l.committed then Finish else Work(if l.kind.Create? then PickName(0) else Unlink(ref)))
  }

  function WorkNext(l: Local, input: Input): Local
    requires l.task.Work?
  {
    var work := l.task.work;
    l.(hist := l.hist.(mutated := l.hist.mutated || work.Spawn? || (work.Unlink? && !input.unlinked.WasLocked?)),
       task := match work
               case PickName(n) => Work(Spawn(n, input.newId))
               case Spawn(n, id) => Work(Await(n, id))
               case Await(n, id) =>
                 if input.created.Created? then Work(Insert(id))
                 else if input.created.NameTaken? && n + 1 < 3 then Work(PickName(n + 1)) else Finish
               case Insert(_) => Finish
               case Unlink(_) => if input.unlinked.Gone? then Work(Unlist) else Finish
               case Unlist => Finish)
  }

  function FinishNext(l: Local): Local {
    l.(row := EMPTY_ROW, hist := FinishHistory(l.hist, l.row.owner, ByTask),
       task := if l.row.owner.Some? then Emit else Ended)
  }

  function EmitNext(l: Local): Local {
    l.(task := Ended, hist := l.hist.(signals := l.hist.signals + 1))
  }

  function TaskNext(l: Local, input: Input): Local {
    match l.task
    case Between(_, _) => if l.kind.Unlock? then BetweenNext(l) else l
    case Before(_, _) => BeforeNext(l, input)
    case After(_, _, _, _) => AfterNext(l, input)
    case Opening(i, _, _, _) => if l.kind.Unlock? && i < |l.kind.ids| then OpeningNext(l, input) else l
    case Leaving(_) => LeavingNext(l, input)
    case Consent(_) => ConsentNext(l, input)
    case Work(_) => WorkNext(l, input)
    case Finish => FinishNext(l)
    case Emit => EmitNext(l)
    case _ => l
  }

  function Step(l: Local, e: Event): Local
    requires CanDo(l, e)
  {
    match e
    case Export(exported) => l.(exporting := if exported then Exported else ExportFailed)
    case Withdraw =>
      l.(exporting := Withdrawn, row := l.row.(owner := None),
         hist := if l.row.owner.Some? then l.hist.(fate := FateWithdrawn) else l.hist)
    case Arrive(c, call) => l.(calls := l.calls[c := call])
    case CallStep(c) => CallNext(l, c)
    case TaskStep(input) => TaskNext(l, input)
    case Drop => l.(task := Dropped)
    case WatchLoad => l.(seen := Some(l.row.gate && l.committed))
    case Reclaim => ReclaimRows(l)
  }
}
