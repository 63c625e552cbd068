/**
 What every step of one prompt keeps, whatever order the calls, the task and a reclaim run in.
 Each part takes exactly the fields it speaks about.
 */
module PromptInvariant {
  import opened Options
  import opened PromptModel

  // ---- where the task is ----

  /** Past the loop over the collections. */
  predicate AtEnd(t: Task) {
    t.Leaving? || t.Finish? || t.Emit? || t.Ended? || t.Dropped?
  }

  predicate HasIndex(t: Task) {
    t.Between? || t.Before? || t.After? || t.Opening?
  }

  predicate InNote(t: Task) {
    t.Opening? && t.opening.Note?
  }

  // ---- the record against what was opened ----

  /** The one id the record may hold beyond what was opened: the attempt in progress. */
  function Extra(k: Kind, t: Task): seq<Id> {
    if k.Unlock? && t.Opening? && (t.opening.Open? || t.opening.Unrecord?) && t.i < |k.ids| then [k.ids[t.i]] else []
  }

  /** What a `Dismiss` that won the gate leaves behind, abort or no abort: the task either reads
      `cancelled` before its next collection or fails its claim in the current one. */
  predicate Vetoed(t: Task, committed: bool, cancelled: bool) {
    cancelled &&
    (AtEnd(t) || t.NotStarted? || (t.Between? && !t.between.OwnerCheck?) || (committed && (t.Between? || t.Before?)))
  }

  /** The task can never again reach a record or an open. */
  predicate NoMoreOpening(t: Task, committed: bool, cancelled: bool, aborted: bool, owner: Option<Client>) {
    AtEnd(t) || Vetoed(t, committed, cancelled) || (aborted && !t.NotStarted? && !t.Opening?) ||
    (owner.None? && (t.NotStarted? || t.Between?))
  }

  // ---- the parts of the invariant ----

  predicate Distinct(ids: seq<Id>) {
    forall i, j :: 0 <= i < j < |ids| ==> ids[i] != ids[j]
  }

  predicate KindInv(k: Kind, t: Task) {
    && (k.Unlock? ==> Distinct(k.ids) && !t.Consent? && !t.Work?)
    && (!k.Unlock? ==> !HasIndex(t) && !t.Leaving?)
    && (k.Unlock? && HasIndex(t) ==> t.i < |k.ids| || t == Between(|k.ids|, Top))
  }

  /** Exactly one fate, and the owner row is what "still undecided" means. */
  predicate FateInv(client: Client, owner: Option<Client>, fate: Fate, claimant: Option<Claimant>, seen: Option<bool>) {
    && (fate.Live? <==> owner.Some?)
    && (owner.Some? ==> owner.value == client)
    && (claimant.Some? <==> fate.Completed?)
    && (seen.Some? ==> owner.Some?)
  }

  /** Whoever claimed the completion emits it, once. */
  predicate EmitInv(t: Task, calls: map<CallId, Call>, claimant: Option<Claimant>, signals: nat, dismissWon: bool) {
    && signals <= 1
    && (signals == 1 ==> claimant.Some?)
    && (t.Emit? ==> claimant == Some(ByTask) && signals == 0)
    && (forall c :: c in calls && calls[c].DEmit? ==> claimant == Some(ByCall(c)) && signals == 0)
    && (claimant == Some(ByTask) ==> (t.Emit? || t.Ended? || t.Dropped?) && (t.Ended? ==> signals == 1))
    && (claimant.Some? && claimant.value.ByCall? ==>
          dismissWon && (signals == 1 || (claimant.value.call in calls && calls[claimant.value.call].DEmit?)))
  }

  /** `Prompt` runs the action at most once. */
  predicate ActionInv(action: bool, t: Task, calls: map<CallId, Call>) {
    && (action ==> t.NotStarted?)
    && (forall c :: c in calls && calls[c].PRegister? ==> t.NotStarted? && !action)
    && (forall c, d :: c in calls && d in calls && calls[c].PRegister? && calls[d].PRegister? ==> c == d)
  }

  /** Nothing reaches an object that is not exported. */
  predicate ExportInv(exporting: Export, calls: map<CallId, Call>, action: bool, dismissWon: bool, owner: Option<Client>) {
    && (!exporting.Exported? ==> calls == map[] && action && !dismissWon)
    && (exporting.Withdrawn? ==> owner.None?)
  }

  predicate StartInv(t: Task, row: Row, aborted: bool, unlockedNow: seq<Id>, h: History) {
    t.NotStarted? ==>
      !row.handle && !row.gate && row.record.None? && !aborted && unlockedNow == [] &&
      h.openedIds == [] && h.openedAt == map[] && h.foundOpen == {} && !h.taskWon && !h.mutated && !h.sawOwner && !h.left && h.taker.None?
  }

  /** The `Dismiss` that took the abort handle has not finished yet. */
  predicate TakerPending(calls: map<CallId, Call>, taker: Option<CallId>) {
    taker.Some? && taker.value in calls && (calls[taker.value] == DAbort(true) || calls[taker.value].DFinish?)
  }

  /** The abort handle is in the table or with one `Dismiss`, never both. */
  predicate TakerInv(row: Row, calls: map<CallId, Call>, taker: Option<CallId>, aborted: bool, recTaken: bool) {
    && (row.handle ==> row.gate && !aborted && taker.None?)
    && (row.gate && !row.handle ==> TakerPending(calls, taker))
    && (aborted && !recTaken ==> TakerPending(calls, taker))
    && (forall c :: c in calls && calls[c] == DAbort(true) ==> taker == Some(c) && !row.handle)
  }

  predicate AbortInv(row: Row, t: Task, aborted: bool, fate: Fate, recTaken: bool, dismissWon: bool, dismissAborted: bool) {
    && (row.handle ==> Running(t))
    && (Running(t) && !row.handle ==> dismissWon || row.owner.None?)
    && (t.Dropped? ==> aborted)
    && (aborted ==> !t.NotStarted? && !t.Opening? && (dismissWon || fate.Reclaimed?))
    && (dismissAborted ==> dismissWon)
    && (t.Ended? || t.Emit? ==> row == EMPTY_ROW && recTaken)
  }

  /** A reclaim either takes the record or leaves a task that can no longer be aborted. */
  predicate LeftInv(left: bool, row: Row, aborted: bool, taker: Option<CallId>, fate: Fate, recTaken: bool) {
    && (left ==> !aborted && taker.None? && !row.handle && !row.gate && fate.Reclaimed?)
    && (fate.Reclaimed? && !left ==> recTaken)
  }

  /** A `Dismiss` records the dismissal before it tries the gate. */
  predicate DismissInv(calls: map<CallId, Call>, cancelled: bool, dismissWon: bool) {
    && (forall c :: c in calls && calls[c].DClaim? ==> cancelled)
    && (forall c :: c in calls && (calls[c].DAbort? || calls[c].DFinish? || calls[c].DEmit?) ==> dismissWon)
    && (dismissWon ==> cancelled)
  }

  /** The commit gate: resettable for an unlock, one-shot for a create or a delete. */
  predicate GateInv(k: Kind, t: Task, committed: bool, cancelled: bool, taskWon: bool, dismissWon: bool, mutated: bool) {
    && (k.Unlock? && dismissWon ==> Vetoed(t, committed, cancelled))
    && (k.Unlock? && (t.After? || t.Opening?) ==> committed)
    && (k.Unlock? ==> !mutated)
    && (!k.Unlock? ==>
          && (committed <==> taskWon || dismissWon)
          && !(taskWon && dismissWon)
          && (t.Work? || mutated ==> taskWon))
  }

  /** A reclaim that loaded the gate as open pins the task before its derivation: everything
      between needs the mutex the reclaim is holding. */
  predicate SeenInv(seen: Option<bool>, handle: bool, k: Kind, t: Task) {
    seen.Some? && !seen.value && handle && k.Unlock? ==> !t.Opening? && (t.After? ==> t.after.Recheck?)
  }

  predicate RecordInv(k: Kind, record: Option<seq<Id>>, t: Task, openedIds: seq<Id>, recTaken: bool) {
    && (record.Some? ==> record.value != [])
    && (recTaken ==> record.None?)
    && (!recTaken ==> RecordIds(record) == openedIds + Extra(k, t))
    && (!k.Unlock? ==> openedIds == [] && record.None?)
  }

  predicate TakenInv(k: Kind, t: Task, committed: bool, cancelled: bool, aborted: bool, owner: Option<Client>, recTaken: bool) {
    recTaken ==> owner.None? && (k.Unlock? ==> NoMoreOpening(t, committed, cancelled, aborted, owner))
  }

  /** The task's own list. */
  predicate ListInv(k: Kind, t: Task, unlockedNow: seq<Id>, openedIds: seq<Id>) {
    k.Unlock? ==> unlockedNow + (if InNote(t) && t.i < |k.ids| then [k.ids[t.i]] else []) == openedIds
  }

  /** The task's owner checks. */
  predicate CheckInv(k: Kind, t: Task, owner: Option<Client>, sawOwner: bool) {
    && (t.Leaving? && !t.leaving.FinalCheck? ==> owner.None?)
    && (k.Unlock? && t.Finish? ==> sawOwner || owner.None?)
    && (sawOwner ==> t.Finish? || t.Emit? || t.Ended? || t.Dropped?)
  }

  /** The task is done with collection `x`. */
  predicate Handled(k: Kind, t: Task, x: nat) {
    k.Unlock? && x < |k.ids| && (HasIndex(t) ==> x < t.i || (InNote(t) && x == t.i))
  }

  /** No collection is both opened and found open. */
  predicate OpenedInv(k: Kind, t: Task, openedIds: seq<Id>, openedAt: map<Id, nat>, foundOpen: set<nat>) {
    && (forall id :: id in openedIds ==> id in openedAt)
    && (forall id :: id in openedAt ==>
          Handled(k, t, openedAt[id]) && k.ids[openedAt[id]] == id && openedAt[id] !in foundOpen)
    && (forall x :: x in foundOpen ==> Handled(k, t, x) && (InNote(t) ==> x < t.i))
  }

  /** Who may do what: everything but the lists of ids. */
  predicate Control(l: Local) {
    var h := l.hist;
    && KindInv(l.kind, l.task)
    && FateInv(l.client, l.row.owner, h.fate, h.claimant, l.seen)
    && EmitInv(l.task, l.calls, h.claimant, h.signals, h.dismissWon)
    && ActionInv(l.action, l.task, l.calls)
    && ExportInv(l.exporting, l.calls, l.action, h.dismissWon, l.row.owner)
    && StartInv(l.task, l.row, l.aborted, l.unlockedNow, h)
    && TakerInv(l.row, l.calls, h.taker, l.aborted, h.recTaken)
    && AbortInv(l.row, l.task, l.aborted, h.fate, h.recTaken, h.dismissWon, h.dismissAborted)
    && LeftInv(h.left, l.row, l.aborted, h.taker, h.fate, h.recTaken)
    && DismissInv(l.calls, l.cancelled, h.dismissWon)
    && GateInv(l.kind, l.task, l.committed, l.cancelled, h.taskWon, h.dismissWon, h.mutated)
    && SeenInv(l.seen, l.row.handle, l.kind, l.task)
    && TakenInv(l.kind, l.task, l.committed, l.cancelled, l.aborted, l.row.owner, h.recTaken)
    && CheckInv(l.kind, l.task, l.row.owner, h.sawOwner)
  }

  /** The record row, the task's own list and the history agree. */
  predicate Lists(l: Local) {
    var h := l.hist;
    && RecordInv(l.kind, l.row.record, l.task, h.openedIds, h.recTaken)
    && ListInv(l.kind, l.task, l.unlockedNow, h.openedIds)
    && OpenedInv(l.kind, l.task, h.openedIds, h.openedAt, h.foundOpen)
  }

  predicate LocalInv(l: Local) {
    Control(l) && Lists(l)
  }
}
