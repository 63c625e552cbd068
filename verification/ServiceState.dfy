/**
 The four prompt tables as the daemon keeps them, one map each behind one mutex, and the blocks
 that run under it.  Every block is proved to do to the row of its own prompt what the step
 machine's functions say, and nothing to any other prompt's.
 */
module ServiceState {
  import opened Options
  import opened PromptModel
  import opened PromptSystem

  type Handle = nat  // which spawned task an abort handle is for

  // ---- the tables as a value ----

  /** `commits` maps a prompt to what its gate reads. */
  datatype Rows = Rows(
    owners: map<Path, Client>, tasks: map<Path, Handle>, commits: map<Path, bool>, unlocked: map<Path, seq<Id>>,
    aborted: set<Handle>)

  function RowOf(t: Rows, p: Path): Row {
    Row(if p in t.owners then Some(t.owners[p]) else None, p in t.tasks, p in t.commits,
        if p in t.unlocked then Some(t.unlocked[p]) else None)
  }

  /** A reclaim would leave this prompt's re-locking to its task. */
  predicate Left(t: Rows, p: Path) {
    p in t.tasks && p in t.commits && t.commits[p]
  }

  /** The ids a reclaim of `p` hands to its caller. */
  function Handed(t: Rows, p: Path): seq<Id> {
    if Left(t, p) then [] else RecordIds(RowOf(t, p).record)
  }

  function ReclaimIn(t: Rows, p: Path): Rows {
    Rows(t.owners - {p}, t.tasks - {p}, t.commits - {p}, if Left(t, p) then t.unlocked else t.unlocked - {p},
         if p in t.tasks && !Left(t, p) then t.aborted + {t.tasks[p]} else t.aborted)
  }

  function ReclaimAllIn(t: Rows, ps: seq<Path>): Rows {
    if ps == [] then t else ReclaimIn(ReclaimAllIn(t, ps[..|ps| - 1]), ps[|ps| - 1])
  }

  function RelockAll(t: Rows, loaded: map<Id, Ref>, ps: seq<Path>): RelockList {
    if ps == [] then [] else RelockAll(t, loaded, ps[..|ps| - 1]) + Snapshot(loaded, Handed(t, ps[|ps| - 1]))
  }

  predicate DistinctPaths(ps: seq<Path>) {
    forall i, j :: 0 <= i < j < |ps| ==> ps[i] != ps[j]
  }

  /** On the row of its prompt, `reclaim_prompt` is the machine's reclaim step for the gate it read. */
  lemma {:induction false} ReclaimIsStep(t: Rows, p: Path, l: Local)
    requires l.row == RowOf(t, p) && l.seen == Some(p in t.commits && t.commits[p])
    ensures RowOf(ReclaimIn(t, p), p) == ReclaimRows(l).row && Handed(t, p) == Taken(l)
    ensures p in t.tasks ==> (t.tasks[p] in ReclaimIn(t, p).aborted <==> t.tasks[p] in t.aborted || !LeftToTask(l))
  {
  }

  /** Reclaiming several prompts does to each row what reclaiming that one alone would. */
  lemma {:induction false} ReclaimAllRow(t: Rows, ps: seq<Path>, q: Path)
    requires DistinctPaths(ps)
    ensures RowOf(ReclaimAllIn(t, ps), q) == if q in ps then ReclaimedRow(RowOf(t, q), Left(t, q)) else RowOf(t, q)
    ensures q !in ps ==> Left(ReclaimAllIn(t, ps), q) == Left(t, q)
  {
    if ps != [] {
      ReclaimAllRow(t, ps[..|ps| - 1], q);
      assert q in ps <==> q in ps[..|ps| - 1] || q == ps[|ps| - 1];
    }
  }

  lemma {:induction false} OtherTasks(t: Rows, ps: seq<Path>, q: Path)
    requires q !in ps
    ensures var t' := ReclaimAllIn(t, ps);
            (q in t'.tasks <==> q in t.tasks) && (q in t.tasks ==> t'.tasks[q] == t.tasks[q]) && Left(t', q) == Left(t, q)
  {
    if ps != [] {
      assert q !in ps[..|ps| - 1] && q != ps[|ps| - 1];
      OtherTasks(t, ps[..|ps| - 1], q);
    }
  }

  /** `p` has the task `h`, and a reclaim of it would not leave it alone. */
  predicate Aborts(t: Rows, p: Path, h: Handle) {
    p in t.tasks && t.tasks[p] == h && !(p in t.commits && t.commits[p])
  }

  /** Reclaiming several prompts aborts exactly the tasks that reclaiming each alone would. */
  lemma {:induction false} ReclaimAllAborts(t: Rows, ps: seq<Path>, h: Handle)
    requires DistinctPaths(ps)
    ensures h in ReclaimAllIn(t, ps).aborted <==> h in t.aborted || exists p :: p in ps && Aborts(t, p, h)
  {
    if ps != [] {
      var m := |ps| - 1;
      ReclaimAllAborts(t, ps[..m], h);
      OtherTasks(t, ps[..m], ps[m]);
      assert forall p :: p in ps <==> p in ps[..m] || p == ps[m];
    }
  }

  lemma {:induction false} SnapshotIn(loaded: map<Id, Ref>, ids: seq<Id>, id: Id, v: Option<Ref>)
    ensures (id, v) in Snapshot(loaded, ids) <==> v == Get(loaded, id) && id in ids
  {
    if ids != [] {
      SnapshotIn(loaded, ids[..|ids| - 1], id, v);
      assert ids == ids[..|ids| - 1] + [ids[|ids| - 1]];
    }
  }

  /** The list holds the current vault of exactly the ids the prompts handed over. */
  lemma {:induction false} RelockAllIs(t: Rows, loaded: map<Id, Ref>, ps: seq<Path>, id: Id, v: Option<Ref>)
    ensures (id, v) in RelockAll(t, loaded, ps) <==> v == Get(loaded, id) && exists p :: p in ps && id in Handed(t, p)
  {
    if ps != [] {
      RelockAllIs(t, loaded, ps[..|ps| - 1], id, v);
      SnapshotIn(loaded, Handed(t, ps[|ps| - 1]), id, v);
      assert forall p :: p in ps <==> p in ps[..|ps| - 1] || p == ps[|ps| - 1];
    }
  }

  /** `p` recorded `id`, and has no committed task that will re-lock it itself. */
  predicate HandsOver(t: Rows, p: Path, id: Id) {
    p in t.unlocked && id in t.unlocked[p] && !(p in t.tasks && p in t.commits && t.commits[p])
  }

  // ---- loops ----

  lemma {:induction false} Behind(ids: seq<Id>, j: nat)
    requires j < |ids|
    ensures forall m :: j < m < |ids| ==> ids[m] in ids[j + 1..]
  {
    forall m | j < m < |ids| ensures ids[m] in ids[j + 1..] {
      assert ids[j + 1..][m - j - 1] == ids[m];
    }
  }

  /** `rposition` and `remove`. */
  method WithoutLast(ids: seq<Id>, id: Id) returns (rest: seq<Id>)
    ensures rest == RemoveLast(ids, id)
    ensures id !in ids ==> rest == ids
    ensures forall k :: 0 <= k < |ids| && ids[k] == id && id !in ids[k + 1..] ==> rest == ids[..k] + ids[k + 1..]
  {
    var k := |ids|;
    assert ids[..k] == ids && ids[k..] == [];
    while k > 0 && ids[k - 1] != id
      invariant 0 <= k <= |ids| && id !in ids[k..]
      invariant RemoveLast(ids, id) == RemoveLast(ids[..k], id) + ids[k..]
    {
      assert ids[..k][..k - 1] == ids[..k - 1] && [ids[k - 1]] + ids[k..] == ids[k - 1..];
      k := k - 1;
    }
    if k == 0 {
      assert ids[..0] + ids[0..] == ids;
      return ids;
    }
    assert ids[..k][..k - 1] == ids[..k - 1];
    forall j | 0 <= j < |ids| && ids[j] == id && id !in ids[j + 1..] ensures j == k - 1 {
      Behind(ids, j);
      Behind(ids, k - 1);
    }
    return ids[..k - 1] + ids[k..];
  }

  method Collect(loaded: map<Id, Ref>, ids: seq<Id>, relock: RelockList) returns (more: RelockList)
    ensures more == relock + Snapshot(loaded, ids)
  {
    more := relock;
    for k := 0 to |ids|
      invariant more == relock + Snapshot(loaded, ids[..k])
    {
      assert ids[..k + 1][..k] == ids[..k];
      more := more + [(ids[k], Get(loaded, ids[k]))];
    }
    assert ids[..|ids|] == ids;
  }

  /** The paths of one client, in some order. */
  method PathsOf(owners: map<Path, Client>, client: Client) returns (ps: seq<Path>)
    ensures DistinctPaths(ps) && forall p :: p in ps <==> p in owners && owners[p] == client
  {
    ps := [];
    var todo := set p | p in owners && owners[p] == client;
    while todo != {}
      invariant DistinctPaths(ps) && forall p :: p in ps || p in todo <==> p in owners && owners[p] == client
      invariant forall p :: p in ps ==> p !in todo
      decreases |todo|
    {
      var p :| p in todo;
      ps, todo := ps + [p], todo - {p};
    }
  }

  // ---- the tables ----

  class Gate {
    var committed: bool
    constructor () ensures !committed { committed := false; }

    /** `claim`: the compare-and-swap that only one caller ever wins. */
    method Claim() returns (won: bool)
      modifies this
      ensures committed && won == !old(committed)
    {
      won := !committed;
      committed := true;
    }
  }

  class Tables {
    var owners: map<Path, Client>
    var tasks: map<Path, Handle>
    var commits: map<Path, Gate>
    var unlocked: map<Path, seq<Id>>
    var aborted: set<Handle>
    var loaded: map<Id, Ref>

    constructor (loaded: map<Id, Ref>)
      ensures this.loaded == loaded && View() == Rows(map[], map[], map[], map[], {})
    {
      owners, tasks, commits, unlocked, aborted := map[], map[], map[], map[], {};
      this.loaded := loaded;
    }

    function View(): Rows
      reads this, commits.Values
    {
      Rows(owners, tasks, map p | p in commits :: commits[p].committed, unlocked, aborted)
    }

    twostate predicate OthersSame(p: Path)
      reads this, commits.Values
    {
      loaded == old(loaded) && aborted == old(aborted) && forall q :: q != p ==> RowOf(View(), q) == RowOf(old(View()), q)
    }

    method Publish(p: Path, owner: Client)
      modifies this
      ensures RowOf(View(), p) == RowOf(old(View()), p).(owner := Some(owner)) && OthersSame(p)
    {
      owners := owners[p := owner];
    }

    method Withdraw(p: Path)
      modifies this
      ensures RowOf(View(), p) == RowOf(old(View()), p).(owner := None) && OthersSame(p)
    {
      owners := owners - {p};
    }

    method Register(p: Path, handle: Handle, gate: Gate)
      modifies this
      ensures RowOf(View(), p) == RowAfter(RowOf(old(View()), p), PRegister, false) && OthersSame(p)
      ensures tasks == old(tasks)[p := handle] && commits == old(commits)[p := gate]
    {
      tasks := tasks[p := handle];
      commits := commits[p := gate];
    }

    /** The block of `Dismiss` that claims the gate and takes the abort handle under one guard. */
    method TakeForDismiss(p: Path, gate: Gate) returns (won: bool, handle: Option<Handle>)
      modifies this, gate
      ensures won == !old(gate.committed) && gate.committed
      ensures RowOf(View(), p) == RowAfter(RowOf(old(View()), p), DClaim, won) && OthersSame(p)
      ensures handle == if won && p in old(tasks) then Some(old(tasks)[p]) else None
    {
      won := gate.Claim();
      handle := None;
      if won && p in tasks {
        handle := Some(tasks[p]);
        tasks := tasks - {p};
      }
    }

    method Finish(p: Path) returns (alreadyDone: bool)
      modifies this
      ensures RowOf(View(), p) == EMPTY_ROW && OthersSame(p)
      ensures alreadyDone <==> RowOf(old(View()), p).owner.None?
    {
      tasks := tasks - {p};
      commits := commits - {p};
      unlocked := unlocked - {p};
      alreadyDone := p !in owners;
      owners := owners - {p};
    }

    method Record(p: Path, id: Id)
      modifies this
      ensures RowOf(View(), p) == RowOf(old(View()), p).(record := Some(RecordIds(RowOf(old(View()), p).record) + [id]))
      ensures OthersSame(p)
    {
      var ids := if p in unlocked then unlocked[p] else [];
      unlocked := unlocked[p := ids + [id]];
    }

    method TakeRecord(p: Path)
      modifies this
      ensures RowOf(View(), p) == RowOf(old(View()), p).(record := None) && OthersSame(p)
    {
      unlocked := unlocked - {p};
    }

    /** Dropping the claim of a failed open: the last entry of that id goes, and an empty list with it. */
    method Unrecord(p: Path, id: Id)
      modifies this
      ensures RowOf(View(), p) == UnrecordRow(RowOf(old(View()), p), id) && OthersSame(p)
    {
      if p in unlocked {
        var ids := WithoutLast(unlocked[p], id);
        unlocked := if ids == [] then unlocked - {p} else unlocked[p := ids];
      }
    }

    /** The three removals `reclaim_prompt` begins with, and the gate as it reads it. */
    method Forget(p: Path) returns (committed: bool, task: Option<Handle>)
      modifies this
      ensures View() == old(View()).(owners := old(owners) - {p}, tasks := old(tasks) - {p}, commits := old(View()).commits - {p})
      ensures loaded == old(loaded) && unlocked == old(unlocked) && aborted == old(aborted)
      ensures committed == (p in old(commits) && old(View()).commits[p])
      ensures task == if p in old(tasks) then Some(old(tasks)[p]) else None
    {
      owners := owners - {p};
      committed := p in commits && commits[p].committed;
      commits := commits - {p};
      task := if p in tasks then Some(tasks[p]) else None;
      tasks := tasks - {p};
    }

    /** `reclaim_prompt` in full: rows, abort, and the vaults handed to the caller. */
    method ReclaimPrompt(p: Path, relock: RelockList) returns (more: RelockList)
      modifies this
      ensures View() == ReclaimIn(old(View()), p) && loaded == old(loaded)
      ensures more == relock + Snapshot(loaded, Handed(old(View()), p))
    {
      var committed, task := Forget(p);
      more := relock;
      if task.Some? {
        if committed {
          return;
        }
        aborted := aborted + {task.value};
      }
      if p in unlocked {
        more := Collect(loaded, unlocked[p], relock);
      }
      unlocked := unlocked - {p};
    }

    method ReclaimAll(ps: seq<Path>) returns (relock: RelockList)
      requires DistinctPaths(ps)
      modifies this
      ensures View() == ReclaimAllIn(old(View()), ps) && loaded == old(loaded)
      ensures relock == RelockAll(old(View()), loaded, ps)
    {
      relock := [];
      ghost var t := View();
      for k := 0 to |ps|
        invariant loaded == old(loaded)
        invariant View() == ReclaimAllIn(t, ps[..k]) && relock == RelockAll(t, loaded, ps[..k])
      {
        assert ps[..k + 1][..k] == ps[..k];
        ReclaimAllRow(t, ps[..k], ps[k]);
        relock := ReclaimPrompt(ps[k], relock);
      }
      assert ps[..|ps|] == ps;
    }

    /** The part of `watch_clients_once` under the state mutex, in whatever order the table yields
        the client's prompts: exactly theirs are reclaimed, and the list holds exactly the vaults
        behind what those prompts recorded and no task will re-lock. */
    method Sweep(client: Client) returns (relock: RelockList)
      modifies this
      ensures loaded == old(loaded)
      ensures forall p :: RowOf(View(), p) ==
                var row := RowOf(old(View()), p);
                if row.owner == Some(client) then ReclaimedRow(row, Left(old(View()), p)) else row
      ensures forall id, v :: (id, v) in relock <==>
                v == Get(loaded, id) && exists p :: p in old(owners) && old(owners)[p] == client && HandsOver(old(View()), p, id)
      ensures forall h :: h in aborted <==>
                h in old(aborted) || exists p :: p in old(owners) && old(owners)[p] == client && Aborts(old(View()), p, h)
    {
      ghost var t := View();
      var ps := PathsOf(owners, client);
      relock := ReclaimAll(ps);
      forall p ensures RowOf(View(), p) == if RowOf(t, p).owner == Some(client) then ReclaimedRow(RowOf(t, p), Left(t, p)) else RowOf(t, p) {
        ReclaimAllRow(t, ps, p);
      }
      forall id, v ensures (id, v) in relock <==> v == Get(loaded, id) && exists p :: p in ps && HandsOver(t, p, id) {
        RelockAllIs(t, loaded, ps, id, v);
        assert forall p :: HandsOver(t, p, id) <==> id in Handed(t, p);
      }
      forall h ensures h in aborted <==> h in t.aborted || exists p :: p in ps && Aborts(t, p, h) {
        ReclaimAllAborts(t, ps, h);
      }
    }
  }
}
