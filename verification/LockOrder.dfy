/**
 Who waits for whom.  Every operation of the daemon is a program of nested guards; the guards it
 nests are in one rank order, with the state mutex, every vault lock and every prompt's action on the
 last rank, so none of those is ever awaited under another.  Any number of operations run at once,
 interleaved in any way, leaving early or being cancelled at any point.
 */
module LockOrder {

  datatype Res = Conn | Reload | Dialog | Kdf | StateLock | VaultLock(ref: nat) | ActionLock(prompt: nat)

  function Rank(r: Res): nat {
    match r
    case Conn => 0
    case Reload => 1
    case Dialog => 2
    case Kdf => 3
    case StateLock => 4
    case VaultLock(_) => 4
    case ActionLock(_) => 4
  }

  function Capacity(r: Res): nat {
    match r
    case Conn => 16
    case Kdf => 2
    case _ => 1
  }

  // ---- programs ----

  datatype Prog = Skip | Then(first: Prog, second: Prog) | May(body: Prog) | Guard(r: Res, body: Prog)

  datatype Op = Acquire(r: Res) | Release(r: Res)

  /** `ops` is a way through the program.  What follows a step may be left out: an early return, or a
      loop that stops. */
  ghost predicate IsPath(p: Prog, ops: seq<Op>)
    decreases p
  {
    match p
    case Skip => ops == []
    case Then(first, second) =>
      exists k :: 0 <= k <= |ops| && IsPath(first, ops[..k]) && (k == |ops| || IsPath(second, ops[k..]))
    case May(body) => ops == [] || IsPath(body, ops)
    case Guard(r, body) =>
      |ops| >= 2 && ops[0] == Acquire(r) && ops[|ops| - 1] == Release(r) && IsPath(body, ops[1..|ops| - 1])
  }

  /** Each guard is of a higher rank than the one it is nested in. */
  predicate Ranked(p: Prog, under: int) {
    match p
    case Skip => true
    case Then(first, second) => Ranked(first, under) && Ranked(second, under)
    case May(body) => Ranked(body, under)
    case Guard(r, body) => under < Rank(r) && Ranked(body, Rank(r))
  }

  // ---- one running operation ----

  /** What it holds, innermost last, and what it has yet to do. */
  datatype Thread = Thread(held: seq<Res>, rest: seq<Op>)

  function Top(held: seq<Res>): int {
    if held == [] then -1 else Rank(held[|held| - 1])
  }

  /** It acquires upwards, releases what it acquired last, and ends holding nothing. */
  predicate Orderly(held: seq<Res>, rest: seq<Op>)
    decreases |rest|
  {
    if rest == [] then held == []
    else
      match rest[0]
      case Acquire(r) => Top(held) < Rank(r) && Orderly(held + [r], rest[1..])
      case Release(r) => held != [] && held[|held| - 1] == r && Orderly(held[..|held| - 1], rest[1..])
  }

  predicate Climbs(held: seq<Res>) {
    forall i, j :: 0 <= i < j < |held| ==> Rank(held[i]) < Rank(held[j])
  }

  predicate ThreadOk(t: Thread) {
    Orderly(t.held, t.rest) && Climbs(t.held)
  }

  lemma {:induction false} AcquireFirst(r: Res, held: seq<Res>, rest: seq<Op>)
    requires Top(held) < Rank(r) && Orderly(held + [r], rest)
    ensures Orderly(held, [Acquire(r)] + rest)
  {
    assert ([Acquire(r)] + rest)[1..] == rest;
  }

  lemma {:induction false} ReleaseFirst(r: Res, held: seq<Res>, rest: seq<Op>)
    requires Orderly(held, rest)
    ensures Orderly(held + [r], [Release(r)] + rest)
  {
    assert ([Release(r)] + rest)[1..] == rest && (held + [r])[..|held|] == held;
  }

  lemma {:induction false} Parts(ops: seq<Op>, k: nat, rest: seq<Op>)
    requires k <= |ops|
    ensures ops[..k] + (ops[k..] + rest) == ops + rest && (k == |ops| ==> ops[k..] + rest == rest)
  {
  }

  lemma {:induction false} Bracket(ops: seq<Op>, r: Res, rest: seq<Op>)
    requires |ops| >= 2 && ops[0] == Acquire(r) && ops[|ops| - 1] == Release(r)
    ensures ops + rest == [Acquire(r)] + (ops[1..|ops| - 1] + ([Release(r)] + rest))
  {
  }

  /** A path of a ranked program, put in front of an orderly rest, is orderly. */
  lemma {:induction false} PathOrderly(p: Prog, ops: seq<Op>, held: seq<Res>, rest: seq<Op>)
    requires IsPath(p, ops) && Ranked(p, Top(held)) && Orderly(held, rest)
    ensures Orderly(held, ops + rest)
    decreases p
  {
    match p
    case Skip => assert ops + rest == rest;
    case Then(first, second) =>
      var k :| 0 <= k <= |ops| && IsPath(first, ops[..k]) && (k == |ops| || IsPath(second, ops[k..]));
      Parts(ops, k, rest);
      if k < |ops| {
        PathOrderly(second, ops[k..], held, rest);
      }
      PathOrderly(first, ops[..k], held, ops[k..] + rest);
    case May(body) =>
      if ops == [] { assert ops + rest == rest; } else { PathOrderly(body, ops, held, rest); }
    case Guard(r, body) =>
      ReleaseFirst(r, held, rest);
      PathOrderly(body, ops[1..|ops| - 1], held + [r], [Release(r)] + rest);
      AcquireFirst(r, held, ops[1..|ops| - 1] + ([Release(r)] + rest));
      Bracket(ops, r, rest);
  }

  // ---- all of them ----

  type Threads = map<nat, Thread>

  function Holders(ts: Threads, r: Res): set<nat> {
    set t | t in ts && r in ts[t].held
  }

  predicate CanStep(ts: Threads, t: nat) {
    t in ts && ts[t].rest != [] &&
    (ts[t].rest[0].Acquire? ==> |Holders(ts, ts[t].rest[0].r)| < Capacity(ts[t].rest[0].r))
  }

  function Stepped(t: Thread): Thread
    requires t.rest != [] && (t.rest[0].Release? ==> t.held != [])
  {
    Thread(if t.rest[0].Acquire? then t.held + [t.rest[0].r] else t.held[..|t.held| - 1], t.rest[1..])
  }

  /** A cancelled operation drops its guards at once, but a derivation it started runs on and keeps
      its slot until it is done. */
  function Cancelled(t: Thread): Thread {
    if Kdf in t.held then Thread([Kdf], [Release(Kdf)]) else Thread([], [])
  }

  datatype Event = Start(id: nat, p: Prog, ops: seq<Op>) | Step(t: nat) | Cancel(t: nat)

  ghost predicate Can(ts: Threads, e: Event) {
    match e
    case Start(id, p, ops) => id !in ts && IsPath(p, ops)
    case Step(t) => CanStep(ts, t) && (ts[t].rest[0].Release? ==> ts[t].held != [])
    case Cancel(t) => t in ts
  }

  function Next(ts: Threads, e: Event): Threads
    requires Can(ts, e)
  {
    match e
    case Start(id, _, ops) => ts[id := Thread([], ops)]
    case Step(t) => ts[t := Stepped(ts[t])]
    case Cancel(t) => ts[t := Cancelled(ts[t])]
  }

  /** Only ranked programs are started. */
  predicate Disciplined(es: seq<Event>) {
    forall i :: 0 <= i < |es| && es[i].Start? ==> Ranked(es[i].p, -1)
  }

  /** Every operation is orderly, and no resource is over its capacity. */
  ghost predicate Inv(ts: Threads) {
    (forall t :: t in ts ==> ThreadOk(ts[t])) && forall r :: |Holders(ts, r)| <= Capacity(r)
  }

  ghost predicate Runs(ts: Threads, es: seq<Event>)
    decreases |es|
  {
    es == [] || (Can(ts, es[0]) && Runs(Next(ts, es[0]), es[1..]))
  }

  ghost function Final(ts: Threads, es: seq<Event>): Threads
    requires Runs(ts, es)
    decreases |es|
  {
    if es == [] then ts else Final(Next(ts, es[0]), es[1..])
  }

  lemma {:induction false} Subset(a: set<nat>, b: set<nat>)
    requires a <= b
    ensures |a| <= |b|
  {
    if a != {} {
      var x :| x in a;
      Subset(a - {x}, b - {x});
    }
  }

  lemma {:induction false} FewerHold(ts: Threads, t: nat, t': Thread, r: Res)
    requires t in ts && (r in t'.held ==> r in ts[t].held)
    ensures |Holders(ts[t := t'], r)| <= |Holders(ts, r)|
  {
    Subset(Holders(ts[t := t'], r), Holders(ts, r));
  }

  lemma {:induction false} StepOk(t: Thread)
    requires ThreadOk(t) && t.rest != []
    ensures t.rest[0].Release? ==> t.held != []
    ensures ThreadOk(Stepped(t))
  {
  }

  lemma {:induction false} OneMoreHolds(ts: Threads, t: nat, r: Res)
    requires CanStep(ts, t) && ts[t].rest[0] == Acquire(r)
    ensures |Holders(ts[t := Stepped(ts[t])], r)| <= Capacity(r)
  {
    assert Holders(ts[t := Stepped(ts[t])], r) == Holders(ts, r) + {t};
  }

  lemma {:induction false} EventKeeps(ts: Threads, e: Event)
    requires Inv(ts) && Can(ts, e) && (e.Start? ==> Ranked(e.p, -1))
    ensures Inv(Next(ts, e))
  {
    match e
    case Start(id, p, ops) =>
      PathOrderly(p, ops, [], []);
      assert ops + [] == ops;
      forall r ensures |Holders(Next(ts, e), r)| <= Capacity(r) { assert Holders(Next(ts, e), r) == Holders(ts, r); }
    case Step(t) =>
      StepOk(ts[t]);
      forall r ensures |Holders(Next(ts, e), r)| <= Capacity(r) {
        if ts[t].rest[0] == Acquire(r) {
          OneMoreHolds(ts, t, r);
        } else {
          FewerHold(ts, t, Stepped(ts[t]), r);
        }
      }
    case Cancel(t) =>
      assert ThreadOk(Cancelled(ts[t])) by { if Kdf in ts[t].held { assert [Release(Kdf)][1..] == [] && [Kdf][..0] == []; } }
      forall r ensures |Holders(Next(ts, e), r)| <= Capacity(r) { FewerHold(ts, t, Cancelled(ts[t]), r); }
  }

  lemma {:induction false} RunKeeps(ts: Threads, es: seq<Event>)
    requires Inv(ts) && Runs(ts, es) && Disciplined(es)
    ensures Inv(Final(ts, es))
    decreases |es|
  {
    if es != [] {
      EventKeeps(ts, es[0]);
      RunKeeps(Next(ts, es[0]), es[1..]);
    }
  }

  // ---- no cyclic wait ----

  /** `t` wants a resource that is used up, and `u` is one of those holding it. */
  predicate WaitsFor(ts: Threads, t: nat, u: nat) {
    t in ts && u in ts && ts[t].rest != [] && ts[t].rest[0].Acquire? && !CanStep(ts, t) && ts[t].rest[0].r in ts[u].held
  }

  /** The rank of what `t` acquires next, or one past the last. */
  function Wanted(ts: Threads, t: nat): nat {
    if t in ts && ts[t].rest != [] && ts[t].rest[0].Acquire? then Rank(ts[t].rest[0].r) else 5
  }

  /** Whoever holds something and waits, waits for something of higher rank. */
  lemma {:induction false} WantsHigher(t: Thread, r: Res)
    requires ThreadOk(t) && r in t.held
    ensures t.rest != [] && (t.rest[0].Acquire? ==> Rank(r) < Rank(t.rest[0].r))
  {
  }

  /** No operation awaits anything while it holds the state mutex, a vault lock or a prompt's action. */
  lemma {:induction false} NeverNested(es: seq<Event>, t: nat, r: Res)
    requires Disciplined(es) && Runs(map[], es) && t in Final(map[], es) && r in Final(map[], es)[t].held && Rank(r) == 4
    ensures var rest := Final(map[], es)[t].rest;
            rest != [] && rest[0].Release?
  {
    StartsInv();
    RunKeeps(map[], es);
    WantsHigher(Final(map[], es)[t], r);
  }

  /** In every state any run reaches, following who waits for whom never comes back. */
  lemma {:induction false} NoCycle(es: seq<Event>, path: seq<nat>)
    requires Disciplined(es) && Runs(map[], es) && |path| >= 2
    requires forall i :: 0 <= i < |path| - 1 ==> WaitsFor(Final(map[], es), path[i], path[i + 1])
    ensures path[0] != path[|path| - 1]
  {
    var ts := Final(map[], es);
    StartsInv();
    RunKeeps(map[], es);
    if path[0] == path[|path| - 1] {
      Climbing(ts, path + [path[1]]);
      assert false;
    }
  }

  lemma {:induction false} StartsInv()
    ensures Inv(map[])
  {
    forall r ensures |Holders(map[], r)| <= Capacity(r) { assert Holders(map[], r) == {}; }
  }

  /** Along a chain of waits the wanted ranks climb. */
  lemma {:induction false} Climbing(ts: Threads, path: seq<nat>)
    requires Inv(ts) && |path| >= 3
    requires forall i :: 0 <= i < |path| - 1 ==> WaitsFor(ts, path[i], path[i + 1])
    ensures Wanted(ts, path[0]) < Wanted(ts, path[|path| - 2])
    decreases |path|
  {
    var n := |path|;
    assert WaitsFor(ts, path[n - 3], path[n - 2]) && WaitsFor(ts, path[n - 2], path[n - 1]) && WaitsFor(ts, path[0], path[1]);
    WantsHigher(ts[path[n - 2]], ts[path[n - 3]].rest[0].r);
    if n > 3 {
      Climbing(ts, path[..n - 1]);
    }
  }

  /** From any unfinished operation, following the waits leads to one that can go on. */
  lemma {:induction false} SomeoneSteps(ts: Threads, t: nat) returns (u: nat)
    requires Inv(ts) && t in ts && ts[t].rest != []
    ensures CanStep(ts, u)
    decreases 5 - Wanted(ts, t)
  {
    if CanStep(ts, t) {
      return t;
    }
    var r := ts[t].rest[0].r;
    assert Holders(ts, r) != {};
    var v :| v in Holders(ts, r);
    WantsHigher(ts[v], r);
    u := SomeoneSteps(ts, v);
  }

  /** Whatever has been started, left early or cancelled so far, as long as anything is unfinished
      something can make its next step. */
  lemma {:induction false} NoDeadlock(es: seq<Event>, t: nat) returns (u: nat)
    requires Disciplined(es) && Runs(map[], es) && t in Final(map[], es) && Final(map[], es)[t].rest != []
    ensures CanStep(Final(map[], es), u)
  {
    StartsInv();
    RunKeeps(map[], es);
    u := SomeoneSteps(Final(map[], es), t);
  }
}
