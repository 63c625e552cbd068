/**
 Two bounded resources: the slots of `run_bounded`, whose permits move into blocking closures that
 outlive a cancelled caller, and the permits of the control socket's accept loop.
 */
module Slots {

  // ---- key derivations ----

  const MAX_CONCURRENT := 2

  /** A call of `run_bounded` waits for a slot, holds one until its closure is spawned, and awaits the
      closure.  A closure owns its permit from being queued until it ends, whoever still awaits it. */
  datatype Pool = Pool(free: nat, waiting: set<nat>, holding: set<nat>, awaiting: set<nat>, queued: set<nat>, running: set<nat>)

  datatype Move = Call(id: nat) | Acquire(id: nat) | Spawn(id: nat) | Begin(id: nat) | End(id: nat) | Return(id: nat) | Cancel(id: nat)

  predicate Can(p: Pool, m: Move) {
    match m
    case Call(id) => id !in p.waiting + p.holding + p.awaiting + p.queued + p.running
    case Acquire(id) => id in p.waiting && p.free > 0
    case Spawn(id) => id in p.holding
    case Begin(id) => id in p.queued
    case End(id) => id in p.running
    case Return(id) => id in p.awaiting && id !in p.queued && id !in p.running
    case Cancel(id) => id in p.waiting + p.holding + p.awaiting
  }

  function Next(p: Pool, m: Move): Pool
    requires Can(p, m)
  {
    match m
    case Call(id) => p.(waiting := p.waiting + {id})
    case Acquire(id) => p.(free := p.free - 1, waiting := p.waiting - {id}, holding := p.holding + {id})
    case Spawn(id) => p.(holding := p.holding - {id}, awaiting := p.awaiting + {id}, queued := p.queued + {id})
    case Begin(id) => p.(queued := p.queued - {id}, running := p.running + {id})
    case End(id) => p.(free := p.free + 1, running := p.running - {id})
    case Return(id) => p.(awaiting := p.awaiting - {id})
    case Cancel(id) =>
      p.(free := if id in p.holding then p.free + 1 else p.free,
         waiting := p.waiting - {id}, holding := p.holding - {id}, awaiting := p.awaiting - {id})
  }

  /** No permit is lost or made up, and no call is in two places. */
  predicate Conserved(p: Pool) {
    && p.free + |p.holding| + |p.queued| + |p.running| == MAX_CONCURRENT
    && p.waiting !! p.holding && p.holding !! p.queued && p.holding !! p.running && p.queued !! p.running
    && p.waiting !! p.queued && p.waiting !! p.running
  }

  lemma {:induction false} MoveKeeps(p: Pool, m: Move)
    requires Conserved(p) && Can(p, m)
    ensures Conserved(Next(p, m))
  {
  }

  predicate Runs(p: Pool, ms: seq<Move>)
    decreases |ms|
  {
    ms == [] || (Can(p, ms[0]) && Runs(Next(p, ms[0]), ms[1..]))
  }

  function Final(p: Pool, ms: seq<Move>): Pool
    requires Runs(p, ms)
    decreases |ms|
  {
    if ms == [] then p else Final(Next(p, ms[0]), ms[1..])
  }

  lemma {:induction false} RunKeeps(p: Pool, ms: seq<Move>)
    requires Conserved(p) && Runs(p, ms)
    ensures Conserved(Final(p, ms))
    decreases |ms|
  {
    if ms != [] {
      MoveKeeps(p, ms[0]);
      RunKeeps(Next(p, ms[0]), ms[1..]);
    }
  }

  const IDLE := Pool(MAX_CONCURRENT, {}, {}, {}, {}, {})

  /** In every run, with callers cancelled at any point: the permits add up, never more than two
      derivations are queued or run, and once nothing holds a permit every slot is free again. */
  lemma {:induction false} SlotsConserved(ms: seq<Move>)
    requires Runs(IDLE, ms)
    ensures var p := Final(IDLE, ms);
            && p.free + |p.holding| + |p.queued| + |p.running| == MAX_CONCURRENT
            && |p.running| <= MAX_CONCURRENT
            && (p.holding == {} && p.queued == {} && p.running == {} ==> p.free == MAX_CONCURRENT)
  {
    RunKeeps(IDLE, ms);
  }

  // ---- the accept loop ----

  const MAX_CONNECTIONS := 16
  const ACCEPT_BACKOFF_START := 100   // milliseconds
  const ACCEPT_BACKOFF_MAX := 1000

  function NextAcceptBackoff(current: nat): nat {
    if current == 0 then ACCEPT_BACKOFF_START
    else if current * 2 < ACCEPT_BACKOFF_MAX then current * 2 else ACCEPT_BACKOFF_MAX
  }

  function Pow2(k: nat): nat {
    if k == 0 then 1 else 2 * Pow2(k - 1)
  }

  /** What happens next: `accept` gives an allowed peer, a refused one or an error, or a connection in
      flight ends. */
  datatype Happening = Allowed | Refused | Failed | Ended

  /** The errors since the last successful accept. */
  function Failures(hs: seq<Happening>): nat {
    if hs == [] then 0
    else
      match hs[|hs| - 1]
      case Failed => Failures(hs[..|hs| - 1]) + 1
      case Ended => Failures(hs[..|hs| - 1])
      case _ => 0
  }

  function InFlight(hs: seq<Happening>): int {
    if hs == [] then 0
    else
      InFlight(hs[..|hs| - 1]) +
      match hs[|hs| - 1]
      case Allowed => 1
      case Ended => -1
      case _ => 0
  }

  /** A connection can only end if one is in flight, and `accept` is only reached with a permit. */
  predicate Feasible(hs: seq<Happening>) {
    hs == [] ||
    (Feasible(hs[..|hs| - 1]) &&
     if hs[|hs| - 1].Ended? then InFlight(hs[..|hs| - 1]) > 0 else InFlight(hs[..|hs| - 1]) < MAX_CONNECTIONS)
  }

  function Backoff(failures: nat): nat {
    if failures == 0 then 0 else if failures > 4 then ACCEPT_BACKOFF_MAX else ACCEPT_BACKOFF_START * Pow2(failures - 1)
  }

  class ControlServer {
    var free: nat
    var inFlight: nat
    var backoff: nat

    constructor ()
      ensures free == MAX_CONNECTIONS && inFlight == 0 && backoff == 0
    {
      free, inFlight, backoff := MAX_CONNECTIONS, 0, 0;
    }

    /** One turn of the loop: take a permit, accept, and either give the permit to the connection or
        drop it on the way to the next turn. */
    method Turn(h: Happening)
      requires !h.Ended? && free > 0
      modifies this
      ensures free + inFlight == old(free + inFlight)
      ensures inFlight == old(inFlight) + if h.Allowed? then 1 else 0
      ensures backoff == if h.Failed? then NextAcceptBackoff(old(backoff)) else 0
    {
      free := free - 1;
      if h.Failed? {
        backoff := NextAcceptBackoff(backoff);
        free := free + 1;
        return;
      }
      backoff := 0;
      if h.Refused? {
        free := free + 1;
        return;
      }
      inFlight := inFlight + 1;
    }

    /** Through any history of accepts, errors, refusals and endings: no permit is lost, at most
        sixteen connections are in flight, and the wait after the `k`th error in a row is
        100 ms doubled `k - 1` times, up to a second. */
    method Serve(hs: seq<Happening>)
      requires free == MAX_CONNECTIONS && inFlight == 0 && backoff == 0 && Feasible(hs)
      modifies this
      ensures free + inFlight == MAX_CONNECTIONS && inFlight == InFlight(hs)
      ensures backoff == Backoff(Failures(hs))
    {
      for i := 0 to |hs|
        invariant free + inFlight == MAX_CONNECTIONS && inFlight == InFlight(hs[..i]) && backoff == Backoff(Failures(hs[..i]))
      {
        assert hs[..i + 1][..i] == hs[..i];
        FeasibleFront(hs, i + 1);
        if hs[i].Ended? {
          inFlight, free := inFlight - 1, free + 1;
        } else {
          BackoffDoubles(Failures(hs[..i]));
          Turn(hs[i]);
        }
      }
      assert hs[..|hs|] == hs;
    }
  }

  lemma {:induction false} FeasibleFront(hs: seq<Happening>, k: nat)
    requires Feasible(hs) && k <= |hs|
    ensures Feasible(hs[..k])
  {
    if k < |hs| {
      FeasibleFront(hs[..|hs| - 1], k);
      assert hs[..|hs| - 1][..k] == hs[..k];
    } else {
      assert hs[..k] == hs;
    }
  }

  lemma {:induction false} BackoffDoubles(k: nat)
    ensures Backoff(k + 1) == NextAcceptBackoff(Backoff(k))
  {
    assert Pow2(1) == 2 && Pow2(2) == 4 && Pow2(3) == 8;
  }
}
