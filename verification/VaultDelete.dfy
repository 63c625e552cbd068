/**
 A confirmed delete against everyone still holding a reference to the vault: writers, locks,
 unlocks, key rotations and further deletes, each taking its turn on the vault's own lock, in any order.
 */
module VaultDelete {
  import opened VaultStore

  /** Right after a delete that unlinked the file. */
  const DELETED := Disk(false, true, false)

  function Run(d: Disk, ops: seq<Op>): Disk {
    if ops == [] then d else Do(Run(d, ops[..|ops| - 1]), ops[|ops| - 1])
  }

  /** The file is absent after every turn. */
  predicate StaysGone(ops: seq<Op>) {
    forall k :: 0 <= k <= |ops| ==> !Run(DELETED, ops[..k]).file
  }

  predicate HasDelete(ops: multiset<Op>) {
    Delete(true) in ops || Delete(false) in ops
  }

  /** Another delete, whose unlink finds no file and so un-retires the vault, and something that
      saves once it is un-retired. */
  predicate Revivable(ops: multiset<Op>) {
    HasDelete(ops) && (Write(true) in ops || Rotate(true) in ops || (LockIt in ops && Open(true) in ops))
  }

  lemma {:induction false} Inside(ops: seq<Op>, k: nat)
    requires 0 < k <= |ops|
    ensures ops[k - 1] in multiset(ops)
  {
    assert ops[k - 1] in ops;
  }

  /** With no further delete the vault stays retired, so nothing ever writes the file again. */
  lemma {:induction false} RetiredStaysGone(ops: seq<Op>, k: nat)
    requires !HasDelete(multiset(ops)) && k <= |ops|
    ensures Run(DELETED, ops[..k]).retired && !Run(DELETED, ops[..k]).file
  {
    if k > 0 {
      RetiredStaysGone(ops, k - 1);
      Inside(ops, k);
      assert ops[..k][..k - 1] == ops[..k - 1];
    }
  }

  /** Without a saver the file stays gone even if the vault is un-retired. */
  lemma {:induction false} UnwrittenStaysGone(ops: seq<Op>, k: nat)
    requires Write(true) !in multiset(ops) && Rotate(true) !in multiset(ops) && (LockIt !in multiset(ops) || Open(true) !in multiset(ops)) && k <= |ops|
    ensures !Run(DELETED, ops[..k]).file && (LockIt !in multiset(ops) ==> !Run(DELETED, ops[..k]).locked)
  {
    if k > 0 {
      UnwrittenStaysGone(ops, k - 1);
      Inside(ops, k);
      assert ops[..k][..k - 1] == ops[..k - 1];
    }
  }

  lemma {:induction false} SomeOrder(ops: multiset<Op>) returns (order: seq<Op>)
    ensures multiset(order) == ops
    decreases |ops|
  {
    if ops == multiset{} {
      order := [];
    } else {
      var op :| op in ops;
      var rest := SomeOrder(ops - multiset{op});
      order := rest + [op];
    }
  }

  lemma {:induction false} RunOne(d: Disk, ops: seq<Op>, op: Op)
    ensures Run(d, ops + [op]) == Do(Run(d, ops), op)
  {
    assert (ops + [op])[..|ops|] == ops;
  }

  /** The turns that bring the file back. */
  lemma {:induction false} ReviveFirst(d: Op)
    requires d.Delete?
    ensures Run(DELETED, [d, Write(true)]).file && Run(DELETED, [d, Rotate(true)]).file
    ensures Run(DELETED, [d, LockIt, Open(true)]).file
  {
    RunOne(DELETED, [], d);
    assert [] + [d] == [d];
    RunOne(DELETED, [d], Write(true));
    assert [d] + [Write(true)] == [d, Write(true)];
    RunOne(DELETED, [d], Rotate(true));
    assert [d] + [Rotate(true)] == [d, Rotate(true)];
    RunOne(DELETED, [d], LockIt);
    assert [d] + [LockIt] == [d, LockIt];
    RunOne(DELETED, [d, LockIt], Open(true));
    assert [d, LockIt] + [Open(true)] == [d, LockIt, Open(true)];
  }

  /** An order of the turns that begins with some of them. */
  lemma {:induction false} OrderFrom(ops: multiset<Op>, first: seq<Op>) returns (order: seq<Op>)
    requires multiset(first) <= ops
    ensures multiset(order) == ops && |first| <= |order| && order[..|first|] == first
  {
    var rest := SomeOrder(ops - multiset(first));
    order := first + rest;
  }

  lemma {:induction false} Revive(ops: multiset<Op>) returns (order: seq<Op>)
    requires Revivable(ops)
    ensures multiset(order) == ops && !StaysGone(order)
  {
    var d := if Delete(true) in ops then Delete(true) else Delete(false);
    ReviveFirst(d);
    if Write(true) in ops {
      order := OrderFrom(ops, [d, Write(true)]);
    } else if Rotate(true) in ops {
      order := OrderFrom(ops, [d, Rotate(true)]);
    } else {
      order := OrderFrom(ops, [d, LockIt, Open(true)]);
    }
  }

  /** For any turns still to come, the deleted file stays gone in every order of them exactly when
      they do not hold another delete together with a saver. */
  lemma {:induction false} DeletedStaysGone(ops: multiset<Op>)
    ensures (forall order: seq<Op> :: multiset(order) == ops ==> StaysGone(order)) <==> !Revivable(ops)
  {
    if Revivable(ops) {
      var order := Revive(ops);
    } else {
      forall order: seq<Op> | multiset(order) == ops ensures StaysGone(order) {
        forall k | 0 <= k <= |order| ensures !Run(DELETED, order[..k]).file {
          if HasDelete(ops) { UnwrittenStaysGone(order, k); } else { RetiredStaysGone(order, k); }
        }
      }
    }
  }
}
