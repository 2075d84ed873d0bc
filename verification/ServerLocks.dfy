/** No deadlock: chat, user and mailbox rows are locked in strictly increasing order. */
module ServerLocks {
  import opened ServerTransactions
  import opened ServerInvariants
  import opened ServerTheorems

  function LockClass(lock: Lock): nat
  {
    match lock
    case ChatLock(_) => 0
    case UserLock(_, _) => 1
    case BoxLock(_) => 2
  }

  function LockRow(lock: Lock): nat
  {
    match lock
    case ChatLock(c) => c
    case UserLock(u, _) => u
    case BoxLock(d) => d
  }

  /** The global lock order: chat, user identifiers, mailbox identifiers. */
  predicate LockBelow(a: Lock, b: Lock)
  {
    LockClass(a) < LockClass(b) || (LockClass(a) == LockClass(b) && LockRow(a) < LockRow(b))
  }

  predicate SameRow(a: Lock, b: Lock)
  {
    LockClass(a) == LockClass(b) && LockRow(a) == LockRow(b)
  }

  /** Every lock a transaction asks for lies above every lock it holds. */
  lemma WantsAboveHeld(s: Server, t: nat, held: Lock)
    requires Reachable(s) && t in s.txs && Wanted(s.txs[t]).Some? && Holds(s.txs[t], held)
    ensures LockBelow(held, Wanted(s.txs[t]).value)
  {
    hide Inv;
    ReachableInv(s);
    TxFacts(s, t);
    hide ReadsCurrent;
    WantsAbove(s.txs[t], held);
  }

  lemma WantsAbove(tx: Tx, held: Lock)
    requires Shape(tx) && Wanted(tx).Some? && Holds(tx, held)
    ensures LockBelow(held, Wanted(tx).value)
  {
    hide ValidateEnvelopes;
  }

  /** `t` cannot proceed because `o` holds a lock that conflicts with the one it wants. */
  ghost predicate WaitsFor(s: Server, t: nat, o: nat)
  {
    && t in s.txs && o in s.txs && t != o
    && Wanted(s.txs[t]).Some? && Conflicts(s.txs[o], Wanted(s.txs[t]).value)
  }

  lemma ConflictIsHeld(tx: Tx, lock: Lock) returns (held: Lock)
    requires Conflicts(tx, lock)
    ensures Holds(tx, held) && SameRow(held, lock)
  {
    match lock
    case ChatLock(c) => held := lock;
    case UserLock(u, x) => held := UserLock(u, u in tx.exclusive);
    case BoxLock(d) => held := lock;
  }

  /** Whoever blocks a transaction waits, if at all, for a higher lock. */
  lemma WaitingClimbs(s: Server, t: nat, o: nat)
    requires Reachable(s) && WaitsFor(s, t, o) && Wanted(s.txs[o]).Some?
    ensures LockBelow(Wanted(s.txs[t]).value, Wanted(s.txs[o]).value)
  {
    var held := ConflictIsHeld(s.txs[o], Wanted(s.txs[t]).value);
    WantsAboveHeld(s, o, held);
  }

  ghost predicate WaitPath(s: Server, path: seq<nat>)
  {
    |path| >= 2 && forall i :: 0 <= i < |path| - 1 ==> WaitsFor(s, path[i], path[i + 1])
  }

  lemma {:induction false} PathClimbs(s: Server, path: seq<nat>)
    requires Reachable(s) && WaitPath(s, path)
    requires path[|path| - 1] in s.txs && Wanted(s.txs[path[|path| - 1]]).Some?
    ensures path[0] in s.txs && Wanted(s.txs[path[0]]).Some?
    ensures LockBelow(Wanted(s.txs[path[0]]).value, Wanted(s.txs[path[|path| - 1]]).value)
  {
    assert WaitsFor(s, path[0], path[1]);
    if |path| == 2 {
      WaitingClimbs(s, path[0], path[1]);
    } else {
      assert WaitsFor(s, path[1], path[2]);
      WaitingClimbs(s, path[0], path[1]);
      assert WaitPath(s, path[1..]) by {
        forall i | 0 <= i < |path[1..]| - 1 ensures WaitsFor(s, path[1..][i], path[1..][i + 1]) {
          assert WaitsFor(s, path[i + 1], path[i + 2]);
        }
      }
      PathClimbs(s, path[1..]);
    }
  }

  /** In no reachable state do transactions wait for each other in a circle. */
  lemma NoDeadlock(s: Server, path: seq<nat>)
    requires Reachable(s) && WaitPath(s, path)
    ensures path[0] != path[|path| - 1]
  {
    if path[0] == path[|path| - 1] {
      assert WaitsFor(s, path[0], path[1]);
      PathClimbs(s, path);
    }
  }

  ghost predicate Blocked(s: Server, t: nat)
  {
    t in s.txs && Wanted(s.txs[t]).Some? && !Free(s, t, Wanted(s.txs[t]).value)
  }

  /** While any transaction is open, at least one of them is not waiting for a lock. */
  lemma SomeoneCanProceed(s: Server)
    requires Reachable(s) && s.txs != map[]
    ensures exists t :: t in s.txs && !Blocked(s, t)
  {
    if forall t :: t in s.txs ==> Blocked(s, t) {
      var t0 :| t0 in s.txs;
      assert Blocked(s, t0);
      var top := HighestWish(s, s.txs.Keys);
      assert Blocked(s, top);
      var o :| o in s.txs && o != top && Conflicts(s.txs[o], Wanted(s.txs[top]).value);
      assert Blocked(s, o);
      WaitingClimbs(s, top, o);
    }
  }

  lemma {:induction false} HighestWish(s: Server, ts: set<nat>) returns (top: nat)
    requires ts != {} && forall t :: t in ts ==> t in s.txs && Wanted(s.txs[t]).Some?
    ensures top in ts && forall t :: t in ts ==> !LockBelow(Wanted(s.txs[top]).value, Wanted(s.txs[t]).value)
    decreases |ts|
  {
    hide Wanted;
    var t :| t in ts;
    if ts == {t} {
      top := t;
    } else {
      var rest := HighestWish(s, ts - {t});
      top := if LockBelow(Wanted(s.txs[rest]).value, Wanted(s.txs[t]).value) then t else rest;
      assert forall x :: x in ts ==> x == t || x in ts - {t};
    }
  }
}
