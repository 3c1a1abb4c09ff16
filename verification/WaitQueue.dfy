/**
 The kernel's wait queues as sorted lists (z_priq_dumb_add() in
 zephyr/kernel/sched.c): by priority, first come first served. Lower numbers are
 higher priorities.
 */
module WaitQueue {

  /** In front of the first waiter of lower priority. */
  function Insert<T>(l: seq<T>, x: T, prio: T -> int): seq<T> {
    if l == [] || prio(x) < prio(l[0]) then [x] + l else [l[0]] + Insert(l[1..], x, prio)
  }

  predicate Ordered<T>(l: seq<T>, prio: T -> int) {
    forall i, j :: 0 <= i < j < |l| ==> prio(l[i]) <= prio(l[j])
  }

  /** Where Insert puts the new waiter. */
  function Slot<T>(l: seq<T>, x: T, prio: T -> int): (k: nat)
    ensures k <= |l|
    ensures forall i :: 0 <= i < k ==> prio(l[i]) <= prio(x)
    ensures k < |l| ==> prio(x) < prio(l[k])
  {
    if l == [] || prio(x) < prio(l[0]) then 0 else 1 + Slot(l[1..], x, prio)
  }

  lemma {:induction false} InsertLength<T>(l: seq<T>, x: T, prio: T -> int)
    ensures |Insert(l, x, prio)| == |l| + 1
  {
    if !(l == [] || prio(x) < prio(l[0])) {
      InsertLength(l[1..], x, prio);
    }
  }

  lemma {:induction false} InsertNth<T>(l: seq<T>, x: T, prio: T -> int, i: nat)
    requires i <= |l| && |Insert(l, x, prio)| == |l| + 1
    ensures var k := Slot(l, x, prio);
            Insert(l, x, prio)[i] == if i < k then l[i] else if i == k then x else l[i - 1]
  {
    if !(l == [] || prio(x) < prio(l[0])) && i > 0 {
      InsertLength(l[1..], x, prio);
      InsertNth(l[1..], x, prio, i - 1);
    }
  }

  /** `r` is `l` with `x` put at position `k`. */
  predicate IsInsertion<T(==)>(l: seq<T>, x: T, k: nat, r: seq<T>) {
    && k <= |l| && |r| == |l| + 1
    && r[k] == x
    && (forall i :: 0 <= i < k ==> r[i] == l[i])
    && (forall i :: k < i < |r| ==> r[i] == l[i - 1])
  }

  /** The new waiter goes behind everyone of its own or a higher priority, and in
      front of everyone of a lower one; the others keep their order. */
  lemma {:induction false} InsertedAt<T>(l: seq<T>, x: T, prio: T -> int) returns (k: nat)
    requires Ordered(l, prio)
    ensures IsInsertion(l, x, k, Insert(l, x, prio))
    ensures forall i :: 0 <= i < k ==> prio(l[i]) <= prio(x)
    ensures forall i :: k <= i < |l| ==> prio(x) < prio(l[i])
    ensures Ordered(Insert(l, x, prio), prio)
  {
    k := Slot(l, x, prio);
    InsertLength(l, x, prio);
    hide Insert, Slot;
    var r := Insert(l, x, prio);
    InsertNth(l, x, prio, k);
    forall i | 0 <= i < k ensures r[i] == l[i] {
      InsertNth(l, x, prio, i);
    }
    forall i | k < i < |r| ensures r[i] == l[i - 1] {
      InsertNth(l, x, prio, i);
    }
  }

  lemma {:induction false} InsertStep<T>(l: seq<T>, x: T, prio: T -> int, i: nat)
    requires i < |l| && prio(l[i]) <= prio(x)
    ensures Insert(l[i..], x, prio) == [l[i]] + Insert(l[i + 1..], x, prio)
  {
    assert l[i..][1..] == l[i + 1..];
  }

  /** z_priq_dumb_add() */
  method PriqAdd<T>(l: seq<T>, x: T, prio: T -> int) returns (r: seq<T>)
    ensures r == Insert(l, x, prio)
  {
    var i := 0;
    while i < |l| && !(prio(x) < prio(l[i]))
      invariant i <= |l| && l[..i] + Insert(l[i..], x, prio) == Insert(l, x, prio)
    {
      InsertStep(l, x, prio, i);
      hide Insert;
      assert l[..i + 1] == l[..i] + [l[i]];
      i := i + 1;
    }
    r := l[..i] + [x] + l[i..];
  }
}
