/**
 One mutex with priority inheritance (zephyr/kernel/mutex.c). A waiter whose
 timeout runs out leaves the wait queue at once and recomputes the owner's
 priority only when it runs again, so those are two steps.
 */
module MutexSpec {
  import opened IdList

  const EPERM := 1
  const EAGAIN := 11
  const EBUSY := 16
  const EINVAL := 22

  datatype Option = None | Some(value: Id)

  datatype State = State(
    ceiling: int,              // CONFIG_PRIORITY_CEILING
    base: map<Id, int>,        // the priority each thread was given
    prio: map<Id, int>,        // the priority it has
    owner: Option,
    count: nat,
    orig: int,                 // owner_orig_prio
    waiters: seq<Id>,
    expired: set<Id>,          // timed out, not run again yet
    stale: seq<Id>,            // timed out since the owner's priority was last set down
    slipped: bool)             // ... when a waiter was left and the owner's own priority above the ceiling

  datatype Result = Returned(code: int) | Pending

  function Higher(a: int, b: int): int {
    if a < b then a else b
  }

  /** z_get_new_prio_with_ceiling() */
  function Cap(s: State, p: int): int {
    if p >= s.ceiling then p else s.ceiling
  }

  /** new_prio_for_inheritance() */
  function Inherit(s: State, target: int, limit: int): int {
    Cap(s, Higher(target, limit))
  }

  function PrioOf(s: State, t: Id): int {
    if t in s.prio then s.prio[t] else 0
  }

  function SetPrio(s: State, t: Id, p: int): State {
    s.(prio := s.prio[t := p])
  }

  function Enqueue(s: State, l: seq<Id>, t: Id): seq<Id> {
    if l == [] || PrioOf(s, t) < PrioOf(s, l[0]) then [t] + l else [l[0]] + Enqueue(s, l[1..], t)
  }

  /** z_impl_k_mutex_lock() by thread `t`, up to the point where it pends. */
  function Lock(s: State, t: Id, wait: bool): (State, Result)
    requires s.count != 0 ==> s.owner.Some?
  {
    if s.count == 0 || s.owner == Some(t) then
      (s.(orig := if s.count == 0 then PrioOf(s, t) else s.orig, count := s.count + 1, owner := Some(t)), Returned(0))
    else if !wait then (s, Returned(-EBUSY))
    else
      var o := s.owner.value;
      var p := Inherit(s, PrioOf(s, t), PrioOf(s, o));
      var s1 := if p < PrioOf(s, o) then SetPrio(s, o, p) else s;
      (s1.(waiters := Enqueue(s1, s1.waiters, t)), Pending)
  }

  /** The timeout of waiter `t` runs out. */
  function Expire(s: State, t: Id): State {
    s.(waiters := Without(s.waiters, t), expired := s.expired + {t}, stale := s.stale + [t])
  }

  /** The new priority of the owner when a waiter has timed out. */
  function Lowered(s: State): int {
    if s.waiters == [] then s.orig else Inherit(s, PrioOf(s, s.waiters[0]), s.orig)
  }

  /** The end of z_impl_k_mutex_lock() after a timeout; it reads the owner's
      priority, so it needs an owner. */
  function Adjust(s: State, t: Id): State
    requires s.owner.Some?
  {
    SetPrio(s, s.owner.value, Lowered(s)).(
      expired := s.expired - {t}, stale := [], slipped := s.waiters != [] && s.orig < s.ceiling)
  }

  /** z_impl_k_mutex_unlock() by thread `t`. */
  function Unlock(s: State, t: Id): (State, Result)
    requires s.owner.Some? ==> s.count > 0
  {
    if s.owner == None then (s, Returned(-EINVAL))
    else if s.owner != Some(t) then (s, Returned(-EPERM))
    else if s.count != 1 then (s.(count := s.count - 1), Returned(0))
    else (HandOff(SetPrio(s, t, s.orig)), Returned(0))
  }

  function HandOff(s: State): State {
    var s1 := s.(stale := [], slipped := false);
    if s.waiters == [] then s1.(owner := None, count := 0)
    else s1.(owner := Some(s.waiters[0]), orig := PrioOf(s, s.waiters[0]), waiters := s.waiters[1..])
  }

  // ---- the invariant --------------------------------------------------------------------

  /** What the owner's priority should be: its own, or that of the best waiter if
      that is higher, as far as the ceiling allows. */
  function Target(s: State): int {
    if s.waiters == [] then s.orig else Higher(s.orig, Cap(s, PrioOf(s, s.waiters[0])))
  }

  /** The higher of `p` and the best priority on the list, as far as the ceiling
      allows. */
  function Best(s: State, l: seq<Id>, p: int): int {
    if l == [] then p else Higher(Cap(s, PrioOf(s, l[0])), Best(s, l[1..], p))
  }

  /** What the owner's priority is: what it should be, or that of a waiter that has
      timed out since the last recomputation, or the ceiling. */
  function Actual(s: State): int {
    if s.slipped then s.ceiling else Best(s, s.stale, Target(s))
  }

  predicate ListsOk(s: State) {
    && NoDup(s.waiters)
    && (forall t :: t in s.waiters ==> t in s.base && s.owner != Some(t) && t !in s.expired)
    && (forall t :: t in s.expired ==> t in s.base && s.owner != Some(t))
    && (forall t :: t in s.stale ==> t in s.expired)
    && (forall i, j :: 0 <= i < j < |s.waiters| ==> PrioOf(s, s.waiters[i]) <= PrioOf(s, s.waiters[j]))
  }

  predicate OwnerOk(s: State) {
    && (s.owner == None <==> s.count == 0)
    && (s.waiters != [] ==> s.owner.Some?)
    && (s.owner.Some? ==> s.owner.value in s.base && s.orig == s.base[s.owner.value])
    && (s.owner == None ==> s.stale == [])
    && (s.slipped ==> s.owner.Some? && s.orig < s.ceiling)
  }

  predicate PriosOk(s: State) {
    && s.prio.Keys == s.base.Keys
    && (forall t :: t in s.base && s.owner != Some(t) ==> s.prio[t] == s.base[t])
    && (s.owner.Some? ==> PrioOf(s, s.owner.value) == Actual(s))
  }

  predicate Inv(s: State) {
    ListsOk(s) && OwnerOk(s) && PriosOk(s)
  }

  /** Thread `t` runs: it neither waits for the mutex nor is about to find out that
      it has waited too long. */
  predicate Runs(s: State, t: Id) {
    t in s.base && t !in s.waiters && t !in s.expired
  }

  // ---- the best of a list ------------------------------------------------------------------

  lemma {:induction false} BestHigher(s: State, l: seq<Id>, p: int, c: int)
    ensures Best(s, l, Higher(p, c)) == Higher(Best(s, l, p), c)
  {
    if l == [] {
    } else {
      BestHigher(s, l[1..], p, c);
    }
  }

  lemma {:induction false} BestAppend(s: State, l: seq<Id>, t: Id, p: int)
    ensures Best(s, l + [t], p) == Best(s, l, Higher(p, Cap(s, PrioOf(s, t))))
  {
    if l == [] {
      assert [t][1..] == [];
    } else {
      assert (l + [t])[1..] == l[1..] + [t];
      BestAppend(s, l[1..], t, p);
    }
  }

  lemma {:induction false} BestSame(s: State, s1: State, l: seq<Id>, p: int)
    requires s1.ceiling == s.ceiling && forall x :: x in l ==> PrioOf(s1, x) == PrioOf(s, x)
    ensures Best(s1, l, p) == Best(s, l, p)
  {
    if l == [] {
    } else {
      assert l[0] in l && forall x :: x in l[1..] ==> x in l;
      BestSame(s, s1, l[1..], p);
    }
  }

  /** The best is the given priority exactly when nobody on the list beats it. */
  lemma {:induction false} BestIs(s: State, l: seq<Id>, p: int)
    ensures Best(s, l, p) <= p
    ensures forall x :: x in l ==> Best(s, l, p) <= Cap(s, PrioOf(s, x))
    ensures Best(s, l, p) == p <==> forall x :: x in l ==> p <= Cap(s, PrioOf(s, x))
  {
    if l == [] {
    } else {
      BestIs(s, l[1..], p);
      assert forall x :: x in l <==> x == l[0] || x in l[1..];
      hide Cap, PrioOf;
    }
  }

  // ---- locking -----------------------------------------------------------------------------

  lemma {:induction false} EnqueueIn(s: State, l: seq<Id>, t: Id, x: Id)
    ensures x in Enqueue(s, l, t) <==> x in l || x == t
  {
    if l != [] && !(PrioOf(s, t) < PrioOf(s, l[0])) {
      EnqueueIn(s, l[1..], t, x);
      assert l == [l[0]] + l[1..];
    }
  }

  lemma {:induction false} EnqueueNoDup(s: State, l: seq<Id>, t: Id)
    requires NoDup(l) && t !in l
    ensures NoDup(Enqueue(s, l, t))
  {
    if l != [] && !(PrioOf(s, t) < PrioOf(s, l[0])) {
      TailAt(l);
      EnqueueNoDup(s, l[1..], t);
      EnqueueIn(s, l[1..], t, l[0]);
    }
  }

  predicate Sorted(s: State, l: seq<Id>) {
    forall i, j :: 0 <= i < j < |l| ==> PrioOf(s, l[i]) <= PrioOf(s, l[j])
  }

  lemma {:induction false} EnqueueSorted(s: State, l: seq<Id>, t: Id)
    requires Sorted(s, l)
    ensures Sorted(s, Enqueue(s, l, t))
    ensures Enqueue(s, l, t) != []
    ensures PrioOf(s, Enqueue(s, l, t)[0]) == if l == [] then PrioOf(s, t) else Higher(PrioOf(s, t), PrioOf(s, l[0]))
  {
    if l != [] && !(PrioOf(s, t) < PrioOf(s, l[0])) {
      EnqueueSorted(s, l[1..], t);
    }
  }

  lemma {:induction false} EnqueueSame(s: State, s1: State, l: seq<Id>, t: Id)
    requires PrioOf(s1, t) == PrioOf(s, t) && forall x :: x in l ==> PrioOf(s1, x) == PrioOf(s, x)
    ensures Enqueue(s1, l, t) == Enqueue(s, l, t)
  {
    if l == [] {
    } else {
      assert l[0] in l && forall x :: x in l[1..] ==> x in l;
      if !(PrioOf(s, t) < PrioOf(s, l[0])) {
        EnqueueSame(s, s1, l[1..], t);
      }
    }
  }

  /** Nobody else changes priority when the owner does. */
  lemma {:induction false} OwnerPrio(s: State, p: int)
    requires Inv(s) && s.owner.Some?
    ensures var s1 := SetPrio(s, s.owner.value, p);
            && s1.prio.Keys == s1.base.Keys && PrioOf(s1, s.owner.value) == p
            && (forall t :: s.owner != Some(t) ==> PrioOf(s1, t) == PrioOf(s, t))
  {
  }

  lemma {:induction false} PendLists(s: State, s1: State, t: Id)
    requires ListsOk(s) && Runs(s, t) && s.owner.Some? && s.owner != Some(t)
    requires s1 == s.(prio := s1.prio, waiters := Enqueue(s, s.waiters, t))
    requires forall x :: s.owner != Some(x) ==> PrioOf(s1, x) == PrioOf(s, x)
    ensures ListsOk(s1)
  {
    EnqueueNoDup(s, s.waiters, t);
    EnqueueSorted(s, s.waiters, t);
    hide Enqueue;
    forall x ensures x in s1.waiters <==> x in s.waiters || x == t {
      EnqueueIn(s, s.waiters, t, x);
    }
    assert forall i :: 0 <= i < |s1.waiters| ==> s1.waiters[i] in s1.waiters;
  }

  /** What pending a waiter does to the owner's priority, and to what that should
      be. */
  lemma {:induction false} PendPrios(s: State, t: Id)
    requires Inv(s) && Runs(s, t) && s.count != 0 && s.owner != Some(t)
    ensures var s2, o, c := Lock(s, t, true).0, s.owner.value, Cap(s, PrioOf(s, t));
            && s2 == s.(prio := s2.prio, waiters := Enqueue(s, s.waiters, t)) && s2.prio.Keys == s2.base.Keys
            && (forall x :: s.owner != Some(x) ==> PrioOf(s2, x) == PrioOf(s, x))
            && PrioOf(s2, o) == Higher(PrioOf(s, o), c) && Target(s2) == Higher(Target(s), c)
  {
    var o := s.owner.value;
    var p := Inherit(s, PrioOf(s, t), PrioOf(s, o));
    var s1 := if p < PrioOf(s, o) then SetPrio(s, o, p) else s;
    OwnerPrio(s, p);
    assert forall x :: x in s.waiters ==> s.owner != Some(x);
    EnqueueSame(s, s1, s.waiters, t);
    EnqueueSorted(s, s.waiters, t);
    EnqueueIn(s, s.waiters, t, Enqueue(s, s.waiters, t)[0]);
    hide Enqueue, ListsOk, Best;
  }

  lemma {:induction false} PendKeeps(s: State, t: Id)
    requires Inv(s) && Runs(s, t) && s.count != 0 && s.owner != Some(t)
    ensures Inv(Lock(s, t, true).0)
  {
    var s2 := Lock(s, t, true).0;
    PendPrios(s, t);
    hide Lock, Enqueue;
    PendLists(s, s2, t);
    BestSame(s, s2, s.stale, Target(s2));
    BestHigher(s, s.stale, Target(s), Cap(s, PrioOf(s, t)));
    hide ListsOk, Best, Target;
  }

  lemma {:induction false} LockKeeps(s: State, t: Id, wait: bool)
    requires Inv(s) && Runs(s, t)
    ensures Inv(Lock(s, t, wait).0)
  {
    if s.count != 0 && s.owner != Some(t) && wait {
      hide Inv, Lock;
      PendKeeps(s, t);
    } else if s.count == 0 {
      hide Enqueue;
    } else {
      var s1 := Lock(s, t, wait).0;
      BestSame(s, s1, s.stale, Target(s));
      hide Enqueue, Best;
    }
  }

  lemma {:induction false} ExpireLists(s: State, t: Id)
    requires ListsOk(s) && t in s.waiters && t in s.base
    ensures ListsOk(Expire(s, t))
    ensures Higher(Target(Expire(s, t)), Cap(s, PrioOf(s, t))) == Target(s)
  {
    var s1 := Expire(s, t);
    WithoutAt(s.waiters, t);
    var k := IndexOf(s.waiters, t);
    hide IndexOf;
    assert s1.waiters == s.waiters[..k] + s.waiters[k + 1..];
    assert forall i :: 0 <= i < |s1.waiters| ==> s1.waiters[i] == s.waiters[if i < k then i else i + 1];
    assert forall x :: PrioOf(s1, x) == PrioOf(s, x);
    hide Without, PrioOf;
    assert s1.owner == s.owner && s1.base == s.base;
    assert k > 0 ==> PrioOf(s, s.waiters[0]) <= PrioOf(s, t);
    assert k == 0 && |s.waiters| > 1 ==> PrioOf(s, t) <= PrioOf(s, s.waiters[1]);
  }

  lemma {:induction false} ExpireKeeps(s: State, t: Id)
    requires Inv(s) && t in s.waiters
    ensures Inv(Expire(s, t)) && Expire(s, t).owner.Some?
  {
    var s1 := Expire(s, t);
    ExpireLists(s, t);
    BestSame(s, s1, s1.stale, Target(s1));
    BestAppend(s, s.stale, t, Target(s1));
    hide ListsOk, Without, Best;
  }

  /** The timed out waiter recomputes the owner's priority. That gives the owner what
      it should have exactly when no waiter is left or the owner's own priority is
      not above the ceiling; otherwise it puts the owner below its own priority. */
  lemma {:induction false} AdjustKeeps(s: State, t: Id)
    requires Inv(s) && t in s.expired && s.owner.Some?
    ensures Inv(Adjust(s, t))
    ensures var s1, o := Adjust(s, t), s.owner.value;
            && (PrioOf(s1, o) == Target(s1) <==> s.waiters == [] || s.orig >= s.ceiling)
            && (PrioOf(s1, o) > s.orig <==> s.waiters != [] && s.orig < s.ceiling)
  {
    var s1, o := Adjust(s, t), s.owner.value;
    assert forall x :: s.owner != Some(x) ==> PrioOf(s1, x) == PrioOf(s, x);
    assert s.waiters != [] ==> s.waiters[0] in s.waiters;
    assert PrioOf(s1, o) == Lowered(s);
    assert forall i :: 0 <= i < |s.waiters| ==> s.waiters[i] in s.waiters;
    assert ListsOk(s1);
    hide ListsOk;
  }

  lemma {:induction false} HandOffLists(s: State)
    requires ListsOk(s)
    ensures ListsOk(HandOff(s))
  {
    if s.waiters != [] {
      var s2 := HandOff(s);
      TailAt(s.waiters);
      assert s.waiters[0] in s.waiters;
      assert forall i :: 0 <= i < |s2.waiters| ==> s2.waiters[i] == s.waiters[i + 1];
      assert forall x :: PrioOf(s2, x) == PrioOf(s, x);
      hide PrioOf;
    }
  }

  lemma {:induction false} RestoredLists(s: State, t: Id)
    requires ListsOk(s) && s.owner == Some(t)
    ensures ListsOk(SetPrio(s, t, s.orig))
  {
    var s1 := SetPrio(s, t, s.orig);
    assert forall x :: x != t ==> PrioOf(s1, x) == PrioOf(s, x);
    assert forall i :: 0 <= i < |s.waiters| ==> s.waiters[i] in s.waiters;
    hide PrioOf;
  }

  lemma {:induction false} FinalUnlockKeeps(s: State, t: Id)
    requires Inv(s) && s.owner == Some(t) && s.count == 1
    ensures Inv(Unlock(s, t).0)
  {
    var s1 := SetPrio(s, t, s.orig);
    RestoredLists(s, t);
    HandOffLists(s1);
    assert s.waiters != [] ==> s.waiters[0] in s.waiters;
    assert |s.waiters| > 1 ==> PrioOf(s1, s.waiters[0]) <= PrioOf(s1, s.waiters[1]);
    hide ListsOk;
  }

  lemma {:induction false} UnlockKeeps(s: State, t: Id)
    requires Inv(s) && Runs(s, t)
    ensures Inv(Unlock(s, t).0)
  {
    if s.owner == Some(t) && s.count == 1 {
      FinalUnlockKeeps(s, t);
    } else {
      var s1 := Unlock(s, t).0;
      BestSame(s, s1, s.stale, Target(s));
      hide Best;
    }
  }

  // ---- runs -------------------------------------------------------------------------------------

  datatype Op = DoLock(thread: Id, wait: bool) | DoUnlock(thread: Id) | DoExpire(thread: Id) | DoAdjust(thread: Id)

  /** A thread that has timed out goes on by adjusting the owner's priority. */
  predicate Enabled(s: State, op: Op) {
    match op
    case DoLock(t, wait) => Runs(s, t)
    case DoUnlock(t) => Runs(s, t)
    case DoExpire(t) => t in s.waiters
    case DoAdjust(t) => t in s.expired
  }

  /** Whether the step reads the priority of an owner that is not there. */
  predicate Faults(s: State, op: Op) {
    op.DoAdjust? && s.owner == None
  }

  function Step(s: State, op: Op): State
    requires OwnerOk(s) && !Faults(s, op)
  {
    match op
    case DoLock(t, wait) => Lock(s, t, wait).0
    case DoUnlock(t) => Unlock(s, t).0
    case DoExpire(t) => Expire(s, t)
    case DoAdjust(t) => Adjust(s, t)
  }

  lemma {:induction false} StepKeeps(s: State, op: Op)
    requires Inv(s) && Enabled(s, op) && !Faults(s, op)
    ensures Inv(Step(s, op))
  {
    hide ListsOk, PriosOk, Lock, Unlock, Expire, Adjust;
    match op
    case DoLock(t, wait) => LockKeeps(s, t, wait);
    case DoUnlock(t) => UnlockKeeps(s, t);
    case DoExpire(t) => ExpireKeeps(s, t);
    case DoAdjust(t) => AdjustKeeps(s, t);
  }

  /** A run that does not end in a fault. */
  ghost predicate CanRun(s: State, ops: seq<Op>)
    requires Inv(s)
    decreases |ops|
  {
    ops == []
    || (Enabled(s, ops[0]) && !Faults(s, ops[0]) && (StepKeeps(s, ops[0]); CanRun(Step(s, ops[0]), ops[1..])))
  }

  ghost function Run(s: State, ops: seq<Op>): (r: State)
    requires Inv(s) && CanRun(s, ops)
    ensures Inv(r)
    decreases |ops|
  {
    if ops == [] then s else
      StepKeeps(s, ops[0]);
      Run(Step(s, ops[0]), ops[1..])
  }

  function Initial(ceiling: int, base: map<Id, int>): (s: State)
    ensures Inv(s)
  {
    State(ceiling, base, base, None, 0, 0, [], {}, [], false)
  }
}
