/**
 The order of the wait queues, and whom a wake-up wakes. A priority change of a
 thread that pends does not move it on its wait queue, so the queues are in
 order exactly as long as such changes fit between the neighbours.
 */
module SchedOrder {
  import opened IdList
  import opened SchedSpec
  import opened SchedInvariant
  import opened SchedRuns
  import opened SchedTheorems

  /** A waiter of priority `pa` that came at `sa` may stand in front of one of
      priority `pb` that came at `sb`; `fcfs` asks for first come first served
      among equals. */
  predicate MayLead(pa: int, sa: nat, pb: int, sb: nat, fcfs: bool) {
    pa < pb || (pa == pb && (fcfs ==> sa < sb))
  }

  predicate Leads(s: State, a: Id, b: Id, fcfs: bool) {
    MayLead(PrioOf(s, a), SinceOf(s, a), PrioOf(s, b), SinceOf(s, b), fcfs)
  }

  /** Every wait queue is in order. */
  ghost predicate InOrder(s: State, fcfs: bool) {
    && (forall q, a, b :: Ahead(Waiters(s, q), a, b) ==> Leads(s, a, b, fcfs))
    && (forall q, a :: a in Waiters(s, q) ==> SinceOf(s, a) < s.clock)
  }

  // ---- steps that only take threads off wait queues -----------------------------------

  predicate OrderKept(s: State, s1: State, q: WaitQ, a: Id, b: Id) {
    Ahead(Waiters(s1, q), a, b) ==> Ahead(Waiters(s, q), a, b)
  }

  predicate WaiterKept(s: State, s1: State, q: WaitQ, a: Id) {
    a in Waiters(s1, q) ==>
      a in Waiters(s, q) && PrioOf(s1, a) == PrioOf(s, a) && SinceOf(s1, a) == SinceOf(s, a)
  }

  /** Nobody has come onto a wait queue, and those who are left have kept their
      order and their priority. */
  ghost predicate Calm(s: State, s1: State) {
    && s.clock <= s1.clock
    && (forall q, a, b :: OrderKept(s, s1, q, a, b))
    && (forall q, a :: WaiterKept(s, s1, q, a))
  }

  lemma {:induction false} CalmKeeps(s: State, s1: State, fcfs: bool)
    requires InOrder(s, fcfs) && Calm(s, s1)
    ensures InOrder(s1, fcfs)
  {
    hide Waiters, PrioOf, SinceOf, MayLead;
    forall q, a, b | Ahead(Waiters(s1, q), a, b) ensures Leads(s1, a, b, fcfs) {
      assert OrderKept(s, s1, q, a, b) && WaiterKept(s, s1, q, a) && WaiterKept(s, s1, q, b);
      assert Ahead(Waiters(s, q), a, b) && Leads(s, a, b, fcfs);
    }
    forall q, a | a in Waiters(s1, q) ensures SinceOf(s1, a) < s1.clock {
      assert WaiterKept(s, s1, q, a);
    }
  }

  lemma {:induction false} CalmTrans(s: State, s1: State, s2: State)
    requires Calm(s, s1) && Calm(s1, s2)
    ensures Calm(s, s2)
  {
    forall q, a, b ensures OrderKept(s, s2, q, a, b) {
      assert OrderKept(s, s1, q, a, b) && OrderKept(s1, s2, q, a, b);
    }
    forall q, a ensures WaiterKept(s, s2, q, a) {
      assert WaiterKept(s, s1, q, a) && WaiterKept(s1, s2, q, a);
    }
  }

  lemma {:induction false} CalmSelf(s: State)
    ensures Calm(s, s)
  {
  }

  /** Only the record of `t` has changed. */
  lemma {:induction false} CalmRecord(s: State, s1: State, t: Id)
    requires WaitqsOk(s) && s1.waitqs == s.waitqs && s.clock <= s1.clock
    requires forall x :: x in s.threads && x != t ==> x in s1.threads && s1.threads[x] == s.threads[x]
    requires t in s.threads && s.threads[t].pendedOn != Nowhere ==>
               t in s1.threads && s1.threads[t].prio == s.threads[t].prio && s1.threads[t].since == s.threads[t].since
    ensures Calm(s, s1)
  {
    assert forall q :: Waiters(s1, q) == Waiters(s, q);
    hide Waiters, Ahead;
    forall q, a | a in Waiters(s1, q) ensures PrioOf(s1, a) == PrioOf(s, a) && SinceOf(s1, a) == SinceOf(s, a) {
      assert PendsOn(s, a, q);
    }
  }

  lemma {:induction false} WithoutOrder(l: seq<Id>, x: Id, a: Id, b: Id)
    requires NoDup(l) && Ahead(Without(l, x), a, b)
    ensures Ahead(l, a, b)
  {
    hide IndexOf;
    var k, r := IndexOf(l, x), Without(l, x);
    if k < |l| {
      var i, j := IndexOf(r, a), IndexOf(r, b);
      AheadAt(l, if i < k then i else i + 1, if j < k then j else j + 1);
    }
  }

  lemma {:induction false} CalmUnpend(s: State, t: Id)
    requires WaitqsOk(s) && t in s.threads
    ensures Calm(s, UnpendIfPended(s, t))
  {
    var s1, q := UnpendIfPended(s, t), s.threads[t].pendedOn;
    assert forall r :: Waiters(s1, r) == if r == q && q != Nowhere then Without(Waiters(s, q), t) else Waiters(s, r);
    assert forall x :: PrioOf(s1, x) == PrioOf(s, x) && SinceOf(s1, x) == SinceOf(s, x);
    WithoutAt(Waiters(s, q), t);
    hide Waiters, Ahead, PrioOf, SinceOf, Without, UnpendIfPended;
    forall r, a, b | Ahead(Waiters(s1, r), a, b) ensures Ahead(Waiters(s, r), a, b) {
      if r == q && q != Nowhere {
        WithoutOrder(Waiters(s, q), t, a, b);
      }
    }
  }

  /** Taken off its wait queue and made ready, with other flags changed as well. */
  lemma {:induction false} CalmWoken(s: State, s0: State, s2: State, t: Id)
    requires WaitqsOk(s) && t in s.threads && t in s0.threads && s0 == SetThread(s, t, s0.threads[t])
    requires s0.threads[t].pendedOn == s.threads[t].pendedOn
    requires s0.threads[t].prio == s.threads[t].prio && s0.threads[t].since == s.threads[t].since
    requires var s1 := UnpendIfPended(s0, t);
             && s2.waitqs == s1.waitqs && s1.clock <= s2.clock
             && (forall x :: x in s1.threads && x != t ==> x in s2.threads && s2.threads[x] == s1.threads[x])
    ensures Calm(s, s2)
  {
    var s1 := UnpendIfPended(s0, t);
    SetThreadWaitqs(s, t, s0.threads[t]);
    CalmRecord(s, s0, t);
    CalmUnpend(s0, t);
    UnpendWaitqs(s0, t);
    hide WaitqsOk, UnpendIfPended, Calm;
    CalmRecord(s1, s2, t);
    CalmTrans(s, s0, s1);
    CalmTrans(s, s1, s2);
  }

  lemma {:induction false} CalmTimeout(s: State, t: Id)
    requires Inv(s) && t in s.threads && t != s.idle
    ensures Calm(s, ThreadTimeout(s, t))
  {
    var s0 := AbortTimeout(s, t);
    assert WaitqsOk(s);
    if s.threads[t].dead {
      CalmRecord(s, s0, t);
    } else {
      hide Inv, UnpendIfPended, Enqueue, NextUp, ShouldPreempt;
      CalmWoken(s, s0, ThreadTimeout(s, t), t);
    }
  }

  lemma {:induction false} CalmWake(s: State, t: Id, ret: int)
    requires WaitqsOk(s) && s.current in s.threads && t in s.threads && s.threads[t].pendedOn != Nowhere
    ensures Calm(s, WakeThread(s, t, ret))
  {
    var s0 := SetThread(s, t, s.threads[t].(ret := ret));
    assert UnpendIfPended(s0, t) == Unpend(s0, t);
    hide WaitqsOk, UnpendIfPended, Enqueue, NextUp, ShouldPreempt, Unpend;
    CalmWoken(s, s0, WakeThread(s, t, ret), t);
  }

  lemma {:induction false} CalmWakeEach(s: State, l: seq<Id>, d: WaitQ)
    requires Settled(s, d) && d != Nowhere && l == Waiters(s, d)
    ensures s.current in s.threads && forall x :: x in l ==> x in s.threads
    ensures Calm(s, WakeEach(s, l))
    decreases |l|
  {
    assert s.current in s.threads && WaitqsOk(s);
    WakeFirst(s, l, d);
    if l == [] {
      CalmSelf(s);
    } else {
      assert PendsOn(s, l[0], d);
      hide Settled, WakeThread, WaitqsOk, Calm, Waiters;
      var s1 := WakeThread(s, l[0], 0);
      CalmWake(s, l[0], 0);
      CalmWakeEach(s1, l[1..], d);
      CalmTrans(s, s1, WakeEach(s1, l[1..]));
    }
  }

  lemma {:induction false} CalmBury(s: State, t: Id)
    requires Inv(s) && t in s.threads && t != s.idle
    ensures Calm(s, Bury(s, t))
  {
    assert WaitqsOk(s);
    var s0 := SetThread(s, t, s.threads[t].(dead := true));
    var s1 := DequeueIfQueued(s0, t);
    SetThreadWaitqs(s, t, s.threads[t].(dead := true));
    var th := s1.threads[t];
    SetThreadWaitqs(s, t, th);
    assert s1.threads == SetThread(s, t, th).threads;
    WaitqsSame(SetThread(s, t, th), s1);
    CalmRecord(s, s1, t);
    hide Inv, WaitqsOk, Calm, DequeueIfQueued, UnpendIfPended;
    assert SetThread(s1, t, th) == s1 by {
      assert s1.threads[t := th] == s1.threads;
    }
    CalmWoken(s1, s1, Bury(s, t), t);
    CalmTrans(s, s1, Bury(s, t));
  }

  lemma {:induction false} CalmAbort(s: State, t: Id)
    requires Inv(s) && t in s.threads && t != s.idle
    ensures Calm(s, Step(s, DoAbort(t)))
  {
    hide Inv, Bury, Calm, WakeEach, Waiters, UpdateCache, Settled;
    EndThreadKeeps(s, t);
    if s.threads[t].dead {
      CalmSelf(s);
    } else {
      BurySettled(s, t);
      CalmBury(s, t);
      var s1, d := Bury(s, t), JoinOf(t);
      CalmWakeEach(s1, Waiters(s1, d), d);
      WakeEachKeeps(s1, Waiters(s1, d), d);
      var s2 := WakeEach(s1, Waiters(s1, d));
      var r := Step(s, DoAbort(t));
      assert r == UpdateCache(s2, true);
      hide EndThread, Step;
      CalmTrans(s, s1, s2);
      CalmCache(s2, t);
      CalmTrans(s, s2, r);
    }
  }

  lemma {:induction false} CalmCache(s: State, t: Id)
    requires Settled(s, JoinOf(t)) && t in s.threads
    ensures s.current in s.threads && Calm(s, UpdateCache(s, true))
  {
    hide RunqOk, WaitqsOk, AllOk, Calm;
    CalmRecord(s, UpdateCache(s, true), t);
  }

  lemma {:induction false} CalmBlock(s: State, op: Op)
    requires Inv(s) && Enabled(s, op)
    requires op.DoYield? || op.DoSlice? || op.DoSleep?
    ensures Calm(s, Step(s, op))
  {
    BitsKnown(s, s.current);
    assert WaitqsOk(s);
    hide RunqOk, WaitqsOk, AllOk, Enqueue, Without, Waiters, NextUp;
    CalmRecord(s, Step(s, op), s.current);
  }

  lemma {:induction false} CalmFlags(s: State, op: Op)
    requires Inv(s) && Enabled(s, op)
    requires op.DoCreate? || op.DoStart? || op.DoStartLater? || op.DoSuspend?
    ensures Calm(s, Step(s, op))
  {
    var t := op.thread;
    if t in s.threads {
      BitsKnown(s, t);
    }
    assert WaitqsOk(s);
    hide RunqOk, WaitqsOk, AllOk, Enqueue, Without, Waiters, NextUp, ShouldPreempt, Calm;
    CalmRecord(s, Step(s, op), t);
  }

  lemma {:induction false} CalmRest(s: State, op: Op)
    requires Inv(s) && Enabled(s, op)
    requires op.DoResume? || op.DoWakeup? || op.DoLock? || op.DoUnlock? || op.DoSwap?
    ensures Calm(s, Step(s, op))
  {
    var t := if op.DoResume? || op.DoWakeup? then op.thread else s.current;
    CurrentKnown(s);
    BitsKnown(s, t);
    assert WaitqsOk(s);
    hide Inv, RunqOk, WaitqsOk, AllOk, Enqueue, Without, Waiters, NextUp, ShouldPreempt, Calm, Suspend, ThreadTimeout,
         SetPrio, Requeue, Sleep, PendCurrent, Wake, EndThread, Join, Start;
    CalmRecord(s, Step(s, op), t);
  }

  predicate Pended(s: State, t: Id) {
    t in s.threads && s.threads[t].pendedOn != Nowhere
  }

  lemma {:induction false} CalmSetPrio(s: State, t: Id, prio: int)
    requires Inv(s) && t in s.threads && t != s.idle && !Pended(s, t)
    ensures Calm(s, SetPrio(s, t, prio))
  {
    BitsKnown(s, t);
    assert WaitqsOk(s);
    hide Inv, WaitqsOk, Enqueue, Without, Waiters, NextUp, ShouldPreempt;
    CalmRecord(s, SetPrio(s, t, prio), t);
  }

  // ---- coming onto a wait queue ------------------------------------------------------

  lemma {:induction false} InsertOrder(l: seq<Id>, k: nat, y: Id, a: Id, b: Id)
    requires NoDup(l) && y !in l && k <= |l| && Ahead(InsertAt(l, k, y), a, b)
    ensures || Ahead(l, a, b)
            || (b == y && a in l && IndexOf(l, a) < k)
            || (a == y && b in l && IndexOf(l, b) >= k)
  {
    hide IndexOf;
    var r := InsertAt(l, k, y);
    var i, j := IndexOf(r, a), IndexOf(r, b);
    assert r[i] == a && r[j] == b;
    if i != k {
      IndexUnique(l, if i < k then i else i - 1);
    }
    if j != k {
      IndexUnique(l, if j < k then j else j - 1);
    }
  }

  /** The new waiter stands behind those of its own or a higher priority, and in
      front of the others. */
  lemma {:induction false} SlotInOrder(s: State, q: WaitQ, prio: int, i: nat, fcfs: bool)
    requires InOrder(s, fcfs) && NoDup(Waiters(s, q)) && i < |Waiters(s, q)|
    ensures var l := Waiters(s, q); i < Slot(s, l, prio) <==> PrioOf(s, l[i]) <= prio
  {
    var l := Waiters(s, q);
    var k := Slot(s, l, prio);
    if i > k {
      AheadAt(l, k, i);
      assert Leads(s, l[k], l[i], fcfs);
    }
  }

  lemma {:induction false} PendInOrder(s: State, t: Id, q: WaitQ, timed: bool, fcfs: bool)
    requires InOrder(s, fcfs) && WaitqsOk(s) && t in s.threads && s.threads[t].pendedOn == Nowhere && q != Nowhere
    ensures InOrder(PendOn(s, t, q, timed), fcfs)
  {
    var s1, l, p := PendOn(s, t, q, timed), Waiters(s, q), PrioOf(s, t);
    var k := Slot(s, l, p);
    assert forall r :: t !in Waiters(s, r) by {
      assert forall r :: !PendsOn(s, t, r);
    }
    assert NoDup(l);
    assert forall r :: Waiters(s1, r) == if r == q then InsertAt(l, k, t) else Waiters(s, r);
    assert forall x :: x != t ==> PrioOf(s1, x) == PrioOf(s, x) && SinceOf(s1, x) == SinceOf(s, x);
    assert PrioOf(s1, t) == p && SinceOf(s1, t) == s.clock && s1.clock == s.clock + 1;
    InsertAtAt(l, k, t);
    hide WaitqsOk, Waiters, Slot, InsertAt, PendOn, PrioOf, SinceOf, NoDup;
    forall r, a, b | Ahead(Waiters(s1, r), a, b) ensures Leads(s1, a, b, fcfs) {
      if r == q {
        InsertOrder(l, k, t, a, b);
        if Ahead(l, a, b) {
          assert Leads(s, a, b, fcfs) && a in l && b in l;
        } else if b == t {
          SlotInOrder(s, q, p, IndexOf(l, a), fcfs);
        } else {
          SlotInOrder(s, q, p, IndexOf(l, b), fcfs);
        }
      } else {
        assert Leads(s, a, b, fcfs) && a in Waiters(s, r) && b in Waiters(s, r);
      }
    }
  }

  lemma {:induction false} PendStepInOrder(s: State, q: WaitQ, timed: bool, fcfs: bool)
    requires Inv(s) && Running(s) && CanPendOn(s, q) && InOrder(s, fcfs)
    ensures InOrder(PendCurrent(s, q, timed), fcfs)
  {
    UnreadyCurrent(s);
    var t, s1 := s.current, Unready(s, s.current);
    assert s1.clock == s.clock && s1.threads[t].pendedOn == Nowhere && WaitqsOk(s);
    hide Inv, InOrder, WaitqsOk, RunqOk, Unready;
    CalmRecord(s, s1, t);
    CalmKeeps(s, s1, fcfs);
    PendInOrder(s1, t, q, timed, fcfs);
    var s2 := PendOn(s1, t, q, timed);
    PendWaitqs(s1, t, q, timed);
    CalmRecord(s2, Swap(s2), t);
    CalmKeeps(s2, Swap(s2), fcfs);
  }

  // ---- priority changes ---------------------------------------------------------------

  /** Priority `p` fits pended thread `t` where it stands. */
  ghost predicate Fits(s: State, t: Id, p: int, fcfs: bool)
    requires Pended(s, t)
  {
    var l := Waiters(s, s.threads[t].pendedOn);
    var k := IndexOf(l, t);
    && (0 < k < |l| ==> MayLead(PrioOf(s, l[k - 1]), SinceOf(s, l[k - 1]), p, SinceOf(s, t), fcfs))
    && (k + 1 < |l| ==> MayLead(p, SinceOf(s, t), PrioOf(s, l[k + 1]), SinceOf(s, l[k + 1]), fcfs))
  }

  lemma {:induction false} PendedShape(s: State, t: Id, p: int)
    requires Inv(s) && Pended(s, t) && t != s.idle
    ensures var s1, q := SetPrio(s, t, p), s.threads[t].pendedOn;
            && t in Waiters(s, q) && NoDup(Waiters(s, q))
            && (forall r :: r != q ==> t !in Waiters(s, r))
            && (forall r :: Waiters(s1, r) == Waiters(s, r)) && s1.clock == s.clock
            && (forall x :: SinceOf(s1, x) == SinceOf(s, x))
            && (forall x :: PrioOf(s1, x) == if x == t then p else PrioOf(s, x))
  {
    BitsKnown(s, t);
    assert WaitqsOk(s) && PendsOn(s, t, s.threads[t].pendedOn);
    assert forall r :: r != s.threads[t].pendedOn ==> !PendsOn(s, t, r);
  }

  lemma {:induction false} FitsBehind(s: State, t: Id, p: int, b: Id, fcfs: bool)
    requires Pended(s, t) && InOrder(s, fcfs) && Fits(s, t, p, fcfs)
    requires NoDup(Waiters(s, s.threads[t].pendedOn)) && Ahead(Waiters(s, s.threads[t].pendedOn), t, b)
    ensures MayLead(p, SinceOf(s, t), PrioOf(s, b), SinceOf(s, b), fcfs)
  {
    var l := Waiters(s, s.threads[t].pendedOn);
    var k, i := IndexOf(l, t), IndexOf(l, b);
    hide Waiters, PrioOf, SinceOf, IndexOf;
    if k + 1 < i {
      AheadAt(l, k + 1, i);
      assert Leads(s, l[k + 1], b, fcfs);
    }
  }

  lemma {:induction false} FitsAhead(s: State, t: Id, p: int, a: Id, fcfs: bool)
    requires Pended(s, t) && InOrder(s, fcfs) && Fits(s, t, p, fcfs)
    requires NoDup(Waiters(s, s.threads[t].pendedOn)) && Ahead(Waiters(s, s.threads[t].pendedOn), a, t)
    ensures MayLead(PrioOf(s, a), SinceOf(s, a), p, SinceOf(s, t), fcfs)
  {
    var l := Waiters(s, s.threads[t].pendedOn);
    var k, i := IndexOf(l, t), IndexOf(l, a);
    hide Waiters, PrioOf, SinceOf, IndexOf;
    if i + 1 < k {
      AheadAt(l, i, k - 1);
      assert Leads(s, a, l[k - 1], fcfs);
    }
  }

  /** A priority that fits keeps the order. */
  lemma {:induction false} FitsKeeps(s: State, t: Id, p: int, fcfs: bool)
    requires Inv(s) && Pended(s, t) && t != s.idle && InOrder(s, fcfs) && Fits(s, t, p, fcfs)
    ensures InOrder(SetPrio(s, t, p), fcfs)
  {
    PendedShape(s, t, p);
    var s1, q := SetPrio(s, t, p), s.threads[t].pendedOn;
    assert forall r, a :: a in Waiters(s, r) ==> SinceOf(s, a) < s.clock;
    hide Inv, SetPrio, Waiters, PrioOf, SinceOf, IndexOf, MayLead, Fits, NoDup;
    forall r, a, b | Ahead(Waiters(s1, r), a, b) ensures Leads(s1, a, b, fcfs) {
      assert Ahead(Waiters(s, r), a, b) && Leads(s, a, b, fcfs);
      assert a == t || b == t ==> r == q;
      if a == t {
        FitsBehind(s, t, p, b, fcfs);
      } else if b == t {
        FitsAhead(s, t, p, a, fcfs);
      }
    }
  }

  /** One that does not fit breaks it. */
  lemma {:induction false} KeptFits(s: State, t: Id, p: int, fcfs: bool)
    requires Inv(s) && Pended(s, t) && t != s.idle && InOrder(SetPrio(s, t, p), fcfs)
    ensures Fits(s, t, p, fcfs)
  {
    PendedShape(s, t, p);
    var s1, q := SetPrio(s, t, p), s.threads[t].pendedOn;
    var l := Waiters(s1, q);
    var k := IndexOf(l, t);
    hide Inv, SetPrio, Waiters, PrioOf, SinceOf, IndexOf;
    if 0 < k {
      AheadAt(l, k - 1, k);
      assert Leads(s1, l[k - 1], t, fcfs);
    }
    if k + 1 < |l| {
      AheadAt(l, k, k + 1);
      assert Leads(s1, t, l[k + 1], fcfs);
    }
  }

  // ---- runs ------------------------------------------------------------------------------

  predicate Disturbs(s: State, op: Op) {
    op.DoSetPrio? && Pended(s, op.thread)
  }

  lemma {:induction false} StepCalm(s: State, op: Op)
    requires Inv(s) && Enabled(s, op) && !Disturbs(s, op) && !op.DoPend? && !op.DoJoin?
    ensures Calm(s, Step(s, op))
  {
    assert s.current in s.threads && WaitqsOk(s);
    hide Inv, Calm, ThreadTimeout, SetPrio, Wake, EndThread, WaitqsOk;
    if op.DoTimeout? {
      CalmTimeout(s, op.thread);
    } else if op.DoSetPrio? {
      CalmSetPrio(s, op.thread, op.prio);
    } else if op.DoAbort? {
      CalmAbort(s, op.thread);
    } else if op.DoWake? {
      CalmWakeStep(s, op.source, op.ret);
    } else if op.DoYield? || op.DoSlice? || op.DoSleep? {
      CalmBlock(s, op);
    } else if op.DoCreate? || op.DoStart? || op.DoStartLater? || op.DoSuspend? {
      CalmFlags(s, op);
    } else {
      CalmRest(s, op);
    }
  }

  lemma {:induction false} CalmWakeStep(s: State, n: nat, ret: int)
    requires Inv(s)
    ensures Calm(s, Step(s, DoWake(n, ret)))
  {
    WakeKeeps(s, Object(n), ret);
    assert WaitqsOk(s);
    if Waiters(s, Object(n)) == [] {
      CalmSelf(s);
    } else {
      assert Waiters(s, Object(n))[0] in Waiters(s, Object(n)) && PendsOn(s, Waiters(s, Object(n))[0], Object(n));
      hide Inv, Calm, WaitqsOk, WakeThread;
      CalmWake(s, Waiters(s, Object(n))[0], ret);
    }
  }

  lemma {:induction false} JoinInOrder(s: State, t: Id, wait: bool, timed: bool, fcfs: bool)
    requires Inv(s) && Running(s) && t in s.threads && InOrder(s, fcfs)
    ensures InOrder(Join(s, t, wait, timed), fcfs)
  {
    hide Inv, InOrder, PendCurrent;
    if JoinCode(s, t, wait).Joining? {
      PendStepInOrder(s, JoinOf(t), timed, fcfs);
    }
  }

  /** A step keeps the wait queues in order exactly when it is not a priority change
      of a pended thread that does not fit between its neighbours. */
  lemma {:induction false} StepOrderExactly(s: State, op: Op, fcfs: bool)
    requires Inv(s) && Enabled(s, op) && InOrder(s, fcfs)
    ensures InOrder(Step(s, op), fcfs) <==> (Disturbs(s, op) ==> Fits(s, op.thread, op.prio, fcfs))
  {
    hide Inv, InOrder, Fits, Calm, SetPrio, PendCurrent, Join;
    if Disturbs(s, op) {
      if Fits(s, op.thread, op.prio, fcfs) {
        FitsKeeps(s, op.thread, op.prio, fcfs);
      } else if InOrder(Step(s, op), fcfs) {
        KeptFits(s, op.thread, op.prio, fcfs);
      }
    } else if op.DoPend? {
      PendStepInOrder(s, Object(op.source), op.timed, fcfs);
    } else if op.DoJoin? {
      JoinInOrder(s, op.thread, op.wait, op.timed, fcfs);
    } else {
      StepCalm(s, op);
      CalmKeeps(s, Step(s, op), fcfs);
    }
  }

  /** Every priority change of a pended thread fits. */
  ghost predicate Fitting(s: State, ops: seq<Op>, fcfs: bool)
    requires Inv(s) && CanRun(s, ops)
    decreases |ops|
  {
    ops != [] ==>
      && (Disturbs(s, ops[0]) ==> Fits(s, ops[0].thread, ops[0].prio, fcfs))
      && (StepKeeps(s, ops[0]); Fitting(Step(s, ops[0]), ops[1..], fcfs))
  }

  /** No priority change names a pended thread. */
  ghost predicate Undisturbed(s: State, ops: seq<Op>)
    requires Inv(s) && CanRun(s, ops)
    decreases |ops|
  {
    ops != [] ==> !Disturbs(s, ops[0]) && (StepKeeps(s, ops[0]); Undisturbed(Step(s, ops[0]), ops[1..]))
  }

  /** The wait queues are in order after every step of the run. */
  ghost predicate InOrderThroughout(s: State, ops: seq<Op>, fcfs: bool)
    requires Inv(s) && CanRun(s, ops)
    decreases |ops|
  {
    && InOrder(s, fcfs)
    && (ops != [] ==> (StepKeeps(s, ops[0]); InOrderThroughout(Step(s, ops[0]), ops[1..], fcfs)))
  }

  lemma {:induction false} OrderExactly(s: State, ops: seq<Op>, fcfs: bool)
    requires Inv(s) && CanRun(s, ops) && InOrder(s, fcfs)
    ensures InOrderThroughout(s, ops, fcfs) <==> Fitting(s, ops, fcfs)
    ensures Undisturbed(s, ops) ==> Fitting(s, ops, fcfs)
    decreases |ops|
  {
    if ops == [] {
    } else {
      StepKeeps(s, ops[0]);
      StepOrderExactly(s, ops[0], fcfs);
      hide Inv, InOrder, Step, Fits, Enabled;
      if InOrder(Step(s, ops[0]), fcfs) {
        OrderExactly(Step(s, ops[0]), ops[1..], fcfs);
      }
    }
  }

  /** Over every run in which such changes fit, and so over every run without such
      changes: each wait queue is sorted by priority and, with `fcfs`, first come
      first served among equals. */
  lemma {:induction false} WaitOrderLaw(idle: Id, prio: nat, ops: seq<Op>, q: WaitQ, i: nat, j: nat, fcfs: bool)
    requires CanRun(Initial(idle, prio), ops)
    requires Fitting(Initial(idle, prio), ops, fcfs) || Undisturbed(Initial(idle, prio), ops)
    requires i < j < |Waiters(Run(Initial(idle, prio), ops), q)|
    ensures var s := Run(Initial(idle, prio), ops);
            Leads(s, Waiters(s, q)[i], Waiters(s, q)[j], fcfs)
  {
    var s0, s := Initial(idle, prio), Run(Initial(idle, prio), ops);
    assert forall r :: Waiters(s0, r) == [];
    OrderExactly(s0, ops, fcfs);
    ThroughoutEnd(s0, ops, fcfs);
    assert WaitqsOk(s) && NoDup(Waiters(s, q));
    hide Run, CanRun, Fitting, Undisturbed, Inv, WaitqsOk, Leads;
    AheadAt(Waiters(s, q), i, j);
  }

  lemma {:induction false} ThroughoutEnd(s: State, ops: seq<Op>, fcfs: bool)
    requires Inv(s) && CanRun(s, ops) && InOrderThroughout(s, ops, fcfs)
    ensures InOrder(Run(s, ops), fcfs)
    decreases |ops|
  {
    if ops == [] {
    } else {
      StepKeeps(s, ops[0]);
      hide Inv, InOrder, Step;
      ThroughoutEnd(Step(s, ops[0]), ops[1..], fcfs);
    }
  }

  /** Then a wake-up takes the best waiter, and the one of those that came first;
      the others go on waiting. */
  lemma {:induction false} WakeTakesBest(idle: Id, prio: nat, ops: seq<Op>, n: nat, ret: int, x: Id, fcfs: bool)
    requires CanRun(Initial(idle, prio), ops)
    requires Fitting(Initial(idle, prio), ops, fcfs) || Undisturbed(Initial(idle, prio), ops)
    requires PendsOn(Run(Initial(idle, prio), ops), x, Object(n))
    ensures var s := Run(Initial(idle, prio), ops);
            var r := Step(s, DoWake(n, ret));
            var t := Waiters(s, Object(n))[0];
            && PendsOn(s, t, Object(n)) && !Pended(r, t) && r.threads[t].ret == ret
            && (x != t ==> Leads(s, t, x, fcfs) && r.threads[x] == s.threads[x])
  {
    var s := Run(Initial(idle, prio), ops);
    WakeWakes(s, n, ret, x);
    var l := Waiters(s, Object(n));
    hide Run, CanRun, Fitting, Undisturbed, Inv, Leads, Waiters, Step;
    var i :| 0 <= i < |l| && l[i] == x;
    if i > 0 {
      WaitOrderLaw(idle, prio, ops, Object(n), 0, i, fcfs);
    }
  }

  /** A wake-up takes the waiter in front and leaves the others alone. */
  lemma {:induction false} WakeWakes(s: State, n: nat, ret: int, x: Id)
    requires Inv(s) && PendsOn(s, x, Object(n))
    ensures x in Waiters(s, Object(n))
    ensures var r, t := Step(s, DoWake(n, ret)), Waiters(s, Object(n))[0];
            && PendsOn(s, t, Object(n)) && t in r.threads && !Pended(r, t) && r.threads[t].ret == ret
            && x in r.threads && (x != t ==> r.threads[x] == s.threads[x])
  {
    var l := Waiters(s, Object(n));
    assert WaitqsOk(s) && x in l;
    assert l[0] in l && PendsOn(s, l[0], Object(n));
    WakeKeeps(s, Object(n), ret);
    hide Inv, WaitqsOk, WakeThread, Waiters;
    WakeThreadShape(s, l[0], ret);
  }

  // ---- a priority change that does not fit ---------------------------------------------

  function SpecimenOp(i: nat): Op {
    if i == 0 then DoCreate(1, 5) else if i == 1 then DoCreate(2, 6) else if i == 2 then DoStart(1)
    else if i == 3 then DoStart(2) else if i == 4 then DoSwap else if i == 5 then DoPend(0, false)
    else if i == 6 then DoPend(0, false) else DoSetPrio(2, 3)
  }

  /** The states of a run: threads 1 and 2 start and pend, and then 2 gets a higher
      priority than 1. */
  ghost function Specimen(i: nat): State {
    var q, t1, t2 := Object(0), NewThread(5), NewThread(6);
    var r1, r2 := t1.(prestart := false, queued := true), t2.(prestart := false, queued := true, since := 1);
    var w1 := r1.(queued := false, pending := true, pendedOn := q, ret := -EAGAIN, since := 2);
    var w2 := r2.(queued := false, pending := true, pendedOn := q, ret := -EAGAIN, since := 3);
    var s0 := Initial(0, 15);
    var th := s0.threads[0];
    if i == 0 then s0
    else if i == 1 then s0.(threads := map[0 := th, 1 := t1])
    else if i == 2 then s0.(threads := map[0 := th, 1 := t1, 2 := t2])
    else if i == 3 then s0.(threads := map[0 := th, 1 := r1, 2 := t2], runq := [1], clock := 1, cache := 1)
    else if i == 4 then s0.(threads := map[0 := th, 1 := r1, 2 := r2], runq := [1, 2], clock := 2, cache := 1)
    else if i == 5 then s0.(threads := map[0 := th, 1 := r1, 2 := r2], runq := [1, 2], clock := 2, cache := 1, current := 1)
    else if i == 6 then State(map[0 := th, 1 := w1, 2 := r2], map[q := [1]], [2], 3, 2, 2, 0)
    else if i == 7 then State(map[0 := th, 1 := w1, 2 := w2], map[q := [1, 2]], [], 4, 0, 0, 0)
    else State(map[0 := th, 1 := w1, 2 := w2.(prio := 3)], map[q := [1, 2]], [], 4, 0, 0, 0)
  }

  lemma {:induction false} SpecimenCreates(i: nat)
    requires i < 2 && Inv(Specimen(i))
    ensures Enabled(Specimen(i), SpecimenOp(i)) && Step(Specimen(i), SpecimenOp(i)) == Specimen(i + 1)
  {
    hide Inv;
  }

  lemma {:induction false} SpecimenStarts(i: nat)
    requires 2 <= i < 5 && Inv(Specimen(i))
    ensures Enabled(Specimen(i), SpecimenOp(i)) && Step(Specimen(i), SpecimenOp(i)) == Specimen(i + 1)
  {
    hide Inv;
    if i == 4 {
    } else {
      var s, t := Specimen(i), i - 1;
      assert s.threads[t].prestart && Ready(s.threads[t].(prestart := false));
      assert Step(s, SpecimenOp(i)).runq == Specimen(i + 1).runq;
      assert Step(s, SpecimenOp(i)).threads == Specimen(i + 1).threads;
    }
  }

  lemma {:induction false} SpecimenLeaves(i: nat)
    requires 5 <= i < 7
    ensures var s, s1 := Specimen(i), Specimen(i + 1);
            && Running(s) && Enqueue(s, Waiters(s, Object(0)), s.current) == Waiters(s1, Object(0))
            && DequeueIfQueued(s, s.current) == s.(runq := s1.runq,
                 threads := s.threads[s.current := s.threads[s.current].(queued := false)])
  {
    var s := Specimen(i);
    var l := Waiters(s, Object(0));
    if i == 5 {
      assert l == [] && Slot(s, l, 5) == 0;
    } else {
      assert l == [1] && l[1..] == [] && Slot(s, l, 6) == 1 + Slot(s, l[1..], 6);
    }
  }

  /** What pending the current thread leaves, written out. */
  function Left(s: State, q: WaitQ, runq: seq<Id>, l: seq<Id>): State
    requires s.current in s.threads
  {
    var th := s.threads[s.current].(queued := false, pending := true, pendedOn := q, ret := -EAGAIN, since := s.clock);
    var next := if runq == [] then s.idle else runq[0];
    State(s.threads[s.current := th], s.waitqs[q := l], runq, s.clock + 1, next, next, s.idle)
  }

  lemma {:induction false} PendLeaves(s: State, q: WaitQ, runq: seq<Id>, l: seq<Id>)
    requires s.current in s.threads && Enqueue(s, Waiters(s, q), s.current) == l
    requires DequeueIfQueued(s, s.current) ==
               s.(runq := runq, threads := s.threads[s.current := s.threads[s.current].(queued := false)])
    ensures PendCurrent(s, q, false) == Left(s, q, runq, l)
  {
    hide Enqueue, DequeueIfQueued;
    var t, s1 := s.current, Unready(s, s.current);
    var th := s.threads[t].(queued := false);
    assert s1 == s.(runq := runq, threads := s.threads[t := th], cache := NextUp(s1));
    EnqueueSame(s, s1, Waiters(s, q), t);
    hide Unready;
    assert Waiters(s1, q) == Waiters(s, q);
    assert PendOn(s1, t, q, false).threads == Left(s, q, runq, l).threads;
  }

  lemma {:induction false} SpecimenLeft(i: nat)
    requires 5 <= i < 7
    ensures var s, s1 := Specimen(i), Specimen(i + 1);
            s.current in s.threads && s1 == Left(s, Object(0), s1.runq, Waiters(s1, Object(0)))
  {
    var s, s1 := Specimen(i), Specimen(i + 1);
    var s2 := Left(s, Object(0), s1.runq, Waiters(s1, Object(0)));
    if i == 5 {
      assert s1.threads == s2.threads && s1.waitqs == s2.waitqs;
    } else {
      assert s1.threads == s2.threads && s1.waitqs == s2.waitqs;
    }
  }

  lemma {:induction false} SpecimenPends(i: nat)
    requires 5 <= i < 7 && Inv(Specimen(i))
    ensures Enabled(Specimen(i), SpecimenOp(i)) && Step(Specimen(i), SpecimenOp(i)) == Specimen(i + 1)
  {
    hide Inv, Enqueue, DequeueIfQueued, PendCurrent, Specimen, Left, Waiters, Prevented;
    SpecimenLeaves(i);
    SpecimenLeft(i);
    var s, s1 := Specimen(i), Specimen(i + 1);
    PendLeaves(s, Object(0), s1.runq, Waiters(s1, Object(0)));
  }

  lemma {:induction false} SlotSame(s: State, s1: State, l: seq<Id>, p: int)
    requires forall x :: PrioOf(s1, x) == PrioOf(s, x)
    ensures Slot(s1, l, p) == Slot(s, l, p)
  {
    if l == [] {
    } else {
      SlotSame(s, s1, l[1..], p);
    }
  }

  lemma {:induction false} EnqueueSame(s: State, s1: State, l: seq<Id>, t: Id)
    requires forall x :: PrioOf(s1, x) == PrioOf(s, x)
    ensures Enqueue(s1, l, t) == Enqueue(s, l, t)
  {
    SlotSame(s, s1, l, PrioOf(s, t));
  }

  lemma {:induction false} SpecimenRaise()
    requires Inv(Specimen(7))
    ensures Enabled(Specimen(7), SpecimenOp(7)) && Step(Specimen(7), SpecimenOp(7)) == Specimen(8)
  {
    hide Inv;
  }

  lemma {:induction false} SpecimenStep(i: nat)
    requires i < 8 && Inv(Specimen(i))
    ensures Enabled(Specimen(i), SpecimenOp(i)) && Step(Specimen(i), SpecimenOp(i)) == Specimen(i + 1)
    ensures Inv(Specimen(i + 1))
  {
    hide *;
    if i < 2 {
      SpecimenCreates(i);
    } else if i < 5 {
      SpecimenStarts(i);
    } else if i < 7 {
      SpecimenPends(i);
    } else {
      SpecimenRaise();
    }
    StepKeeps(Specimen(i), SpecimenOp(i));
  }

  function SpecimenOps(i: nat): seq<Op>
    decreases 8 - i
  {
    if i >= 8 then [] else [SpecimenOp(i)] + SpecimenOps(i + 1)
  }

  lemma {:induction false} RunOne(s: State, op: Op, ops: seq<Op>)
    requires Inv(s) && Enabled(s, op) && Inv(Step(s, op)) && CanRun(Step(s, op), ops)
    ensures CanRun(s, [op] + ops) && Run(s, [op] + ops) == Run(Step(s, op), ops)
  {
    assert ([op] + ops)[1..] == ops;
  }

  lemma {:induction false} SpecimenRun(i: nat)
    requires i <= 8 && Inv(Specimen(i))
    ensures CanRun(Specimen(i), SpecimenOps(i)) && Run(Specimen(i), SpecimenOps(i)) == Specimen(8)
    decreases 8 - i
  {
    hide Inv, Specimen, Step, Enabled;
    if i < 8 {
      SpecimenStep(i);
      SpecimenRun(i + 1);
      RunOne(Specimen(i), SpecimenOp(i), SpecimenOps(i + 1));
    }
  }

  /** A run after which a wake-up takes a waiter although one of higher priority
      waits on the same queue. */
  lemma {:induction false} WakeTakesLower() returns (ops: seq<Op>)
    ensures CanRun(Initial(0, 15), ops)
    ensures var s := Run(Initial(0, 15), ops);
            var r := Step(s, DoWake(0, 0));
            && PendsOn(s, 1, Object(0)) && PendsOn(s, 2, Object(0)) && PrioOf(s, 2) < PrioOf(s, 1)
            && 1 in r.threads && !Pended(r, 1) && PendsOn(r, 2, Object(0))
  {
    assert Specimen(0) == Initial(0, 15);
    assert PendsOn(Specimen(8), 1, Object(0)) && PendsOn(Specimen(8), 2, Object(0));
    assert Waiters(Specimen(8), Object(0)) == [1, 2] && PrioOf(Specimen(8), 2) < PrioOf(Specimen(8), 1);
    hide Inv, Specimen, CanRun, Run, Step, SpecimenOps;
    ops := SpecimenOps(0);
    SpecimenRun(0);
    WakeWakes(Specimen(8), 0, 0, 2);
  }
}
