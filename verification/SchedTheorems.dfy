/**
 Aborting a thread, whole runs of the scheduler, and what holds of them.
 */
module SchedTheorems {
  import opened IdList
  import opened SchedSpec
  import opened SchedInvariant
  import opened SchedRuns

  // ---- end_thread() -------------------------------------------------------------------

  function BuriedRecord(th: Thread): Thread {
    th.(dead := true, queued := false, pending := false, pendedOn := Nowhere, timeout := false)
  }

  /** The three list operations of end_thread(), on any thread that is dead. */
  lemma {:induction false} OffListsShape(s: State, t: Id)
    requires RunqOk(s) && WaitqsOk(s) && t in s.threads && (s.threads[t].pending <==> s.threads[t].pendedOn != Nowhere)
    ensures var s1 := AbortTimeout(UnpendIfPended(DequeueIfQueued(s, t), t), t);
            && RunqOk(s1) && WaitqsOk(s1)
            && s1.threads == s.threads[t := s.threads[t].(queued := false, pending := false, pendedOn := Nowhere, timeout := false)]
            && s1.current == s.current && s1.idle == s.idle
  {
    hide RunqOk, WaitqsOk, DequeueIfQueued, UnpendIfPended;
    DequeueShape(s, t);
    var s1 := DequeueIfQueued(s, t);
    UnpendShape(s1, t);
    var s2 := UnpendIfPended(s1, t);
    var th := s2.threads[t].(timeout := false);
    SetThreadRunq(s2, t, th);
    SetThreadWaitqs(s2, t, th);
    assert SetThread(s2, t, th).threads == s.threads[t := th];
  }

  lemma {:induction false} BuryShape(s: State, t: Id)
    requires Inv(s) && t in s.threads && t != s.idle && !s.threads[t].dead
    ensures var s1 := Bury(s, t);
            && RunqOk(s1) && WaitqsOk(s1) && s1.threads == s.threads[t := BuriedRecord(s.threads[t])]
            && s1.current == s.current && s1.idle == s.idle
  {
    InvParts(s);
    var th := s.threads[t].(dead := true);
    assert BitsOk(s.threads[t], false) && RunqOk(s) && WaitqsOk(s);
    hide Inv, Settled, RunqOk, WaitqsOk, DequeueIfQueued, UnpendIfPended;
    SetThreadRunq(s, t, th);
    SetThreadWaitqs(s, t, th);
    var s0 := SetThread(s, t, th);
    OffListsShape(s0, t);
    assert s0.threads[t := BuriedRecord(s.threads[t])] == s.threads[t := BuriedRecord(s.threads[t])];
  }

  lemma {:induction false} BurySettled(s: State, t: Id)
    requires Inv(s) && t in s.threads && t != s.idle && !s.threads[t].dead
    ensures Settled(Bury(s, t), JoinOf(t))
  {
    InvParts(s);
    BuryShape(s, t);
    var s1 := Bury(s, t);
    assert Base(s) && AllOk(s, Nowhere);
    hide Inv, Settled, RunqOk, WaitqsOk, Bury;
    forall x | x in s1.threads ensures BitsOk(s1.threads[x], x == s1.idle) && JoinsLive(s1, x, JoinOf(t)) {
      assert x in s.threads && BitsOk(s.threads[x], x == s.idle) && JoinsLive(s, x, Nowhere);
    }
  }

  /** One thread off the front of a wait queue. */
  lemma {:induction false} WakeThreadShape(s: State, t: Id, ret: int)
    requires t in s.threads && s.current in s.threads && s.threads[t].pendedOn != Nowhere
    ensures var s1 := WakeThread(s, t, ret);
            && (forall x :: x in s.threads && x != t ==> s1.threads[x] == s.threads[x])
            && s1.threads[t].ret == ret && s1.threads[t].pendedOn == Nowhere && !s1.threads[t].timeout
            && s1.threads[t].dead == s.threads[t].dead && s1.threads[t].suspended == s.threads[t].suspended
            && (forall q :: q != s.threads[t].pendedOn ==> Waiters(s1, q) == Waiters(s, q))
            && Waiters(s1, s.threads[t].pendedOn) == Without(Waiters(s, s.threads[t].pendedOn), t)
            && s1.idle == s.idle
  {
    hide Without, Enqueue;
  }

  /** What unpend_all() does first: the thread in front is woken. */
  lemma {:induction false} WakeFirst(s: State, l: seq<Id>, d: WaitQ)
    requires Settled(s, d) && d != Nowhere && l == Waiters(s, d)
    ensures forall x :: x in l ==> x in s.threads
    ensures l != [] ==>
              var s1 := WakeThread(s, l[0], 0);
              && Settled(s1, d) && l[1..] == Waiters(s1, d) && l[0] !in l[1..] && s1.idle == s.idle
              && (forall x :: x in s.threads && x != l[0] ==> s1.threads[x] == s.threads[x])
              && s1.threads[l[0]].ret == 0 && s1.threads[l[0]].pendedOn == Nowhere
              && s1.threads[l[0]].dead == s.threads[l[0]].dead
  {
    assert forall x :: x in l ==> PendsOn(s, x, d);
    if l != [] {
      var t := l[0];
      assert t in l && PendsOn(s, t, d) && BitsOk(s.threads[t], t == s.idle) && NoDup(l) && s.current in s.threads;
      hide Settled, WakeThread, Waiters;
      WakeThreadKeeps(s, t, 0, d);
      WakeThreadShape(s, t, 0);
      WithoutHead(l);
    }
  }

  lemma {:induction false} WakeEachKeeps(s: State, l: seq<Id>, d: WaitQ)
    requires Settled(s, d) && d != Nowhere && l == Waiters(s, d)
    ensures s.current in s.threads && forall x :: x in l ==> x in s.threads
    ensures var r := WakeEach(s, l); Settled(r, d) && Waiters(r, d) == [] && r.idle == s.idle
    decreases |l|
  {
    assert s.current in s.threads;
    hide Settled, WakeThread;
    WakeFirst(s, l, d);
    if l != [] {
      WakeEachKeeps(WakeThread(s, l[0], 0), l[1..], d);
    }
  }

  /** unpend_all() wakes everyone on the queue, with result 0, and nobody else. */
  lemma {:induction false} WakeEachWakes(s: State, l: seq<Id>, d: WaitQ, x: Id)
    requires Settled(s, d) && d != Nowhere && l == Waiters(s, d) && x in s.threads
    ensures s.current in s.threads && forall y :: y in l ==> y in s.threads
    ensures var r := WakeEach(s, l);
            if x in l then r.threads[x].ret == 0 && r.threads[x].pendedOn == Nowhere && r.threads[x].dead == s.threads[x].dead
            else r.threads[x] == s.threads[x]
    decreases |l|
  {
    assert s.current in s.threads;
    hide Settled, WakeThread, Waiters;
    WakeFirst(s, l, d);
    if l != [] {
      WakeEachWakes(WakeThread(s, l[0], 0), l[1..], d, x);
    }
  }

  lemma {:induction false} WithoutHead(l: seq<Id>)
    requires NoDup(l) && l != []
    ensures Without(l, l[0]) == l[1..] && l[0] !in l[1..]
  {
    IndexUnique(l, 0);
    TailAt(l);
  }

  lemma {:induction false} NobodyLeft(s: State, d: WaitQ)
    requires Settled(s, d) && d != Nowhere && Waiters(s, d) == []
    ensures Settled(s, Nowhere)
  {
    forall x | x in s.threads ensures JoinsLive(s, x, Nowhere) {
      assert JoinsLive(s, x, d) && !PendsOn(s, x, d) by {
        assert x !in Waiters(s, d);
      }
    }
    hide RunqOk, WaitqsOk;
  }

  /** Aborting a thread takes it off every list and wakes all its joiners. */
  lemma {:induction false} EndThreadKeeps(s: State, t: Id)
    requires Inv(s) && t in s.threads && t != s.idle
    ensures forall x :: x in Waiters(Bury(s, t), JoinOf(t)) ==> x in s.threads
    ensures Inv(EndThread(s, t))
  {
    if s.threads[t].dead {
      InvParts(s);
      DeadPendsNowhere(s, t);
    } else {
      hide Inv, Bury, WakeEach, UpdateCache, Settled, CacheOk;
      BurySettled(s, t);
      var s1, d := Bury(s, t), JoinOf(t);
      var l := Waiters(s1, d);
      WakeEachKeeps(s1, l, d);
      NobodyLeft(WakeEach(s1, l), d);
      UpdateCacheOk(WakeEach(s1, l), true, Nowhere);
      InvFrom(EndThread(s, t));
    }
  }

  lemma {:induction false} DeadPendsNowhere(s: State, t: Id)
    requires Settled(s, Nowhere) && t in s.threads && s.threads[t].dead
    ensures forall x :: x in Waiters(Bury(s, t), JoinOf(t)) ==> x in s.threads
  {
    assert BitsOk(s.threads[t], t == s.idle);
    assert Waiters(Bury(s, t), JoinOf(t)) == Waiters(s, JoinOf(t));
    assert forall x :: x in Waiters(s, JoinOf(t)) ==> PendsOn(s, x, JoinOf(t));
  }

  lemma {:induction false} JoinersKnown(s: State, t: Id, x: Id)
    requires Inv(s) && t in s.threads && t != s.idle && !s.threads[t].dead && x in s.threads
    ensures var s1 := Bury(s, t);
            && (x in Waiters(s1, JoinOf(t)) <==> s.threads[x].pendedOn == JoinOf(t))
            && (s.threads[x].pendedOn == JoinOf(t) ==> x != t && x != s.idle)
            && s1.threads[x] == if x == t then BuriedRecord(s.threads[t]) else s.threads[x]
  {
    BuryShape(s, t);
    var s1 := Bury(s, t);
    assert BitsOk(s.threads[x], x == s.idle) && JoinsLive(s, x, Nowhere);
    hide Inv, Bury;
    assert x in Waiters(s1, JoinOf(t)) <==> PendsOn(s1, x, JoinOf(t));
  }

  /** Everyone who was joining the thread is woken with result 0 and pends no
      more; the thread is dead; no other thread has changed. */
  lemma {:induction false} AbortWakesJoiners(s: State, t: Id, x: Id)
    requires Inv(s) && t in s.threads && t != s.idle && !s.threads[t].dead && x in s.threads
    ensures s.current in s.threads && forall y :: y in Waiters(Bury(s, t), JoinOf(t)) ==> y in s.threads
    ensures var r := EndThread(s, t);
            && x in r.threads && t in r.threads && r.threads[t].dead
            && (s.threads[x].pendedOn == JoinOf(t) ==>
                  && r.threads[x].ret == 0 && r.threads[x].pendedOn == Nowhere && !r.threads[x].pending
                  && (r.threads[x].queued <==> Ready(r.threads[x])))
            && (x != t && s.threads[x].pendedOn != JoinOf(t) ==> r.threads[x] == s.threads[x])
  {
    hide Inv, Settled, Bury, WakeEach, Waiters;
    EndThreadKeeps(s, t);
    BurySettled(s, t);
    JoinersKnown(s, t, x);
    JoinersKnown(s, t, t);
    var s1, d := Bury(s, t), JoinOf(t);
    WakeEachKeeps(s1, Waiters(s1, d), d);
    WakeEachWakes(s1, Waiters(s1, d), d, x);
    WakeEachWakes(s1, Waiters(s1, d), d, t);
    BitsKnown(EndThread(s, t), x);
    BuryShape(s, t);
  }

  lemma {:induction false} BitsKnown(s: State, x: Id)
    requires Inv(s) && x in s.threads
    ensures BitsOk(s.threads[x], x == s.idle)
  {
  }

  // ---- runs ----------------------------------------------------------------------------

  datatype Op =
    | DoCreate(thread: Id, prio: int)
    | DoStart(thread: Id) | DoStartLater(thread: Id)
    | DoSuspend(thread: Id) | DoResume(thread: Id) | DoWakeup(thread: Id)
    | DoTimeout(thread: Id)
    | DoSetPrio(thread: Id, prio: int)
    | DoYield | DoSlice | DoSleep | DoLock | DoUnlock | DoSwap
    | DoPend(source: nat, timed: bool) | DoWake(source: nat, ret: int)
    | DoAbort(thread: Id) | DoJoin(thread: Id, wait: bool, timed: bool)

  function NewThread(prio: int): Thread {
    Thread(prio, 0, false, true, false, false, false, false, Nowhere, 0, 0)
  }

  /** What the kernel's assertions demand of the callers: the idle thread is left
      alone, and only a running thread blocks, yields, locks or joins. */
  predicate Enabled(s: State, op: Op) {
    match op
    case DoCreate(t, prio) => t !in s.threads
    case DoStart(t) => t in s.threads && t != s.idle
    case DoStartLater(t) =>
      t in s.threads && t != s.idle && t != s.current && s.threads[t].prestart && !s.threads[t].dead
    case DoSuspend(t) => t in s.threads && t != s.idle
    case DoResume(t) => t in s.threads && t != s.idle
    case DoWakeup(t) => t in s.threads && t != s.idle
    case DoTimeout(t) => t in s.threads && t != s.idle && s.threads[t].timeout
    case DoSetPrio(t, prio) => t in s.threads && t != s.idle
    case DoYield => Running(s)
    case DoSlice => Running(s) && Preemptible(s.threads[s.current])
    case DoSleep => Running(s)
    case DoLock => Running(s)
    case DoUnlock => Running(s) && s.threads[s.current].locked > 0
    case DoSwap => true
    case DoPend(n, timed) => Running(s)
    case DoWake(n, ret) => true
    case DoAbort(t) => t in s.threads && t != s.idle
    case DoJoin(t, wait, timed) => Running(s) && t in s.threads
  }

  ghost function Step(s: State, op: Op): (r: State)
    requires Inv(s) && Enabled(s, op)
  {
    match op
    case DoCreate(t, prio) => SetThread(s, t, NewThread(prio))
    case DoStart(t) => Start(s, t)
    case DoStartLater(t) => StartLater(s, t)
    case DoSuspend(t) => Suspend(s, t)
    case DoResume(t) => Resume(s, t)
    case DoWakeup(t) => Wakeup(s, t)
    case DoTimeout(t) => ThreadTimeout(s, t)
    case DoSetPrio(t, prio) => SetPrio(s, t, prio)
    case DoYield => Swap(Requeue(s, s.current, true))
    case DoSlice => Requeue(s, s.current, true)
    case DoSleep => Sleep(s)
    case DoLock => Lock(s)
    case DoUnlock => Unlock(s)
    case DoSwap => Swap(s)
    case DoPend(n, timed) => PendCurrent(s, Object(n), timed)
    case DoWake(n, ret) => WakeKeeps(s, Object(n), ret); Wake(s, Object(n), ret)
    case DoAbort(t) => EndThreadKeeps(s, t); EndThread(s, t)
    case DoJoin(t, wait, timed) => Join(s, t, wait, timed)
  }

  lemma {:induction false} CreateKeeps(s: State, t: Id, prio: int)
    requires Inv(s) && t !in s.threads
    ensures Inv(SetThread(s, t, NewThread(prio)))
  {
    var s1 := SetThread(s, t, NewThread(prio));
    CreateLists(s, t, prio);
    hide RunqOk, WaitqsOk;
    forall x | x in s1.threads ensures BitsOk(s1.threads[x], x == s1.idle) && JoinsLive(s1, x, Nowhere) {
      assert x == t || (x in s.threads && JoinsLive(s, x, Nowhere));
    }
  }

  lemma {:induction false} CreateLists(s: State, t: Id, prio: int)
    requires RunqOk(s) && WaitqsOk(s) && t !in s.threads
    ensures var s1 := SetThread(s, t, NewThread(prio)); RunqOk(s1) && WaitqsOk(s1)
  {
    var s1 := SetThread(s, t, NewThread(prio));
    assert forall x :: Queued(s1, x) == Queued(s, x);
    forall i | 0 <= i < |s.runq|
      ensures PrioOf(s1, s.runq[i]) == PrioOf(s, s.runq[i]) && SinceOf(s1, s.runq[i]) == SinceOf(s, s.runq[i])
    {
      assert s.runq[i] in s.runq && Queued(s, s.runq[i]);
    }
    assert forall q :: Waiters(s1, q) == Waiters(s, q);
    assert forall x, q :: PendsOn(s1, x, q) == PendsOn(s, x, q);
    hide Waiters, PendsOn;
  }

  lemma {:induction false} YieldKeeps(s: State)
    requires Inv(s) && Running(s)
    ensures Inv(Requeue(s, s.current, true)) && Inv(Swap(Requeue(s, s.current, true)))
  {
    BitsKnown(s, s.current);
    assert !s.threads[s.current].timeout;
    hide Inv, Requeue;
    RequeueKeeps(s, s.current, true);
    SwapKeeps(Requeue(s, s.current, true));
  }

  /** Every step keeps the invariant. */
  lemma {:induction false} StepKeeps(s: State, op: Op)
    requires Inv(s) && Enabled(s, op)
    ensures Inv(Step(s, op))
  {
    assert s.current in s.threads;
    hide Inv, Start, StartLater, Suspend, Resume, Wakeup, ThreadTimeout, SetPrio, Requeue, Sleep, Lock, Unlock,
         PendCurrent, Wake, EndThread, Join, Swap, Bury, Waiters, Prevented;
    match op
    case DoCreate(t, prio) => CreateKeeps(s, t, prio);
    case DoStart(t) => StartKeeps(s, t);
    case DoStartLater(t) => StartLaterKeeps(s, t);
    case DoSuspend(t) => SuspendKeeps(s, t);
    case DoResume(t) => ResumeKeeps(s, t);
    case DoWakeup(t) => WakeupKeeps(s, t);
    case DoTimeout(t) => ThreadTimeoutKeeps(s, t);
    case DoSetPrio(t, prio) => SetPrioKeeps(s, t, prio);
    case DoYield => YieldKeeps(s);
    case DoSlice => YieldKeeps(s);
    case DoSleep => SleepKeeps(s);
    case DoLock => LockKeeps(s);
    case DoUnlock => UnlockKeeps(s);
    case DoSwap => SwapKeeps(s);
    case DoPend(n, timed) => PendCurrentKeeps(s, Object(n), timed);
    case DoWake(n, ret) => WakeKeeps(s, Object(n), ret);
    case DoAbort(t) => EndThreadKeeps(s, t);
    case DoJoin(t, wait, timed) => JoinKeeps(s, t, wait, timed);
  }

  /** A run: at each point the step must be enabled. */
  ghost predicate CanRun(s: State, ops: seq<Op>)
    requires Inv(s)
    decreases |ops|
  {
    ops == [] || (Enabled(s, ops[0]) && (StepKeeps(s, ops[0]); CanRun(Step(s, ops[0]), ops[1..])))
  }

  ghost function Run(s: State, ops: seq<Op>): (r: State)
    requires Inv(s) && CanRun(s, ops)
    ensures Inv(r)
    decreases |ops|
  {
    if ops == [] then s else
      StepKeeps(s, ops[0]);
      Run(Step(s, ops[0]), ops[1..])
  }

  /** Only the idle thread, running. */
  ghost function Initial(idle: Id, prio: nat): (s: State)
    ensures Inv(s)
  {
    var s := State(map[idle := NewThread(prio).(prestart := false)], map[], [], 0, idle, idle, idle);
    assert forall q :: Waiters(s, q) == [];
    assert forall t, q :: !PendsOn(s, t, q);
    assert forall t :: !Queued(s, t);
    s
  }

  // ---- the laws --------------------------------------------------------------------------

  /** The cache invariant, over every run. */
  lemma {:induction false} CacheLaw(idle: Id, prio: nat, ops: seq<Op>)
    requires CanRun(Initial(idle, prio), ops)
    ensures var s := Run(Initial(idle, prio), ops);
            && s.current in s.threads
            && (|| (Queued(s, s.cache) && forall t :: Queued(s, t) && t != s.cache ==> Before(s, s.cache, t))
                || (s.cache == s.idle && forall t :: !Queued(s, t))
                || (s.cache == s.current && !Prevented(s.threads[s.current]) && !Preemptible(s.threads[s.current])))
  {
    var s := Run(Initial(idle, prio), ops);
    hide Run, CanRun;
    CacheMeans(s);
  }

  lemma {:induction false} CacheMeans(s: State)
    requires Inv(s)
    ensures s.current in s.threads
    ensures || (Queued(s, s.cache) && forall t :: Queued(s, t) && t != s.cache ==> Before(s, s.cache, t))
            || (s.cache == s.idle && forall t :: !Queued(s, t))
            || (s.cache == s.current && !Prevented(s.threads[s.current]) && !Preemptible(s.threads[s.current]))
  {
    assert RunqOk(s) && CacheOk(s);
    if s.cache == NextUp(s) && s.runq != [] {
      assert s.runq[0] in s.runq;
      forall t | Queued(s, t) && t != s.cache ensures Before(s, s.cache, t) {
        HeadIsBest(s, t);
      }
    }
  }

  /** The state bits say which list a thread is on, once, and never on two. */
  lemma {:induction false} ListsLaw(idle: Id, prio: nat, ops: seq<Op>, t: Id, q: WaitQ)
    requires CanRun(Initial(idle, prio), ops)
    ensures var s := Run(Initial(idle, prio), ops);
            && NoDup(s.runq) && NoDup(Waiters(s, q))
            && (t in s.runq <==> t in s.threads && s.threads[t].queued)
            && (t in Waiters(s, q) <==> q != Nowhere && t in s.threads && s.threads[t].pendedOn == q)
            && !(t in s.runq && t in Waiters(s, q))
            && (t in s.threads && t != s.idle ==> (t in s.runq <==> Ready(s.threads[t])))
  {
    var s := Run(Initial(idle, prio), ops);
    hide Run, CanRun;
    assert RunqOk(s) && (t in s.runq <==> Queued(s, t));
    assert WaitqsOk(s) && (t in Waiters(s, q) <==> PendsOn(s, t, q));
    if t in s.threads {
      BitsKnown(s, t);
    }
  }

  /** Threads stay, and the dead stay dead. */
  predicate Survives(s: State, s1: State) {
    forall x :: x in s.threads ==> x in s1.threads && (s.threads[x].dead ==> s1.threads[x].dead)
  }

  lemma {:induction false} BlockSurvives(s: State, op: Op)
    requires Inv(s) && Enabled(s, op)
    requires op.DoYield? || op.DoSlice? || op.DoSleep? || op.DoPend? || op.DoJoin?
    ensures Survives(s, Step(s, op))
  {
    hide RunqOk, WaitqsOk, AllOk, Enqueue, Without, Waiters;
  }

  lemma {:induction false} AbortedStays(s: State, t: Id, x: Id)
    requires Inv(s) && t in s.threads && t != s.idle && x in s.threads
    ensures var r := Step(s, DoAbort(t)); x in r.threads && (s.threads[x].dead ==> r.threads[x].dead)
  {
    EndThreadKeeps(s, t);
    if !s.threads[t].dead {
      AbortWakesJoiners(s, t, x);
      JoinerAlive(s, x);
    }
    hide Inv, Bury, Waiters, WakeEach;
  }

  lemma {:induction false} AbortSurvives(s: State, t: Id)
    requires Inv(s) && t in s.threads && t != s.idle
    ensures Survives(s, Step(s, DoAbort(t)))
  {
    hide Inv, Step;
    forall x | x in s.threads
      ensures var r := Step(s, DoAbort(t)); x in r.threads && (s.threads[x].dead ==> r.threads[x].dead)
    {
      AbortedStays(s, t, x);
    }
  }

  lemma {:induction false} JoinerAlive(s: State, x: Id)
    requires Inv(s) && x in s.threads
    ensures s.threads[x].pendedOn.JoinOf? ==> !s.threads[x].dead
  {
    BitsKnown(s, x);
  }

  lemma {:induction false} WakeSurvives(s: State, n: nat, ret: int)
    requires Inv(s)
    ensures Survives(s, Step(s, DoWake(n, ret)))
  {
    WakeKeeps(s, Object(n), ret);
    hide RunqOk, WaitqsOk, AllOk, Enqueue, Without, Waiters;
  }

  lemma {:induction false} OtherSurvives(s: State, op: Op)
    requires Inv(s) && Enabled(s, op)
    requires !(op.DoYield? || op.DoSlice? || op.DoSleep? || op.DoPend? || op.DoJoin? || op.DoAbort? || op.DoWake?)
    ensures Survives(s, Step(s, op))
  {
    CurrentKnown(s);
    hide Inv, Enqueue, Without, Waiters, NextUp, ShouldPreempt, Ready, Prevented, Preemptible, Survives;
    if op.DoTimeout? {
      hide ReadyThread;
      TimeoutSurvives(s, op.thread);
    } else if op.DoSetPrio? || op.DoSuspend? || op.DoUnlock? {
      QueueSurvives(s, op);
    } else {
      hide ThreadTimeout, SetPrio, Suspend, Unlock;
      assert Survives(s, Step(s, op)) by {
        FlagSurvives(s, op);
      }
    }
  }

  lemma {:induction false} CurrentKnown(s: State)
    requires Inv(s)
    ensures s.current in s.threads
  {
  }

  lemma {:induction false} QueueSurvives(s: State, op: Op)
    requires Inv(s) && Enabled(s, op) && (op.DoSetPrio? || op.DoSuspend? || op.DoUnlock?)
    ensures Survives(s, Step(s, op))
  {
    CurrentKnown(s);
    hide Inv, Enqueue, Without, Waiters, NextUp, ShouldPreempt, Ready, Prevented, Preemptible, ThreadTimeout, ReadyThread;
  }

  lemma {:induction false} FlagSurvives(s: State, op: Op)
    requires Inv(s) && Enabled(s, op)
    requires op.DoCreate? || op.DoStart? || op.DoStartLater? || op.DoResume? || op.DoWakeup? || op.DoLock? || op.DoSwap?
    ensures Survives(s, Step(s, op))
  {
    CurrentKnown(s);
    hide Inv, Enqueue, Without, Waiters, NextUp, ShouldPreempt, Ready, Prevented, Preemptible;
    hide ThreadTimeout, SetPrio, Suspend, Unlock;
  }

  lemma {:induction false} TimeoutSurvives(s: State, t: Id)
    requires s.current in s.threads && t in s.threads
    ensures Survives(s, ThreadTimeout(s, t))
  {
    hide Enqueue, Without, Waiters, NextUp, ShouldPreempt, Ready, Prevented, Preemptible;
  }

  lemma {:induction false} StepSurvives(s: State, op: Op)
    requires Inv(s) && Enabled(s, op)
    ensures Survives(s, Step(s, op))
  {
    hide Inv, Step, Survives;
    if op.DoYield? || op.DoSlice? || op.DoSleep? || op.DoPend? || op.DoJoin? {
      BlockSurvives(s, op);
    } else if op.DoAbort? {
      AbortSurvives(s, op.thread);
    } else if op.DoWake? {
      WakeSurvives(s, op.source, op.ret);
    } else {
      OtherSurvives(s, op);
    }
  }

  /** Dead is forever: from the moment a thread is dead it is on no list, has no
      timeout, and nobody waits to join it. */
  lemma {:induction false} DeadForever(s: State, ops: seq<Op>, t: Id)
    requires Inv(s) && CanRun(s, ops) && t in s.threads && s.threads[t].dead
    ensures var r := Run(s, ops);
            && t in r.threads && r.threads[t].dead
            && t !in r.runq && !r.threads[t].queued && !r.threads[t].timeout && r.threads[t].pendedOn == Nowhere
            && (forall q :: t !in Waiters(r, q)) && Waiters(r, JoinOf(t)) == []
    decreases |ops|
  {
    if ops == [] {
      DeadKnown(s, t);
    } else {
      StepKeeps(s, ops[0]);
      StepSurvives(s, ops[0]);
      hide Inv, Step;
      DeadForever(Step(s, ops[0]), ops[1..], t);
    }
  }

  lemma {:induction false} DeadKnown(s: State, t: Id)
    requires Inv(s) && t in s.threads && s.threads[t].dead
    ensures t !in s.runq && !s.threads[t].queued && !s.threads[t].timeout && s.threads[t].pendedOn == Nowhere
    ensures (forall q :: t !in Waiters(s, q)) && Waiters(s, JoinOf(t)) == []
  {
    assert RunqOk(s) && WaitqsOk(s);
    BitsKnown(s, t);
    assert t in s.runq <==> Queued(s, t);
    forall q ensures t !in Waiters(s, q) {
      assert t in Waiters(s, q) <==> PendsOn(s, t, q);
    }
    assert Waiters(s, JoinOf(t)) == [] || Waiters(s, JoinOf(t))[0] in Waiters(s, JoinOf(t));
    forall x ensures x !in Waiters(s, JoinOf(t)) {
      assert x in Waiters(s, JoinOf(t)) <==> PendsOn(s, x, JoinOf(t));
      assert x in s.threads ==> JoinsLive(s, x, Nowhere);
    }
  }

  /** k_thread_join(): when it returns at once, and with what; otherwise the caller
      pends on the thread's join queue. */
  lemma {:induction false} JoinLaw(s: State, t: Id, wait: bool, timed: bool)
    requires Inv(s) && Running(s) && t in s.threads
    ensures var r := Join(s, t, wait, timed);
            match JoinCode(s, t, wait)
            case Done(code) =>
              && r == s
              && (code == 0 <==> s.threads[t].dead)
              && (code == -EBUSY <==> !s.threads[t].dead && !wait)
              && (code == -EDEADLK <==> !s.threads[t].dead && wait && (t == s.current || s.threads[t].pendedOn == JoinOf(s.current)))
            case Joining =>
              && s.current in r.threads && r.threads[s.current].pendedOn == JoinOf(t) && s.current in Waiters(r, JoinOf(t))
              && r.threads[s.current].timeout == timed && r.current != s.current && !r.threads[t].dead
  {
    JoinKeeps(s, t, wait, timed);
    if JoinCode(s, t, wait).Joining? {
      var r := Join(s, t, wait, timed);
      BitsKnown(s, s.current);
      UnreadyCurrent(s);
      assert r.threads == s.threads[s.current := r.threads[s.current]];
      BitsKnown(r, s.current);
      assert PendsOn(r, s.current, JoinOf(t)) && WaitqsOk(r);
      assert JoinsLive(r, s.current, Nowhere);
      assert r.current == r.cache && (r.cache == NextUp(r));
      CurrentElsewhere(r, s.current);
    }
  }

  lemma {:induction false} CurrentElsewhere(r: State, t: Id)
    requires Inv(r) && t in r.threads && t != r.idle && r.threads[t].pendedOn != Nowhere
    ensures NextUp(r) != t
  {
    BitsKnown(r, t);
    if r.runq != [] {
      assert r.runq[0] in r.runq && RunqOk(r) && Queued(r, r.runq[0]);
    }
  }
}
