/**
 What each call of the scheduler does to the threads: which of them can run
 afterwards, what the others find, and who gets the processor.
 */
module SchedEffects {
  import opened IdList
  import opened SchedSpec
  import opened SchedInvariant
  import opened SchedRuns
  import opened SchedTheorems

  /** Thread `t` is on the ready queue, once, and on no wait queue. */
  ghost predicate OnReadyQueue(s: State, t: Id) {
    multiset(s.runq)[t] == 1 && forall q :: t !in Waiters(s, q)
  }

  ghost predicate OffReadyQueue(s: State, t: Id) {
    t !in s.runq
  }

  /** The record of `t` is `th`, up to its place in a queue; every other thread has the
      record it had. */
  predicate OnlyThread(s: State, r: State, t: Id, th: Thread) {
    && t in s.threads && t in r.threads
    && r.threads[t] == th.(queued := r.threads[t].queued, since := r.threads[t].since)
    && r.threads.Keys == s.threads.Keys && forall x :: x in s.threads && x != t ==> r.threads[x] == s.threads[x]
  }

  lemma {:induction false} OnceInList(l: seq<Id>, x: Id)
    requires NoDup(l) && x in l
    ensures multiset(l)[x] == 1
  {
    var k := IndexOf(l, x);
    hide IndexOf;
    var a, b := l[..k], l[k + 1..];
    assert l == a + [x] + b;
    assert x !in a && x !in b;
    assert multiset(l) == multiset(a) + multiset{x} + multiset(b);
  }

  /** Where a thread is follows from its record. */
  lemma {:induction false} PlaceFollows(s: State, t: Id)
    requires Inv(s) && t in s.threads && t != s.idle
    ensures Ready(s.threads[t]) ==> s.threads[t].queued && OnReadyQueue(s, t)
    ensures !Ready(s.threads[t]) ==> !s.threads[t].queued && OffReadyQueue(s, t)
  {
    BitsKnown(s, t);
    assert RunqOk(s) && WaitqsOk(s) && (t in s.runq <==> Queued(s, t));
    if t in s.runq {
      OnceInList(s.runq, t);
      forall q ensures t !in Waiters(s, q) {
        assert t in Waiters(s, q) <==> PendsOn(s, t, q);
      }
    }
  }

  lemma {:induction false} ReadyRecord(s: State, t: Id)
    requires s.current in s.threads && t in s.threads
    ensures OnlyThread(s, ReadyThread(s, t), t, s.threads[t])
    ensures ReadyThread(s, t).waitqs == s.waitqs && ReadyThread(s, t).current == s.current
  {
    hide Enqueue, NextUp, ShouldPreempt;
  }

  /** A change of the record before the thread is made ready. */
  lemma {:induction false} SetThenReady(s: State, t: Id, th: Thread)
    requires s.current in s.threads && t in s.threads
    ensures var r := ReadyThread(SetThread(s, t, th), t); OnlyThread(s, r, t, th) && r.current == s.current
  {
    hide ReadyThread;
    ReadyRecord(SetThread(s, t, th), t);
  }

  // ---- becoming able to run -----------------------------------------------------------

  /** A thread that had not started starts, and can run unless it is suspended, or
      starts only after a delay, or is dead; a started one is left alone. */
  lemma {:induction false} StartLaw(s: State, t: Id)
    requires Inv(s) && Enabled(s, DoStart(t))
    ensures var r, th := Step(s, DoStart(t)), s.threads[t];
            && (!th.prestart ==> r == s)
            && (th.prestart ==>
                  && OnlyThread(s, r, t, th.(prestart := false)) && r.current == s.current
                  && (if !th.pending && !th.suspended && !th.dead && !th.timeout then OnReadyQueue(r, t)
                      else OffReadyQueue(r, t)))
  {
    CurrentKnown(s);
    StepKeeps(s, DoStart(t));
    var r, th := Step(s, DoStart(t)), s.threads[t];
    hide Inv, ReadyThread, OnlyThread, OnReadyQueue, OffReadyQueue;
    if th.prestart {
      SetThenReady(s, t, th.(prestart := false));
      IdleSame(s, DoStart(t));
      PlaceFromRecord(s, r, t, th.(prestart := false));
    }
  }

  lemma {:induction false} PlaceFromRecord(s: State, r: State, t: Id, th: Thread)
    requires Inv(r) && OnlyThread(s, r, t, th) && t != r.idle
    ensures if Ready(th) then r.threads[t].queued && OnReadyQueue(r, t) else !r.threads[t].queued && OffReadyQueue(r, t)
  {
    hide Inv, OnReadyQueue, OffReadyQueue;
    PlaceFollows(r, t);
  }

  lemma {:induction false} IdleSame(s: State, op: Op)
    requires Inv(s) && Enabled(s, op)
    requires op.DoStart? || op.DoStartLater? || op.DoResume? || op.DoSuspend? || op.DoWakeup? || op.DoTimeout? || op.DoSetPrio?
    ensures Step(s, op).idle == s.idle
  {
    CurrentKnown(s);
    hide Inv, Enqueue, Without, Waiters, NextUp, ShouldPreempt, Ready;
  }

  /** A new thread has the priority asked for, has not started, holds no lock, and is on
      no queue. */
  lemma {:induction false} CreateLaw(s: State, t: Id, prio: int)
    requires Inv(s) && Enabled(s, DoCreate(t, prio))
    ensures var r := Step(s, DoCreate(t, prio));
            && t in r.threads && r == s.(threads := s.threads[t := r.threads[t]])
            && var th := r.threads[t];
               && th.prio == prio && th.locked == 0 && th.prestart && !th.suspended && !th.dead && !th.timeout
               && OffReadyQueue(r, t) && forall q :: t !in Waiters(r, q)
  {
    StepKeeps(s, DoCreate(t, prio));
    var r := Step(s, DoCreate(t, prio));
    assert RunqOk(r) && WaitqsOk(r) && (t in r.runq <==> Queued(r, t));
    forall q ensures t !in Waiters(r, q) {
      assert t in Waiters(r, q) <==> PendsOn(r, t, q);
    }
  }

  /** Starting after a delay arms the timeout and does nothing else. */
  lemma {:induction false} StartLaterLaw(s: State, t: Id)
    requires Inv(s) && Enabled(s, DoStartLater(t))
    ensures Step(s, DoStartLater(t)) == SetThread(s, t, s.threads[t].(timeout := true))
  {
    hide Inv;
  }

  lemma {:induction false} ResumeLaw(s: State, t: Id)
    requires Inv(s) && Enabled(s, DoResume(t))
    ensures var r, th := Step(s, DoResume(t)), s.threads[t];
            && (!th.suspended ==> r == s)
            && (th.suspended ==>
                  && OnlyThread(s, r, t, th.(suspended := false)) && r.current == s.current
                  && (if !th.pending && !th.prestart && !th.dead && !th.timeout then OnReadyQueue(r, t)
                      else OffReadyQueue(r, t)))
  {
    CurrentKnown(s);
    StepKeeps(s, DoResume(t));
    var r, th := Step(s, DoResume(t)), s.threads[t];
    hide Inv, ReadyThread, OnlyThread, OnReadyQueue, OffReadyQueue;
    if th.suspended {
      SetThenReady(s, t, th.(suspended := false));
      IdleSame(s, DoResume(t));
      PlaceFromRecord(s, r, t, th.(suspended := false));
    }
  }

  /** A wakeup ends a sleep, with or without a timeout: a thread that does not pend and
      whose timeout is armed, or which is suspended and nothing else, is neither
      asleep nor suspended, and can run if it has started. Any other is left alone. */
  lemma {:induction false} WakeupLaw(s: State, t: Id)
    requires Inv(s) && Enabled(s, DoWakeup(t))
    ensures var r, th := Step(s, DoWakeup(t)), s.threads[t];
            var sleeps := !th.pending && (th.timeout || (th.suspended && !th.prestart && !th.dead));
            && (!sleeps ==> r == s)
            && (sleeps ==>
                  && OnlyThread(s, r, t, th.(timeout := false, suspended := false)) && r.current == s.current
                  && (if th.prestart then OffReadyQueue(r, t) else OnReadyQueue(r, t)))
  {
    CurrentKnown(s);
    BitsKnown(s, t);
    StepKeeps(s, DoWakeup(t));
    var r, th := Step(s, DoWakeup(t)), s.threads[t];
    hide Inv, ReadyThread, OnlyThread, OnReadyQueue, OffReadyQueue;
    if !th.pending && (th.timeout || OnlySuspended(th)) {
      SetThenReady(s, t, th.(timeout := false, suspended := false));
      IdleSame(s, DoWakeup(t));
      PlaceFromRecord(s, r, t, th.(timeout := false, suspended := false));
    }
  }

  lemma {:induction false} TimeoutRecord(s: State, t: Id)
    requires s.current in s.threads && t in s.threads && !s.threads[t].dead
    requires s.threads[t].pending <==> s.threads[t].pendedOn != Nowhere
    ensures var r := ThreadTimeout(s, t);
            && OnlyThread(s, r, t, s.threads[t].(timeout := false, pending := false, pendedOn := Nowhere,
                                                 prestart := false, suspended := false))
            && r.current == s.current
  {
    hide ReadyThread, Without, Waiters, OnlyThread;
    var s1 := UnpendIfPended(AbortTimeout(s, t), t);
    var th := s.threads[t].(timeout := false, pending := false, pendedOn := Nowhere, prestart := false, suspended := false);
    assert s1.threads == s.threads[t := s1.threads[t]];
    assert s1.threads[t].(prestart := false, suspended := false) == th;
    SetThenReady(s1, t, th);
    OnlySame(s, s1, ReadyThread(SetThread(s1, t, th), t), t, th);
  }

  lemma {:induction false} OnlySame(s: State, s1: State, r: State, t: Id, th: Thread)
    requires t in s.threads && t in s1.threads && s1.threads == s.threads[t := s1.threads[t]] && OnlyThread(s1, r, t, th)
    ensures OnlyThread(s, r, t, th)
  {
  }

  /** A thread whose timeout has run out can run: it pends nowhere, has no timeout, has
      started and is not suspended. One that pended finds -EAGAIN. */
  lemma {:induction false} TimeoutLaw(s: State, t: Id)
    requires Inv(s) && Enabled(s, DoTimeout(t))
    ensures var r, th := Step(s, DoTimeout(t)), s.threads[t];
            && OnlyThread(s, r, t, th.(timeout := false, pending := false, pendedOn := Nowhere, prestart := false, suspended := false))
            && OnReadyQueue(r, t) && r.threads[t].queued && r.current == s.current
            && (th.pending ==> r.threads[t].ret == -11)
  {
    CurrentKnown(s);
    BitsKnown(s, t);
    StepKeeps(s, DoTimeout(t));
    IdleSame(s, DoTimeout(t));
    TimeoutRecord(s, t);
    var r, th := Step(s, DoTimeout(t)), s.threads[t];
    var th1 := th.(timeout := false, pending := false, pendedOn := Nowhere, prestart := false, suspended := false);
    assert Ready(th1) && r.threads[t].ret == th1.ret;
    hide Inv, ThreadTimeout, OnlyThread, OnReadyQueue, OffReadyQueue;
    PlaceFromRecord(s, r, t, th1);
  }

  /** Waking a wait queue gives its first thread the result; that thread pends no more,
      has no timeout and can run unless it is suspended. Nobody else is touched. */
  lemma {:induction false} WakeLaw(s: State, n: nat, ret: int)
    requires Inv(s)
    ensures var r, q := Step(s, DoWake(n, ret)), Object(n);
            && (Waiters(s, q) == [] ==> r == s)
            && (Waiters(s, q) != [] ==>
                  var t := Waiters(s, q)[0];
                  && t in s.threads
                  && OnlyThread(s, r, t, s.threads[t].(ret := ret, timeout := false, pending := false, pendedOn := Nowhere))
                  && Waiters(r, q) == Waiters(s, q)[1..] && r.current == s.current
                  && (if s.threads[t].suspended || s.threads[t].prestart then OffReadyQueue(r, t) else OnReadyQueue(r, t)))
  {
    CurrentKnown(s);
    StepKeeps(s, DoWake(n, ret));
    WakeKeeps(s, Object(n), ret);
    var q := Object(n);
    var l := Waiters(s, q);
    if l != [] {
      var t, r := l[0], Step(s, DoWake(n, ret));
      WaiterKnown(s, q);
      hide Inv, Waiters, WakeThread, OnlyThread, OnReadyQueue, OffReadyQueue, Without;
      WakeRecord(s, t, ret);
      WakeThreadShape(s, t, ret);
      WithoutHead(l);
      var th := s.threads[t].(ret := ret, timeout := false, pending := false, pendedOn := Nowhere);
      PlaceFromRecord(s, r, t, th);
    }
  }

  lemma {:induction false} WaiterKnown(s: State, q: WaitQ)
    requires Inv(s) && Waiters(s, q) != []
    ensures var t := Waiters(s, q)[0];
            t in s.threads && s.threads[t].pendedOn == q && q != Nowhere && t != s.idle && !s.threads[t].dead && NoDup(Waiters(s, q))
  {
    var t := Waiters(s, q)[0];
    assert t in Waiters(s, q) && WaitqsOk(s) && PendsOn(s, t, q);
    BitsKnown(s, t);
  }

  lemma {:induction false} WakeRecord(s: State, t: Id, ret: int)
    requires s.current in s.threads && t in s.threads
    ensures var r := WakeThread(s, t, ret);
            && OnlyThread(s, r, t, s.threads[t].(ret := ret, timeout := false, pending := false, pendedOn := Nowhere))
            && r.current == s.current
  {
    hide ReadyThread, Without, Waiters, OnlyThread;
    var s1 := AbortTimeout(Unpend(SetThread(s, t, s.threads[t].(ret := ret)), t), t);
    var th := s.threads[t].(ret := ret, timeout := false, pending := false, pendedOn := Nowhere);
    assert s1.threads == s.threads[t := th];
    ReadyRecord(s1, t);
    OnlySame(s, s1, ReadyThread(s1, t), t, th);
  }

  // ---- ceasing to run -------------------------------------------------------------------

  /** A suspended thread is off the ready queue and has no timeout; if it pends it still
      does. The current thread, when it suspends itself, is not the next to run. */
  lemma {:induction false} SuspendLaw(s: State, t: Id)
    requires Inv(s) && Enabled(s, DoSuspend(t))
    ensures var r := Step(s, DoSuspend(t));
            && OnlyThread(s, r, t, s.threads[t].(suspended := true, timeout := false))
            && OffReadyQueue(r, t) && r.cache != t && r.waitqs == s.waitqs && r.current == s.current
  {
    CurrentKnown(s);
    StepKeeps(s, DoSuspend(t));
    IdleSame(s, DoSuspend(t));
    var r, th := Step(s, DoSuspend(t)), s.threads[t].(suspended := true, timeout := false);
    assert OnlyThread(s, r, t, th) && r.waitqs == s.waitqs && r.current == s.current by {
      hide Without, NextUp, ShouldPreempt;
    }
    hide Suspend, OnlyThread, OnReadyQueue;
    PlaceFromRecord(s, r, t, th);
    NotNext(r, t);
  }

  /** A thread that cannot run is not the next to run. */
  lemma {:induction false} NotNext(s: State, t: Id)
    requires Inv(s) && t in s.threads && t != s.idle && Prevented(s.threads[t])
    ensures s.cache != t
  {
    CacheMeans(s);
    BitsKnown(s, t);
    hide Inv;
  }

  /** The current thread leaves the processor to the best thread that can run. */
  ghost predicate GivesWay(s: State, r: State) {
    && r.current == r.cache && r.current != s.current
    && (if r.runq == [] then r.current == r.idle
        else Queued(r, r.current) && forall x :: Queued(r, x) && x != r.current ==> Before(r, r.current, x))
  }

  lemma {:induction false} BestIsNext(s: State)
    requires Inv(s) && s.cache == NextUp(s)
    ensures if s.runq == [] then s.cache == s.idle
            else Queued(s, s.cache) && forall x :: Queued(s, x) && x != s.cache ==> Before(s, s.cache, x)
  {
    if s.runq != [] {
      assert s.runq[0] in s.runq && RunqOk(s);
      forall x | Queued(s, x) && x != s.cache ensures Before(s, s.cache, x) {
        HeadIsBest(s, x);
      }
    }
  }

  /** Sleeping: the caller is suspended until its timeout or a wakeup. */
  lemma {:induction false} SleepLaw(s: State)
    requires Inv(s) && Enabled(s, DoSleep)
    ensures var r := Step(s, DoSleep);
            && OnlyThread(s, r, s.current, s.threads[s.current].(timeout := true, suspended := true))
            && OffReadyQueue(r, s.current) && r.waitqs == s.waitqs && GivesWay(s, r)
  {
    CurrentKnown(s);
    StepKeeps(s, DoSleep);
    var r, t := Step(s, DoSleep), s.current;
    var th := s.threads[t].(timeout := true, suspended := true);
    assert OnlyThread(s, r, t, th) && r.waitqs == s.waitqs && r.idle == s.idle && r.current == r.cache by {
      hide Without, NextUp, ShouldPreempt;
    }
    assert r.cache == NextUp(r);
    hide Sleep, OnlyThread, OnReadyQueue, NextUp;
    PlaceFromRecord(s, r, t, th);
    NotNext(r, t);
    BestIsNext(r);
  }

  /** Pending: the caller is on the wait queue, finds -EAGAIN unless it is woken with
      something else, and has a timeout exactly if one was given; those who waited
      already keep their order. */
  lemma {:induction false} PendLaw(s: State, n: nat, timed: bool)
    requires Inv(s) && Enabled(s, DoPend(n, timed))
    ensures var r, q := Step(s, DoPend(n, timed)), Object(n);
            && OnlyThread(s, r, s.current, s.threads[s.current].(pending := true, pendedOn := q, ret := -11, timeout := timed))
            && OffReadyQueue(r, s.current) && GivesWay(s, r)
            && s.current in Waiters(r, q) && Without(Waiters(r, q), s.current) == Waiters(s, q)
            && (forall p :: p != q ==> Waiters(r, p) == Waiters(s, p))
  {
    CurrentKnown(s);
    BitsKnown(s, s.current);
    StepKeeps(s, DoPend(n, timed));
    var r, t, q := Step(s, DoPend(n, timed)), s.current, Object(n);
    assert !s.threads[t].timeout;
    var th := s.threads[t].(pending := true, pendedOn := q, ret := -EAGAIN, timeout := timed);
    assert OnlyThread(s, r, t, th) && r.idle == s.idle && r.current == r.cache by {
      hide Without, NextUp, ShouldPreempt, Enqueue;
    }
    assert r.cache == NextUp(r) by {
      hide Without, Enqueue;
    }
    PendList(s, n, timed);
    hide PendCurrent, OnlyThread, OnReadyQueue, NextUp, Waiters, Without;
    PlaceFromRecord(s, r, t, th);
    NotNext(r, t);
    BestIsNext(r);
  }

  lemma {:induction false} InsertThenWithout(l: seq<Id>, k: nat, x: Id)
    requires k <= |l| && x !in l
    ensures x in InsertAt(l, k, x) && Without(InsertAt(l, k, x), x) == l
  {
    var m := InsertAt(l, k, x);
    assert m[..k] == l[..k] && m[k] == x && m[k + 1..] == l[k..];
    hide InsertAt;
    assert forall i :: 0 <= i < k ==> m[i] == m[..k][i] && l[i] in l;
    assert IndexOf(m, x) == k;
    hide IndexOf;
    assert Without(m, x) == m[..k] + m[k + 1..];
    assert l[..k] + l[k..] == l;
  }

  lemma {:induction false} PendList(s: State, n: nat, timed: bool)
    requires Inv(s) && Enabled(s, DoPend(n, timed))
    ensures var r, q := Step(s, DoPend(n, timed)), Object(n);
            && s.current in Waiters(r, q) && Without(Waiters(r, q), s.current) == Waiters(s, q)
            && (forall p :: p != q ==> Waiters(r, p) == Waiters(s, p))
  {
    hide Inv, Slot, InsertAt, Unready, Without;
    CurrentKnown(s);
    RunnerWaitsNowhere(s, Object(n));
    var r, t, q := Step(s, DoPend(n, timed)), s.current, Object(n);
    UnreadyLists(s, t);
    var s1 := Unready(s, t);
    var k := Slot(s1, Waiters(s, q), PrioOf(s1, t));
    assert Waiters(r, q) == InsertAt(Waiters(s, q), k, t);
    InsertThenWithout(Waiters(s, q), k, t);
  }

  lemma {:induction false} RunnerWaitsNowhere(s: State, q: WaitQ)
    requires Inv(s) && Running(s)
    ensures s.current !in Waiters(s, q)
  {
    BitsKnown(s, s.current);
    assert WaitqsOk(s) && (s.current in Waiters(s, q) <==> PendsOn(s, s.current, q));
  }

  lemma {:induction false} UnreadyLists(s: State, t: Id)
    requires s.current in s.threads && t in s.threads
    ensures Unready(s, t).waitqs == s.waitqs && t in Unready(s, t).threads
  {
    hide Without, NextUp, ShouldPreempt;
  }

  // ---- the order of those who can run ------------------------------------------------------

  /** Thread `t` has gone behind everybody of its priority, and the next to run is the
      best of all, even if the current thread may not be preempted. */
  ghost predicate WentBehind(r: State, t: Id) {
    && Queued(r, t)
    && (forall x :: Queued(r, x) && x != t && PrioOf(r, x) <= PrioOf(r, t) ==> Before(r, x, t))
    && Queued(r, r.cache) && (forall x :: Queued(r, x) && x != r.cache ==> Before(r, r.cache, x))
  }

  lemma {:induction false} LastQueued(s: State, t: Id)
    requires RunqOk(s) && t in s.threads && !s.threads[t].queued
    ensures var r := QueueThread(s, t);
            Queued(r, t) && forall x :: Queued(r, x) && x != t ==> SinceOf(r, x) < SinceOf(r, t)
  {
    var r := QueueThread(s, t);
    forall x | Queued(r, x) && x != t ensures SinceOf(r, x) < SinceOf(r, t) {
      assert Queued(s, x) && x in s.runq;
      var i :| 0 <= i < |s.runq| && s.runq[i] == x;
      assert SinceOf(s, s.runq[i]) < s.clock;
    }
  }

  lemma {:induction false} RequeuedBehind(s: State, t: Id, r: State)
    requires RunqOk(s) && t in s.threads && !s.threads[t].queued && s.current in s.threads
    requires r == UpdateCache(QueueThread(s, t), true) && Inv(r)
    ensures WentBehind(r, t)
  {
    LastQueued(s, t);
    var s1 := QueueThread(s, t);
    assert forall x :: Queued(r, x) == Queued(s1, x) && SinceOf(r, x) == SinceOf(s1, x);
    assert r.cache == NextUp(r);
    assert t in r.runq by {
      assert RunqOk(r) && Queued(r, t);
    }
    hide QueueThread, UpdateCache, RunqOk;
    BestIsNext(r);
  }

  lemma {:induction false} DequeuedKnown(s: State, t: Id)
    requires Inv(s) && t in s.threads && Queued(s, t)
    ensures var s1 := DequeueThread(s, t);
            && RunqOk(s1) && t in s1.threads && !s1.threads[t].queued && s.current in s1.threads && s1.current == s.current
            && OnlyThread(s, s1, t, s.threads[t]) && s1.idle == s.idle && s1.waitqs == s.waitqs
  {
    CurrentKnown(s);
    assert RunqOk(s);
    DequeueRunq(s, t);
    hide Inv, Without;
  }

  lemma {:induction false} QueueRecord(s: State, t: Id, ok: bool)
    requires t in s.threads && s.current in s.threads
    ensures var r := UpdateCache(QueueThread(s, t), ok);
            OnlyThread(s, r, t, s.threads[t]) && r.current == s.current && r.idle == s.idle && r.waitqs == s.waitqs
  {
    hide Enqueue, NextUp, ShouldPreempt;
  }

  lemma {:induction false} OnlyTwice(s: State, s1: State, r: State, t: Id)
    requires t in s.threads && t in s1.threads && OnlyThread(s, s1, t, s.threads[t]) && OnlyThread(s1, r, t, s1.threads[t])
    ensures OnlyThread(s, r, t, s.threads[t])
  {
  }

  /** Yielding: the caller goes behind everybody of its priority, and the best thread
      gets the processor; so if anybody else of its own or a higher priority can run,
      the caller does not go on. A time slice that has run out does the same, but for
      the switch. */
  lemma {:induction false} YieldLaw(s: State)
    requires Inv(s) && Enabled(s, DoYield)
    ensures var r := Step(s, DoYield);
            && OnlyThread(s, r, s.current, s.threads[s.current]) && r.waitqs == s.waitqs
            && WentBehind(r, s.current) && r.current == r.cache
            && (r.current == s.current <==>
                  forall x :: Queued(s, x) && x != s.current ==> PrioOf(s, s.current) < PrioOf(s, x))
  {
    var t := s.current;
    CurrentKnown(s);
    BitsKnown(s, t);
    YieldKeeps(s);
    assert Queued(s, t);
    hide Inv;
    DequeuedKnown(s, t);
    var s1 := DequeueThread(s, t);
    hide DequeueThread;
    var u := Requeue(s, t, true);
    assert u == UpdateCache(QueueThread(s1, t), true);
    RequeuedBehind(s1, t, u);
    QueueRecord(s1, t, true);
    OnlyTwice(s, s1, u, t);
    hide Requeue, UpdateCache, QueueThread;
    var r := Step(s, DoYield);
    assert r == u.(current := u.cache);
    SwappedBehind(u, r, t);
    YieldedTo(s, r, t);
  }

  lemma {:induction false} SwappedBehind(u: State, r: State, t: Id)
    requires WentBehind(u, t) && r == u.(current := u.cache)
    ensures WentBehind(r, t)
  {
    assert forall x :: Queued(r, x) == Queued(u, x);
    assert forall x, y :: Before(r, x, y) == Before(u, x, y);
    assert forall x :: PrioOf(r, x) == PrioOf(u, x);
  }

  lemma {:induction false} YieldedTo(s: State, r: State, t: Id)
    requires t in s.threads && Queued(s, t) && OnlyThread(s, r, t, s.threads[t]) && WentBehind(r, t)
    ensures r.cache == t <==> forall x :: Queued(s, x) && x != t ==> PrioOf(s, t) < PrioOf(s, x)
  {
    assert forall x :: Queued(r, x) == Queued(s, x) && PrioOf(r, x) == PrioOf(s, x);
    if r.cache == t {
      forall x | Queued(s, x) && x != t ensures PrioOf(s, t) < PrioOf(s, x) {
        assert Before(r, t, x);
        assert PrioOf(r, x) <= PrioOf(r, t) ==> Before(r, x, t);
      }
    } else {
      assert Before(r, r.cache, t);
    }
  }

  /** The end of a time slice. */
  lemma {:induction false} SliceLaw(s: State)
    requires Inv(s) && Enabled(s, DoSlice)
    ensures var r := Step(s, DoSlice);
            && OnlyThread(s, r, s.current, s.threads[s.current]) && r.waitqs == s.waitqs && r.current == s.current
            && WentBehind(r, s.current)
            && (r.cache == s.current <==>
                  forall x :: Queued(s, x) && x != s.current ==> PrioOf(s, s.current) < PrioOf(s, x))
  {
    var t := s.current;
    CurrentKnown(s);
    BitsKnown(s, t);
    YieldKeeps(s);
    assert Queued(s, t);
    hide Inv;
    DequeuedKnown(s, t);
    var s1 := DequeueThread(s, t);
    hide DequeueThread;
    var u := Requeue(s, t, true);
    assert u == UpdateCache(QueueThread(s1, t), true);
    RequeuedBehind(s1, t, u);
    QueueRecord(s1, t, true);
    OnlyTwice(s, s1, u, t);
    hide Requeue, UpdateCache, QueueThread;
    YieldedTo(s, u, t);
  }

  /** A new priority: a thread that can run goes behind everybody of that priority, and
      the best thread is next; of one that cannot, only the priority changes. */
  lemma {:induction false} SetPrioLaw(s: State, t: Id, prio: int)
    requires Inv(s) && Enabled(s, DoSetPrio(t, prio))
    ensures var r, th := Step(s, DoSetPrio(t, prio)), s.threads[t];
            if Ready(th) then
              OnlyThread(s, r, t, th.(prio := prio)) && r.waitqs == s.waitqs && r.current == s.current && WentBehind(r, t)
            else r == SetThread(s, t, th.(prio := prio))
  {
    CurrentKnown(s);
    BitsKnown(s, t);
    SetPrioKeeps(s, t, prio);
    if Ready(s.threads[t]) {
      assert Queued(s, t);
      hide Inv, SetPrio;
      RunnerPrio(s, t, prio);
    }
  }

  lemma {:induction false} RunnerPrio(s: State, t: Id, prio: int)
    requires s.current in s.threads && Inv(s) && t in s.threads && Queued(s, t) && Ready(s.threads[t]) && Inv(SetPrio(s, t, prio))
    ensures var r := SetPrio(s, t, prio);
            && OnlyThread(s, r, t, s.threads[t].(prio := prio)) && r.waitqs == s.waitqs && r.current == s.current
            && WentBehind(r, t)
  {
    var r := SetPrio(s, t, prio);
    hide Inv;
    DequeuedKnown(s, t);
    var s1 := DequeueThread(s, t);
    hide DequeueThread, RunqOk;
    var th := s1.threads[t].(prio := prio);
    var s2 := SetThread(s1, t, th);
    SetThreadRunq(s1, t, th);
    assert r == UpdateCache(QueueThread(s2, t), true);
    hide SetPrio;
    RequeuedBehind(s2, t, r);
    QueueRecord(s2, t, true);
    hide QueueThread, UpdateCache, WentBehind;
  }

  // ---- the processor ------------------------------------------------------------------------

  /** Locking counts, and does nothing else. */
  lemma {:induction false} LockLaw(s: State)
    requires Inv(s) && Enabled(s, DoLock)
    ensures var th := s.threads[s.current];
            Step(s, DoLock) == SetThread(s, s.current, th.(locked := th.locked + 1))
  {
    hide Inv;
  }

  /** Unlocking counts back; then the best thread is next if the caller may be
      preempted again, and the caller itself if not. */
  lemma {:induction false} UnlockLaw(s: State)
    requires Inv(s) && Enabled(s, DoUnlock)
    ensures var r, th := Step(s, DoUnlock), s.threads[s.current];
            && r == SetThread(s, s.current, th.(locked := th.locked - 1)).(cache := r.cache)
            && (if th.prio < 0 || th.locked > 1 then r.cache == s.current
                else Queued(r, r.cache) && forall x :: Queued(r, x) && x != r.cache ==> Before(r, r.cache, x))
  {
    CurrentKnown(s);
    BitsKnown(s, s.current);
    StepKeeps(s, DoUnlock);
    var r, th := Step(s, DoUnlock), s.threads[s.current];
    if !(th.prio < 0 || th.locked > 1) {
      assert r.cache == NextUp(r);
      assert Queued(r, s.current) && RunqOk(r) && s.current in r.runq;
      BestIsNext(r);
    }
    hide Inv;
  }

  /** Switching gives the processor to the next thread to run. */
  lemma {:induction false} SwapLaw(s: State)
    requires Inv(s)
    ensures Step(s, DoSwap) == s.(current := s.cache)
  {
    hide Inv;
  }

  /** After an abort the best thread is next, even if the current thread may not be
      preempted. */
  lemma {:induction false} AbortLaw(s: State, t: Id)
    requires Inv(s) && Enabled(s, DoAbort(t)) && !s.threads[t].dead
    ensures var r := Step(s, DoAbort(t));
            && r.current == s.current && OffReadyQueue(r, t)
            && (if r.runq == [] then r.cache == r.idle
                else Queued(r, r.cache) && forall x :: Queued(r, x) && x != r.cache ==> Before(r, r.cache, x))
  {
    hide Inv, Bury, WakeEach, Waiters;
    StepKeeps(s, DoAbort(t));
    EndThreadKeeps(s, t);
    AbortWakesJoiners(s, t, t);
    var r := Step(s, DoAbort(t));
    assert r.cache == NextUp(r) && r.current == s.current;
    hide EndThread, Step, NextUp;
    DeadKnown(r, t);
    BestIsNext(r);
  }

  /** The current thread has the processor and may not be preempted. */
  predicate Holds(s: State, t: Id) {
    && s.current == t && s.cache == t && Running(s) && !Preemptible(s.threads[t])
  }

  /** What others do to make threads able to run, or not; nothing the current thread
      does to itself, and no change of priority. */
  predicate Outside(op: Op, t: Id) {
    match op
    case DoCreate(_, _) => true
    case DoStart(_) => true
    case DoStartLater(_) => true
    case DoResume(_) => true
    case DoWakeup(_) => true
    case DoTimeout(_) => true
    case DoWake(_, _) => true
    case DoSwap => true
    case DoLock => true
    case DoSuspend(x) => x != t
    case _ => false
  }

  lemma {:induction false} ReadyHolds(s: State, t: Id, x: Id)
    requires Holds(s, t) && x in s.threads && x != t
    ensures Holds(ReadyThread(s, x), t)
  {
    hide Enqueue, NextUp;
  }

  lemma {:induction false} SetHolds(s: State, t: Id, x: Id, th: Thread)
    requires Holds(s, t) && x != t
    ensures Holds(SetThread(s, x, th), t)
  {
  }

  lemma {:induction false} UnpendHolds(s: State, t: Id, x: Id)
    requires Holds(s, t) && x in s.threads && x != t
    ensures Holds(Unpend(s, x), t)
  {
    hide Without, Waiters;
  }

  lemma {:induction false} WakeHolds(s: State, t: Id, n: nat, ret: int)
    requires Inv(s) && Holds(s, t)
    ensures Holds(Step(s, DoWake(n, ret)), t)
  {
    WakeKeeps(s, Object(n), ret);
    if Waiters(s, Object(n)) != [] {
      var x := Waiters(s, Object(n))[0];
      WaiterKnown(s, Object(n));
      assert x != t by {
        BitsKnown(s, x);
      }
      hide Inv, Holds, Unpend, ReadyThread, Waiters;
      var s1 := SetThread(s, x, s.threads[x].(ret := ret));
      SetHolds(s, t, x, s.threads[x].(ret := ret));
      UnpendHolds(s1, t, x);
      var s2 := Unpend(s1, x);
      assert x in s2.threads by {
        UnpendKeys(s1, x);
      }
      SetHolds(s2, t, x, s2.threads[x].(timeout := false));
      ReadyHolds(AbortTimeout(s2, x), t, x);
    }
  }

  lemma {:induction false} UnpendKeys(s: State, x: Id)
    requires x in s.threads
    ensures Unpend(s, x).threads.Keys == s.threads.Keys
  {
  }

  lemma {:induction false} TimeoutHolds(s: State, t: Id, x: Id)
    requires Holds(s, t) && x in s.threads && x != t && s.current in s.threads
    ensures Holds(ThreadTimeout(s, x), t)
  {
    hide Holds, Unpend, ReadyThread;
    SetHolds(s, t, x, s.threads[x].(timeout := false));
    var s0 := AbortTimeout(s, x);
    if !s.threads[x].dead {
      UnpendHolds(s0, t, x);
      UnpendKeys(s0, x);
      var s1 := UnpendIfPended(s0, x);
      var th := s1.threads[x].(prestart := false, suspended := false);
      SetHolds(s1, t, x, th);
      ReadyHolds(SetThread(s1, x, th), t, x);
    }
  }

  lemma {:induction false} SuspendHolds(s: State, t: Id, x: Id)
    requires Holds(s, t) && x in s.threads && x != t
    ensures Holds(Suspend(s, x), t)
  {
    hide Without, NextUp;
  }

  /** Starting, resuming or waking the holder itself does nothing to it. */
  lemma {:induction false} ReadyingHolds(s: State, t: Id, op: Op)
    requires Inv(s) && Enabled(s, op) && Holds(s, t) && (op.DoStart? || op.DoResume? || op.DoWakeup?)
    ensures Holds(Step(s, op), t)
  {
    CurrentKnown(s);
    var x := op.thread;
    if x == t {
      assert !s.threads[t].timeout;
    } else {
      hide Inv, Holds, ReadyThread;
      var th := s.threads[x];
      var th1 := if op.DoStart? then th.(prestart := false) else if op.DoResume? then th.(suspended := false)
                 else th.(timeout := false, suspended := false);
      SetHolds(s, t, x, th1);
      ReadyHolds(SetThread(s, x, th1), t, x);
    }
  }

  lemma {:induction false} StepHolds(s: State, t: Id, op: Op)
    requires Inv(s) && Enabled(s, op) && Holds(s, t) && Outside(op, t)
    ensures Holds(Step(s, op), t)
  {
    CurrentKnown(s);
    match op {
      case DoStart(x) => ReadyingHolds(s, t, op);
      case DoResume(x) => ReadyingHolds(s, t, op);
      case DoWakeup(x) => ReadyingHolds(s, t, op);
      case DoTimeout(x) =>
        assert x != t by {
          assert !s.threads[s.current].timeout;
        }
        hide Inv, Holds, ThreadTimeout;
        TimeoutHolds(s, t, x);
      case DoWake(n, ret) => WakeHolds(s, t, n, ret);
      case DoSuspend(x) => SuspendHolds(s, t, x);
      case DoCreate(x, prio) =>
      case DoStartLater(x) =>
      case DoLock =>
      case DoSwap =>
    }
  }

  /** Whatever others do to threads, over every run of it, a thread that may not be
      preempted keeps the processor. */
  lemma {:induction false} CooperativeKeepsCpu(s: State, ops: seq<Op>, t: Id)
    requires Inv(s) && CanRun(s, ops) && Holds(s, t) && forall op :: op in ops ==> Outside(op, t)
    ensures Holds(Run(s, ops), t)
    decreases |ops|
  {
    if ops == [] {
    } else {
      assert ops[0] in ops && forall op :: op in ops[1..] ==> op in ops;
      hide Inv, Step, Enabled, Outside, Holds;
      StepKeeps(s, ops[0]);
      StepHolds(s, t, ops[0]);
      CooperativeKeepsCpu(Step(s, ops[0]), ops[1..], t);
    }
  }
}
