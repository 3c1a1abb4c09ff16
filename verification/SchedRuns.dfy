/**
 Every step of the scheduler keeps the invariant, so every run does.
 */
module SchedRuns {
  import opened IdList
  import opened SchedSpec
  import opened SchedInvariant

  /** Everything but the cache, except that `t` has yet to be made ready. */
  ghost predicate AlmostSettled(s: State, t: Id, d: WaitQ) {
    && Base(s) && RunqOk(s) && WaitqsOk(s)
    && t in s.threads && t != s.idle && BitsAlmost(s.threads[t])
    && (forall x :: x in s.threads ==> JoinsLive(s, x, d) && (x == t || BitsOk(s.threads[x], x == s.idle)))
  }

  lemma {:induction false} QueueAlmost(s: State, t: Id, d: WaitQ)
    requires AlmostSettled(s, t, d) && !s.threads[t].queued && Ready(s.threads[t])
    ensures Settled(QueueThread(s, t), d)
  {
    var s1 := QueueThread(s, t);
    QueueRunq(s, t);
    var th := s.threads[t].(queued := true, since := s.clock);
    SetThreadWaitqs(s, t, th);
    WaitqsSame(SetThread(s, t, th), s1);
    assert s1.threads == s.threads[t := th] && s1.idle == s.idle && s1.current == s.current;
    hide RunqOk, WaitqsOk, QueueThread;
    forall x | x in s1.threads ensures BitsOk(s1.threads[x], x == s1.idle) && JoinsLive(s1, x, d) {
      assert JoinsLive(s, x, d);
    }
  }

  lemma {:induction false} WaitqsSame(s: State, s1: State)
    requires WaitqsOk(s) && s1.threads == s.threads && s1.waitqs == s.waitqs
    ensures WaitqsOk(s1)
  {
    assert forall q :: Waiters(s1, q) == Waiters(s, q);
    assert forall t, q :: PendsOn(s1, t, q) == PendsOn(s, t, q);
    hide Waiters, PendsOn;
  }

  lemma {:induction false} RunqSame(s: State, s1: State)
    requires RunqOk(s) && s1.threads == s.threads && s1.runq == s.runq && s.clock <= s1.clock
    ensures RunqOk(s1)
  {
    assert forall t :: Queued(s1, t) == Queued(s, t);
    assert forall a, b :: Before(s1, a, b) == Before(s, a, b);
    assert forall t :: SinceOf(s1, t) == SinceOf(s, t);
    hide Queued, Before, SinceOf;
  }

  /** ready_thread() completes a step. */
  lemma {:induction false} ReadyKeeps(s: State, t: Id, d: WaitQ)
    requires AlmostSettled(s, t, d)
    ensures Settled(ReadyThread(s, t), d)
    ensures CacheOk(s) ==> CacheOk(ReadyThread(s, t))
  {
    if !s.threads[t].queued && Ready(s.threads[t]) {
      QueueAlmost(s, t, d);
      assert s.current in QueueThread(s, t).threads;
      hide Settled, QueueThread, CacheOk, AlmostSettled;
      UpdateCacheOk(QueueThread(s, t), false, d);
    } else {
      hide RunqOk, WaitqsOk, JoinsLive;
    }
  }

  /** Changing the flags of a thread that could not run until now. */
  lemma {:induction false} FlagsAlmost(s: State, t: Id, th: Thread)
    requires Inv(s) && t in s.threads && t != s.idle && !s.threads[t].queued
    requires BitsAlmost(th) && !th.queued && th.pendedOn == s.threads[t].pendedOn && th.dead == s.threads[t].dead
    requires th.timeout ==> s.threads[t].timeout
    ensures var s1 := SetThread(s, t, th); AlmostSettled(s1, t, Nowhere) && CacheOk(s1)
  {
    var s1 := SetThread(s, t, th);
    SetThreadRunq(s, t, th);
    SetThreadWaitqs(s, t, th);
    assert s1.runq == s.runq && s1.cache == s.cache && s1.current == s.current && s1.idle == s.idle;
    hide RunqOk, WaitqsOk;
    assert t == s.current ==> Prevented(s.threads[t]);
    forall x | x in s1.threads ensures JoinsLive(s1, x, Nowhere) && (x == t || BitsOk(s1.threads[x], x == s1.idle)) {
      assert JoinsLive(s, x, Nowhere);
    }
  }

  lemma {:induction false} StartKeeps(s: State, t: Id)
    requires Inv(s) && t in s.threads && t != s.idle
    ensures Inv(Start(s, t))
  {
    var th := s.threads[t];
    if th.prestart {
      assert BitsOk(th, false);
      hide Inv, ReadyThread;
      FlagsAlmost(s, t, th.(prestart := false));
      ReadyKeeps(SetThread(s, t, th.(prestart := false)), t, Nowhere);
    }
  }

  lemma {:induction false} ResumeKeeps(s: State, t: Id)
    requires Inv(s) && t in s.threads && t != s.idle
    ensures Inv(Resume(s, t))
  {
    var th := s.threads[t];
    if th.suspended {
      assert BitsOk(th, false);
      hide Inv, ReadyThread;
      FlagsAlmost(s, t, th.(suspended := false));
      ReadyKeeps(SetThread(s, t, th.(suspended := false)), t, Nowhere);
    }
  }

  lemma {:induction false} WakeupKeeps(s: State, t: Id)
    requires Inv(s) && t in s.threads && t != s.idle
    ensures Inv(Wakeup(s, t))
  {
    var th := s.threads[t];
    if !(th.pending || (!th.timeout && !OnlySuspended(th))) {
      assert BitsOk(th, false);
      hide Inv, ReadyThread;
      var th1 := th.(timeout := false, suspended := false);
      FlagsAlmost(s, t, th1);
      ReadyKeeps(SetThread(s, t, th1), t, Nowhere);
    }
  }

  // ---- off the wait queues -----------------------------------------------------------------

  lemma {:induction false} UnpendShape(s: State, t: Id)
    requires RunqOk(s) && WaitqsOk(s) && t in s.threads && (s.threads[t].pending <==> s.threads[t].pendedOn != Nowhere)
    ensures var s1 := UnpendIfPended(s, t);
            && RunqOk(s1) && WaitqsOk(s1)
            && s1.threads == s.threads[t := s.threads[t].(pending := false, pendedOn := Nowhere)]
            && s1.runq == s.runq && s1.cache == s.cache && s1.current == s.current && s1.idle == s.idle
  {
    var s1 := UnpendIfPended(s, t);
    var th := s.threads[t].(pending := false, pendedOn := Nowhere);
    UnpendWaitqs(s, t);
    SetThreadRunq(s, t, th);
    assert s1.threads == s.threads[t := th];
    RunqSame(SetThread(s, t, th), s1);
  }

  /** A thread that pends, sleeps or waits to start is taken off its lists, and
      `th` becomes its record. */
  lemma {:induction false} UnpendAlmost(s: State, t: Id, s1: State, th: Thread, d: WaitQ)
    requires Settled(s, d) && t in s.threads && t != s.idle && !s.threads[t].queued
    requires s1.threads == s.threads[t := th] && BitsAlmost(th)
    requires th.pendedOn == Nowhere && th.dead == s.threads[t].dead && !th.timeout && !th.queued
    requires RunqOk(s1) && WaitqsOk(s1)
    requires s1.runq == s.runq && s1.cache == s.cache && s1.current == s.current && s1.idle == s.idle
    ensures AlmostSettled(s1, t, d)
    ensures CacheOk(s) ==> CacheOk(s1)
  {
    hide RunqOk, WaitqsOk;
    assert BitsOk(s.threads[t], false);
    assert t == s.current ==> Prevented(s.threads[t]);
    forall x | x in s1.threads ensures JoinsLive(s1, x, d) && (x == t || BitsOk(s1.threads[x], x == s1.idle)) {
      assert x in s.threads && JoinsLive(s, x, d);
    }
  }

  lemma {:induction false} ThreadTimeoutKeeps(s: State, t: Id)
    requires Inv(s) && t in s.threads && t != s.idle && s.threads[t].timeout
    ensures Inv(ThreadTimeout(s, t))
  {
    var th := s.threads[t];
    assert BitsOk(th, false) && !th.dead && !th.queued;
    var th0 := th.(timeout := false);
    var s0 := AbortTimeout(s, t);
    var s1 := UnpendIfPended(s0, t);
    var th2 := th0.(pending := false, pendedOn := Nowhere, prestart := false, suspended := false);
    var s2 := SetThread(s1, t, th2);
    assert RunqOk(s) && WaitqsOk(s);
    hide Inv, RunqOk, WaitqsOk, UnpendIfPended, ReadyThread, AllOk, CacheOk;
    SetThreadRunq(s, t, th0);
    SetThreadWaitqs(s, t, th0);
    UnpendShape(s0, t);
    SetThreadRunq(s1, t, th2);
    SetThreadWaitqs(s1, t, th2);
    assert s2.threads == s.threads[t := th2];
    InvParts(s);
    UnpendAlmost(s, t, s2, th2, Nowhere);
    ReadyKeeps(s2, t, Nowhere);
    InvFrom(ThreadTimeout(s, t));
  }

  lemma {:induction false} InvParts(s: State)
    requires Inv(s)
    ensures Settled(s, Nowhere) && CacheOk(s)
  {
  }

  lemma {:induction false} InvFrom(s: State)
    requires Settled(s, Nowhere) && CacheOk(s)
    ensures Inv(s)
  {
  }

  /** The state of a woken thread just before it is made ready. */
  function Woken(s: State, t: Id, ret: int): State
    requires t in s.threads
  {
    AbortTimeout(UnpendIfPended(SetThread(s, t, s.threads[t].(ret := ret)), t), t)
  }

  lemma {:induction false} WokenShape(s: State, t: Id, ret: int)
    requires RunqOk(s) && WaitqsOk(s) && t in s.threads && s.threads[t].pending && s.threads[t].pendedOn != Nowhere
    ensures var s1, th := Woken(s, t, ret), s.threads[t].(ret := ret, pending := false, pendedOn := Nowhere, timeout := false);
            && RunqOk(s1) && WaitqsOk(s1) && s1.threads == s.threads[t := th]
            && s1.runq == s.runq && s1.cache == s.cache && s1.current == s.current && s1.idle == s.idle
  {
    var th0 := s.threads[t].(ret := ret);
    var s0 := SetThread(s, t, th0);
    var s1 := UnpendIfPended(s0, t);
    hide RunqOk, WaitqsOk, UnpendIfPended;
    SetThreadRunq(s, t, th0);
    SetThreadWaitqs(s, t, th0);
    UnpendShape(s0, t);
    SetThreadRunq(s1, t, s1.threads[t].(timeout := false));
    SetThreadWaitqs(s1, t, s1.threads[t].(timeout := false));
    assert Woken(s, t, ret).threads == s.threads[t := th0.(pending := false, pendedOn := Nowhere, timeout := false)];
  }

  /** z_sched_wake() of a thread that pends. */
  lemma {:induction false} WakeThreadKeeps(s: State, t: Id, ret: int, d: WaitQ)
    requires Settled(s, d) && t in s.threads && t != s.idle && s.threads[t].pendedOn != Nowhere
    ensures Settled(WakeThread(s, t, ret), d)
    ensures CacheOk(s) ==> CacheOk(WakeThread(s, t, ret))
  {
    var th := s.threads[t];
    assert RunqOk(s) && WaitqsOk(s) && BitsOk(th, false);
    assert WakeThread(s, t, ret) == ReadyThread(Woken(s, t, ret), t);
    hide Settled, RunqOk, WaitqsOk, ReadyThread, CacheOk, WakeThread, Woken;
    WokenShape(s, t, ret);
    UnpendAlmost(s, t, Woken(s, t, ret), th.(ret := ret, pending := false, pendedOn := Nowhere, timeout := false), d);
    ReadyKeeps(Woken(s, t, ret), t, d);
  }

  lemma {:induction false} WakeKeeps(s: State, q: WaitQ, ret: int)
    requires Inv(s)
    ensures forall x :: x in Waiters(s, q) ==> x in s.threads
    ensures Inv(Wake(s, q, ret))
  {
    InvParts(s);
    assert forall x :: x in Waiters(s, q) ==> PendsOn(s, x, q);
    if Waiters(s, q) != [] {
      var t := Waiters(s, q)[0];
      assert t in Waiters(s, q) && PendsOn(s, t, q) && BitsOk(s.threads[t], t == s.idle);
      hide Inv, Settled, WakeThread, CacheOk;
      WakeThreadKeeps(s, t, ret, Nowhere);
      InvFrom(Wake(s, q, ret));
    }
  }

  // ---- off the ready queue -------------------------------------------------------------------

  lemma {:induction false} DequeueShape(s: State, t: Id)
    requires RunqOk(s) && WaitqsOk(s) && t in s.threads
    ensures var s1 := DequeueIfQueued(s, t);
            && RunqOk(s1) && WaitqsOk(s1)
            && s1.threads == s.threads[t := s.threads[t].(queued := false)]
            && s1.waitqs == s.waitqs && s1.current == s.current && s1.idle == s.idle && t !in s1.runq
  {
    var s1 := DequeueIfQueued(s, t);
    var th := s.threads[t].(queued := false);
    DequeueRunq(s, t);
    assert s1.threads == s.threads[t := th];
    SetThreadWaitqs(s, t, th);
    WaitqsSame(SetThread(s, t, th), s1);
    assert !Queued(s1, t) && t !in s1.runq;
  }

  lemma {:induction false} SuspendKeeps(s: State, t: Id)
    requires Inv(s) && t in s.threads && t != s.idle
    ensures Inv(Suspend(s, t))
  {
    InvParts(s);
    var th := s.threads[t];
    var s0 := AbortTimeout(s, t);
    var s1 := DequeueIfQueued(s0, t);
    var th2 := th.(timeout := false, queued := false, suspended := true);
    var s2 := SetThread(s1, t, th2);
    assert BitsOk(th, false) && RunqOk(s) && WaitqsOk(s) && AllOk(s, Nowhere) && JoinsLive(s, t, Nowhere) && Base(s);
    hide Inv, RunqOk, WaitqsOk, DequeueIfQueued, UpdateCache, AllOk, CacheOk;
    SetThreadRunq(s, t, th.(timeout := false));
    SetThreadWaitqs(s, t, th.(timeout := false));
    DequeueShape(s0, t);
    SetThreadRunq(s1, t, th2);
    SetThreadWaitqs(s1, t, th2);
    assert s2.threads == s.threads[t := th2];
    OthersOk(s, s2, t, Nowhere);
    UpdateCacheOk(s2, t == s.current, Nowhere);
    InvFrom(Suspend(s, t));
  }

  lemma {:induction false} RequeueKeeps(s: State, t: Id, preemptOk: bool)
    requires Inv(s) && t in s.threads && t != s.idle && s.threads[t].queued
    ensures Inv(Requeue(s, t, preemptOk))
  {
    hide Inv;
    DequeuedAlmost(s, t, s.threads[t].prio);
    var s1 := DequeueThread(s, t);
    assert SetThread(s1, t, s1.threads[t].(prio := s.threads[t].prio)) == s1 by {
      assert s1.threads[t := s1.threads[t]] == s1.threads;
    }
    hide DequeueThread, QueueThread, UpdateCache, CacheOk;
    QueueAlmost(s1, t, Nowhere);
    UpdateCacheOk(QueueThread(s1, t), preemptOk, Nowhere);
    InvFrom(Requeue(s, t, preemptOk));
  }

  lemma {:induction false} DequeuedAlmost(s: State, t: Id, prio: int)
    requires Inv(s) && t in s.threads && t != s.idle && s.threads[t].queued
    ensures var s1 := DequeueThread(s, t);
            var s2 := SetThread(s1, t, s1.threads[t].(prio := prio));
            && AlmostSettled(s2, t, Nowhere) && Ready(s2.threads[t]) && !s2.threads[t].queued && s2.current == s.current
  {
    InvParts(s);
    var th := s.threads[t];
    var s1 := DequeueIfQueued(s, t);
    var th2 := th.(queued := false, prio := prio);
    var s2 := SetThread(s1, t, th2);
    assert s1 == DequeueThread(s, t);
    assert BitsOk(th, false) && RunqOk(s) && WaitqsOk(s) && Base(s);
    DequeueShape(s, t);
    hide RunqOk, WaitqsOk, DequeueIfQueued, DequeueThread, CacheOk;
    SetThreadRunq(s1, t, th2);
    SetThreadWaitqs(s1, t, th2);
    assert s2.threads == s.threads[t := th2];
    forall x | x in s2.threads ensures JoinsLive(s2, x, Nowhere) && (x == t || BitsOk(s2.threads[x], x == s2.idle)) {
      assert x in s.threads && JoinsLive(s, x, Nowhere);
    }
  }

  lemma {:induction false} SetPrioKeeps(s: State, t: Id, prio: int)
    requires Inv(s) && t in s.threads && t != s.idle
    ensures Inv(SetPrio(s, t, prio))
  {
    var th := s.threads[t];
    assert BitsOk(th, false);
    if Ready(th) {
      hide Inv;
      DequeuedAlmost(s, t, prio);
      var s1 := DequeueThread(s, t);
      var s2 := SetThread(s1, t, s1.threads[t].(prio := prio));
      hide DequeueThread, QueueThread, UpdateCache, CacheOk;
      QueueAlmost(s2, t, Nowhere);
      UpdateCacheOk(QueueThread(s2, t), true, Nowhere);
      InvFrom(SetPrio(s, t, prio));
    } else {
      var th1 := th.(prio := prio);
      assert JoinsLive(s, t, Nowhere) && Base(s) && AllOk(s, Nowhere);
      assert t == s.current ==> Prevented(th) && s.cache == NextUp(s);
      SetThreadRunq(s, t, th1);
      SetThreadWaitqs(s, t, th1);
      var s1 := SetThread(s, t, th1);
      hide RunqOk, WaitqsOk;
      assert JoinsLive(s1, t, Nowhere);
      OthersOk(s, s1, t, Nowhere);
    }
  }

  // ---- the current thread stops running ---------------------------------------------------------

  lemma {:induction false} SwapNext(s: State)
    requires RunqOk(s) && WaitqsOk(s) && AllOk(s, Nowhere) && s.idle in s.threads && s.cache == NextUp(s)
    ensures Inv(Swap(s))
  {
    var s1 := Swap(s);
    if s.runq != [] {
      assert s.runq[0] in s.runq && Queued(s, s.runq[0]);
      assert BitsOk(s.threads[s.cache], s.cache == s.idle);
    } else {
      assert BitsOk(s.threads[s.idle], true);
    }
    RunqSame(s, s1);
    WaitqsSame(s, s1);
    hide RunqOk, WaitqsOk;
    assert forall t :: t in s.threads ==> JoinsLive(s1, t, Nowhere) == JoinsLive(s, t, Nowhere);
  }

  lemma {:induction false} SwapKeeps(s: State)
    requires Inv(s)
    ensures Inv(Swap(s))
  {
    if s.cache == NextUp(s) {
      InvParts(s);
      hide Inv;
      SwapNext(s);
    } else {
      assert Swap(s) == s;
    }
  }

  /** The current thread has been taken off the ready queue and given record `th`,
      and the best queued thread runs next. */
  lemma {:induction false} BlockKeeps(s: State, s2: State, th: Thread)
    requires Inv(s) && s.current != s.idle && s2.idle == s.idle
    requires s.current in s.threads && s2.threads == s.threads[s.current := th]
    requires RunqOk(s2) && WaitqsOk(s2) && s2.cache == NextUp(s2)
    requires BitsOk(th, false) && th.dead == s.threads[s.current].dead && JoinsLive(s2, s.current, Nowhere)
    ensures Inv(Swap(s2))
  {
    InvParts(s);
    assert AllOk(s, Nowhere) && s.idle in s2.threads;
    hide Inv, RunqOk, WaitqsOk, AllOk;
    OthersOk(s, s2, s.current, Nowhere);
    SwapNext(s2);
  }

  predicate CanPendOn(s: State, q: WaitQ) {
    q != Nowhere
    && (q.JoinOf? ==> q.thread != s.current && q.thread in s.threads && !s.threads[q.thread].dead)
  }

  predicate Running(s: State) {
    s.current in s.threads && s.current != s.idle && !Prevented(s.threads[s.current])
  }

  lemma {:induction false} UnreadyCurrent(s: State)
    requires Inv(s) && Running(s)
    ensures var s1, th := Unready(s, s.current), s.threads[s.current].(queued := false);
            && RunqOk(s1) && WaitqsOk(s1) && s1.threads == s.threads[s.current := th]
            && s1.waitqs == s.waitqs && s1.cache == NextUp(s1) && s1.current == s.current && s1.idle == s.idle
            && BitsOk(s.threads[s.current], false) && JoinsLive(s, s.current, Nowhere) && Ready(s.threads[s.current])
  {
    InvParts(s);
    assert Base(s) && RunqOk(s) && WaitqsOk(s);
    assert BitsOk(s.threads[s.current], false) && JoinsLive(s, s.current, Nowhere);
    hide Inv, RunqOk, WaitqsOk, AllOk, CacheOk;
    DequeueShape(s, s.current);
    UpdateCacheLists(DequeueIfQueued(s, s.current), true);
    hide DequeueIfQueued;
  }

  lemma {:induction false} PendCurrentKeeps(s: State, q: WaitQ, timed: bool)
    requires Inv(s) && Running(s) && CanPendOn(s, q)
    ensures Inv(PendCurrent(s, q, timed))
  {
    var t, th := s.current, s.threads[s.current];
    UnreadyCurrent(s);
    var s1 := Unready(s, t);
    var th2 := th.(queued := false, pending := true, pendedOn := q, ret := -EAGAIN, timeout := th.timeout || timed,
                   since := s1.clock);
    var s2 := PendOn(s1, t, q, timed);
    hide Inv, RunqOk, WaitqsOk, Unready;
    assert s1.threads[t].pendedOn == Nowhere;
    PendWaitqs(s1, t, q, timed);
    SetThreadRunq(s1, t, th2);
    assert s2.threads == s.threads[t := th2];
    RunqSame(SetThread(s1, t, th2), s2);
    hide PendOn;
    assert s2.cache == NextUp(s2);
    BlockKeeps(s, s2, th2);
  }

  lemma {:induction false} SleepKeeps(s: State)
    requires Inv(s) && Running(s)
    ensures Inv(Sleep(s))
  {
    var t, th := s.current, s.threads[s.current];
    UnreadyCurrent(s);
    var s1 := Unready(s, t);
    var th2 := th.(queued := false, timeout := true, suspended := true);
    var s2 := SetThread(s1, t, th2);
    hide Inv, RunqOk, WaitqsOk, Unready;
    SetThreadRunq(s1, t, th2);
    SetThreadWaitqs(s1, t, th2);
    assert s2.threads == s.threads[t := th2];
    BlockKeeps(s, s2, th2);
  }

  lemma {:induction false} JoinKeeps(s: State, t: Id, wait: bool, timed: bool)
    requires Inv(s) && Running(s) && t in s.threads
    ensures Inv(Join(s, t, wait, timed))
  {
    hide Inv, PendCurrent;
    if JoinCode(s, t, wait).Joining? {
      PendCurrentKeeps(s, JoinOf(t), timed);
    }
  }

  // ---- the rest ------------------------------------------------------------------------------------

  /** A change of a thread's record that leaves its bits and lists alone. */
  lemma {:induction false} RecordSettled(s: State, t: Id, th: Thread)
    requires Inv(s) && t in s.threads && BitsOk(th, t == s.idle)
    requires th.queued == s.threads[t].queued && th.prio == s.threads[t].prio && th.since == s.threads[t].since
    requires th.pendedOn == s.threads[t].pendedOn && th.dead == s.threads[t].dead
    requires t == s.current ==> !th.timeout
    ensures Settled(SetThread(s, t, th), Nowhere)
  {
    InvParts(s);
    var s1 := SetThread(s, t, th);
    SetThreadRunq(s, t, th);
    SetThreadWaitqs(s, t, th);
    hide RunqOk, WaitqsOk;
    assert JoinsLive(s, t, Nowhere) && JoinsLive(s1, t, Nowhere);
    OthersOk(s, s1, t, Nowhere);
  }

  lemma {:induction false} StartLaterKeeps(s: State, t: Id)
    requires Inv(s) && t in s.threads && t != s.idle && t != s.current
    requires s.threads[t].prestart && !s.threads[t].dead
    ensures Inv(StartLater(s, t))
  {
    var th := s.threads[t].(timeout := true);
    assert BitsOk(s.threads[t], false);
    assert CacheOk(s) && CacheOk(SetThread(s, t, th));
    hide Inv, CacheOk;
    RecordSettled(s, t, th);
    InvFrom(StartLater(s, t));
  }

  lemma {:induction false} LockKeeps(s: State)
    requires Inv(s) && Running(s)
    ensures Inv(Lock(s))
  {
    var t := s.current;
    var th := s.threads[t].(locked := s.threads[t].locked + 1);
    assert BitsOk(s.threads[t], false) && Base(s);
    assert CacheOk(s) && CacheOk(SetThread(s, t, th));
    hide Inv, CacheOk;
    RecordSettled(s, t, th);
    InvFrom(Lock(s));
  }

  lemma {:induction false} UnlockKeeps(s: State)
    requires Inv(s) && Running(s) && s.threads[s.current].locked > 0
    ensures Inv(Unlock(s))
  {
    var t := s.current;
    var th := s.threads[t].(locked := s.threads[t].locked - 1);
    assert BitsOk(s.threads[t], false) && Base(s);
    hide Inv, CacheOk, UpdateCache;
    RecordSettled(s, t, th);
    UpdateCacheOk(SetThread(s, t, th), false, Nowhere);
    InvFrom(Unlock(s));
  }
}
