/**
 The scheduler's functions as zephyr/kernel/sched.c has them, changing the ready
 queue, the wait queues and the words of the thread records in place, proved
 equal to the steps of SchedSpec.
 */
module Scheduler {
  import opened BitWords
  import opened IdList
  import opened SchedSpec
  import opened SchedInvariant
  import opened SchedRuns
  import opened SchedTheorems
  import opened ThreadWords

  lemma {:induction false} QueuedBit(k: KThread)
    ensures Bit(k.state, QUEUED) == ThreadOf(k).queued && Bit(k.state, DEAD) == ThreadOf(k).dead
    ensures k.pendedOn == ThreadOf(k).pendedOn
  {
  }

  class Kernel {
    var threads: map<Id, KThread>
    var waitqs: map<WaitQ, seq<Id>>
    var runq: seq<Id>
    var clock: nat
    var cache: Id
    var current: Id
    const idle: Id

    ghost function View(): State
      reads this
    {
      State(ThreadsOf(threads), waitqs, runq, clock, cache, current, idle)
    }

    /** Only known state bits are set. */
    ghost predicate Words()
      reads this
    {
      forall t :: t in threads ==> Clean(threads[t].state)
    }

    ghost predicate Valid()
      reads this
    {
      Words() && Inv(View())
    }

    constructor (idleThread: Id, prio: nat)
      requires FitsByte(prio)
      ensures Valid() && View() == Initial(idleThread, prio)
    {
      var k := KThread(0, Unsigned(prio), 0, false, Nowhere, 0, 0);
      threads := map[idleThread := k];
      waitqs, runq, clock := map[], [], 0;
      cache, current, idle := idleThread, idleThread, idleThread;
      new;
      PrioRoundTrip(prio);
      hide Signed, Unsigned;
      assert ThreadOf(k) == NewThread(prio).(prestart := false);
      hide ThreadOf;
      assert ThreadsOf(threads) == map[idleThread := ThreadOf(k)];
      assert View() == Initial(idleThread, prio);
    }

    // ---- words and lists ----------------------------------------------------------------

    method PutThread(t: Id, k: KThread)
      requires Words() && Clean(k.state)
      modifies this`threads
      ensures Words() && threads == old(threads)[t := k]
      ensures ThreadsOf(threads) == ThreadsOf(old(threads))[t := ThreadOf(k)]
    {
      hide ThreadOf, Clean;
      threads := threads[t := k];
    }

    /** base.prio */
    function PrioAt(t: Id): int
      reads this
    {
      if t in threads then Signed(threads[t].prio) else 0
    }

    /** z_is_thread_ready() */
    method IsReady(t: Id) returns (r: bool)
      requires Words() && t in threads
      ensures r == Ready(ThreadOf(threads[t]))
    {
      hide Bit, Clean, IsPrevented;
      PreventedWord(threads[t]);
      r := !(IsPrevented(threads[t].state) || threads[t].timeout);
    }

    /** z_abort_thread_timeout() */
    method StopTimeout(t: Id)
      requires Words() && t in threads
      modifies this`threads
      ensures Words() && View() == AbortTimeout(old(View()), t) && threads.Keys == old(threads).Keys
    {
      hide Bit, Clean, ThreadsOf, Signed, Depth;
      ThreadAt(threads, t);
      PutThread(t, threads[t].(timeout := false));
    }

    /** arch_thread_return_value_set() */
    method SetReturn(t: Id, ret: int)
      requires Words() && t in threads
      modifies this`threads
      ensures t in old(View()).threads
      ensures Words() && View() == SetThread(old(View()), t, old(View()).threads[t].(ret := ret))
      ensures threads.Keys == old(threads).Keys
    {
      hide Bit, Clean, ThreadsOf, Signed, Depth;
      ThreadAt(threads, t);
      PutThread(t, threads[t].(ret := ret));
    }

    /** z_mark_thread_as_suspended() */
    method MarkSuspended(t: Id)
      requires Words() && t in threads
      modifies this`threads
      ensures t in old(View()).threads
      ensures Words() && View() == SetThread(old(View()), t, old(View()).threads[t].(suspended := true))
      ensures threads.Keys == old(threads).Keys
    {
      hide Bit, WithBit, Clean, ThreadsOf, Signed, Depth;
      ThreadAt(threads, t);
      var k := threads[t];
      StateBits(k.state, SUSPENDED);
      PutThread(t, k.(state := WithBit(k.state, SUSPENDED)));
    }

    /** z_priq_dumb_add() */
    method PriqAdd(l: seq<Id>, t: Id) returns (r: seq<Id>)
      ensures r == Enqueue(View(), l, t)
    {
      hide Bit, Signed, Depth;
      ghost var s := View();
      var prio := PrioAt(t);
      var i := 0;
      while i < |l| && !(prio < PrioAt(l[i]))
        invariant i <= |l| && i + Slot(s, l[i..], prio) == Slot(s, l, prio)
      {
        assert l[i..][1..] == l[i + 1..];
        i := i + 1;
      }
      r := l[..i] + [t] + l[i..];
    }

    /** sys_dlist_remove() */
    method ListRemove(l: seq<Id>, t: Id) returns (r: seq<Id>)
      ensures r == Without(l, t)
    {
      var i := 0;
      while i < |l| && l[i] != t
        invariant i <= |l| && i + IndexOf(l[i..], t) == IndexOf(l, t)
      {
        assert l[i..][1..] == l[i + 1..];
        i := i + 1;
      }
      if i < |l| {
        r := l[..i] + l[i + 1..];
      } else {
        r := l;
      }
    }

    // ---- the ready queue and the cache --------------------------------------------------

    /** queue_thread() */
    method RunqAdd(t: Id)
      requires Words() && t in threads
      modifies this`runq, this`threads, this`clock
      ensures Words() && View() == QueueThread(old(View()), t) && threads.Keys == old(threads).Keys
    {
      hide Bit, WithBit, Clean, Signed, Depth, Enqueue;
      runq := PriqAdd(runq, t);
      var k := threads[t];
      StateBits(k.state, QUEUED);
      PutThread(t, k.(state := WithBit(k.state, QUEUED), since := clock));
      clock := clock + 1;
    }

    /** dequeue_thread() */
    method RunqRemove(t: Id)
      requires Words() && t in threads
      modifies this`runq, this`threads
      ensures Words() && View() == DequeueThread(old(View()), t) && threads.Keys == old(threads).Keys
    {
      hide Bit, WithoutBit, Clean, Signed, Depth, Without;
      var k := threads[t];
      StateBits(k.state, QUEUED);
      PutThread(t, k.(state := WithoutBit(k.state, QUEUED)));
      runq := ListRemove(runq, t);
    }

    /** update_cache() */
    method Refresh(preemptOk: bool)
      requires Words() && current in threads
      modifies this`cache
      ensures View() == UpdateCache(old(View()), preemptOk)
    {
      hide Bit, Clean, Signed, Depth, IsPrevented, IsPreempt;
      var next := if runq == [] then idle else runq[0];
      var k := threads[current];
      PreventedWord(k);
      PreemptWord(k);
      if preemptOk || IsPrevented(k.state) || IsPreempt(k) {
        cache := next;
      } else {
        cache := current;
      }
    }

    /** ready_thread() */
    method MakeReady(t: Id)
      requires Words() && current in threads && t in threads
      modifies this`runq, this`threads, this`clock, this`cache
      ensures Words() && View() == ReadyThread(old(View()), t) && threads.Keys == old(threads).Keys
    {
      hide Bit, Clean, ThreadsOf, Signed, Depth, QueueThread, UpdateCache;
      ThreadAt(threads, t);
      ThreadAt(threads, current);
      var ready := IsReady(t);
      if !Bit(threads[t].state, QUEUED) && ready {
        RunqAdd(t);
        ThreadAt(threads, current);
        Refresh(false);
      }
    }

    /** unready_thread() */
    method MakeUnready(t: Id)
      requires Words() && current in threads && t in threads
      modifies this`runq, this`threads, this`cache
      ensures Words() && View() == Unready(old(View()), t) && threads.Keys == old(threads).Keys
    {
      hide Bit, Clean, ThreadsOf, Signed, Depth, DequeueThread, UpdateCache;
      ThreadAt(threads, t);
      ThreadAt(threads, current);
      if Bit(threads[t].state, QUEUED) {
        RunqRemove(t);
      }
      ThreadAt(threads, current);
      Refresh(t == current);
    }

    // ---- wait queues --------------------------------------------------------------------

    /** add_to_waitq_locked() and add_thread_timeout() */
    method AddToWaitq(t: Id, q: WaitQ, timed: bool)
      requires Words() && current in threads && t in threads
      modifies this`runq, this`threads, this`clock, this`cache, this`waitqs
      ensures Words() && View() == PendOn(Unready(old(View()), t), t, q, timed) && threads.Keys == old(threads).Keys
    {
      hide Bit, WithBit, Clean, ThreadsOf, Signed, Depth, Unready, Enqueue;
      ThreadAt(threads, t);
      ThreadAt(threads, current);
      MakeUnready(t);
      ThreadAt(threads, t);
      var l := PriqAdd(if q in waitqs then waitqs[q] else [], t);
      var k := threads[t];
      StateBits(k.state, PENDING);
      PutThread(t, k.(state := WithBit(k.state, PENDING), pendedOn := q, ret := -EAGAIN, timeout := k.timeout || timed,
                      since := clock));
      waitqs, clock := waitqs[q := l], clock + 1;
    }

    /** unpend_thread_no_timeout() */
    method UnpendThread(t: Id)
      requires Words() && t in threads
      modifies this`threads, this`waitqs
      ensures Words() && View() == Unpend(old(View()), t) && threads.Keys == old(threads).Keys
    {
      hide Bit, WithoutBit, Clean, ThreadsOf, Signed, Depth, Without;
      ThreadAt(threads, t);
      var k := threads[t];
      var l := ListRemove(if k.pendedOn in waitqs then waitqs[k.pendedOn] else [], t);
      StateBits(k.state, PENDING);
      PutThread(t, k.(state := WithoutBit(k.state, PENDING), pendedOn := Nowhere));
      waitqs := waitqs[k.pendedOn := l];
    }

    /** What z_sched_wake() and unpend_all() do to one thread. */
    method WakeOne(t: Id, ret: int)
      requires Words() && current in threads && t in threads
      modifies this`runq, this`threads, this`clock, this`cache, this`waitqs
      ensures Words() && View() == WakeThread(old(View()), t, ret) && threads.Keys == old(threads).Keys
    {
      hide Bit, Clean, ThreadsOf, ThreadOf, Unpend, ReadyThread, SetThread, AbortTimeout;
      ThreadAt(threads, t);
      ThreadAt(threads, current);
      SetReturn(t, ret);
      UnpendThread(t);
      StopTimeout(t);
      MakeReady(t);
    }

    /** z_sched_wake() */
    method SchedWake(q: WaitQ, ret: int) returns (woken: bool)
      requires Valid()
      modifies this
      ensures Valid()
      ensures forall x :: x in Waiters(old(View()), q) ==> x in old(View()).threads
      ensures View() == Wake(old(View()), q, ret) && woken == (Waiters(old(View()), q) != [])
    {
      hide Inv, ThreadsOf, WakeThread;
      CurrentKnown(View());
      WakeKeeps(View(), q, ret);
      var l := if q in waitqs then waitqs[q] else [];
      woken := l != [];
      if woken {
        var t := l[0];
        assert t in l;
        ThreadAt(threads, t);
        ThreadAt(threads, current);
        WakeOne(t, ret);
      }
    }

    /** z_pend_curr() */
    method PendCurr(q: WaitQ, timed: bool)
      requires Valid() && Running(View()) && CanPendOn(View(), q)
      modifies this
      ensures Valid() && View() == PendCurrent(old(View()), q, timed)
    {
      hide Inv, ThreadsOf, Unready, PendOn;
      CurrentKnown(View());
      PendCurrentKeeps(View(), q, timed);
      ThreadAt(threads, current);
      AddToWaitq(current, q, timed);
      current := cache;
    }

    /** z_init_thread_base() for a thread that has yet to be started */
    method CreateThread(t: Id, prio: int)
      requires Valid() && Enabled(View(), DoCreate(t, prio)) && FitsByte(prio)
      modifies this`threads
      ensures Valid() && View() == SetThread(old(View()), t, NewThread(prio))
    {
      hide Inv, Signed, Unsigned, ThreadsOf;
      CreateKeeps(View(), t, prio);
      PrioRoundTrip(prio);
      var k := KThread(1 << PRESTART, Unsigned(prio), 0, false, Nowhere, 0, 0);
      assert Clean(k.state) && ThreadOf(k) == NewThread(prio);
      hide Clean, ThreadOf, Bit;
      PutThread(t, k);
    }

    // ---- thread operations ------------------------------------------------------------------

    /** z_sched_start() */
    method StartThread(t: Id)
      requires Valid() && Enabled(View(), DoStart(t))
      modifies this
      ensures Valid() && old(current) in old(View()).threads && View() == Start(old(View()), t)
    {
      hide Inv, Bit, WithoutBit, Clean, ThreadsOf, Signed, Depth, ReadyThread;
      CurrentKnown(View());
      StartKeeps(View(), t);
      ThreadAt(threads, t);
      ThreadAt(threads, current);
      var k := threads[t];
      if Bit(k.state, PRESTART) {
        StateBits(k.state, PRESTART);
        PutThread(t, k.(state := WithoutBit(k.state, PRESTART)));
        MakeReady(t);
      }
    }

    /** z_impl_k_thread_suspend() */
    method SuspendThread(t: Id)
      requires Valid() && Enabled(View(), DoSuspend(t))
      modifies this
      ensures Valid() && old(current) in old(View()).threads && View() == Suspend(old(View()), t)
    {
      hide Inv, Bit, WithBit, Clean, ThreadsOf, Signed, Depth, DequeueThread, UpdateCache;
      CurrentKnown(View());
      SuspendKeeps(View(), t);
      ThreadAt(threads, t);
      ThreadAt(threads, current);
      hide WithBit, ThreadOf;
      StopTimeout(t);
      ThreadAt(threads, t);
      QueuedBit(threads[t]);
      if Bit(threads[t].state, QUEUED) {
        RunqRemove(t);
      }
      ThreadAt(threads, t);
      ThreadAt(threads, current);
      MarkSuspended(t);
      Refresh(t == current);
    }

    /** z_impl_k_thread_resume() */
    method ResumeThread(t: Id)
      requires Valid() && Enabled(View(), DoResume(t))
      modifies this
      ensures Valid() && old(current) in old(View()).threads && View() == Resume(old(View()), t)
    {
      hide Inv, Bit, WithoutBit, Clean, ThreadsOf, Signed, Depth, ReadyThread;
      CurrentKnown(View());
      ResumeKeeps(View(), t);
      ThreadAt(threads, t);
      ThreadAt(threads, current);
      var k := threads[t];
      if Bit(k.state, SUSPENDED) {
        StateBits(k.state, SUSPENDED);
        PutThread(t, k.(state := WithoutBit(k.state, SUSPENDED)));
        MakeReady(t);
      }
    }

    /** z_impl_k_wakeup() */
    method WakeupThread(t: Id)
      requires Valid() && Enabled(View(), DoWakeup(t))
      modifies this
      ensures Valid() && old(current) in old(View()).threads && View() == Wakeup(old(View()), t)
    {
      hide Inv, Bit, WithoutBit, Clean, ThreadsOf, Signed, Depth, ReadyThread, OnlySuspended;
      CurrentKnown(View());
      WakeupKeeps(View(), t);
      ThreadAt(threads, t);
      ThreadAt(threads, current);
      var k := threads[t];
      PreventedWord(k);
      if Bit(k.state, PENDING) {
        return;
      }
      if !k.timeout && k.state != ONLY_SUSPENDED {
        return;
      }
      StateBits(k.state, SUSPENDED);
      PutThread(t, k.(timeout := false, state := WithoutBit(k.state, SUSPENDED)));
      MakeReady(t);
    }

    /** z_thread_timeout() */
    method TimeoutHandler(t: Id)
      requires Valid() && Enabled(View(), DoTimeout(t))
      modifies this
      ensures Valid() && old(current) in old(View()).threads && View() == ThreadTimeout(old(View()), t)
    {
      hide Inv, Bit, WithoutBit, Clean, ThreadsOf, Signed, Depth, ReadyThread, Unpend;
      CurrentKnown(View());
      ThreadTimeoutKeeps(View(), t);
      ThreadAt(threads, t);
      ThreadAt(threads, current);
      StopTimeout(t);
      ThreadAt(threads, t);
      if !Bit(threads[t].state, DEAD) {
        if threads[t].pendedOn != Nowhere {
          UnpendThread(t);
        }
        ThreadAt(threads, t);
        ThreadAt(threads, current);
        var k := threads[t];
        StateBits(k.state, PRESTART);
        StateBits(WithoutBit(k.state, PRESTART), SUSPENDED);
        PutThread(t, k.(state := WithoutBit(WithoutBit(k.state, PRESTART), SUSPENDED)));
        MakeReady(t);
      }
    }

    /** z_set_prio() */
    method SetPriority(t: Id, prio: int) returns (needSched: bool)
      requires Valid() && Enabled(View(), DoSetPrio(t, prio)) && FitsByte(prio)
      modifies this
      ensures Valid() && old(current) in old(View()).threads && View() == SetPrio(old(View()), t, prio)
      ensures needSched == Ready(old(View()).threads[t])
    {
      hide Inv, Bit, Clean, ThreadsOf, Signed, Unsigned, Depth, DequeueThread, QueueThread, UpdateCache;
      CurrentKnown(View());
      SetPrioKeeps(View(), t, prio);
      PrioRoundTrip(prio);
      ThreadAt(threads, t);
      ThreadAt(threads, current);
      needSched := IsReady(t);
      if needSched {
        RunqRemove(t);
        ThreadAt(threads, t);
        PutThread(t, threads[t].(prio := Unsigned(prio)));
        RunqAdd(t);
        ThreadAt(threads, current);
        Refresh(true);
      } else {
        PutThread(t, threads[t].(prio := Unsigned(prio)));
      }
    }

    /** z_impl_k_yield() */
    method Yield()
      requires Valid() && Running(View())
      modifies this
      ensures Valid() && View() == Swap(Requeue(old(View()), old(current), true))
    {
      hide Inv, ThreadsOf, DequeueThread, QueueThread, UpdateCache;
      CurrentKnown(View());
      YieldKeeps(View());
      ThreadAt(threads, current);
      RunqRemove(current);
      RunqAdd(current);
      Refresh(true);
      current := cache;
    }

    /** The rest of z_tick_sleep(), for a positive number of ticks */
    method GoToSleep()
      requires Valid() && Running(View())
      modifies this
      ensures Valid() && View() == Sleep(old(View()))
    {
      hide Inv, Bit, WithBit, Clean, ThreadsOf, Signed, Depth, Unready;
      SleepKeeps(View());
      ThreadAt(threads, current);
      MakeUnready(current);
      ThreadAt(threads, current);
      var k := threads[current];
      StateBits(k.state, SUSPENDED);
      PutThread(current, k.(timeout := true, state := WithBit(k.state, SUSPENDED)));
      current := cache;
    }

    /** z_tick_sleep(): no ticks at all means yielding. */
    method TickSleep(ticks: nat)
      requires Valid() && Running(View())
      modifies this
      ensures Valid()
      ensures View() == if ticks == 0 then Swap(Requeue(old(View()), old(current), true)) else Sleep(old(View()))
    {
      hide Inv, ThreadsOf, Requeue, Sleep;
      if ticks == 0 {
        Yield();
      } else {
        GoToSleep();
      }
    }

    /** k_sched_lock() */
    method SchedLock()
      requires Valid() && Running(View()) && (current in threads ==> threads[current].locked != 1)
      modifies this
      ensures Valid() && View() == Lock(old(View()))
    {
      hide Inv, Bit, Clean, ThreadsOf, Signed, Depth, Decremented;
      CurrentKnown(View());
      LockKeeps(View());
      ThreadAt(threads, current);
      var k := threads[current];
      LockCounts(k.locked);
      PutThread(current, k.(locked := Decremented(k.locked)));
    }

    /** k_sched_unlock() without the reschedule */
    method SchedUnlock()
      requires Valid() && Running(View()) && (current in threads ==> threads[current].locked != 0)
      modifies this
      ensures Valid() && old(View()).threads[old(current)].locked > 0 && View() == Unlock(old(View()))
    {
      hide Inv, Bit, Clean, ThreadsOf, Signed, Depth, UpdateCache;
      ThreadAt(threads, current);
      var k := threads[current];
      LockCounts(k.locked);
      UnlockKeeps(View());
      PutThread(current, k.(locked := Incremented(k.locked)));
      Refresh(false);
    }

    // ---- abort and join ------------------------------------------------------------------------

    /** unpend_all() on a join queue */
    method UnpendAll(q: WaitQ)
      requires Words() && Settled(View(), q) && q != Nowhere
      modifies this`runq, this`threads, this`clock, this`cache, this`waitqs
      ensures Words() && threads.Keys == old(threads).Keys
      ensures old(current) in old(View()).threads && forall x :: x in Waiters(old(View()), q) ==> x in old(View()).threads
      ensures View() == WakeEach(old(View()), Waiters(old(View()), q))
    {
      ghost var s, l := View(), Waiters(View(), q);
      WakeEachKeeps(s, l, q);
      hide Settled, WakeThread, ThreadsOf, Clean;
      while q in waitqs && waitqs[q] != []
        invariant Words() && threads.Keys == old(threads).Keys
        invariant Settled(View(), q) && current in View().threads
        invariant forall x :: x in Waiters(View(), q) ==> x in View().threads
        invariant WakeEach(View(), Waiters(View(), q)) == WakeEach(s, l)
        decreases |Waiters(View(), q)|
      {
        ghost var m := Waiters(View(), q);
        WakeFirst(View(), m, q);
        var t := waitqs[q][0];
        assert t in m;
        ThreadAt(threads, t);
        ThreadAt(threads, current);
        WakeOne(t, 0);
        assert forall x :: x in m[1..] ==> x in m;
      }
    }

    /** The first half of end_thread() */
    method BuryThread(t: Id)
      requires Words() && t in threads
      modifies this`runq, this`threads, this`waitqs
      ensures Words() && View() == Bury(old(View()), t) && threads.Keys == old(threads).Keys
    {
      hide Bit, WithBit, Clean, ThreadsOf, Signed, Depth, DequeueThread, Unpend, AbortTimeout;
      ThreadAt(threads, t);
      var k := threads[t];
      StateBits(k.state, DEAD);
      PutThread(t, k.(state := WithBit(k.state, DEAD)));
      if Bit(threads[t].state, QUEUED) {
        RunqRemove(t);
      }
      ThreadAt(threads, t);
      if threads[t].pendedOn != Nowhere {
        UnpendThread(t);
      }
      StopTimeout(t);
    }

    /** end_thread() */
    method AbortThread(t: Id)
      requires Valid() && Enabled(View(), DoAbort(t))
      modifies this
      ensures Valid() && old(current) in old(View()).threads
      ensures forall x :: x in Waiters(Bury(old(View()), t), JoinOf(t)) ==> x in old(View()).threads
      ensures View() == EndThread(old(View()), t)
    {
      hide Inv, Settled, WakeEach, Bit, Clean, ThreadsOf, Signed, Depth, Bury, UpdateCache, Waiters;
      ghost var s := View();
      CurrentKnown(s);
      EndThreadKeeps(s, t);
      ThreadAt(threads, t);
      ThreadAt(threads, current);
      if !Bit(threads[t].state, DEAD) {
        BurySettled(s, t);
        BuryThread(t);
        WakeEachKeeps(View(), Waiters(View(), JoinOf(t)), JoinOf(t));
        UnpendAll(JoinOf(t));
        Refresh(true);
      }
    }

    /** z_impl_k_thread_join() */
    method JoinThread(t: Id, wait: bool, timed: bool) returns (r: JoinResult)
      requires Valid() && Enabled(View(), DoJoin(t, wait, timed))
      modifies this
      ensures Valid() && r == JoinCode(old(View()), t, wait) && View() == Join(old(View()), t, wait, timed)
    {
      hide Inv, Bit, Clean, ThreadsOf, Signed, Depth, Unready, PendOn;
      CurrentKnown(View());
      JoinKeeps(View(), t, wait, timed);
      ThreadAt(threads, t);
      ThreadAt(threads, current);
      if Bit(threads[t].state, DEAD) {
        r := Done(0);
      } else if !wait {
        r := Done(-EBUSY);
      } else if t == current || threads[t].pendedOn == JoinOf(current) {
        r := Done(-EDEADLK);
      } else {
        AddToWaitq(current, JoinOf(t), timed);
        current := cache;
        r := Joining;
      }
    }
  }
}
