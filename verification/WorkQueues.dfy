/**
 The work queue subsystem as the kernel runs it (zephyr/kernel/work.c): flag
 words, list heads and the list of pending cancellations, updated in place
 under one lock. Each method is one locked region.
 */
module WorkQueues {
  import opened IdList
  import opened BitWords
  import opened WorkSpec
  import opened WorkInvariant
  import opened WorkRuns
  import opened WorkWords

  /** sys_slist_find_and_remove() */
  method FindAndRemove(l: seq<WorkId>, w: WorkId) returns (r: seq<WorkId>)
    ensures r == Without(l, w)
  {
    var i := 0;
    while i < |l|
      invariant 0 <= i <= |l| && i <= IndexOf(l, w)
    {
      if l[i] == w {
        return l[..i] + l[i + 1..];
      }
      i := i + 1;
    }
    return l;
  }

  lemma {:induction false} CancelIs(s0: State, s: State, w: WorkId)
    requires w in s0.works && w in s.works
    requires s0.works[w].queued ==>
               s0.works[w].queue.Some? && s0.works[w].queue.value in s0.queues && s0.works[w].fates != []
    requires s == if !s0.works[w].canceling && s0.works[w].queued then Dequeue(s0, w) else s0
    ensures CancelAsync(s0, w) == if IsBusy(s.works[w]) then SetWork(s, w, s.works[w].(canceling := true)) else s
  {
    hide Dequeue;
  }

  class WorkSubsystem {
    var works: map<WorkId, KWork>
    var queues: map<QueueId, KQueue>
    var cancels: seq<Canceller>
    var awaited: seq<SyncId>
    var flushed: seq<Flushed>
    var released: seq<SyncId>

    ghost function View(): State
      reads this
    {
      State(WorksOf(works), QueuesOf(queues), cancels, awaited, flushed, released)
    }

    ghost predicate Valid()
      reads this
    {
      Inv(View())
    }

    // ---- helpers called with the lock held ----------------------------------

    method PutWork(w: WorkId, k: KWork)
      modifies this`works
      ensures works == old(works)[w := k] && WorksOf(works) == WorksOf(old(works))[w := WorkOf(k)]
    {
      hide WorkOf;
      works := works[w := k];
    }

    method PutQueue(q: QueueId, k: KQueue)
      modifies this`queues
      ensures queues == old(queues)[q := k] && QueuesOf(queues) == QueuesOf(old(queues))[q := QueueOf(k)]
    {
      hide QueueOf;
      queues := queues[q := k];
    }

    /** notify_queue_locked() */
    method NotifyQueue(q: QueueId)
      requires q in queues
      modifies this`queues
      ensures QueuesOf(queues) == QueuesOf(old(queues))[q := Notify(QueueOf(old(queues)[q]))]
      ensures queues.Keys == old(queues).Keys
    {
      hide Bit;
      if queues[q].worker.Asleep? {
        PutQueue(q, queues[q].(worker := Looking));
      } else {
        PutQueue(q, queues[q]);
      }
    }

    /** queue_submit_locked() */
    method QueueSubmit(q: Option<QueueId>, w: WorkId, caller: Caller) returns (o: Outcome)
      requires q.Some? ==> q.value in queues
      modifies this`queues
      ensures o == Admission(old(View()), q, caller)
      ensures var k := QueuesOf(old(queues));
              QueuesOf(queues) == if Accepted(o) && q.Some?
                                  then k[q.value := Notify(k[q.value].(pending := k[q.value].pending + [w]))] else k
    {
      hide Bit;
      if q.None? {
        return NoQueue;
      }
      var k := queues[q.value];
      var chained := caller == WorkerOf(q.value);
      var draining, plugged := Bit(k.flags, DRAIN), Bit(k.flags, PLUGGED);
      if !Bit(k.flags, STARTED) {
        o := NotStarted;
      } else if draining && !chained {
        o := Busy;
      } else if plugged && !draining {
        o := Busy;
      } else {
        PutQueue(q.value, k.(pending := k.pending + [w]));
        o := Submitted;
        NotifyQueue(q.value);
      }
    }

    /** submit_to_queue_locked() */
    method SubmitLocked(w: WorkId, q: Option<QueueId>, caller: Caller) returns (o: Outcome)
      requires w in works
      requires q.Some? ==> q.value in queues
      requires works[w].queue.Some? ==> works[w].queue.value in queues
      modifies this`works, this`queues
      ensures (View(), o) == Submit(old(View()), w, q, caller)
    {
      hide Bit, WithBit, WorksOf, QueuesOf;
      WorkAt(works, w);
      var k := works[w];
      if q.Some? {
        QueueAt(queues, q.value);
      }
      if k.queue.Some? {
        QueueAt(queues, k.queue.value);
      }
      if Bit(k.flags, CANCELING) {
        o := Busy;
      } else if !Bit(k.flags, QUEUED) {
        var dest := q;
        if dest.None? {
          dest := k.queue;
        }
        o := Submitted;
        if Bit(k.flags, RUNNING) {
          dest := k.queue;
          o := Resubmitted;
        }
        var rc := QueueSubmit(dest, w, caller);
        if !Accepted(rc) {
          o := rc;
        } else {
          Flags(k.flags, QUEUED);
          var k1 := k.(flags := WithBit(k.flags, QUEUED), queue := dest, fates := k.fates + [Waiting]);
          assert WorkOf(k1) == WorkOf(k).(queued := true, queue := dest, fates := k.fates + [Waiting]);
          PutWork(w, k1);
        }
      } else {
        o := AlreadyQueued;
      }
    }

    /** queue_flusher_locked() */
    method QueueFlusher(q: QueueId, w: WorkId, f: WorkId)
      requires w in works && q in queues
      modifies this`works, this`queues
      ensures WorksOf(works) == WorksOf(old(works))[f := NewWork(Flusher(w, |old(works)[w].fates|, q))]
      ensures queues.Keys == old(queues).Keys
      ensures QueuesOf(queues) == QueuesOf(old(queues))[q := QueueOf(old(queues)[q]).(pending :=
                var l := old(queues)[q].pending;
                InsertAt(l, if IndexOf(l, w) < |l| then IndexOf(l, w) + 1 else 0, f))]
    {
      hide Bit;
      ghost var l0 := queues[q].pending;
      var l := queues[q].pending;
      var i := 0;
      while i < |l| && l[i] != w
        invariant 0 <= i <= |l| && i <= IndexOf(l, w)
      {
        i := i + 1;
      }
      ClearWord(Flusher(w, |works[w].fates|, q));
      PutWork(f, KWork(0, None, None, false, Flusher(w, |works[w].fates|, q), [], 0));
      if i < |l| {
        l := l[..i + 1] + [f] + l[i + 1..];
      } else {
        l := [f] + l;
      }
      assert i == IndexOf(l0, w);
      assert l == InsertAt(l0, if i < |l0| then i + 1 else 0, f);
      hide InsertAt, IndexOf;
      PutQueue(q, queues[q].(pending := l));
    }

    /** work_flush_locked() */
    method FlushLocked(w: WorkId, f: WorkId) returns (wait: bool)
      requires w in works && f !in works
      requires Bit(works[w].flags, QUEUED) || Bit(works[w].flags, RUNNING) ==>
                 works[w].queue.Some? && works[w].queue.value in queues
      modifies this`works, this`queues
      ensures (View(), wait) == Flush(old(View()), w, f)
    {
      hide Bit, AnyOf, InsertAt, IndexOf;
      TwoFlags(works[w].flags);
      wait := AnyOf(works[w].flags, FLUSH_MASK);
      if wait {
        var q := works[w].queue.value;
        WorkAt(works, w);
        QueueAt(queues, q);
        ghost var s, l := View(), queues[q].pending;
        hide WorkOf, QueueOf, WorksOf, QueuesOf, Notify;
        QueueFlusher(q, w, f);
        QueueAt(queues, q);
        NotifyQueue(q);
        ghost var k := s.queues[q].(pending := InsertAt(l, if IndexOf(l, w) < |l| then IndexOf(l, w) + 1 else 0, f));
        assert QueuesOf(queues) == s.queues[q := k][q := Notify(k)] == s.queues[q := Notify(k)];
      }
    }

    /** queue_remove_locked() */
    method QueueRemove(w: WorkId)
      requires w in works
      requires Bit(works[w].flags, QUEUED) ==>
                 works[w].queue.Some? && works[w].queue.value in queues && works[w].fates != []
      modifies this`works, this`queues
      ensures View() == if Bit(old(works)[w].flags, QUEUED) then Dequeue(old(View()), w) else old(View())
      ensures works.Keys == old(works).Keys
    {
      hide Bit, WithoutBit, Without;
      var k := works[w];
      if Bit(k.flags, QUEUED) {
        var q := k.queue.value;
        Flags(k.flags, QUEUED);
        PutWork(w, k.(flags := WithoutBit(k.flags, QUEUED), fates := k.fates[|k.fates| - 1 := Cancelled]));
        var l := FindAndRemove(queues[q].pending, w);
        PutQueue(q, queues[q].(pending := l));
      }
    }

    /** cancel_async_locked(): the result is k_work_busy_get() afterwards. */
    method CancelLocked(w: WorkId) returns (busy: nat)
      requires w in works
      requires Bit(works[w].flags, QUEUED) ==>
                 works[w].queue.Some? && works[w].queue.value in queues && works[w].fates != []
      modifies this`works, this`queues
      ensures View() == CancelAsync(old(View()), w)
      ensures w in works && busy == BusyCode(WorkOf(works[w]))
    {
      hide Bit, WithBit, BusyCode, BusyGet, Dequeue, IsBusy, WorksOf, QueuesOf;
      ghost var s0 := View();
      WorkAt(works, w);
      if works[w].queue.Some? {
        QueueAt(queues, works[w].queue.value);
      }
      if !Bit(works[w].flags, CANCELING) {
        QueueRemove(w);
      }
      ghost var s := View();
      assert s == if !s0.works[w].canceling && s0.works[w].queued then Dequeue(s0, w) else s0;
      WorkAt(works, w);
      var k := works[w];
      BusyWord(k);
      CancelIs(s0, s, w);
      hide CancelAsync;
      busy := BusyGet(k.flags);
      if busy != 0 {
        var k1 := k.(flags := WithBit(k.flags, CANCELING));
        assert WorkOf(k1) == WorkOf(k).(canceling := true) by {
          WorkFlags(k);
        }
        hide WorkOf;
        PutWork(w, k1);
        BusyWord(k1);
        busy := BusyGet(k1.flags);
        assert View() == SetWork(s, w, s.works[w].(canceling := true));
      }
    }

    /** cancel_sync_locked() */
    method CancelSyncLocked(w: WorkId, c: SyncId) returns (wait: bool)
      requires w in works
      modifies this`cancels, this`awaited
      ensures (View(), wait) == CancelSync(old(View()), w, c)
    {
      hide Bit;
      wait := Bit(works[w].flags, CANCELING);
      if wait {
        cancels := cancels + [Canceller(c, w)];
        awaited := awaited + [c];
      }
    }

    /** unschedule_locked() */
    method UnscheduleLocked(w: WorkId) returns (was: bool)
      requires w in works
      modifies this`works
      ensures (View(), was) == Unschedule(old(View()), w)
      ensures w in works && works[w].timerQueue == old(works)[w].timerQueue && works[w].queue == old(works)[w].queue
    {
      hide Bit, WithoutBit;
      var k := works[w];
      was := Bit(k.flags, DELAYED);
      if was {
        Flags(k.flags, DELAYED);
        PutWork(w, k.(flags := WithoutBit(k.flags, DELAYED), armed := false));
      }
    }

    /** finalize_cancel_locked(), after the flag has been cleared. */
    method ReleaseCancellers(w: WorkId)
      modifies this`cancels, this`released
      ensures cancels == Others(old(cancels), w)
      ensures released == old(released) + Matching(old(cancels), w)
    {
      var i := 0;
      while i < |cancels|
        invariant 0 <= i <= |cancels|
        invariant cancels[..i] + Others(cancels[i..], w) == Others(old(cancels), w)
        invariant released + Matching(cancels[i..], w) == old(released) + Matching(old(cancels), w)
        decreases |cancels| - i
      {
        ghost var rest := cancels[i..];
        assert rest[1..] == cancels[i + 1..];
        if cancels[i].work == w {
          released := released + [cancels[i].sync];
          cancels := cancels[..i] + cancels[i + 1..];
          assert cancels[i..] == rest[1..];
        } else {
          i := i + 1;
        }
      }
    }

    // ---- the kernel's entry points -------------------------------------------

    /** What the invariant says of an item, in terms of the structures. */
    lemma {:induction false} Known(w: WorkId)
      requires Valid() && w in WorksOf(works)
      ensures w in works && WorksOf(works)[w] == WorkOf(works[w])
      ensures works[w].queue.Some? ==> works[w].queue.value in queues
      ensures works[w].timerQueue.Some? ==> works[w].timerQueue.value in queues
      ensures Bit(works[w].flags, QUEUED) || Bit(works[w].flags, RUNNING) ==> works[w].queue.Some? && works[w].fates != []
      ensures FlagsOk(WorkOf(works[w]))
    {
      hide Inv;
      PlaceKnown(View(), w);
      hide FatesOk, Bit;
    }

    method SubmitToQueue(w: WorkId, q: Option<QueueId>, caller: Caller) returns (o: Outcome)
      requires Valid() && Enabled(View(), DoSubmit(w, q, caller))
      modifies this`works, this`queues
      ensures (View(), o) == SubmitStep(old(View()), w, q, caller)
      ensures Valid()
    {
      hide Inv;
      Known(w);
      PlaceKnown(View(), w);
      o := SubmitLocked(w, q, caller);
    }

    method WorkFlush(w: WorkId, f: WorkId) returns (wait: bool)
      requires Valid() && Enabled(View(), DoFlush(w, f))
      modifies this`works, this`queues
      ensures (View(), wait) == FlushStep(old(View()), w, f)
      ensures Valid()
    {
      hide Inv;
      Known(w);
      WorkAt(works, f);
      PlaceKnown(View(), w);
      wait := FlushLocked(w, f);
    }

    method WorkCancel(w: WorkId) returns (busy: nat)
      requires Valid() && Enabled(View(), DoCancel(w))
      modifies this`works, this`queues
      ensures View() == Step(old(View()), DoCancel(w))
      ensures Valid() && w in works && busy == BusyCode(WorkOf(works[w]))
    {
      hide Inv;
      Known(w);
      PlaceKnown(View(), w);
      busy := CancelLocked(w);
    }

    /** True when the item was pending; `wait` tells whether the caller blocks. */
    method WorkCancelSync(w: WorkId, c: SyncId) returns (pending: bool, wait: bool)
      requires Valid() && Enabled(View(), DoCancelSync(w, c))
      modifies this
      ensures View() == Step(old(View()), DoCancelSync(w, c))
      ensures Valid() && pending == IsBusy(old(View()).works[w]) && wait == old(View()).works[w].running
    {
      hide Inv, WorksOf, QueuesOf, Bit, BusyGet;
      Known(w);
      PlaceKnown(View(), w);
      BusyWord(works[w]);
      pending := BusyGet(works[w].flags) != 0;
      wait := false;
      if pending {
        var _ := CancelLocked(w);
        WorkAt(works, w);
        wait := CancelSyncLocked(w, c);
      }
    }

    /** schedule_for_queue_locked() */
    method ScheduleForQueue(w: WorkId, q: Option<QueueId>, delay: Delay, caller: Caller) returns (o: Outcome)
      requires w in works && (q.Some? ==> q.value in queues)
      requires works[w].queue.Some? ==> works[w].queue.value in queues
      modifies this`works, this`queues
      ensures (View(), o) == ScheduleFor(old(View()), w, q, delay, caller)
    {
      hide Bit, WithBit;
      if delay.NoWait? {
        o := SubmitLocked(w, q, caller);
        return;
      }
      var k := works[w];
      Flags(k.flags, DELAYED);
      PutWork(w, k.(flags := WithBit(k.flags, DELAYED), timerQueue := q, armed := delay.Ticks?));
      o := Submitted;
    }

    /** k_work_schedule_for_queue() */
    method Schedule(w: WorkId, q: Option<QueueId>, delay: Delay, caller: Caller) returns (o: Outcome)
      requires Valid() && Enabled(View(), DoSchedule(w, q, delay, caller))
      modifies this`works, this`queues
      ensures View() == Step(old(View()), DoSchedule(w, q, delay, caller))
      ensures var x := old(View()).works[w];
              if x.canceling || x.queued || x.delayed then o == AlreadyQueued
              else !x.armed && o == ScheduleStep(old(View()), w, q, delay, caller).1
      ensures Valid()
    {
      hide Inv, WorksOf, Bit;
      Known(w);
      PlaceKnown(View(), w);
      o := AlreadyQueued;
      var f := works[w].flags;
      if !Bit(f, CANCELING) && !Bit(f, QUEUED) && !Bit(f, DELAYED) {
        o := ScheduleForQueue(w, q, delay, caller);
      }
    }

    /** k_work_reschedule_for_queue() */
    method Reschedule(w: WorkId, q: Option<QueueId>, delay: Delay, caller: Caller) returns (o: Outcome)
      requires Valid() && Enabled(View(), DoReschedule(w, q, delay, caller))
      modifies this`works, this`queues
      ensures View() == Step(old(View()), DoReschedule(w, q, delay, caller))
      ensures o == ScheduleStep(UnscheduleStep(old(View()), w).0, w, q, delay, caller).1
      ensures Valid()
    {
      hide Inv, WorksOf, Bit;
      Known(w);
      PlaceKnown(View(), w);
      var _ := UnscheduleLocked(w);
      o := ScheduleForQueue(w, q, delay, caller);
    }

    /** k_work_cancel_delayable() */
    method CancelDelayable(w: WorkId) returns (busy: nat)
      requires Valid() && Enabled(View(), DoCancelDelayable(w))
      modifies this`works, this`queues
      ensures View() == Step(old(View()), DoCancelDelayable(w))
      ensures Valid() && w in works && busy == BusyCode(WorkOf(works[w]))
    {
      hide Inv, WorksOf, Bit, BusyCode;
      Known(w);
      ghost var s1 := UnscheduleStep(View(), w).0;
      var _ := UnscheduleLocked(w);
      assert View() == s1;
      Known(w);
      busy := CancelLocked(w);
    }

    /** k_work_cancel_delayable_sync() */
    method CancelDelayableSync(w: WorkId, c: SyncId) returns (pending: bool, wait: bool)
      requires Valid() && Enabled(View(), DoCancelDelayableSync(w, c))
      modifies this
      ensures View() == Step(old(View()), DoCancelDelayableSync(w, c))
      ensures Valid() && pending == IsBusy(old(View()).works[w]) && wait == old(View()).works[w].running
    {
      hide Inv, WorksOf, QueuesOf, Bit, BusyGet, BusyCode;
      Known(w);
      BusyWord(works[w]);
      pending := BusyGet(works[w].flags) != 0;
      wait := false;
      if pending {
        ghost var s1 := UnscheduleStep(View(), w).0;
        var _ := UnscheduleLocked(w);
        assert View() == s1;
        Known(w);
        var _ := CancelLocked(w);
        WorkAt(works, w);
        wait := CancelSyncLocked(w, c);
      } else {
        PlaceKnown(View(), w);
      }
    }

    /** k_work_flush_delayable() */
    method FlushDelayable(w: WorkId, f: WorkId, caller: Caller) returns (wait: bool)
      requires Valid() && Enabled(View(), DoFlushDelayable(w, f, caller))
      modifies this`works, this`queues
      ensures (View(), wait) == FlushDelayableStep(old(View()), w, f, caller)
      ensures Valid()
    {
      hide Inv, WorksOf, QueuesOf, Bit, BusyGet, BusyCode;
      Known(w);
      BusyWord(works[w]);
      if BusyGet(works[w].flags) == 0 {
        return false;
      }
      ghost var s1 := UnscheduleStep(View(), w).0;
      var was := UnscheduleLocked(w);
      assert View() == s1;
      Known(w);
      if was {
        PlaceKnown(s1, w);
        ghost var s2 := SubmitStep(s1, w, s1.works[w].timerQueue, caller).0;
        var _ := SubmitLocked(w, works[w].timerQueue, caller);
        assert View() == s2;
        Known(w);
      }
      WorkAt(works, f);
      wait := FlushLocked(w, f);
    }

    /** work_timeout() */
    method WorkTimeout(w: WorkId)
      requires Valid() && Enabled(View(), TimerFires(w))
      modifies this`works, this`queues
      ensures View() == Step(old(View()), TimerFires(w))
      ensures Valid()
    {
      hide Inv, WorksOf, QueuesOf, Bit, WithoutBit;
      Known(w);
      var k := works[w];
      if Bit(k.flags, DELAYED) {
        ghost var s1 := UnscheduleStep(View(), w).0;
        Flags(k.flags, DELAYED);
        PutWork(w, k.(flags := WithoutBit(k.flags, DELAYED), armed := false));
        assert View() == s1;
        Known(w);
        var _ := SubmitLocked(w, k.timerQueue, Interrupt);
      }
    }

    /** A node came off the list: mark it as being executed. */
    method TakeItem(q: QueueId)
      requires q in queues && queues[q].pending != [] && queues[q].pending[0] in works
      requires var k := works[queues[q].pending[0]]; !k.role.Flusher? ==> k.fates != []
      modifies this`works, this`queues, this`flushed
      ensures View() == Take(old(View()), q)
    {
      hide Bit, WithBit, WithoutBit;
      var k, w := queues[q], queues[q].pending[0];
      var x := works[w];
      Flags(k.flags, BUSY);
      if x.role.Flusher? {
        PutQueue(q, k.(flags := WithBit(k.flags, BUSY), pending := k.pending[1..], worker := Flushing));
        works := works - {w};
        flushed := flushed + [Flushed(w, x.role.target, x.role.upTo)];
        assert WorksOf(works) == WorksOf(old(works)) - {w};
      } else {
        PutQueue(q, k.(flags := WithBit(k.flags, BUSY), pending := k.pending[1..], worker := Handling(w)));
        var last := |x.fates| - 1;
        Flags(x.flags, RUNNING);
        Flags(WithBit(x.flags, RUNNING), QUEUED);
        PutWork(w, x.(flags := WithoutBit(WithBit(x.flags, RUNNING), QUEUED), fates := x.fates[last := Executing],
                      executing := last));
      }
    }

    /** Nothing to do: complete a drain if one is in progress, then sleep. */
    method GoToSleep(q: QueueId)
      requires q in queues && queues[q].pending == []
      modifies this`queues
      ensures View() == Take(old(View()), q)
    {
      hide Bit, WithoutBit;
      var k := queues[q];
      Flags(k.flags, DRAIN);
      if Bit(k.flags, DRAIN) {
        k := k.(flags := WithoutBit(k.flags, DRAIN));
        while k.drainq != []
          invariant k == queues[q].(flags := WithoutBit(queues[q].flags, DRAIN), drainq := k.drainq)
          decreases |k.drainq|
        {
          k := k.(drainq := k.drainq[1..]);
        }
      }
      PutQueue(q, k.(worker := Asleep));
    }

    /** First locked region of work_queue_main(). */
    method WorkerTake(q: QueueId)
      requires Valid() && Enabled(View(), WorkerTakes(q))
      modifies this`works, this`queues, this`flushed
      ensures View() == Step(old(View()), WorkerTakes(q))
      ensures Valid()
    {
      hide WorksOf, QueuesOf, Bit;
      QueueAt(queues, q);
      if queues[q].pending != [] {
        HeadOk(View(), q);
        hide Inv;
        WorkAt(works, queues[q].pending[0]);
        TakeItem(q);
      } else {
        hide Inv;
        GoToSleep(q);
      }
    }

    method FinishItem(q: QueueId)
      requires q in queues && (queues[q].worker.Handling? ==> CanFinish(View(), q))
      modifies this
      ensures View() == Finish(old(View()), q)
    {
      hide Bit, WithoutBit, Others, Matching;
      var k := queues[q];
      if k.worker.Handling? {
        var w := k.worker.work;
        var x := works[w];
        Flags(x.flags, RUNNING);
        Flags(WithoutBit(x.flags, RUNNING), CANCELING);
        var x1 := x.(flags := WithoutBit(x.flags, RUNNING), fates := x.fates[x.executing := Finished]);
        if Bit(x1.flags, CANCELING) {
          PutWork(w, x1.(flags := WithoutBit(x1.flags, CANCELING)));
          ReleaseCancellers(w);
        } else {
          PutWork(w, x1);
        }
      }
      Flags(k.flags, BUSY);
      PutQueue(q, k.(flags := WithoutBit(k.flags, BUSY), worker := Looking));
    }

    /** Second locked region of work_queue_main(). */
    method WorkerFinish(q: QueueId)
      requires Valid() && Enabled(View(), WorkerFinishes(q))
      modifies this
      ensures View() == Step(old(View()), WorkerFinishes(q))
      ensures Valid()
    {
      hide WorksOf, QueuesOf, Bit;
      QueueAt(queues, q);
      if queues[q].worker.Handling? {
        FinishReady(View(), q);
      }
      hide Inv;
      FinishItem(q);
    }

    /** The flags and the waiter of a drain request */
    method RequestDrain(q: QueueId, plug: bool, t: ThreadId)
      requires q in queues
      modifies this`queues
      ensures var x := QueueOf(old(queues)[q]);
              QueuesOf(queues) == QueuesOf(old(queues))[q :=
                x.(draining := true, plugged := x.plugged || plug, drainq := x.drainq + [t])]
      ensures queues.Keys == old(queues).Keys
    {
      hide Bit, WithBit;
      var k := queues[q];
      Flags(k.flags, DRAIN);
      k := k.(flags := WithBit(k.flags, DRAIN));
      if plug {
        Flags(k.flags, PLUGGED);
        k := k.(flags := WithBit(k.flags, PLUGGED));
      }
      PutQueue(q, k.(drainq := k.drainq + [t]));
    }

    /** k_work_queue_drain() */
    method QueueDrain(q: QueueId, plug: bool, t: ThreadId) returns (wait: bool)
      requires Valid() && Enabled(View(), DoDrain(q, plug, t))
      modifies this`queues
      ensures (View(), wait) == DrainStep(old(View()), q, plug, t)
      ensures Valid()
    {
      hide Inv, WorksOf, QueuesOf, Bit, AnyOf, Notify;
      QueueAt(queues, q);
      ghost var s, x := View(), QueueOf(queues[q]);
      TwoFlags(queues[q].flags);
      wait := AnyOf(queues[q].flags, DRAIN_MASK) || plug || queues[q].pending != [];
      if wait {
        RequestDrain(q, plug, t);
        QueueAt(queues, q);
        NotifyQueue(q);
        ghost var y := x.(draining := true, plugged := x.plugged || plug, drainq := x.drainq + [t]);
        assert QueuesOf(queues) == s.queues[q := y][q := Notify(y)] == s.queues[q := Notify(y)];
      }
    }

    /** k_work_queue_unplug(): true when the queue was plugged. */
    method QueueUnplug(q: QueueId) returns (was: bool)
      requires Valid() && Enabled(View(), DoUnplug(q))
      modifies this`queues
      ensures View() == UnplugStep(old(View()), q) && was == old(View()).queues[q].plugged
      ensures Valid()
    {
      hide Inv, WorksOf, QueuesOf, Bit, WithoutBit;
      QueueAt(queues, q);
      var k := queues[q];
      was := Bit(k.flags, PLUGGED);
      Flags(k.flags, PLUGGED);
      PutQueue(q, k.(flags := WithoutBit(k.flags, PLUGGED)));
    }

    /** k_work_queue_start() */
    method QueueStart(q: QueueId)
      requires Valid() && Enabled(View(), StartQueue(q))
      modifies this`queues
      ensures View() == StartStep(old(View()), q)
      ensures Valid()
    {
      hide Inv, WorksOf, QueuesOf, Bit;
      QueueAt(queues, q);
      StartWord();
      PutQueue(q, KQueue(1 << STARTED, [], Looking, []));
    }
  }
}
