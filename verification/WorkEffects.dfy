/**
 What each call on a work item or a work queue answers, and everything it
 changes, in every state that satisfies the invariant.
 */
module WorkEffects {
  import opened IdList
  import opened WorkSpec
  import opened WorkInvariant
  import opened WorkRuns

  // ---- submitting ------------------------------------------------------------------

  /** The queue a submission is for: a running item goes back to the queue that runs
      it; otherwise the queue named, or the last one if none is. */
  predicate GoesTo(x: Work, q: Option<QueueId>, d: QueueId) {
    if x.running then x.queue == Some(d) else q == Some(d) || (q.None? && x.queue == Some(d))
  }

  /** From `s` to `t` item `w` was accepted by queue `d`: it is last on the list, and
      the queue's thread is awake. Nothing else is different. */
  ghost predicate Accepts(s: State, t: State, w: WorkId, d: QueueId)
    requires w in s.works && d in s.queues
  {
    var x, k := s.works[w], s.queues[d];
    && t.works == s.works[w := x.(queued := true, queue := Some(d), fates := x.fates + [Waiting])]
    && t.queues.Keys == s.queues.Keys && (forall p :: p in s.queues && p != d ==> t.queues[p] == s.queues[p])
    && t.queues[d].pending == k.pending + [w] && !t.queues[d].worker.Asleep?
    && (t.queues[d].worker == k.worker || (k.worker.Asleep? && t.queues[d].worker.Looking?))
    && t.queues[d].busy == k.busy && SameLogs(s, t) && SameControl(s, t)
  }

  lemma {:induction false} AppendAccepts(s: State, w: WorkId, d: QueueId)
    requires w in s.works && d in s.queues
    ensures Accepts(s, Append(s, w, d), w, d)
  {
  }

  lemma {:induction false} AdmissionLaw(s: State, d: QueueId, caller: Caller)
    requires d in s.queues
    ensures var k, o := s.queues[d], Admission(s, Some(d), caller);
            && (o == NotStarted <==> !k.started)
            && (o == Busy <==> k.started && if k.draining then caller != WorkerOf(d) else k.plugged)
            && (o == NotStarted || o == Busy || o == Submitted)
  {
  }

  lemma {:induction false} SubmitIs(s: State, w: WorkId, q: Option<QueueId>, caller: Caller, d: QueueId)
    requires Inv(s) && w in s.works && !s.works[w].role.Flusher? && QueueKnown(s, q)
    requires GoesTo(s.works[w], q, d) && !s.works[w].canceling && !s.works[w].queued
    ensures d in s.queues
    ensures var o := Admission(s, Some(d), caller);
            SubmitStep(s, w, q, caller)
            == if Accepted(o) then (Append(s, w, d), if s.works[w].running then Resubmitted else Submitted) else (s, o)
  {
    PlaceKnown(s, w);
    hide Inv, Append, Admission;
  }

  /** An item that is neither queued nor being cancelled is for one queue `d`: the
      answer depends on that queue's flags only, and on who submits while it drains. */
  lemma {:induction false} SubmitTo(s: State, w: WorkId, q: Option<QueueId>, caller: Caller, d: QueueId)
    requires Inv(s) && w in s.works && !s.works[w].role.Flusher? && QueueKnown(s, q)
    requires GoesTo(s.works[w], q, d) && !s.works[w].canceling && !s.works[w].queued
    ensures d in s.queues
    ensures var (t, o) := SubmitStep(s, w, q, caller);
            var k := s.queues[d];
            && (o == NotStarted <==> !k.started)
            && (o == Busy <==> k.started && if k.draining then caller != WorkerOf(d) else k.plugged)
            && (o == Resubmitted ==> s.works[w].running) && (o == Submitted ==> !s.works[w].running)
            && (if o == NotStarted || o == Busy then t == s else Accepted(o) && Accepts(s, t, w, d))
  {
    SubmitIs(s, w, q, caller, d);
    hide Inv, Append, Accepts, Admission, SubmitStep;
    AdmissionLaw(s, d, caller);
    AppendAccepts(s, w, d);
  }

  /** Otherwise nothing happens, and the answer says why. */
  lemma {:induction false} SubmitLaw(s: State, w: WorkId, q: Option<QueueId>, caller: Caller)
    requires Inv(s) && w in s.works && !s.works[w].role.Flusher? && QueueKnown(s, q)
    ensures var (t, o) := SubmitStep(s, w, q, caller);
            var x := s.works[w];
            && (x.canceling ==> (t, o) == (s, Busy))
            && (!x.canceling && x.queued ==> (t, o) == (s, AlreadyQueued))
            && (!x.canceling && !x.queued && q.None? && x.queue.None? ==> (t, o) == (s, NoQueue))
            && (!x.canceling && !x.queued && (q.Some? || x.queue.Some?) ==> exists d :: GoesTo(x, q, d))
  {
    PlaceKnown(s, w);
    hide Inv, Append;
    var x := s.works[w];
    if !x.canceling && !x.queued && (q.Some? || x.queue.Some?) {
      assert GoesTo(x, q, if x.running || q.None? then x.queue.value else q.value);
    }
  }

  // ---- flushing --------------------------------------------------------------------

  /** queue_flusher_locked() and the notification: the list, and nothing else. */
  lemma {:induction false} FlusherListed(s: State, w: WorkId, f: WorkId, q: QueueId)
    requires w in s.works && q in s.queues
    ensures var t, l := InsertFlusher(s, w, f, q), s.queues[q].pending;
            && t.queues.Keys == s.queues.Keys && t.works == s.works[f := NewWork(Flusher(w, |s.works[w].fates|, q))]
            && SameLogs(s, t) && SameControl(s, t) && (forall p :: p in s.queues && p != q ==> t.queues[p] == s.queues[p])
            && (w in l ==> exists i :: 0 <= i < |l| && l[i] == w && t.queues[q].pending == l[..i + 1] + [f] + l[i + 1..])
            && (w !in l ==> t.queues[q].pending == [f] + l)
  {
    ListedBehind(s.queues[q].pending, w, f);
    hide NewWork, InsertAt, IndexOf;
  }

  lemma {:induction false} ListedBehind(l: seq<WorkId>, w: WorkId, f: WorkId)
    ensures var k := IndexOf(l, w);
            var m := InsertAt(l, if k < |l| then k + 1 else 0, f);
            && (w in l ==> exists i :: 0 <= i < |l| && l[i] == w && m == l[..i + 1] + [f] + l[i + 1..])
            && (w !in l ==> m == [f] + l)
  {
    var k := IndexOf(l, w);
    hide IndexOf;
    if w in l {
      assert l[k] == w && InsertAt(l, k + 1, f) == l[..k + 1] + [f] + l[k + 1..];
    }
  }

  /** A flush puts its flusher right behind the item if that is queued, and in front
      of everything if it is only running. */
  lemma {:induction false} FlushLaw(s: State, w: WorkId, f: WorkId)
    requires Inv(s) && w in s.works && !s.works[w].role.Flusher? && f !in s.works
    ensures var (t, wait) := FlushStep(s, w, f);
            var x := s.works[w];
            && (wait <==> x.queued || x.running)
            && (!wait ==> t == s)
            && (wait ==>
                  && x.queue.Some? && x.queue.value in s.queues && t.queues.Keys == s.queues.Keys
                  && t.works == s.works[f := NewWork(Flusher(w, |x.fates|, x.queue.value))]
                  && SameLogs(s, t) && SameControl(s, t)
                  && (forall p :: p in s.queues && p != x.queue.value ==> t.queues[p] == s.queues[p])
                  && var l, m := s.queues[x.queue.value].pending, t.queues[x.queue.value].pending;
                     && (w in l <==> x.queued)
                     && (x.queued ==> exists i :: 0 <= i < |l| && l[i] == w && m == l[..i + 1] + [f] + l[i + 1..])
                     && (!x.queued ==> m == [f] + l))
  {
    PlaceKnown(s, w);
    var x := s.works[w];
    if x.queued || x.running {
      assert WorkOk(s, w) && QueueOk(s, x.queue.value);
      assert w in s.queues[x.queue.value].pending <==> x.queued;
      hide Inv, InsertFlusher, NewWork, SameLogs, SameControl;
      FlusherListed(s, w, f, x.queue.value);
    }
  }

  // ---- cancelling ------------------------------------------------------------------

  /** What cancelling leaves of an item: its queued submission is cancelled, its
      delay is over, and it is marked as long as its handler runs. */
  function AfterCancel(x: Work): Work {
    x.(queued := false, delayed := false, armed := false, canceling := x.running,
       fates := if x.queued && x.fates != [] then x.fates[..|x.fates| - 1] + [Cancelled] else x.fates)
  }

  /** From `s` to `t` item `w` was taken off the list it was on; every other item has
      its place, and no queue is different otherwise. */
  ghost predicate Unlisted(s: State, t: State, w: WorkId) {
    && t.queues.Keys == s.queues.Keys
    && forall p :: p in s.queues ==>
         && t.queues[p] == s.queues[p].(pending := t.queues[p].pending)
         && var l, m := s.queues[p].pending, t.queues[p].pending;
            || (w !in l && m == l)
            || (exists i :: 0 <= i < |l| && l[i] == w && m == l[..i] + l[i + 1..])
  }

  lemma {:induction false} LastReplaced(fs: seq<Fate>)
    requires fs != []
    ensures fs[|fs| - 1 := Cancelled] == fs[..|fs| - 1] + [Cancelled]
  {
  }

  lemma {:induction false} ListedOnce(s: State, w: WorkId)
    requires Inv(s) && w in s.works && !s.works[w].role.Flusher?
    ensures forall p :: p in s.queues ==>
              (w in s.queues[p].pending <==> s.works[w].queued && s.works[w].queue == Some(p))
  {
    assert WorkOk(s, w);
    forall p | p in s.queues
      ensures w in s.queues[p].pending <==> s.works[w].queued && s.works[w].queue == Some(p)
    {
      assert QueueOk(s, p);
    }
  }

  lemma {:induction false} CancelLists(s: State, w: WorkId)
    requires Inv(s) && w in s.works && !s.works[w].role.Flusher? && !s.works[w].delayed
    ensures Unlisted(s, CancelStep(s, w), w)
  {
    PlaceKnown(s, w);
    ListedOnce(s, w);
    hide Inv, Unlisted;
    var x, t := s.works[w], CancelStep(s, w);
    if x.queued {
      var q := x.queue.value;
      var l := s.queues[q].pending;
      assert t.queues == s.queues[q := s.queues[q].(pending := Without(l, w))];
      hide CancelStep, Without;
      RemovedFrom(s, t, w, q);
    } else {
      assert t.queues == s.queues;
      hide CancelStep;
      RemovedNowhere(s, t, w);
    }
  }

  lemma {:induction false} RemovedFrom(s: State, t: State, w: WorkId, q: QueueId)
    requires q in s.queues && w in s.queues[q].pending
    requires forall p :: p in s.queues && p != q ==> w !in s.queues[p].pending
    requires t.queues == s.queues[q := s.queues[q].(pending := Without(s.queues[q].pending, w))]
    ensures Unlisted(s, t, w)
  {
    var l := s.queues[q].pending;
    var i := IndexOf(l, w);
    hide IndexOf;
    assert l[i] == w && Without(l, w) == l[..i] + l[i + 1..];
  }

  lemma {:induction false} RemovedNowhere(s: State, t: State, w: WorkId)
    requires t.queues == s.queues && forall p :: p in s.queues ==> w !in s.queues[p].pending
    ensures Unlisted(s, t, w)
  {
  }

  /** Cancelling: the item, the lists, and nothing else. */
  lemma {:induction false} CancelLaw(s: State, w: WorkId)
    requires Inv(s) && w in s.works && !s.works[w].role.Flusher? && !s.works[w].delayed
    ensures var t := CancelStep(s, w);
            t.works == s.works[w := AfterCancel(s.works[w])] && Unlisted(s, t, w) && SameLogs(s, t)
  {
    CancelLists(s, w);
    PlaceKnown(s, w);
    hide Inv, Unlisted;
    if s.works[w].queued {
      LastReplaced(s.works[w].fates);
    }
  }

  /** Cancelling a delayable item also ends its delay. */
  lemma {:induction false} CancelDelayableLaw(s: State, w: WorkId)
    requires Inv(s) && IsDelayable(s, w)
    ensures var t := Step(s, DoCancelDelayable(w));
            t.works == s.works[w := AfterCancel(s.works[w])] && Unlisted(s, t, w) && SameLogs(s, t)
  {
    hide Inv, Unlisted, CancelStep, UnscheduleStep;
    var s1 := UnscheduleStep(s, w).0;
    UnscheduleWorks(s, w);
    CancelLaw(s1, w);
    UnlistedSame(s, s1, CancelStep(s1, w), w);
  }

  lemma {:induction false} UnscheduleWorks(s: State, w: WorkId)
    requires Inv(s) && w in s.works
    ensures UnscheduleStep(s, w).0 == SetWork(s, w, s.works[w].(delayed := false, armed := false))
  {
    PlaceKnown(s, w);
    hide Inv;
  }

  lemma {:induction false} UnlistedSame(s: State, s1: State, t: State, w: WorkId)
    requires s1.queues == s.queues && Unlisted(s1, t, w)
    ensures Unlisted(s, t, w)
  {
  }

  /** The synchronous forms do the same to the item and the lists; their caller waits
      exactly when the handler runs, behind all who wait already. */
  lemma {:induction false} CancelSyncLaw(s: State, op: Op)
    requires Inv(s) && Enabled(s, op) && (op.DoCancelSync? || op.DoCancelDelayableSync?)
    ensures var t := Step(s, op);
            && t.works == s.works[op.w := AfterCancel(s.works[op.w])] && Unlisted(s, t, op.w)
            && t.flushed == s.flushed && t.released == s.released
            && (s.works[op.w].running ==>
                  t.cancels == s.cancels + [Canceller(op.c, op.w)] && t.awaited == s.awaited + [op.c])
            && (!s.works[op.w].running ==> t.cancels == s.cancels && t.awaited == s.awaited)
  {
    hide Inv, Unlisted, CancelStep, UnscheduleStep;
    PlaceKnown(s, op.w);
    if op.DoCancelSync? {
      CancelLaw(s, op.w);
    } else {
      CancelDelayableLaw(s, op.w);
    }
    if IsBusy(s.works[op.w]) {
      var u := if op.DoCancelSync? then CancelStep(s, op.w) else CancelStep(UnscheduleStep(s, op.w).0, op.w);
      UnlistedAfter(s, u, Step(s, op), op.w);
    } else {
      Idle(s, op.w);
    }
  }

  lemma {:induction false} UnlistedAfter(s: State, u: State, t: State, w: WorkId)
    requires Unlisted(s, u, w) && t.queues == u.queues
    ensures Unlisted(s, t, w)
  {
  }

  lemma {:induction false} Idle(s: State, w: WorkId)
    requires Inv(s) && w in s.works && !s.works[w].role.Flusher? && !IsBusy(s.works[w])
    ensures AfterCancel(s.works[w]) == s.works[w] && Unlisted(s, s, w)
  {
    PlaceKnown(s, w);
    CancelLists(s, w);
    assert CancelStep(s, w) == s;
  }

  // ---- delays ------------------------------------------------------------------------

  /** Scheduling does nothing to an item that is queued, delayed or being cancelled;
      rescheduling always ends the old delay. Without a delay either one submits;
      with one, the item is delayed for that queue, and its timeout is pending
      unless it waits forever. */
  lemma {:induction false} ScheduleLaw(s: State, op: Op)
    requires Inv(s) && Enabled(s, op) && (op.DoSchedule? || op.DoReschedule?)
    ensures var t, x := Step(s, op), s.works[op.w];
            var y := x.(delayed := false, armed := false);
            if op.DoSchedule? && (x.canceling || x.queued || x.delayed) then t == s
            else if op.delay.NoWait? then
              Inv(SetWork(s, op.w, y)) && t == SubmitStep(SetWork(s, op.w, y), op.w, op.q, op.caller).0
            else t == SetWork(s, op.w, y.(delayed := true, timerQueue := op.q, armed := op.delay.Ticks?))
  {
    hide Inv, SubmitStep, UnscheduleStep, ScheduleStep;
    PlaceKnown(s, op.w);
    var x := s.works[op.w];
    UnscheduleWorks(s, op.w);
    var s1 := UnscheduleStep(s, op.w).0;
    assert Inv(s1);
    if op.DoReschedule? || !x.delayed {
      assert op.DoSchedule? ==> s1 == s;
      DelayIs(s1, op.w, op.q, op.delay, op.caller);
    }
  }

  lemma {:induction false} DelayIs(s: State, w: WorkId, q: Option<QueueId>, delay: Delay, caller: Caller)
    requires Inv(s) && IsDelayable(s, w) && !s.works[w].armed && QueueKnown(s, q)
    ensures ScheduleStep(s, w, q, delay, caller).0
            == if delay.NoWait? then SubmitStep(s, w, q, caller).0
               else SetWork(s, w, s.works[w].(delayed := true, timerQueue := q, armed := delay.Ticks?))
  {
    PlaceKnown(s, w);
    hide Inv, SubmitStep;
  }

  /** When the delay runs out, the item is submitted from interrupt level to the queue
      it was delayed for; so scheduling it and letting the delay pass is submitting
      it, up to the note of that queue. */
  lemma {:induction false} DelayLaw(s: State, w: WorkId, q: Option<QueueId>, caller: Caller)
    requires Inv(s) && IsDelayable(s, w) && QueueKnown(s, q)
    ensures var s1 := Step(s, DoReschedule(w, q, Ticks, caller));
            var s2 := SetWork(s, w, s.works[w].(delayed := false, armed := false, timerQueue := q));
            && Enabled(s1, TimerFires(w)) && Inv(s2)
            && Step(s1, TimerFires(w)) == SubmitStep(s2, w, q, Interrupt).0
  {
    hide Inv, SubmitStep, UnscheduleStep;
    var op := DoReschedule(w, q, Ticks, caller);
    ScheduleLaw(s, op);
    var s1 := Step(s, op);
    hide Step;
    UnscheduleWorks(s1, w);
    var s2 := UnscheduleStep(s1, w).0;
    assert s2 == SetWork(s, w, s.works[w].(delayed := false, armed := false, timerQueue := q));
    TimerIs(s1, w);
  }

  lemma {:induction false} TimerIs(s: State, w: WorkId)
    requires Inv(s) && Enabled(s, TimerFires(w))
    ensures Step(s, TimerFires(w)) == TimerStep(s, w).0
    ensures QueueKnown(s, s.works[w].timerQueue)
    ensures var s1 := UnscheduleStep(s, w).0; TimerStep(s, w) == SubmitStep(s1, w, s.works[w].timerQueue, Interrupt)
  {
    PlaceKnown(s, w);
    hide Inv, SubmitStep, FlushStep, CancelStep, CancelSyncStep, UnscheduleStep, ScheduleStep, TakeStep, FinishStep,
         FlushDelayableStep, StartStep, DrainStep, UnplugStep, FlagsOk, FatesOk;
  }

  /** Flushing a delayable item submits it first if it was delayed, and waits exactly
      when it is then queued or running; what it waits for includes that
      submission. */
  lemma {:induction false} FlushDelayableLaw(s: State, w: WorkId, f: WorkId, caller: Caller)
    requires Inv(s) && IsDelayable(s, w) && f !in s.works
    ensures QueueKnown(s, s.works[w].timerQueue)
    ensures var (t, wait) := FlushDelayableStep(s, w, f, caller);
            var x := s.works[w];
            var s1 := SetWork(s, w, x.(delayed := false, armed := false));
            && Inv(s1)
            && var s2 := if x.delayed then SubmitStep(s1, w, x.timerQueue, caller).0 else s;
               && w in s2.works && !s2.works[w].delayed
               && (wait <==> s2.works[w].queued || s2.works[w].running)
               && (wait ==> f in t.works && t.works[f].role.Flusher? && t.works[f].role.target == w
                            && t.works[f].role.upTo == |s2.works[w].fates|)
               && (!wait ==> t == s2)
  {
    PlaceKnown(s, w);
    hide Inv, SubmitStep, UnscheduleStep, FlushStep;
    UnscheduleWorks(s, w);
    var x, s1 := s.works[w], UnscheduleStep(s, w).0;
    assert Inv(s1);
    if IsBusy(x) {
      assert !x.delayed ==> s1 == s;
      var s2 := if x.delayed then SubmitStep(s1, w, x.timerQueue, caller).0 else s1;
      if x.delayed {
        SubmitKeepsDelay(s1, w, x.timerQueue, caller);
      }
      FlushLaw(s2, w, f);
    }
  }

  lemma {:induction false} SubmitKeepsDelay(s: State, w: WorkId, q: Option<QueueId>, caller: Caller)
    requires Inv(s) && w in s.works && !s.works[w].role.Flusher? && QueueKnown(s, q)
    ensures var t := SubmitStep(s, w, q, caller).0; t.works[w].delayed == s.works[w].delayed && (forall v :: v in t.works <==> v in s.works)
  {
    PlaceKnown(s, w);
    hide Inv;
  }

  // ---- the queue thread ------------------------------------------------------------------

  /** With nothing on the list the queue's thread completes a drain, releasing all who
      wait for it, and goes to sleep; the queue stays plugged if it was. */
  lemma {:induction false} TakeNone(s: State, q: QueueId)
    requires Inv(s) && CanTake(s, q) && s.queues[q].pending == []
    ensures TakeStep(s, q)
            == SetQueue(s, q, s.queues[q].(draining := false, drainq := [], worker := Asleep))
  {
    ControlKnown(s, q);
    hide Inv;
  }

  /** Otherwise it takes the first entry, and only that: a flusher's semaphore is given
      for what it was sent after, any other item starts running. */
  lemma {:induction false} TakeFirst(s: State, q: QueueId)
    requires Inv(s) && CanTake(s, q) && s.queues[q].pending != []
    ensures var t, k := TakeStep(s, q), s.queues[q];
            && t.queues == s.queues[q := k.(pending := k.pending[1..], busy := true, worker := t.queues[q].worker)]
            && k.pending[0] in s.works
            && var w, x := k.pending[0], s.works[k.pending[0]];
               && (x.role.Flusher? ==>
                     && t.queues[q].worker.Flushing? && t.works == s.works - {w}
                     && t.flushed == s.flushed + [Flushed(w, x.role.target, x.role.upTo)])
               && (!x.role.Flusher? ==>
                     && t.queues[q].worker == Handling(w) && t.flushed == s.flushed
                     && t.works == s.works[w := t.works[w]] && t.works[w].running && !t.works[w].queued)
  {
    HeadOk(s, q);
    hide Inv;
  }

  /** When a handler returns, the queue's thread is free again; the item is not
      running, and no longer being cancelled; a flusher leaves nothing to do. */
  lemma {:induction false} FinishLaw(s: State, q: QueueId)
    requires Inv(s) && q in s.queues && s.queues[q].busy
    ensures var t, k := FinishStep(s, q), s.queues[q];
            && t.queues == s.queues[q := k.(busy := false, worker := Looking)]
            && t.awaited == s.awaited && t.flushed == s.flushed
            && (k.worker.Flushing? ==> t.works == s.works && SameLogs(s, t))
            && (k.worker.Handling? ==>
                  && k.worker.work in s.works && k.worker.work in t.works
                  && var x, y := s.works[k.worker.work], t.works[k.worker.work];
                     && !y.running && !y.canceling && y.queued == x.queued && y.delayed == x.delayed
                     && x.executing < |x.fates| && y.fates == x.fates[x.executing := Finished]
                     && (forall v :: v in s.works && v != k.worker.work ==> v in t.works && t.works[v] == s.works[v]))
  {
    ControlKnown(s, q);
    if s.queues[q].worker.Handling? {
      FinishReady(s, q);
    }
    hide Inv, Others, Matching;
  }

  // ---- draining and plugging ---------------------------------------------------------------

  /** Nothing that was ever submitted to `q` is queued or running. */
  predicate AllOver(s: State, q: QueueId) {
    forall w :: w in s.works && !s.works[w].role.Flusher? && s.works[w].queue == Some(q) ==>
      !s.works[w].queued && !s.works[w].running
  }

  lemma {:induction false} OverWhenIdle(s: State, q: QueueId)
    requires Inv(s) && q in s.queues && s.queues[q].pending == [] && !s.queues[q].worker.Handling?
    ensures AllOver(s, q)
  {
    forall w | w in s.works && !s.works[w].role.Flusher? && s.works[w].queue == Some(q)
      ensures !s.works[w].queued && !s.works[w].running
    {
      assert WorkOk(s, w);
    }
  }

  /** A drain returns at once exactly when no plug is asked for, nothing is listed, no
      handler runs and no drain is on; then nothing changes, and everything ever
      submitted is over. Otherwise the caller waits, behind those who wait already,
      the drain is on, and the queue's thread is awake. */
  lemma {:induction false} DrainLaw(s: State, q: QueueId, plug: bool, t: ThreadId)
    requires Inv(s) && q in s.queues
    ensures var (r, wait) := DrainStep(s, q, plug, t);
            var k := s.queues[q];
            && (!wait <==> !plug && k.pending == [] && !k.worker.Handling? && !k.worker.Flushing? && !k.draining)
            && (!wait ==> r == s && AllOver(s, q))
            && (wait ==>
                  && r.works == s.works && SameLogs(s, r) && r.queues.Keys == s.queues.Keys
                  && (forall p :: p in s.queues && p != q ==> r.queues[p] == s.queues[p])
                  && var m := r.queues[q];
                     && m.drainq == k.drainq + [t] && m.draining && m.plugged == (k.plugged || plug)
                     && m.started == k.started && m.busy == k.busy && m.pending == k.pending
                     && m.worker == if k.worker.Asleep? then Looking else k.worker)
  {
    ControlKnown(s, q);
    var k := s.queues[q];
    if k.pending == [] && !k.worker.Handling? {
      OverWhenIdle(s, q);
    }
    hide Inv, AllOver;
  }

  /** Whoever waits for a drain is released by the queue's thread only when everything
      ever submitted to the queue is over. */
  lemma {:induction false} DrainedMeansOver(s: State, q: QueueId)
    requires Inv(s) && CanTake(s, q) && TakeStep(s, q).queues[q].drainq != s.queues[q].drainq
    ensures AllOver(s, q) && AllOver(TakeStep(s, q), q) && TakeStep(s, q).queues[q].drainq == []
  {
    if s.queues[q].pending != [] {
      TakeFirst(s, q);
    } else {
      TakeNone(s, q);
    }
    ControlKnown(s, q);
    hide TakeStep;
    OverWhenIdle(s, q);
    hide Inv;
  }

  /** Unplugging, and starting, change one queue and nothing else. */
  lemma {:induction false} ControlLaw(s: State, q: QueueId)
    requires Inv(s) && q in s.queues
    ensures UnplugStep(s, q) == SetQueue(s, q, s.queues[q].(plugged := false))
    ensures !s.queues[q].started ==>
              StartStep(s, q) == SetQueue(s, q, Queue(true, false, false, false, [], Looking, []))
  {
    hide Inv;
  }

  predicate Controls(op: Op, q: QueueId) {
    (op.StartQueue? || op.DoDrain? || op.DoUnplug?) && op.queue == q
  }

  /** Whether a queue is started and whether it is plugged change only by starting,
      draining and unplugging it; a drain begins only by asking for one. */
  lemma {:induction false} FlagsOnlyByCall(s: State, op: Op, q: QueueId)
    requires Inv(s) && Enabled(s, op) && q in s.queues && !Controls(op, q)
    ensures q in Step(s, op).queues
    ensures var k, m := s.queues[q], Step(s, op).queues[q];
            m.started == k.started && m.plugged == k.plugged && (m.draining ==> k.draining)
  {
    if op.WorkerTakes? {
      if s.queues[op.queue].pending != [] {
        TakeFirst(s, op.queue);
      } else {
        TakeNone(s, op.queue);
      }
      hide Inv, TakeStep;
    } else {
      OthersKeepFlags(s, op, q);
    }
  }

  lemma {:induction false} OthersKeepFlags(s: State, op: Op, q: QueueId)
    requires Inv(s) && Enabled(s, op) && q in s.queues && !Controls(op, q) && !op.WorkerTakes?
    ensures q in Step(s, op).queues
    ensures var k, m := s.queues[q], Step(s, op).queues[q];
            m.started == k.started && m.plugged == k.plugged && m.draining == k.draining
  {
    hide Inv, SubmitStep, FlushStep, CancelStep, CancelSyncStep, UnscheduleStep, ScheduleStep, FinishStep,
         FlushDelayableStep, TimerStep, TakeStep;
    match op {
      case DoCancel(w) => PlaceKnown(s, w);
      case DoCancelSync(w, _) => PlaceKnown(s, w);
      case DoSchedule(w, _, _, _) => PlaceKnown(s, w);
      case _ =>
    }
  }

  /** A plugged queue that has drained stays shut: until somebody unplugs, drains or
      starts it, it is plugged, holds nothing and runs nothing. */
  lemma {:induction false} PluggedStaysShut(s: State, ops: seq<Op>, q: QueueId)
    requires Inv(s) && CanRun(s, ops) && q in s.queues && s.queues[q].plugged && !s.queues[q].draining
    requires forall op :: op in ops ==> !Controls(op, q)
    ensures q in Run(s, ops).queues
    ensures var k := Run(s, ops).queues[q]; k.plugged && !k.draining && k.pending == [] && !k.busy
    decreases |ops|
  {
    if ops == [] {
      ControlKnown(s, q);
    } else {
      assert ops[0] in ops && forall op :: op in ops[1..] ==> op in ops;
      hide Inv, Step, Enabled, Controls;
      FlagsOnlyByCall(s, ops[0], q);
      PluggedStaysShut(Step(s, ops[0]), ops[1..], q);
    }
  }

  // ---- first in, first out -----------------------------------------------------------------

  /** Whoever stays on the list keeps its place relative to the others. */
  ghost predicate OrderKept(l: seq<Id>, m: seq<Id>) {
    forall a, b :: Ahead(l, a, b) && a in m && b in m ==> Ahead(m, a, b)
  }

  lemma {:induction false} OrderOfTail(l: seq<Id>)
    requires NoDup(l) && l != []
    ensures OrderKept(l, l[1..])
  {
    TailAt(l);
    hide Ahead;
    forall a, b | Ahead(l, a, b) && a in l[1..] && b in l[1..] ensures Ahead(l[1..], a, b) {
      TailKeepsOrder(l, a, b);
    }
  }

  lemma {:induction false} OrderOfInsert(l: seq<Id>, k: nat, y: Id)
    requires NoDup(l) && k <= |l| && y !in l
    ensures OrderKept(l, l[..k] + [y] + l[k..])
  {
    assert InsertAt(l, k, y) == l[..k] + [y] + l[k..];
    hide Ahead, InsertAt;
    forall a, b | Ahead(l, a, b) ensures Ahead(InsertAt(l, k, y), a, b) {
      InsertAtKeepsOrder(l, k, y, a, b);
    }
  }

  lemma {:induction false} OrderOfRemove(l: seq<Id>, i: nat)
    requires NoDup(l) && i < |l|
    ensures OrderKept(l, l[..i] + l[i + 1..])
  {
    var m := l[..i] + l[i + 1..];
    IndexUnique(l, i);
    assert Without(l, l[i]) == m;
    WithoutAt(l, l[i]);
    hide Ahead, Without;
    forall a, b | Ahead(l, a, b) && a in m && b in m ensures Ahead(m, a, b) {
      WithoutKeepsOrder(l, l[i], a, b);
    }
  }

  lemma {:induction false} OrderTwice(l: seq<Id>, m: seq<Id>, n: seq<Id>)
    requires OrderKept(l, m) && OrderKept(m, n) && forall x :: x in l ==> x in m
    ensures OrderKept(l, n)
  {
    forall a, b | Ahead(l, a, b) && a in n && b in n ensures Ahead(n, a, b) {
      assert a in l && b in l;
      assert Ahead(m, a, b);
    }
  }

  /** Nobody on a list of `s` overtakes anybody from `s` to `t`. */
  ghost predicate NoOvertaking(s: State, t: State) {
    forall q :: q in s.queues && q in t.queues ==> OrderKept(s.queues[q].pending, t.queues[q].pending)
  }

  lemma {:induction false} ListsSame(s: State, t: State)
    requires forall q :: q in s.queues && q in t.queues ==> t.queues[q].pending == s.queues[q].pending
    ensures NoOvertaking(s, t)
  {
  }

  /** It is enough to look at the list that changed. */
  lemma {:induction false} OneList(s: State, t: State, d: QueueId)
    requires d in s.queues && d in t.queues && OrderKept(s.queues[d].pending, t.queues[d].pending)
    requires forall q :: q in s.queues && q in t.queues && q != d ==> t.queues[q] == s.queues[q]
    ensures NoOvertaking(s, t)
  {
  }

  lemma {:induction false} ListKnown(s: State, d: QueueId, w: WorkId)
    requires Inv(s) && d in s.queues
    ensures NoDup(s.queues[d].pending)
    ensures w in s.queues[d].pending ==> w in s.works && (s.works[w].queued || s.works[w].role.Flusher?)
  {
    assert QueueOk(s, d);
  }

  lemma {:induction false} SubmitFifo(s: State, w: WorkId, q: Option<QueueId>, caller: Caller)
    requires Inv(s) && w in s.works && !s.works[w].role.Flusher? && QueueKnown(s, q)
    ensures var t := SubmitStep(s, w, q, caller).0;
            && NoOvertaking(s, t)
            && forall p, x :: p in s.queues && x in s.queues[p].pending ==> p in t.queues && x in t.queues[p].pending
  {
    SubmitLaw(s, w, q, caller);
    var (t, o) := SubmitStep(s, w, q, caller);
    var x := s.works[w];
    hide Inv, SubmitStep, NoOvertaking, OrderKept;
    if t == s {
      ListsSame(s, t);
    } else {
      var d :| GoesTo(x, q, d);
      SubmitTo(s, w, q, caller, d);
      hide Accepts;
      AcceptsFifo(s, t, w, d);
    }
  }

  lemma {:induction false} AcceptsFifo(s: State, t: State, w: WorkId, d: QueueId)
    requires Inv(s) && w in s.works && d in s.queues && Accepts(s, t, w, d)
    requires !s.works[w].queued && !s.works[w].role.Flusher?
    ensures NoOvertaking(s, t)
    ensures forall p, x :: p in s.queues && x in s.queues[p].pending ==> p in t.queues && x in t.queues[p].pending
  {
    hide Inv, NoOvertaking, OrderKept, SameLogs, SameControl;
    ListKnown(s, d, w);
    var l := s.queues[d].pending;
    OrderOfInsert(l, |l|, w);
    assert l[..|l|] + [w] + l[|l|..] == l + [w];
    OneList(s, t, d);
  }

  lemma {:induction false} FlushFifo(s: State, w: WorkId, f: WorkId)
    requires Inv(s) && w in s.works && !s.works[w].role.Flusher? && f !in s.works
    ensures NoOvertaking(s, FlushStep(s, w, f).0)
  {
    FlushLaw(s, w, f);
    var (t, wait) := FlushStep(s, w, f);
    var x := s.works[w];
    hide Inv, FlushStep, NoOvertaking, OrderKept;
    if wait {
      FlusherFifo(s, t, x.queue.value, w, f);
    } else {
      ListsSame(s, t);
    }
  }

  lemma {:induction false} FlusherFifo(s: State, t: State, d: QueueId, w: WorkId, f: WorkId)
    requires Inv(s) && f !in s.works && d in s.queues && d in t.queues
    requires forall p :: p in s.queues && p != d ==> p in t.queues && t.queues[p] == s.queues[p]
    requires var l, m := s.queues[d].pending, t.queues[d].pending;
             || (exists i :: 0 <= i < |l| && l[i] == w && m == l[..i + 1] + [f] + l[i + 1..])
             || m == [f] + l
    ensures NoOvertaking(s, t)
  {
    hide Inv, NoOvertaking, OrderKept;
    ListKnown(s, d, f);
    var l, m := s.queues[d].pending, t.queues[d].pending;
    if m == [f] + l {
      OrderOfInsert(l, 0, f);
      assert l[..0] + [f] + l[0..] == [f] + l;
    } else {
      var i :| 0 <= i < |l| && l[i] == w && m == l[..i + 1] + [f] + l[i + 1..];
      OrderOfInsert(l, i + 1, f);
    }
    OneList(s, t, d);
  }

  lemma {:induction false} UnlistedFifo(s: State, t: State, w: WorkId)
    requires Inv(s) && Unlisted(s, t, w)
    ensures NoOvertaking(s, t)
  {
    hide Inv, OrderKept;
    forall q | q in s.queues && q in t.queues ensures OrderKept(s.queues[q].pending, t.queues[q].pending) {
      var l, m := s.queues[q].pending, t.queues[q].pending;
      ListKnown(s, q, w);
      if m == l {
        SameOrder(l);
      } else {
        var i :| 0 <= i < |l| && l[i] == w && m == l[..i] + l[i + 1..];
        OrderOfRemove(l, i);
      }
    }
  }

  lemma {:induction false} SameOrder(l: seq<Id>)
    ensures OrderKept(l, l)
  {
  }

  lemma {:induction false} FlushDelayableFifo(s: State, w: WorkId, f: WorkId, caller: Caller)
    requires Inv(s) && IsDelayable(s, w) && f !in s.works
    ensures NoOvertaking(s, FlushDelayableStep(s, w, f, caller).0)
  {
    if !IsBusy(s.works[w]) {
      ListsSame(s, s);
    } else {
      PlaceKnown(s, w);
      UnscheduleWorks(s, w);
      var (s1, was) := UnscheduleStep(s, w);
      var s2 := if was then SubmitStep(s1, w, s1.works[w].timerQueue, caller).0 else s1;
      var t := FlushStep(s2, w, f).0;
      assert t == FlushDelayableStep(s, w, f, caller).0;
      if was {
        SubmitFifo(s1, w, s1.works[w].timerQueue, caller);
        SubmitKeepsDelay(s1, w, s1.works[w].timerQueue, caller);
      }
      FlushFifo(s2, w, f);
      hide Inv, UnscheduleStep, SubmitStep, FlushStep, FlushDelayableStep, OrderKept;
      forall q | q in s.queues && q in t.queues ensures OrderKept(s.queues[q].pending, t.queues[q].pending) {
        if was {
          OrderTwice(s.queues[q].pending, s2.queues[q].pending, t.queues[q].pending);
        }
      }
    }
  }

  lemma {:induction false} ScheduleFifo(s: State, op: Op)
    requires Inv(s) && Enabled(s, op) && (op.DoSchedule? || op.DoReschedule?)
    ensures NoOvertaking(s, Step(s, op))
  {
    hide Inv, SubmitStep, NoOvertaking;
    ScheduleLaw(s, op);
    var x, t := s.works[op.w], Step(s, op);
    hide Step;
    var y := x.(delayed := false, armed := false);
    if !(op.DoSchedule? && (x.canceling || x.queued || x.delayed)) && op.delay.NoWait? {
      var s1 := SetWork(s, op.w, y);
      SubmitFifo(s1, op.w, op.q, op.caller);
      SameQueues(s, s1, t);
    } else {
      ListsSame(s, t);
    }
  }

  lemma {:induction false} SameQueues(s: State, s1: State, t: State)
    requires s1.queues == s.queues && NoOvertaking(s1, t)
    ensures NoOvertaking(s, t)
  {
  }

  lemma {:induction false} TimerFifo(s: State, w: WorkId)
    requires Inv(s) && Enabled(s, TimerFires(w))
    ensures NoOvertaking(s, Step(s, TimerFires(w)))
  {
    hide Inv, SubmitStep, NoOvertaking, UnscheduleStep, TimerStep;
    TimerIs(s, w);
    UnscheduleWorks(s, w);
    var s1 := UnscheduleStep(s, w).0;
    SubmitFifo(s1, w, s.works[w].timerQueue, Interrupt);
    SameQueues(s, s1, Step(s, TimerFires(w)));
  }

  lemma {:induction false} TakeFifo(s: State, q: QueueId)
    requires Inv(s) && CanTake(s, q)
    ensures NoOvertaking(s, TakeStep(s, q))
  {
    ListKnown(s, q, 0);
    var l, t := s.queues[q].pending, TakeStep(s, q);
    if l == [] {
      TakeNone(s, q);
    } else {
      TakeFirst(s, q);
    }
    hide Inv, TakeStep, NoOvertaking, OrderKept;
    if l == [] {
      SameOrder(l);
    } else {
      OrderOfTail(l);
    }
    OneList(s, t, q);
  }

  lemma {:induction false} ControlFifo(s: State, op: Op)
    requires Inv(s) && Enabled(s, op) && (op.WorkerFinishes? || op.StartQueue? || op.DoDrain? || op.DoUnplug?)
    ensures NoOvertaking(s, Step(s, op))
  {
    if op.WorkerFinishes? {
      FinishLaw(s, op.queue);
    } else if op.DoDrain? {
      DrainLaw(s, op.queue, op.plug, op.t);
    } else {
      ControlKnown(s, op.queue);
      ControlLaw(s, op.queue);
    }
    hide Inv, FinishStep, DrainStep, UnplugStep, StartStep, NoOvertaking;
    ListsSame(s, Step(s, op));
  }

  /** No step lets anything overtake what is ahead of it on a list. */
  lemma {:induction false} StepFifo(s: State, op: Op)
    requires Inv(s) && Enabled(s, op)
    ensures NoOvertaking(s, Step(s, op))
  {
    hide Inv, SubmitStep, FlushStep, CancelStep, CancelSyncStep, UnscheduleStep, ScheduleStep, TakeStep, FinishStep,
         FlushDelayableStep, TimerStep, StartStep, DrainStep, UnplugStep, NoOvertaking, Unlisted;
    match op {
      case DoSubmit(w, q, caller) => SubmitFifo(s, w, q, caller);
      case DoFlush(w, f) => FlushFifo(s, w, f);
      case DoCancel(w) =>
        PlaceKnown(s, w);
        CancelLaw(s, w);
        UnlistedFifo(s, CancelStep(s, w), w);
      case DoCancelSync(w, c) =>
        CancelSyncLaw(s, op);
        UnlistedFifo(s, Step(s, op), w);
      case DoSchedule(w, q, delay, caller) => ScheduleFifo(s, op);
      case DoReschedule(w, q, delay, caller) => ScheduleFifo(s, op);
      case DoCancelDelayable(w) =>
        CancelDelayableLaw(s, w);
        UnlistedFifo(s, Step(s, op), w);
      case DoCancelDelayableSync(w, c) =>
        CancelSyncLaw(s, op);
        UnlistedFifo(s, Step(s, op), w);
      case DoFlushDelayable(w, f, caller) => FlushDelayableFifo(s, w, f, caller);
      case TimerFires(w) => TimerFifo(s, w);
      case WorkerTakes(q) => TakeFifo(s, q);
      case _ => ControlFifo(s, op);
    }
  }

  /** `w` is on the list of `q` from here to the end of the run. */
  ghost predicate StaysListed(s: State, ops: seq<Op>, q: QueueId, w: WorkId)
    requires Inv(s) && CanRun(s, ops)
    decreases |ops|
  {
    && q in s.queues && w in s.queues[q].pending
    && (ops != [] ==> StaysListed(Step(s, ops[0]), ops[1..], q, w))
  }

  /** First in, first out, over every run: what is ahead on the list of a queue stays
      ahead, and the queue's thread does not take what is behind it first. */
  lemma {:induction false} FifoLaw(s: State, ops: seq<Op>, q: QueueId, a: WorkId, b: WorkId)
    requires Inv(s) && CanRun(s, ops) && StaysListed(s, ops, q, a) && StaysListed(s, ops, q, b)
    requires Ahead(s.queues[q].pending, a, b)
    ensures var r := Run(s, ops);
            && q in r.queues && Ahead(r.queues[q].pending, a, b) && r.queues[q].pending[0] != b
    decreases |ops|
  {
    if ops == [] {
    } else {
      StepFifo(s, ops[0]);
      var t := Step(s, ops[0]);
      assert OrderKept(s.queues[q].pending, t.queues[q].pending) by {
        hide Ahead;
        assert q in t.queues;
      }
      hide Inv, Step, Enabled;
      FifoLaw(t, ops[1..], q, a, b);
    }
  }
}
