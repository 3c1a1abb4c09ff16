/**
 Runs of the work queue state machine and what holds in all of them.
 */
module WorkRuns {
  import opened IdList
  import opened WorkSpec
  import opened WorkInvariant

  datatype Op =
    | DoSubmit(w: WorkId, q: Option<QueueId>, caller: Caller)
    | DoFlush(w: WorkId, f: WorkId)
    | DoCancel(w: WorkId)
    | DoCancelSync(w: WorkId, c: SyncId)
    | DoSchedule(w: WorkId, q: Option<QueueId>, delay: Delay, caller: Caller)
    | DoReschedule(w: WorkId, q: Option<QueueId>, delay: Delay, caller: Caller)
    | DoCancelDelayable(w: WorkId)
    | DoCancelDelayableSync(w: WorkId, c: SyncId)
    | DoFlushDelayable(w: WorkId, f: WorkId, caller: Caller)
    | TimerFires(w: WorkId)
    | WorkerTakes(queue: QueueId)
    | WorkerFinishes(queue: QueueId)
    | StartQueue(queue: QueueId)
    | DoDrain(queue: QueueId, plug: bool, t: ThreadId)
    | DoUnplug(queue: QueueId)

  /** Nobody was told to wait and nobody was released. */
  predicate SameLogs(s: State, t: State) {
    t.cancels == s.cancels && t.awaited == s.awaited && t.flushed == s.flushed && t.released == s.released
  }

  /** The queues are in the same state, and the same threads wait for them to
      drain. */
  predicate SameControl(s: State, t: State) {
    forall q :: q in s.queues ==>
      && q in t.queues
      && t.queues[q].started == s.queues[q].started && t.queues[q].draining == s.queues[q].draining
      && t.queues[q].plugged == s.queues[q].plugged && t.queues[q].drainq == s.queues[q].drainq
  }

  // ---- operations keep the invariant ------------------------------------------

  lemma {:induction false} PlaceKnown(s: State, w: WorkId)
    requires Inv(s) && w in s.works
    ensures var x := s.works[w];
            && (x.queue.Some? ==> x.queue.value in s.queues)
            && (x.timerQueue.Some? ==> x.timerQueue.value in s.queues)
            && (x.queued || x.running ==> x.queue.Some? && x.fates != [])
            && FlagsOk(x) && FatesOk(x)
  {
    assert WorkOk(s, w);
  }

  lemma {:induction false} ControlKnown(s: State, q: QueueId)
    requires Inv(s) && q in s.queues
    ensures ControlOk(s.queues[q])
  {
    assert QueueOk(s, q);
  }

  lemma {:induction false} SubmitKeeps(s: State, w: WorkId, q: Option<QueueId>, caller: Caller)
    requires Inv(s) && w in s.works && !s.works[w].role.Flusher?
    requires q.Some? ==> q.value in s.queues
    requires s.works[w].queue.Some? ==> s.works[w].queue.value in s.queues
    ensures Inv(Submit(s, w, q, caller).0)
  {
    PlaceKnown(s, w);
    hide Inv;
    var x := s.works[w];
    var dest := if x.running || q.None? then x.queue else q;
    if !x.canceling && !x.queued && Accepted(Admission(s, dest, caller)) {
      AppendKeeps(s, w, dest.value);
    }
  }

  lemma {:induction false} SubmitShape(s: State, w: WorkId, q: Option<QueueId>, caller: Caller)
    requires w in s.works
    requires q.Some? ==> q.value in s.queues
    requires s.works[w].queue.Some? ==> s.works[w].queue.value in s.queues
    ensures var r := Submit(s, w, q, caller);
            && SameLogs(s, r.0) && SameControl(s, r.0)
            && r.0.works.Keys == s.works.Keys && r.0.queues.Keys == s.queues.Keys
            && r.0.works[w].role == s.works[w].role
  {
  }

  /** k_work_submit_to_queue() */
  ghost function SubmitStep(s: State, w: WorkId, q: Option<QueueId>, caller: Caller): (r: (State, Outcome))
    requires Inv(s) && w in s.works && !s.works[w].role.Flusher?
    requires q.Some? ==> q.value in s.queues
    ensures Inv(r.0)
    ensures SameLogs(s, r.0) && SameControl(s, r.0)
    ensures r.0.works.Keys == s.works.Keys && r.0.queues.Keys == s.queues.Keys && r.0.works[w].role == s.works[w].role
  {
    PlaceKnown(s, w);
    SubmitKeeps(s, w, q, caller);
    SubmitShape(s, w, q, caller);
    Submit(s, w, q, caller)
  }

  /** work_flush_locked() */
  ghost function FlushStep(s: State, w: WorkId, f: WorkId): (r: (State, bool))
    requires Inv(s) && w in s.works && !s.works[w].role.Flusher? && f !in s.works
    ensures Inv(r.0) && SameLogs(s, r.0) && SameControl(s, r.0)
  {
    PlaceKnown(s, w);
    var r := Flush(s, w, f);
    assert Inv(r.0) by {
      if s.works[w].queued || s.works[w].running {
        FlushKeeps(s, w, f, s.works[w].queue.value);
      }
    }
    r
  }

  /** cancel_async_locked() on an item with no pending timeout: afterwards it
      is not queued, and it is idle unless a handler is still running it. */
  ghost function CancelStep(s: State, w: WorkId): (r: State)
    requires Inv(s) && w in s.works && !s.works[w].role.Flusher? && !s.works[w].delayed
    ensures Inv(r) && SameLogs(s, r) && SameControl(s, r) && w in r.works && !r.works[w].queued
    ensures r.works[w].running == s.works[w].running == r.works[w].canceling
  {
    PlaceKnown(s, w);
    var r := CancelAsync(s, w);
    assert Inv(r) by {
      var s1 := if !s.works[w].canceling && s.works[w].queued then Dequeue(s, w) else s;
      if !s.works[w].canceling && s.works[w].queued {
        DequeueKeeps(s, w);
      }
      if IsBusy(s1.works[w]) {
        PlaceKnown(s1, w);
        FlagsKeep(s1, w, s1.works[w].(canceling := true));
      }
    }
    r
  }

  ghost function CancelSyncStep(s: State, w: WorkId, c: SyncId): (r: (State, bool))
    requires Inv(s) && w in s.works
    ensures Inv(r.0) && SameControl(s, r.0)
  {
    var r := CancelSync(s, w, c);
    assert Inv(r.0) by {
      if s.works[w].canceling {
        CancellerKeeps(s, w, c);
      }
    }
    r
  }

  lemma {:induction false} CancellerKeeps(s: State, w: WorkId, c: SyncId)
    requires Inv(s) && w in s.works && s.works[w].canceling
    ensures Inv(s.(cancels := s.cancels + [Canceller(c, w)], awaited := s.awaited + [c]))
  {
    var s' := s.(cancels := s.cancels + [Canceller(c, w)], awaited := s.awaited + [c]);
    hide ControlOk, FlagsOk, FatesOk, Ahead, WaitingAmong, ExecutingAmong;
    forall v | v in s'.works
      ensures WorkOk(s', v)
    {
      assert WorkOk(s, v);
    }
    forall p | p in s'.queues
      ensures QueueOk(s', p)
    {
      assert QueueOk(s, p);
    }
  }

  ghost function UnscheduleStep(s: State, w: WorkId): (r: (State, bool))
    requires Inv(s) && w in s.works
    ensures Inv(r.0) && w in r.0.works && !r.0.works[w].delayed && !r.0.works[w].armed
    ensures SameLogs(s, r.0) && r.0.queues == s.queues && r.0.works.Keys == s.works.Keys
    ensures r.0.works[w] == s.works[w].(delayed := false, armed := false) && r.1 == s.works[w].delayed
  {
    PlaceKnown(s, w);
    var r := Unschedule(s, w);
    assert Inv(r.0) by {
      if s.works[w].delayed {
        FlagsKeep(s, w, s.works[w].(delayed := false, armed := false));
      }
    }
    r
  }

  /** schedule_for_queue_locked(): never asked to arm a timeout that is
      already pending. */
  ghost function ScheduleStep(s: State, w: WorkId, q: Option<QueueId>, delay: Delay, caller: Caller): (r: (State, Outcome))
    requires Inv(s) && w in s.works && s.works[w].role.Delayable? && !s.works[w].armed
    requires q.Some? ==> q.value in s.queues
    ensures Inv(r.0) && SameLogs(s, r.0) && SameControl(s, r.0)
  {
    if delay.NoWait? then SubmitStep(s, w, q, caller)
    else
      PlaceKnown(s, w);
      var r := ScheduleFor(s, w, q, delay, caller);
      assert Inv(r.0) by {
        FlagsKeep(s, w, s.works[w].(delayed := true, timerQueue := q, armed := delay.Ticks?));
      }
      r
  }

  ghost function TakeStep(s: State, q: QueueId): (r: State)
    requires Inv(s) && CanTake(s, q)
    ensures Inv(r) && r.cancels == s.cancels && r.awaited == s.awaited && r.released == s.released
  {
    var k := s.queues[q];
    assert k.pending != [] ==> TakesFrom(s, q, k.pending[0]) by {
      if k.pending != [] {
        HeadOk(s, q);
      }
    }
    var r := Take(s, q);
    assert Inv(r) by {
      if k.pending != [] {
        TakeKeeps(s, q, k.pending[0]);
      } else {
        assert QueueOk(s, q);
        ControlKeeps(s, q, r.queues[q]);
      }
    }
    r
  }

  ghost function FinishStep(s: State, q: QueueId): (r: State)
    requires Inv(s) && q in s.queues && s.queues[q].busy
    ensures Inv(r) && SameControl(s, r)
  {
    ControlKnown(s, q);
    assert s.queues[q].worker.Handling? ==> CanFinish(s, q) by {
      if s.queues[q].worker.Handling? {
        FinishReady(s, q);
      }
    }
    var r := Finish(s, q);
    assert Inv(r) by {
      if s.queues[q].worker.Handling? {
        FinishKeeps(s, q);
      } else {
        ControlKeeps(s, q, r.queues[q]);
      }
    }
    r
  }

  /** k_work_queue_start() */
  ghost function StartStep(s: State, q: QueueId): (r: State)
    requires Inv(s) && q in s.queues && !s.queues[q].started
    ensures Inv(r) && SameLogs(s, r)
  {
    var k := Queue(true, false, false, false, [], Looking, []);
    assert Inv(SetQueue(s, q, k)) by {
      assert QueueOk(s, q);
      ControlKeeps(s, q, k);
    }
    SetQueue(s, q, k)
  }

  ghost function DrainStep(s: State, q: QueueId, plug: bool, t: ThreadId): (r: (State, bool))
    requires Inv(s) && q in s.queues
    ensures Inv(r.0) && SameLogs(s, r.0)
    ensures var k := s.queues[q];
            !r.1 <==> !plug && k.pending == [] && !k.worker.Handling? && !k.worker.Flushing? && !k.draining
    ensures !r.1 ==> r.0 == s
  {
    ControlKnown(s, q);
    var r := Drain(s, q, plug, t);
    assert Inv(r.0) by {
      if r.1 {
        assert QueueOk(s, q);
        ControlKeeps(s, q, r.0.queues[q]);
      }
    }
    r
  }

  /** k_work_queue_unplug() */
  ghost function UnplugStep(s: State, q: QueueId): (r: State)
    requires Inv(s) && q in s.queues
    ensures Inv(r) && SameLogs(s, r)
  {
    var k := s.queues[q].(plugged := false);
    assert Inv(SetQueue(s, q, k)) by {
      assert QueueOk(s, q);
      ControlKeeps(s, q, k);
    }
    SetQueue(s, q, k)
  }

  // ---- steps and runs -----------------------------------------------------------

  ghost predicate QueueKnown(s: State, q: Option<QueueId>) {
    q.Some? ==> q.value in s.queues
  }

  ghost predicate Unused(s: State, c: SyncId) {
    forall i :: 0 <= i < |s.cancels| ==> s.cancels[i].sync != c
  }

  ghost predicate IsDelayable(s: State, w: WorkId) {
    w in s.works && s.works[w].role.Delayable?
  }

  ghost predicate IsPlain(s: State, w: WorkId) {
    w in s.works && s.works[w].role.Plain?
  }

  /** When a step may be taken: the objects exist, the source's assertions hold,
      and a sync object is not used for two operations at once. */
  ghost predicate Enabled(s: State, op: Op) {
    match op
    case DoSubmit(w, q, _) => w in s.works && !s.works[w].role.Flusher? && QueueKnown(s, q)
    case DoFlush(w, f) => IsPlain(s, w) && f !in s.works
    case DoCancel(w) => IsPlain(s, w)
    case DoCancelSync(w, c) => IsPlain(s, w) && Unused(s, c)
    case DoSchedule(w, q, _, _) => IsDelayable(s, w) && QueueKnown(s, q)
    case DoReschedule(w, q, _, _) => IsDelayable(s, w) && QueueKnown(s, q)
    case DoCancelDelayable(w) => IsDelayable(s, w)
    case DoCancelDelayableSync(w, c) => IsDelayable(s, w) && Unused(s, c)
    case DoFlushDelayable(w, f, _) => IsDelayable(s, w) && f !in s.works
    case TimerFires(w) => IsDelayable(s, w) && s.works[w].armed
    case WorkerTakes(q) => CanTake(s, q)
    case WorkerFinishes(q) => q in s.queues && s.queues[q].busy
    case StartQueue(q) => q in s.queues && !s.queues[q].started
    case DoDrain(q, _, _) => q in s.queues
    case DoUnplug(q) => q in s.queues
  }

  /** k_work_flush_delayable() */
  ghost function FlushDelayableStep(s: State, w: WorkId, f: WorkId, caller: Caller): (r: (State, bool))
    requires Inv(s) && IsDelayable(s, w) && f !in s.works
    ensures Inv(r.0) && SameLogs(s, r.0) && SameControl(s, r.0)
  {
    if !IsBusy(s.works[w]) then (s, false)
    else
      PlaceKnown(s, w);
      var (s1, was) := UnscheduleStep(s, w);
      var s2 := if was then SubmitStep(s1, w, s1.works[w].timerQueue, caller).0 else s1;
      FlushStep(s2, w, f)
  }

  /** work_timeout(), when the timeout of a delayed item expires. */
  ghost function TimerStep(s: State, w: WorkId): (r: (State, Outcome))
    requires Inv(s) && IsDelayable(s, w) && s.works[w].armed
    ensures Inv(r.0) && SameLogs(s, r.0) && SameControl(s, r.0)
  {
    PlaceKnown(s, w);
    var s1 := UnscheduleStep(s, w).0;
    SubmitStep(s1, w, s1.works[w].timerQueue, Interrupt)
  }

  ghost function Step(s: State, op: Op): (r: State)
    requires Inv(s) && Enabled(s, op)
    ensures Inv(r)
  {
    match op
    case DoSubmit(w, q, caller) => SubmitStep(s, w, q, caller).0
    case DoFlush(w, f) => FlushStep(s, w, f).0
    case DoCancel(w) =>
      PlaceKnown(s, w);
      CancelStep(s, w)
    case DoCancelSync(w, c) =>
      PlaceKnown(s, w);
      if IsBusy(s.works[w]) then CancelSyncStep(CancelStep(s, w), w, c).0 else s
    case DoSchedule(w, q, delay, caller) =>
      var x := s.works[w];
      PlaceKnown(s, w);
      if x.canceling || x.queued || x.delayed then s else ScheduleStep(s, w, q, delay, caller).0
    case DoReschedule(w, q, delay, caller) => ScheduleStep(UnscheduleStep(s, w).0, w, q, delay, caller).0
    case DoCancelDelayable(w) => CancelStep(UnscheduleStep(s, w).0, w)
    case DoCancelDelayableSync(w, c) =>
      if IsBusy(s.works[w]) then CancelSyncStep(CancelStep(UnscheduleStep(s, w).0, w), w, c).0 else s
    case DoFlushDelayable(w, f, caller) => FlushDelayableStep(s, w, f, caller).0
    case TimerFires(w) => TimerStep(s, w).0
    case WorkerTakes(q) => TakeStep(s, q)
    case WorkerFinishes(q) => FinishStep(s, q)
    case StartQueue(q) => StartStep(s, q)
    case DoDrain(q, plug, t) => DrainStep(s, q, plug, t).0
    case DoUnplug(q) => UnplugStep(s, q)
  }

  /** Nothing started, nothing submitted. */
  ghost predicate Initial(s: State) {
    && (forall w :: w in s.works ==> s.works[w] == NewWork(Plain) || s.works[w] == NewWork(Delayable))
    && (forall q :: q in s.queues ==> s.queues[q] == Queue(false, false, false, false, [], Looking, []))
    && s.cancels == [] && s.awaited == [] && s.flushed == [] && s.released == []
  }

  lemma {:induction false} InitialInv(s: State)
    requires Initial(s)
    ensures Inv(s)
  {
    forall w | w in s.works
      ensures WorkOk(s, w)
    {
    }
    forall q | q in s.queues
      ensures QueueOk(s, q)
    {
    }
  }

  ghost predicate CanRun(s: State, ops: seq<Op>)
    requires Inv(s)
    decreases |ops|
  {
    ops == [] || (Enabled(s, ops[0]) && CanRun(Step(s, ops[0]), ops[1..]))
  }

  ghost function Run(s: State, ops: seq<Op>): (r: State)
    requires Inv(s) && CanRun(s, ops)
    ensures Inv(r)
    decreases |ops|
  {
    if ops == [] then s else Run(Step(s, ops[0]), ops[1..])
  }

  ghost predicate Reachable(s: State) {
    exists s0, ops :: Initial(s0) && Inv(s0) && CanRun(s0, ops) && Run(s0, ops) == s
  }

  // ---- no handler runs twice at once ------------------------------------------------

  lemma {:induction false} NoDupCount(l: seq<Id>, x: Id)
    requires NoDup(l)
    ensures multiset(l)[x] == if x in l then 1 else 0
  {
    if l == [] {
    } else {
      assert l == [l[0]] + l[1..];
      NoDupCount(l[1..], x);
    }
  }

  /** In every reachable state an item is QUEUED exactly when it is on a list;
      that list is the one of work->queue, it is there once and nowhere else.
      It is RUNNING exactly when a queue thread is inside its handler, and that
      is the thread of work->queue and no other. */
  lemma {:induction false} NoReentrancy(s: State, w: WorkId)
    requires Reachable(s) && w in s.works && !s.works[w].role.Flusher?
    ensures var x := s.works[w];
            forall q :: q in s.queues ==>
              && multiset(s.queues[q].pending)[w] == (if x.queued && x.queue == Some(q) then 1 else 0)
              && (s.queues[q].worker == Handling(w) <==> x.running && x.queue == Some(q))
    ensures s.works[w].queued || s.works[w].running ==> s.works[w].queue.Some? && s.works[w].queue.value in s.queues
  {
    assert WorkOk(s, w);
    forall q | q in s.queues
      ensures multiset(s.queues[q].pending)[w] == (if s.works[w].queued && s.works[w].queue == Some(q) then 1 else 0)
      ensures s.queues[q].worker == Handling(w) <==> s.works[w].running && s.works[w].queue == Some(q)
    {
      assert QueueOk(s, q);
      NoDupCount(s.queues[q].pending, w);
    }
  }

  function Count(fs: seq<Fate>, f: Fate): nat {
    if fs == [] then 0 else (if fs[0] == f then 1 else 0) + Count(fs[1..], f)
  }

  lemma {:induction false} CountOne(fs: seq<Fate>, f: Fate, on: bool, j: int)
    requires forall i :: 0 <= i < |fs| ==> (fs[i] == f <==> on && i == j)
    ensures Count(fs, f) == if on && 0 <= j < |fs| then 1 else 0
  {
    if fs == [] {
    } else {
      CountOne(fs[1..], f, on, j - 1);
    }
  }

  lemma {:induction false} CountAll(fs: seq<Fate>)
    ensures |fs| == Count(fs, Waiting) + Count(fs, Executing) + Count(fs, Finished) + Count(fs, Cancelled)
  {
    if fs == [] {
    } else {
      CountAll(fs[1..]);
    }
  }

  /** Every accepted submission is accounted for: it finished, it was removed
      by a cancel, it is the one being executed, or it is the one queued. */
  lemma {:induction false} SubmissionsConserved(s: State, w: WorkId)
    requires Reachable(s) && w in s.works && !s.works[w].role.Flusher?
    ensures var x := s.works[w];
            && Count(x.fates, Executing) == (if x.running then 1 else 0)
            && |x.fates| == Count(x.fates, Finished) + Count(x.fates, Cancelled)
                            + (if x.running then 1 else 0) + (if x.queued then 1 else 0)
  {
    var x := s.works[w];
    assert WorkOk(s, w);
    CountAll(x.fates);
    CountOne(x.fates, Waiting, x.queued, |x.fates| - 1);
    CountOne(x.fates, Executing, x.running, x.executing);
  }

  // ---- flags ---------------------------------------------------------------------------

  /** k_work_busy_get() */
  function BusyCode(x: Work): nat {
    (if x.running then 1 else 0) + (if x.canceling then 2 else 0)
    + (if x.queued then 4 else 0) + (if x.delayed then 8 else 0)
  }

  /** The combinations that can occur. */
  predicate KnownCode(c: nat) {
    c == 0 || c == 1 || c == 3 || c == 4 || c == 5 || c == 8 || c == 9 || c == 11 || c == 12 || c == 13
  }

  lemma {:induction false} FlagCombinations(s: State, w: WorkId)
    requires Reachable(s) && w in s.works
    ensures KnownCode(BusyCode(s.works[w]))
  {
    assert WorkOk(s, w);
  }

  lemma {:induction false} RunAppend(s: State, ops: seq<Op>, op: Op)
    requires Inv(s) && CanRun(s, ops) && Enabled(Run(s, ops), op)
    ensures CanRun(s, ops + [op]) && Run(s, ops + [op]) == Step(Run(s, ops), op)
    decreases |ops|
  {
    if ops == [] {
      assert ops + [op] == [op];
      assert CanRun(Step(s, op), []);
      assert Run(s, [op]) == Run(Step(s, op), [op][1..]);
    } else {
      assert (ops + [op])[1..] == ops[1..] + [op];
      RunAppend(Step(s, ops[0]), ops[1..], op);
    }
  }

  lemma {:induction false} ReachableStep(s: State, op: Op)
    requires Reachable(s) && Enabled(s, op)
    ensures Reachable(Step(s, op))
  {
    var s0, ops :| Initial(s0) && Inv(s0) && CanRun(s0, ops) && Run(s0, ops) == s;
    RunAppend(s0, ops, op);
  }
}
