/**
 What flushing, cancelling and draining promise, over every run.
 */
module WorkTheorems {
  import opened IdList
  import opened WorkSpec
  import opened WorkInvariant
  import opened WorkRuns

  // ---- the fate of a submission is final ---------------------------------------

  /** None of the first `n` submissions is waiting or executing. */
  predicate Settled(x: Work, n: nat) {
    !WaitingAmong(x, n) && !ExecutingAmong(x, n)
  }

  /** From `x` to `y`, submissions were only added and only came to an end. */
  ghost predicate Advances(x: Work, y: Work) {
    && y.role == x.role && |x.fates| <= |y.fates|
    && forall n: nat :: n <= |x.fates| && Settled(x, n) ==> Settled(y, n)
  }

  /** Every ordinary item of `s` is still there in `t` and has advanced. */
  ghost predicate AllAdvance(s: State, t: State) {
    forall w :: w in s.works && !s.works[w].role.Flusher? ==> w in t.works && Advances(s.works[w], t.works[w])
  }

  /** It is enough to look at the item that changed. */
  lemma {:induction false} OneAdvances(s: State, t: State, w: WorkId)
    requires w in s.works && w in t.works && Advances(s.works[w], t.works[w])
    requires forall v :: v in s.works && v != w ==> v in t.works && t.works[v] == s.works[v]
    ensures AllAdvance(s, t)
  {
    hide Settled;
  }

  lemma {:induction false} AcceptedAdvances(x: Work)
    ensures Advances(x, x)
    ensures forall q :: Advances(x, x.(queued := true, queue := q, fates := x.fates + [Waiting]))
  {
  }

  lemma {:induction false} SubmitAdvances(s: State, w: WorkId, q: Option<QueueId>, caller: Caller)
    requires Inv(s) && w in s.works && !s.works[w].role.Flusher? && QueueKnown(s, q)
    ensures AllAdvance(s, SubmitStep(s, w, q, caller).0)
  {
    hide Inv, AllAdvance, Advances;
    PlaceKnown(s, w);
    AcceptedAdvances(s.works[w]);
    OneAdvances(s, SubmitStep(s, w, q, caller).0, w);
  }

  lemma {:induction false} FlushAdvances(s: State, w: WorkId, f: WorkId)
    requires Inv(s) && w in s.works && !s.works[w].role.Flusher? && f !in s.works
    ensures AllAdvance(s, FlushStep(s, w, f).0)
  {
    PlaceKnown(s, w);
    hide Inv, AllAdvance;
    OneAdvances(s, FlushStep(s, w, f).0, w);
  }

  lemma {:induction false} CancelAdvances(s: State, w: WorkId)
    requires Inv(s) && w in s.works && !s.works[w].role.Flusher? && !s.works[w].delayed
    ensures AllAdvance(s, CancelStep(s, w))
  {
    hide Inv, AllAdvance;
    PlaceKnown(s, w);
    var t := CancelStep(s, w);
    CancelledAdvances(s.works[w]);
    assert t.works == s.works[w := t.works[w]];
    assert Advances(s.works[w], t.works[w]) by {
      hide Advances;
    }
    hide CancelStep, Advances;
    OneAdvances(s, t, w);
  }

  lemma {:induction false} CancelledAdvances(x: Work)
    requires x.queued ==> x.fates != []
    ensures Advances(x, x) && Advances(x, x.(canceling := true))
    ensures x.queued ==>
              var y := x.(queued := false, fates := x.fates[|x.fates| - 1 := Cancelled]);
              Advances(x, y) && Advances(x, y.(canceling := true))
  {
  }

  lemma {:induction false} UnscheduleAdvances(s: State, w: WorkId)
    requires Inv(s) && w in s.works
    ensures AllAdvance(s, UnscheduleStep(s, w).0)
  {
    hide Inv, AllAdvance;
    OneAdvances(s, UnscheduleStep(s, w).0, w);
  }

  lemma {:induction false} ScheduleAdvances(s: State, w: WorkId, q: Option<QueueId>, delay: Delay, caller: Caller)
    requires Inv(s) && IsDelayable(s, w) && !s.works[w].armed && QueueKnown(s, q)
    ensures AllAdvance(s, ScheduleStep(s, w, q, delay, caller).0)
  {
    if delay.NoWait? {
      SubmitAdvances(s, w, q, caller);
    } else {
      hide Inv, AllAdvance;
      OneAdvances(s, ScheduleStep(s, w, q, delay, caller).0, w);
    }
  }

  lemma {:induction false} StartedAdvances(x: Work)
    requires x.queued && x.fates != []
    ensures Advances(x, x.(running := true, queued := false, fates := x.fates[|x.fates| - 1 := Executing],
                           executing := |x.fates| - 1))
  {
  }

  lemma {:induction false} FlusherGone(s: State, t: State, f: WorkId)
    requires f in s.works && s.works[f].role.Flusher? && t.works == s.works - {f}
    ensures AllAdvance(s, t)
  {
    forall v | v in s.works ensures Advances(s.works[v], s.works[v]) {
      AcceptedAdvances(s.works[v]);
    }
    hide Advances;
  }

  /** What the queue thread does to the items when it takes one. */
  lemma {:induction false} TakeWorks(s: State, q: QueueId)
    requires Inv(s) && CanTake(s, q)
    ensures var t, l := TakeStep(s, q), s.queues[q].pending;
            if l == [] then t.works == s.works
            else
              && l[0] in s.works
              && var x := s.works[l[0]];
                 if x.role.Flusher? then t.works == s.works - {l[0]}
                 else && x.queued && x.fates != []
                      && t.works == s.works[l[0] := x.(running := true, queued := false, executing := |x.fates| - 1,
                                                       fates := x.fates[|x.fates| - 1 := Executing])]
  {
    if s.queues[q].pending != [] {
      HeadOk(s, q);
    }
    hide Inv;
  }

  lemma {:induction false} TakeAdvances(s: State, q: QueueId)
    requires Inv(s) && CanTake(s, q)
    ensures AllAdvance(s, TakeStep(s, q))
  {
    hide Inv, TakeStep, AllAdvance;
    TakeWorks(s, q);
    var t, l := TakeStep(s, q), s.queues[q].pending;
    if l == [] {
      OtherAdvances(s, t);
    } else if s.works[l[0]].role.Flusher? {
      FlusherGone(s, t, l[0]);
    } else {
      StartedAdvances(s.works[l[0]]);
      hide Advances;
      OneAdvances(s, t, l[0]);
    }
  }

  lemma {:induction false} FinishedAdvances(x: Work)
    requires x.executing < |x.fates|
    ensures Advances(x, x.(running := false, canceling := false, fates := x.fates[x.executing := Finished]))
  {
  }

  lemma {:induction false} OtherAdvances(s: State, t: State)
    requires t.works == s.works
    ensures AllAdvance(s, t)
  {
  }

  /** What the end of a handler does to the items and lists. */
  lemma {:induction false} FinishWorks(s: State, q: QueueId)
    requires Inv(s) && q in s.queues && s.queues[q].busy
    ensures var t, h := FinishStep(s, q), s.queues[q].worker;
            && (forall p :: p in s.queues ==> p in t.queues && t.queues[p].pending == s.queues[p].pending)
            && if !h.Handling? then t.works == s.works
               else
                 && h.work in s.works
                 && var x := s.works[h.work];
                    && x.executing < |x.fates|
                    && t.works == s.works[h.work := x.(running := false, canceling := false,
                                                       fates := x.fates[x.executing := Finished])]
  {
    if s.queues[q].worker.Handling? {
      FinishReady(s, q);
    }
    hide Inv, Others, Matching;
  }

  lemma {:induction false} FinishAdvances(s: State, q: QueueId)
    requires Inv(s) && q in s.queues && s.queues[q].busy
    ensures AllAdvance(s, FinishStep(s, q))
  {
    hide Inv, FinishStep, AllAdvance;
    FinishWorks(s, q);
    var t, h := FinishStep(s, q), s.queues[q].worker;
    if h.Handling? {
      FinishedAdvances(s.works[h.work]);
      hide Advances;
      OneAdvances(s, t, h.work);
    } else {
      OtherAdvances(s, t);
    }
  }

  lemma {:induction false} AdvanceTwice(s: State, t: State, u: State)
    requires AllAdvance(s, t) && AllAdvance(t, u)
    ensures AllAdvance(s, u)
  {
    hide Settled;
    forall w | w in s.works && !s.works[w].role.Flusher?
      ensures w in u.works && Advances(s.works[w], u.works[w])
    {
      assert Advances(s.works[w], t.works[w]) && Advances(t.works[w], u.works[w]);
    }
  }

  /** No step ever reopens a submission that is over. */
  lemma {:induction false} StepAdvances(s: State, op: Op)
    requires Inv(s) && Enabled(s, op)
    ensures AllAdvance(s, Step(s, op))
  {
    hide Inv, SubmitStep, FlushStep, CancelStep, UnscheduleStep, ScheduleStep, TakeStep, FinishStep;
    match op {
      case DoSubmit(w, q, caller) => SubmitAdvances(s, w, q, caller);
      case DoFlush(w, f) => FlushAdvances(s, w, f);
      case DoCancel(w) =>
        PlaceKnown(s, w);
        CancelAdvances(s, w);
      case DoCancelSync(w, c) =>
        PlaceKnown(s, w);
        CancelAdvances(s, w);
      case DoSchedule(w, q, delay, caller) =>
        PlaceKnown(s, w);
        if !(s.works[w].canceling || s.works[w].queued || s.works[w].delayed) {
          ScheduleAdvances(s, w, q, delay, caller);
        }
      case DoReschedule(w, q, delay, caller) =>
        var t := UnscheduleStep(s, w).0;
        UnscheduleAdvances(s, w);
        ScheduleAdvances(t, w, q, delay, caller);
        AdvanceTwice(s, t, Step(s, op));
      case DoCancelDelayable(w) =>
        CancelDelayableAdvances(s, w);
      case DoCancelDelayableSync(w, c) =>
        CancelDelayableAdvances(s, w);
      case DoFlushDelayable(w, f, caller) =>
        FlushDelayableAdvances(s, w, f, caller);
      case TimerFires(w) =>
        var t := UnscheduleStep(s, w).0;
        UnscheduleAdvances(s, w);
        PlaceKnown(s, w);
        SubmitAdvances(t, w, t.works[w].timerQueue, Interrupt);
        AdvanceTwice(s, t, Step(s, op));
      case WorkerTakes(q) => TakeAdvances(s, q);
      case WorkerFinishes(q) => FinishAdvances(s, q);
      case StartQueue(q) =>
      case DoDrain(q, plug, t) =>
      case DoUnplug(q) =>
    }
  }

  lemma {:induction false} CancelDelayableAdvances(s: State, w: WorkId)
    requires Inv(s) && IsDelayable(s, w)
    ensures AllAdvance(s, CancelStep(UnscheduleStep(s, w).0, w))
  {
    var t := UnscheduleStep(s, w).0;
    UnscheduleAdvances(s, w);
    CancelAdvances(t, w);
    AdvanceTwice(s, t, CancelStep(t, w));
  }

  lemma {:induction false} FlushDelayableAdvances(s: State, w: WorkId, f: WorkId, caller: Caller)
    requires Inv(s) && IsDelayable(s, w) && f !in s.works
    ensures AllAdvance(s, FlushDelayableStep(s, w, f, caller).0)
  {
    if IsBusy(s.works[w]) {
      PlaceKnown(s, w);
      var (t, was) := UnscheduleStep(s, w);
      UnscheduleAdvances(s, w);
      var u := if was then SubmitStep(t, w, t.works[w].timerQueue, caller).0 else t;
      if was {
        SubmitAdvances(t, w, t.works[w].timerQueue, caller);
        AdvanceTwice(s, t, u);
      }
      FlushAdvances(u, w, f);
      AdvanceTwice(s, u, FlushStep(u, w, f).0);
    }
  }

  // ---- flush -------------------------------------------------------------------------

  /** What the record says is over indeed is. */
  predicate RecordOk(works: map<WorkId, Work>, r: Flushed) {
    && r.target in works && !works[r.target].role.Flusher?
    && r.upTo <= |works[r.target].fates| && Settled(works[r.target], r.upTo)
  }

  predicate FlushedOk(s: State) {
    forall r :: r in s.flushed ==> RecordOk(s.works, r)
  }

  lemma {:induction false} RecordAdvances(s: State, t: State, r: Flushed)
    requires RecordOk(s.works, r) && AllAdvance(s, t)
    ensures RecordOk(t.works, r)
  {
    hide Settled;
    assert Advances(s.works[r.target], t.works[r.target]);
  }

  lemma {:induction false} TakeFlushLog(s: State, q: QueueId)
    requires Inv(s) && CanTake(s, q)
    ensures forall r :: r in TakeStep(s, q).flushed ==> r in s.flushed || RecordOk(TakeStep(s, q).works, r)
  {
    var l := s.queues[q].pending;
    if l != [] {
      HeadOk(s, q);
      var f := l[0];
      if s.works[f].role.Flusher? {
        FlusherFindsThemOver(s, q, f);
        hide Inv;
        var r := Flushed(f, s.works[f].role.target, s.works[f].role.upTo);
        assert TakeStep(s, q).flushed == s.flushed + [r];
        assert TakeStep(s, q).works[r.target] == s.works[r.target];
      }
    }
  }

  lemma {:induction false} TakeFlushed(s: State, q: QueueId)
    requires Inv(s) && FlushedOk(s) && CanTake(s, q)
    ensures FlushedOk(TakeStep(s, q))
  {
    var t := TakeStep(s, q);
    TakeAdvances(s, q);
    TakeFlushLog(s, q);
    hide Inv, TakeStep, CanTake, AllAdvance, RecordOk;
    forall r | r in s.flushed
      ensures RecordOk(t.works, r)
    {
      RecordAdvances(s, t, r);
    }
  }

  lemma {:induction false} StepFlushed(s: State, op: Op)
    requires Inv(s) && FlushedOk(s) && Enabled(s, op)
    ensures FlushedOk(Step(s, op))
  {
    if op.WorkerTakes? {
      TakeFlushed(s, op.queue);
    } else {
      StepAdvances(s, op);
      hide AllAdvance, Inv, RecordOk;
      forall r | r in s.flushed
        ensures RecordOk(Step(s, op).works, r)
      {
        RecordAdvances(s, Step(s, op), r);
      }
    }
  }

  lemma {:induction false} RunFlushed(s: State, ops: seq<Op>)
    requires Inv(s) && FlushedOk(s) && CanRun(s, ops)
    ensures FlushedOk(Run(s, ops))
    decreases |ops|
  {
    if ops == [] {
    } else {
      StepFlushed(s, ops[0]);
      RunFlushed(Step(s, ops[0]), ops[1..]);
    }
  }

  /** Whenever a flusher's semaphore has been given, every submission accepted
      before the flush was requested has finished or was cancelled, whatever
      other flushers, resubmissions and cancels came in between. */
  lemma {:induction false} FlushWaitsForAll(s: State, r: Flushed, i: nat)
    requires Reachable(s) && r in s.flushed && i < r.upTo
    ensures r.target in s.works && i < |s.works[r.target].fates|
    ensures var f := s.works[r.target].fates[i]; f.Finished? || f.Cancelled?
  {
    var s0, ops :| Initial(s0) && Inv(s0) && CanRun(s0, ops) && Run(s0, ops) == s;
    RunFlushed(s0, ops);
    assert WorkOk(s, r.target);
  }

  /** A flush that has to wait is recorded against every submission accepted
      so far, on the queue that has the item. */
  lemma {:induction false} FlushCoversAll(s: State, w: WorkId, f: WorkId)
    requires Reachable(s) && IsPlain(s, w) && f !in s.works
    ensures var (t, wait) := FlushStep(s, w, f);
            && (wait <==> s.works[w].queued || s.works[w].running)
            && (wait ==> f in t.works && t.works[f].role == Flusher(w, |s.works[w].fates|, s.works[w].queue.value))
            && (!wait ==> t == s && Settled(s.works[w], |s.works[w].fates|))
  {
    PlaceKnown(s, w);
  }

  // ---- cancellation ---------------------------------------------------------------------

  function Syncs(cs: seq<Canceller>): seq<SyncId> {
    if cs == [] then [] else [cs[0].sync] + Syncs(cs[1..])
  }

  lemma {:induction false} SyncsAppend(cs: seq<Canceller>, c: Canceller)
    ensures Syncs(cs + [c]) == Syncs(cs) + [c.sync]
  {
    if cs == [] {
      assert cs + [c] == [c];
    } else {
      assert (cs + [c])[1..] == cs[1..] + [c];
      SyncsAppend(cs[1..], c);
    }
  }

  lemma {:induction false} SyncsSplit(cs: seq<Canceller>, w: WorkId)
    ensures multiset(Syncs(cs)) == multiset(Matching(cs, w)) + multiset(Syncs(Others(cs, w)))
  {
    if cs == [] {
    } else {
      var m, o, rest := Matching(cs[1..], w), Others(cs[1..], w), Syncs(cs[1..]);
      assert Syncs(cs) == [cs[0].sync] + rest;
      assert Syncs([cs[0]] + o) == [cs[0].sync] + Syncs(o) by {
        assert ([cs[0]] + o)[1..] == o;
      }
      assert if cs[0].work == w then Matching(cs, w) == [cs[0].sync] + m && Others(cs, w) == o
             else Matching(cs, w) == m && Others(cs, w) == [cs[0]] + o;
      SyncsSplit(cs[1..], w);
      hide Syncs, Matching, Others;
    }
  }

  lemma {:induction false} NothingMatches(cs: seq<Canceller>, w: WorkId)
    requires forall i :: 0 <= i < |cs| ==> cs[i].work != w
    ensures Matching(cs, w) == [] && Others(cs, w) == cs
  {
    if cs == [] {
    } else {
      NothingMatches(cs[1..], w);
    }
  }

  /** When a handler returns, exactly the records that wait for that item are
      taken off the list and their semaphores given, each once and in order;
      all other records stay, in order. */
  lemma {:induction false} FinishReleasesExactly(s: State, q: QueueId)
    requires Inv(s) && q in s.queues && s.queues[q].worker.Handling?
    ensures s.queues[q].busy
    ensures var w, t := s.queues[q].worker.work, FinishStep(s, q);
            && t.released == s.released + Matching(s.cancels, w)
            && t.cancels == Others(s.cancels, w)
            && t.awaited == s.awaited
  {
    ControlKnown(s, q);
    FinishReady(s, q);
    var w := s.queues[q].worker.work;
    PlaceKnown(s, w);
    if !s.works[w].canceling {
      NothingMatches(s.cancels, w);
    }
  }

  /** Everyone told to wait for a cancellation was released once or still has
      one record on the list. */
  ghost predicate Conserved(s: State) {
    multiset(s.awaited) == multiset(s.released) + multiset(Syncs(s.cancels))
  }

  lemma {:induction false} FinishConserves(s: State, q: QueueId)
    requires Inv(s) && Conserved(s) && q in s.queues && s.queues[q].busy
    ensures Conserved(FinishStep(s, q))
  {
    if s.queues[q].worker.Handling? {
      FinishReleasesExactly(s, q);
      SyncsSplit(s.cancels, s.queues[q].worker.work);
    }
  }

  lemma {:induction false} CancelConserves(s: State, w: WorkId, c: SyncId)
    requires Inv(s) && Conserved(s) && w in s.works
    ensures Conserved(CancelSyncStep(s, w, c).0)
  {
    if s.works[w].canceling {
      SyncsAppend(s.cancels, Canceller(c, w));
    }
  }

  /** Only three kinds of step make anyone wait for, or released from, a
      cancellation. */
  lemma {:induction false} StepLogs(s: State, op: Op)
    requires Inv(s) && Enabled(s, op)
    requires !op.WorkerFinishes? && !op.DoCancelSync? && !op.DoCancelDelayableSync?
    ensures var t := Step(s, op); t.cancels == s.cancels && t.awaited == s.awaited && t.released == s.released
  {
    hide Inv, SubmitStep, FlushStep, CancelStep, CancelSyncStep, UnscheduleStep, ScheduleStep, TakeStep, FinishStep;
  }

  lemma {:induction false} StepConserves(s: State, op: Op)
    requires Inv(s) && Conserved(s) && Enabled(s, op)
    ensures Conserved(Step(s, op))
  {
    if op.WorkerFinishes? {
      FinishConserves(s, op.queue);
    } else if op.DoCancelSync? {
      PlaceKnown(s, op.w);
      if IsBusy(s.works[op.w]) {
        CancelConserves(CancelStep(s, op.w), op.w, op.c);
      }
    } else if op.DoCancelDelayableSync? {
      if IsBusy(s.works[op.w]) {
        CancelConserves(CancelStep(UnscheduleStep(s, op.w).0, op.w), op.w, op.c);
      }
    } else {
      StepLogs(s, op);
    }
  }

  lemma {:induction false} RunConserves(s: State, ops: seq<Op>)
    requires Inv(s) && Conserved(s) && CanRun(s, ops)
    ensures Conserved(Run(s, ops))
    decreases |ops|
  {
    if ops == [] {
    } else {
      StepConserves(s, ops[0]);
      RunConserves(Step(s, ops[0]), ops[1..]);
    }
  }

  /** No waiter is lost and none is released twice: in every reachable state
      the waits ever started are the releases so far plus the records still on
      the list, and every such record is for an item being cancelled. */
  lemma {:induction false} CancelWaitersConserved(s: State)
    requires Reachable(s)
    ensures Conserved(s)
    ensures forall i :: 0 <= i < |s.cancels| ==>
              s.cancels[i].work in s.works && s.works[s.cancels[i].work].canceling && s.works[s.cancels[i].work].running
  {
    var s0, ops :| Initial(s0) && Inv(s0) && CanRun(s0, ops) && Run(s0, ops) == s;
    RunConserves(s0, ops);
    forall i | 0 <= i < |s.cancels|
      ensures s.works[s.cancels[i].work].running
    {
      assert WorkOk(s, s.cancels[i].work);
    }
  }

  /** After cancelling, an item is idle, or it is still inside its handler and
      refuses every submission until that returns. */
  lemma {:induction false} CancelBlocksSubmission(s: State, w: WorkId, q: Option<QueueId>, caller: Caller)
    requires Reachable(s) && IsPlain(s, w) && QueueKnown(s, q)
    ensures IsDelayable(s, w) || !s.works[w].delayed
    ensures var t := CancelStep(s, w);
            && (IsBusy(t.works[w]) <==> s.works[w].running)
            && (IsBusy(t.works[w]) ==> SubmitStep(t, w, q, caller) == (t, Busy))
  {
    PlaceKnown(s, w);
    PlaceKnown(CancelStep(s, w), w);
  }

  /** The end of a cancellation leaves the item idle exactly when nobody has
      delayed it again in the meantime, which only a delayable item allows. */
  lemma {:induction false} CancelledIsIdle(s: State, q: QueueId)
    requires Reachable(s) && q in s.queues && s.queues[q].worker.Handling?
    requires s.works[s.queues[q].worker.work].canceling
    ensures s.queues[q].busy
    ensures var w := s.queues[q].worker.work;
            && w in FinishStep(s, q).works
            && (IsBusy(FinishStep(s, q).works[w]) <==> s.works[w].delayed)
            && (s.works[w].delayed ==> s.works[w].role.Delayable?)
  {
    ControlKnown(s, q);
    FinishReady(s, q);
    PlaceKnown(s, s.queues[q].worker.work);
  }

  // ---- draining and plugging ----------------------------------------------------------------

  /** The state of a queue's thread, list and flags in every reachable state:
      it never sleeps on work or on a drain request, a plugged queue that has
      drained stays empty and idle, and somebody waiting for a drain means one
      is in progress. */
  lemma {:induction false} QueueControl(s: State, q: QueueId)
    requires Reachable(s) && q in s.queues
    ensures var k := s.queues[q];
            && (k.worker.Asleep? ==> k.pending == [] && !k.draining)
            && (k.plugged && !k.draining ==> k.pending == [] && !k.busy)
            && (k.drainq != [] ==> k.draining)
            && (k.busy <==> k.worker.Handling? || k.worker.Flushing?)
  {
    assert QueueOk(s, q);
  }

  /** A thread waiting for a drain leaves the wait queue only when the queue's
      thread finds the list empty and is not running anything, or when a queue that
      was drained before it was started is started, which forgets it. */
  lemma {:induction false} DrainWakesWhenIdle(s: State, op: Op, q: QueueId)
    requires Inv(s) && Enabled(s, op) && q in s.queues
    ensures q in Step(s, op).queues
    ensures Step(s, op).queues[q].drainq == s.queues[q].drainq
            || (op.DoDrain? && s.queues[q].drainq <= Step(s, op).queues[q].drainq)
            || (op == WorkerTakes(q) && s.queues[q].pending == [] && !s.queues[q].busy && s.queues[q].draining)
            || (op == StartQueue(q) && !s.queues[q].started && Step(s, op).queues[q].drainq == [])
  {
    hide Inv, SubmitStep, FlushStep, CancelStep, CancelSyncStep, UnscheduleStep, ScheduleStep, FinishStep,
         FlushDelayableStep, TimerStep;
    match op {
      case WorkerTakes(p) => ControlKnown(s, q);
      case DoDrain(p, plug, t) =>
      case StartQueue(p) => ControlKnown(s, q);
      case DoUnplug(p) =>
      case _ => OthersKeepDrains(s, op, q);
    }
  }

  lemma {:induction false} OthersKeepDrains(s: State, op: Op, q: QueueId)
    requires Inv(s) && Enabled(s, op) && q in s.queues
    requires !(op.WorkerTakes? || op.DoDrain? || op.StartQueue? || op.DoUnplug?)
    ensures q in Step(s, op).queues && Step(s, op).queues[q].drainq == s.queues[q].drainq
  {
    hide Inv, SubmitStep, FlushStep, CancelStep, CancelSyncStep, UnscheduleStep, ScheduleStep, FinishStep,
         FlushDelayableStep, TimerStep, TakeStep, DrainStep, StartStep, UnplugStep;
    match op {
      case DoCancel(w) => PlaceKnown(s, w);
      case DoCancelSync(w, _) => PlaceKnown(s, w);
      case DoSchedule(w, _, _, _) => PlaceKnown(s, w);
      case _ =>
    }
  }

  /** On whose behalf a step submits, if it does. */
  function CallerOf(op: Op): Option<Caller> {
    match op
    case DoSubmit(_, _, caller) => Some(caller)
    case DoSchedule(_, _, _, caller) => Some(caller)
    case DoReschedule(_, _, _, caller) => Some(caller)
    case DoFlushDelayable(_, _, caller) => Some(caller)
    case TimerFires(_) => Some(Interrupt)
    case _ => None
  }

  /** No item has come onto the list of `q`. */
  predicate NoneAdded(s: State, t: State, q: QueueId) {
    && q in s.queues && q in t.queues
    && forall w :: w in t.queues[q].pending && w in t.works && !t.works[w].role.Flusher? ==>
         w in s.queues[q].pending && w in s.works && !s.works[w].role.Flusher?
  }

  lemma {:induction false} AddedTwice(s: State, t: State, u: State, q: QueueId)
    requires NoneAdded(s, t, q) && NoneAdded(t, u, q)
    ensures NoneAdded(s, u, q)
  {
  }

  /** The list of `q` is as it was, and every item is what it was. */
  lemma {:induction false} ListKept(s: State, t: State, q: QueueId)
    requires q in s.queues && q in t.queues
    requires forall w :: w in t.queues[q].pending ==> w in s.queues[q].pending
    requires forall w :: w in t.works ==> t.works[w].role.Flusher? || (w in s.works && t.works[w].role == s.works[w].role)
    ensures NoneAdded(s, t, q)
  {
  }

  lemma {:induction false} SubmitRefused(s: State, w: WorkId, q: Option<QueueId>, caller: Caller, p: QueueId)
    requires Inv(s) && w in s.works && !s.works[w].role.Flusher? && QueueKnown(s, q)
    requires p in s.queues && s.queues[p].draining && caller != WorkerOf(p)
    ensures var t := SubmitStep(s, w, q, caller).0;
            NoneAdded(s, t, p) && t.queues[p] == s.queues[p]
  {
    hide Inv, NoneAdded;
    PlaceKnown(s, w);
    hide FlagsOk, FatesOk;
    var t := SubmitStep(s, w, q, caller).0;
    assert t.queues[p] == s.queues[p] && t.works == s.works[w := t.works[w]];
    hide SubmitStep;
    ListKept(s, t, p);
  }

  lemma {:induction false} UnscheduleAddsNone(s: State, w: WorkId, p: QueueId)
    requires Inv(s) && w in s.works && p in s.queues
    ensures var t := UnscheduleStep(s, w).0;
            NoneAdded(s, t, p) && t.queues == s.queues
  {
    hide Inv, NoneAdded;
    var t := UnscheduleStep(s, w).0;
    assert t.works == s.works[w := t.works[w]];
    ListKept(s, t, p);
  }

  lemma {:induction false} FlushInserts(s: State, w: WorkId, f: WorkId, p: QueueId, q: QueueId)
    requires Inv(s) && w in s.works && q in s.queues && p in s.queues && f !in s.works
    ensures var t := InsertFlusher(s, w, f, q); forall v :: v in t.queues[p].pending ==> v in s.queues[p].pending || v == f
  {
    var l := s.queues[q].pending;
    assert NoDup(l) && f !in l by {
      assert QueueOk(s, q);
    }
    var i := IndexOf(l, w);
    InsertAtAt(l, if i < |l| then i + 1 else 0, f);
    hide Inv, InsertAt, IndexOf;
  }

  lemma {:induction false} FlushAddsNone(s: State, w: WorkId, f: WorkId, p: QueueId)
    requires Inv(s) && w in s.works && !s.works[w].role.Flusher? && f !in s.works && p in s.queues
    ensures NoneAdded(s, FlushStep(s, w, f).0, p)
  {
    hide Inv;
    PlaceKnown(s, w);
    hide FlagsOk, FatesOk;
    if s.works[w].queued || s.works[w].running {
      FlushInserts(s, w, f, p, s.works[w].queue.value);
      hide InsertAt, IndexOf;
    }
  }

  lemma {:induction false} CancelAddsNone(s: State, w: WorkId, p: QueueId)
    requires Inv(s) && w in s.works && !s.works[w].role.Flusher? && !s.works[w].delayed && p in s.queues
    ensures NoneAdded(s, CancelStep(s, w), p)
  {
    PlaceKnown(s, w);
    if s.works[w].queued {
      var l := s.queues[s.works[w].queue.value].pending;
      assert NoDup(l) by {
        assert QueueOk(s, s.works[w].queue.value);
      }
      WithoutAt(l, w);
    }
    hide Inv, Without;
  }

  lemma {:induction false} TakeAddsNone(s: State, q: QueueId, p: QueueId)
    requires Inv(s) && CanTake(s, q) && p in s.queues
    ensures NoneAdded(s, TakeStep(s, q), p)
  {
    TakeWorks(s, q);
    hide Inv, NoneAdded;
    var t, l := TakeStep(s, q), s.queues[q].pending;
    assert t.queues[p].pending == if p == q && l != [] then l[1..] else s.queues[p].pending;
    hide TakeStep;
    ListKept(s, t, p);
  }

  lemma {:induction false} FinishAddsNone(s: State, q: QueueId, p: QueueId)
    requires Inv(s) && q in s.queues && s.queues[q].busy && p in s.queues
    ensures NoneAdded(s, FinishStep(s, q), p)
  {
    hide Inv, FinishStep, NoneAdded;
    FinishWorks(s, q);
    ListKept(s, FinishStep(s, q), p);
  }

  lemma {:induction false} QueueSet(s: State, q: QueueId, k: Queue, p: QueueId)
    requires q in s.queues && p in s.queues && k.pending == s.queues[q].pending
    ensures NoneAdded(s, SetQueue(s, q, k), p)
  {
  }

  lemma {:induction false} ControlAddsNone(s: State, op: Op, p: QueueId)
    requires Inv(s) && Enabled(s, op) && p in s.queues
    requires op.StartQueue? || op.DoDrain? || op.DoUnplug?
    ensures NoneAdded(s, Step(s, op), p)
  {
    hide Inv, NoneAdded;
    ControlKnown(s, op.queue);
    match op {
      case StartQueue(q) => QueueSet(s, q, Step(s, op).queues[q], p);
      case DoDrain(q, plug, t) =>
        var k := s.queues[q];
        QueueSet(s, q, k, p);
        QueueSet(s, q, Step(s, op).queues[q], p);
        assert SetQueue(s, q, k) == s by {
          assert s.queues[q := k] == s.queues;
        }
      case DoUnplug(q) => QueueSet(s, q, Step(s, op).queues[q], p);
    }
  }

  lemma {:induction false} ScheduleRefused(s: State, w: WorkId, q: Option<QueueId>, delay: Delay, caller: Caller, p: QueueId)
    requires Inv(s) && IsDelayable(s, w) && !s.works[w].armed && QueueKnown(s, q)
    requires p in s.queues && s.queues[p].draining && caller != WorkerOf(p)
    ensures NoneAdded(s, ScheduleStep(s, w, q, delay, caller).0, p)
  {
    if delay.NoWait? {
      SubmitRefused(s, w, q, caller, p);
    } else {
      hide Inv;
    }
  }

  lemma {:induction false} FlushDelayableRefused(s: State, w: WorkId, f: WorkId, caller: Caller, p: QueueId)
    requires Inv(s) && IsDelayable(s, w) && f !in s.works
    requires p in s.queues && s.queues[p].draining && caller != WorkerOf(p)
    ensures NoneAdded(s, FlushDelayableStep(s, w, f, caller).0, p)
  {
    hide Inv, UnscheduleStep, SubmitStep, FlushStep;
    if IsBusy(s.works[w]) {
      PlaceKnown(s, w);
      var (t, was) := UnscheduleStep(s, w);
      UnscheduleAddsNone(s, w, p);
      var u := if was then SubmitStep(t, w, t.works[w].timerQueue, caller).0 else t;
      hide NoneAdded;
      if was {
        SubmitRefused(t, w, t.works[w].timerQueue, caller, p);
        AddedTwice(s, t, u, p);
      }
      FlushAddsNone(u, w, f, p);
      AddedTwice(s, u, FlushStep(u, w, f).0, p);
    }
  }

  lemma {:induction false} StepAddsNone(s: State, op: Op, p: QueueId)
    requires Inv(s) && Enabled(s, op) && p in s.queues && s.queues[p].draining && CallerOf(op) != Some(WorkerOf(p))
    ensures NoneAdded(s, Step(s, op), p)
  {
    hide Inv, SubmitStep, FlushStep, CancelStep, UnscheduleStep, ScheduleStep, TakeStep, FinishStep,
         FlushDelayableStep, StartStep, DrainStep, UnplugStep;
    match op {
      case DoSubmit(w, q, caller) => SubmitRefused(s, w, q, caller, p);
      case DoFlush(w, f) => FlushAddsNone(s, w, f, p);
      case DoCancel(w) =>
        PlaceKnown(s, w);
        CancelAddsNone(s, w, p);
      case DoCancelSync(w, c) =>
        PlaceKnown(s, w);
        CancelAddsNone(s, w, p);
      case DoSchedule(w, q, delay, caller) =>
        PlaceKnown(s, w);
        if !(s.works[w].canceling || s.works[w].queued || s.works[w].delayed) {
          ScheduleRefused(s, w, q, delay, caller, p);
        }
      case DoReschedule(w, q, delay, caller) =>
        UnscheduleAddsNone(s, w, p);
        ScheduleRefused(UnscheduleStep(s, w).0, w, q, delay, caller, p);
        AddedTwice(s, UnscheduleStep(s, w).0, Step(s, op), p);
      case DoCancelDelayable(w) =>
        UnscheduleAddsNone(s, w, p);
        CancelAddsNone(UnscheduleStep(s, w).0, w, p);
      case DoCancelDelayableSync(w, c) =>
        UnscheduleAddsNone(s, w, p);
        CancelAddsNone(UnscheduleStep(s, w).0, w, p);
      case DoFlushDelayable(w, f, caller) => FlushDelayableRefused(s, w, f, caller, p);
      case TimerFires(w) =>
        PlaceKnown(s, w);
        var t := UnscheduleStep(s, w).0;
        UnscheduleAddsNone(s, w, p);
        SubmitRefused(t, w, t.works[w].timerQueue, Interrupt, p);
      case WorkerTakes(q) => TakeAddsNone(s, q, p);
      case WorkerFinishes(q) => FinishAddsNone(s, q, p);
      case _ => ControlAddsNone(s, op, p);
    }
  }

  /** The queue drains from here to the end of the run, and its own thread submits
      nothing. */
  ghost predicate DrainsOn(s: State, ops: seq<Op>, q: QueueId)
    requires Inv(s) && CanRun(s, ops)
    decreases |ops|
  {
    && q in s.queues && s.queues[q].draining
    && (ops != [] ==> CallerOf(ops[0]) != Some(WorkerOf(q)) && DrainsOn(Step(s, ops[0]), ops[1..], q))
  }

  /** As long as a queue drains, and whatever anybody else submits, schedules or
      flushes, and whichever delays run out, its list only shrinks: only its own
      thread can add to it. */
  lemma {:induction false} DrainRefusesOutsiders(s: State, ops: seq<Op>, q: QueueId)
    requires Inv(s) && CanRun(s, ops) && DrainsOn(s, ops, q)
    ensures NoneAdded(s, Run(s, ops), q)
    decreases |ops|
  {
    if ops == [] {
    } else {
      StepAddsNone(s, ops[0], q);
      hide Inv, Step, Enabled;
      DrainRefusesOutsiders(Step(s, ops[0]), ops[1..], q);
    }
  }

  lemma {:induction false} DrainedEarly(t: ThreadId) returns (s: State)
    ensures Reachable(s) && 0 in s.queues && s.queues[0] == Queue(false, false, true, true, [], Looking, [t])
  {
    hide Inv, Reachable;
    var s0 := State(map[], map[0 := Queue(false, false, false, false, [], Looking, [])], [], [], [], []);
    ReachableInitial(s0);
    ReachableInv(s0);
    var op := DoDrain(0, true, t);
    s := Step(s0, op);
    assert s == DrainStep(s0, 0, true, t).0;
    hide Step;
    ReachableStep(s0, op);
  }

  /** A thread waits for the drain of a queue that has not been started; starting the
      queue forgets it. */
  lemma {:induction false} DrainForgotten(t: ThreadId) returns (s: State)
    ensures Reachable(s) && Enabled(s, StartQueue(0)) && s.queues[0].drainq == [t]
    ensures Step(s, StartQueue(0)).queues[0].drainq == []
  {
    hide Inv, Reachable;
    s := DrainedEarly(t);
    ReachableInv(s);
  }

  lemma {:induction false} ReachableInitial(s: State)
    requires Initial(s)
    ensures Reachable(s)
  {
    InitialInv(s);
    assert CanRun(s, []) && Run(s, []) == s;
  }

  // ---- exactly these flag combinations occur ----------------------------------------------------

  ghost predicate Occurs(code: nat) {
    exists s, w :: Reachable(s) && w in s.works && BusyCode(s.works[w]) == code
  }

  /** One delayable item, number 0, and one running queue, number 0. */
  ghost predicate Specimen(s: State) {
    Reachable(s) && IsDelayable(s, 0) && 0 in s.queues
  }

  lemma {:induction false} ReachableInv(s: State)
    requires Reachable(s)
    ensures Inv(s)
  {
  }

  lemma {:induction false} SpecimenStarted() returns (s: State)
    ensures Specimen(s) && s.works[0] == NewWork(Delayable)
    ensures s.queues[0] == Queue(true, false, false, false, [], Looking, [])
  {
    var s0 := State(map[0 := NewWork(Delayable)], map[0 := Queue(false, false, false, false, [], Looking, [])],
                    [], [], [], []);
    hide Inv, Reachable, SubmitStep, FlushStep, CancelStep, CancelSyncStep, UnscheduleStep, ScheduleStep, TakeStep,
         FinishStep, FlushDelayableStep, TimerStep, UnplugStep;
    ReachableInitial(s0);
    ReachableInv(s0);
    s := Step(s0, StartQueue(0));
    ReachableStep(s0, StartQueue(0));
  }

  /** Rescheduling with a delay adds DELAYED to whatever else is set. */
  lemma {:induction false} SpecimenOccurs(s: State, code: nat)
    requires Specimen(s) && BusyCode(s.works[0]) == code < 8
    ensures Occurs(code) && Occurs(code + 8)
  {
    hide Inv, Reachable;
    ReachableInv(s);
    var op := DoReschedule(0, Some(0), Ticks, Thread);
    ReachableStep(s, op);
    var t := Step(s, op);
    PlaceKnown(s, 0);
    assert t.works[0] == s.works[0].(delayed := true, timerQueue := Some(0), armed := true);
    assert BusyCode(t.works[0]) == BusyCode(s.works[0]) + 8;
  }

  lemma {:induction false} SpecimenQueued() returns (s: State)
    ensures Specimen(s) && BusyCode(s.works[0]) == 4 && s.works[0].queue == Some(0) && s.works[0].fates == [Waiting]
    ensures s.queues[0] == Queue(true, false, false, false, [0], Looking, [])
  {
    hide Inv, Reachable;
    var s0 := SpecimenStarted();
    ReachableInv(s0);
    var submit := DoSubmit(0, Some(0), Thread);
    ReachableStep(s0, submit);
    s := Step(s0, submit);
  }

  lemma {:induction false} SpecimenRunning() returns (s: State)
    ensures Specimen(s) && BusyCode(s.works[0]) == 1 && s.works[0].queue == Some(0)
    ensures s.queues[0].started && !s.queues[0].draining && !s.queues[0].plugged
  {
    hide Inv, Reachable;
    var s0 := SpecimenQueued();
    ReachableInv(s0);
    ReachableStep(s0, WorkerTakes(0));
    s := Step(s0, WorkerTakes(0));
  }

  lemma {:induction false} SpecimenRequeued() returns (s: State)
    ensures Specimen(s) && BusyCode(s.works[0]) == 5
  {
    hide Inv, Reachable;
    var s0 := SpecimenRunning();
    ReachableInv(s0);
    var submit := DoSubmit(0, None, Thread);
    ReachableStep(s0, submit);
    s := Step(s0, submit);
  }

  lemma {:induction false} SpecimenCanceling() returns (s: State)
    ensures Specimen(s) && BusyCode(s.works[0]) == 3
  {
    hide Inv, Reachable;
    var s0 := SpecimenRunning();
    ReachableInv(s0);
    ReachableStep(s0, DoCancelDelayable(0));
    s := Step(s0, DoCancelDelayable(0));
  }

  lemma {:induction false} AllTenOccur()
    ensures Occurs(0) && Occurs(1) && Occurs(3) && Occurs(4) && Occurs(5)
    ensures Occurs(8) && Occurs(9) && Occurs(11) && Occurs(12) && Occurs(13)
  {
    hide Reachable, Occurs;
    var idle := SpecimenStarted();
    SpecimenOccurs(idle, 0);
    var queued := SpecimenQueued();
    SpecimenOccurs(queued, 4);
    var running := SpecimenRunning();
    SpecimenOccurs(running, 1);
    var requeued := SpecimenRequeued();
    SpecimenOccurs(requeued, 5);
    var canceling := SpecimenCanceling();
    SpecimenOccurs(canceling, 3);
  }

  /** The header promises "at least nine"; there are exactly ten, and every one
      of them is reached by some run. */
  lemma {:induction false} FlagCombinationsExactly(code: nat)
    ensures Occurs(code) <==> KnownCode(code)
  {
    hide Reachable;
    AllTenOccur();
    if Occurs(code) {
      var s, w :| Reachable(s) && w in s.works && BusyCode(s.works[w]) == code;
      FlagCombinations(s, w);
    } else {
      hide Occurs;
      assert !KnownCode(code);
    }
  }
}
