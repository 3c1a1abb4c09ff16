/**
 Work queues (zephyr/kernel/work.c) as a state machine. One step is one region
 executed under the work lock; any number of threads, interrupts and queue
 threads take steps in any order.
 */
module WorkSpec {
  import opened IdList

  type WorkId = Id
  type QueueId = nat
  type SyncId = nat
  type ThreadId = nat

  datatype Option<T> = None | Some(value: T)

  /** What a k_work is embedded in. A flusher remembers the item it was sent
      after, how many submissions of that item had been accepted by then, and
      the queue it was put on. */
  datatype Role =
    | Plain
    | Delayable
    | Flusher(target: WorkId, upTo: nat, via: QueueId)

  /** The fate of one accepted submission. */
  datatype Fate = Waiting | Executing | Finished | Cancelled

  datatype Work = Work(
    role: Role,
    running: bool,
    canceling: bool,
    queued: bool,
    delayed: bool,
    queue: Option<QueueId>,       // work->queue
    timerQueue: Option<QueueId>,  // dwork->queue
    armed: bool,                  // the timeout is pending
    fates: seq<Fate>,             // one entry for each accepted submission
    executing: nat)               // which of them is running, if any

  /** The thread that animates a queue: about to look for work, blocked on
      notifyq, inside the handler of an item, or inside that of a flusher. The
      flusher itself may be used again as soon as its semaphore is given. */
  datatype Worker = Looking | Asleep | Handling(work: WorkId) | Flushing

  datatype Queue = Queue(
    started: bool,
    busy: bool,
    draining: bool,
    plugged: bool,
    pending: seq<WorkId>,
    worker: Worker,
    drainq: seq<ThreadId>)

  datatype Canceller = Canceller(sync: SyncId, work: WorkId)

  /** A flusher semaphore that was given, and what it was given for. */
  datatype Flushed = Flushed(flusher: WorkId, target: WorkId, upTo: nat)

  datatype State = State(
    works: map<WorkId, Work>,
    queues: map<QueueId, Queue>,
    cancels: seq<Canceller>,      // pending_cancels
    awaited: seq<SyncId>,         // canceller semaphores somebody was told to wait on
    flushed: seq<Flushed>,        // flusher semaphores given, in order
    released: seq<SyncId>)        // canceller semaphores given, in order

  datatype Caller = Interrupt | Thread | WorkerOf(queue: QueueId)

  datatype Delay = NoWait | Ticks | Forever

  datatype Outcome =
    | AlreadyQueued   // 0
    | Submitted       // 1
    | Resubmitted     // 2
    | Busy            // -EBUSY
    | NoQueue         // -EINVAL
    | NotStarted      // -ENODEV

  predicate Accepted(o: Outcome) {
    o.Submitted? || o.Resubmitted?
  }

  function NewWork(role: Role): Work {
    Work(role, false, false, false, false, None, None, false, [], 0)
  }

  /** The lists an item can be on belong to this queue. */
  function Home(w: Work): Option<QueueId> {
    if w.role.Flusher? then Some(w.role.via) else w.queue
  }

  /** k_work_busy_get() != 0 */
  predicate IsBusy(w: Work) {
    w.running || w.canceling || w.queued || w.delayed
  }

  // ---- primitive updates ----------------------------------------------------

  function SetWork(s: State, w: WorkId, x: Work): State {
    s.(works := s.works[w := x])
  }

  function SetQueue(s: State, q: QueueId, x: Queue): State {
    s.(queues := s.queues[q := x])
  }

  /** notify_queue_locked() */
  function Notify(q: Queue): Queue {
    if q.worker.Asleep? then q.(worker := Looking) else q
  }

  /** An accepted submission: the item goes to the end of the list. */
  function Append(s: State, w: WorkId, q: QueueId): State
    requires w in s.works && q in s.queues
  {
    var x, k := s.works[w], s.queues[q];
    s.(works := s.works[w := x.(queued := true, queue := Some(q), fates := x.fates + [Waiting])],
       queues := s.queues[q := Notify(k.(pending := k.pending + [w]))])
  }

  /** queue_remove_locked() on a queued item. */
  function Dequeue(s: State, w: WorkId): State
    requires w in s.works
    requires s.works[w].queue.Some? && s.works[w].queue.value in s.queues && s.works[w].fates != []
  {
    var x := s.works[w];
    var q := x.queue.value;
    var k := s.queues[q];
    s.(works := s.works[w := x.(queued := false, fates := x.fates[|x.fates| - 1 := Cancelled])],
       queues := s.queues[q := k.(pending := Without(k.pending, w))])
  }

  /** queue_flusher_locked() and the notification after it. */
  function InsertFlusher(s: State, w: WorkId, f: WorkId, q: QueueId): State
    requires w in s.works && q in s.queues
  {
    var k := s.queues[q];
    var i := IndexOf(k.pending, w);
    s.(works := s.works[f := NewWork(Flusher(w, |s.works[w].fates|, q))],
       queues := s.queues[q := Notify(k.(pending := InsertAt(k.pending, if i < |k.pending| then i + 1 else 0, f)))])
  }

  // ---- operations under the lock --------------------------------------------

  /** queue_submit_locked(): may this queue take the item? */
  function Admission(s: State, q: Option<QueueId>, caller: Caller): Outcome
    requires q.Some? ==> q.value in s.queues
  {
    if q.None? then NoQueue
    else
      var k := s.queues[q.value];
      var chained := caller == WorkerOf(q.value);
      if !k.started then NotStarted
      else if k.draining && !chained then Busy
      else if k.plugged && !k.draining then Busy
      else Submitted
  }

  /** submit_to_queue_locked() */
  function Submit(s: State, w: WorkId, q: Option<QueueId>, caller: Caller): (State, Outcome)
    requires w in s.works
    requires q.Some? ==> q.value in s.queues
    requires s.works[w].queue.Some? ==> s.works[w].queue.value in s.queues
  {
    var x := s.works[w];
    if x.canceling then (s, Busy)
    else if x.queued then (s, AlreadyQueued)
    else
      var dest := if x.running || q.None? then x.queue else q;
      var o := Admission(s, dest, caller);
      if !Accepted(o) then (s, o)
      else (Append(s, w, dest.value), if x.running then Resubmitted else Submitted)
  }

  /** work_flush_locked(): true when the caller has to wait for the flusher. */
  function Flush(s: State, w: WorkId, f: WorkId): (State, bool)
    requires w in s.works
    requires s.works[w].queued || s.works[w].running ==>
               s.works[w].queue.Some? && s.works[w].queue.value in s.queues
  {
    var x := s.works[w];
    if x.queued || x.running then (InsertFlusher(s, w, f, x.queue.value), true) else (s, false)
  }

  /** cancel_async_locked() */
  function CancelAsync(s: State, w: WorkId): State
    requires w in s.works
    requires s.works[w].queued ==>
               s.works[w].queue.Some? && s.works[w].queue.value in s.queues && s.works[w].fates != []
  {
    var s1 := if !s.works[w].canceling && s.works[w].queued then Dequeue(s, w) else s;
    if IsBusy(s1.works[w]) then SetWork(s1, w, s1.works[w].(canceling := true)) else s1
  }

  /** The waiting half of a synchronous cancel: true when the caller waits. */
  function CancelSync(s: State, w: WorkId, c: SyncId): (State, bool)
    requires w in s.works
  {
    if s.works[w].canceling then
      (s.(cancels := s.cancels + [Canceller(c, w)], awaited := s.awaited + [c]), true)
    else (s, false)
  }

  /** unschedule_locked(): true when the item was delayed. */
  function Unschedule(s: State, w: WorkId): (State, bool)
    requires w in s.works
  {
    var x := s.works[w];
    if x.delayed then (SetWork(s, w, x.(delayed := false, armed := false)), true) else (s, false)
  }

  /** schedule_for_queue_locked() */
  function ScheduleFor(s: State, w: WorkId, q: Option<QueueId>, delay: Delay, caller: Caller): (State, Outcome)
    requires w in s.works
    requires q.Some? ==> q.value in s.queues
    requires s.works[w].queue.Some? ==> s.works[w].queue.value in s.queues
  {
    if delay.NoWait? then Submit(s, w, q, caller)
    else (SetWork(s, w, s.works[w].(delayed := true, timerQueue := q, armed := delay.Ticks?)), Submitted)
  }

  // ---- finishing a cancellation ---------------------------------------------

  /** The records that wait for `w`, in order. */
  function Matching(cs: seq<Canceller>, w: WorkId): seq<SyncId> {
    if cs == [] then []
    else (if cs[0].work == w then [cs[0].sync] else []) + Matching(cs[1..], w)
  }

  /** The records that wait for something else, in order. */
  function Others(cs: seq<Canceller>, w: WorkId): seq<Canceller> {
    if cs == [] then []
    else (if cs[0].work == w then [] else [cs[0]]) + Others(cs[1..], w)
  }

  // ---- the queue thread -------------------------------------------------------

  /** First lock region of work_queue_main(): take an item, or complete a
      drain, and go to sleep when there is nothing to do. */
  function Take(s: State, q: QueueId): State
    requires q in s.queues
    requires s.queues[q].pending != [] ==>
               s.queues[q].pending[0] in s.works
               && (!s.works[s.queues[q].pending[0]].role.Flusher? ==> s.works[s.queues[q].pending[0]].fates != [])
  {
    var k := s.queues[q];
    if k.pending != [] then
      var w := k.pending[0];
      var x := s.works[w];
      var k1 := k.(pending := k.pending[1..], busy := true);
      if x.role.Flusher? then
        SetQueue(s, q, k1.(worker := Flushing)).(
          works := s.works - {w}, flushed := s.flushed + [Flushed(w, x.role.target, x.role.upTo)])
      else
        SetWork(SetQueue(s, q, k1.(worker := Handling(w))), w, x.(running := true, queued := false,
                          fates := x.fates[|x.fates| - 1 := Executing], executing := |x.fates| - 1))
    else
      SetQueue(s, q, k.(draining := false, drainq := if k.draining then [] else k.drainq, worker := Asleep))
  }

  /** Second lock region: the handler has returned. */
  function Finish(s: State, q: QueueId): State
    requires q in s.queues
    requires s.queues[q].worker.Handling? ==>
               var w := s.queues[q].worker.work; w in s.works && s.works[w].executing < |s.works[w].fates|
  {
    var k := s.queues[q];
    var s1 := SetQueue(s, q, k.(busy := false, worker := Looking));
    if !k.worker.Handling? then s1
    else
      var w := k.worker.work;
      var x := s.works[w];
      var s2 := SetWork(s1, w, x.(running := false, canceling := false, fates := x.fates[x.executing := Finished]));
      if x.canceling then
        s2.(cancels := Others(s.cancels, w), released := s.released + Matching(s.cancels, w))
      else s2
  }

  /** k_work_queue_drain(): the new state, and whether the caller waits. */
  function Drain(s: State, q: QueueId, plug: bool, t: ThreadId): (State, bool)
    requires q in s.queues
  {
    var k := s.queues[q];
    if k.busy || k.draining || plug || k.pending != [] then
      (SetQueue(s, q, Notify(k.(draining := true, plugged := k.plugged || plug, drainq := k.drainq + [t]))), true)
    else (s, false)
  }
}
