/**
 The scheduler of zephyr/kernel/sched.c on one processor, with the sorted list
 as ready queue and wait queues. Every function is what one region under
 sched_spinlock does to the state.
 */
module SchedSpec {
  import opened IdList

  const EAGAIN := 11
  const EBUSY := 16
  const EDEADLK := 45

  /** Where a thread pends: nowhere, on a thread's join queue, or on the wait
      queue of some kernel object. */
  datatype WaitQ = Nowhere | JoinOf(thread: Id) | Object(id: nat)

  /** struct _thread_base; `since` numbers the insertions into the ready queue and
      the wait queues. */
  datatype Thread = Thread(
    prio: int, locked: nat,
    pending: bool, prestart: bool, dead: bool, suspended: bool, queued: bool,
    timeout: bool, pendedOn: WaitQ, ret: int, since: nat)

  datatype State = State(
    threads: map<Id, Thread>, waitqs: map<WaitQ, seq<Id>>,
    runq: seq<Id>, clock: nat,
    cache: Id, current: Id, idle: Id)

  function Waiters(s: State, q: WaitQ): seq<Id> {
    if q in s.waitqs then s.waitqs[q] else []
  }

  /** z_is_thread_prevented_from_running() */
  predicate Prevented(th: Thread) {
    th.pending || th.prestart || th.dead || th.suspended
  }

  /** z_is_thread_ready() */
  predicate Ready(th: Thread) {
    !Prevented(th) && !th.timeout
  }

  /** is_preempt() */
  predicate Preemptible(th: Thread) {
    th.prio >= 0 && th.locked == 0
  }

  function SetThread(s: State, t: Id, th: Thread): State {
    s.(threads := s.threads[t := th])
  }

  // ---- queues ---------------------------------------------------------------------

  function PrioOf(s: State, t: Id): int {
    if t in s.threads then s.threads[t].prio else 0
  }

  /** z_priq_dumb_add(): in front of the first thread of lower priority. */
  function Slot(s: State, l: seq<Id>, prio: int): (k: nat)
    ensures k <= |l|
    ensures forall i :: 0 <= i < k ==> PrioOf(s, l[i]) <= prio
    ensures k < |l| ==> prio < PrioOf(s, l[k])
  {
    if l == [] || prio < PrioOf(s, l[0]) then 0 else 1 + Slot(s, l[1..], prio)
  }

  function Enqueue(s: State, l: seq<Id>, t: Id): seq<Id> {
    InsertAt(l, Slot(s, l, PrioOf(s, t)), t)
  }

  function QueueThread(s: State, t: Id): State
    requires t in s.threads
  {
    s.(threads := s.threads[t := s.threads[t].(queued := true, since := s.clock)],
       runq := Enqueue(s, s.runq, t),
       clock := s.clock + 1)
  }

  function DequeueThread(s: State, t: Id): State
    requires t in s.threads
  {
    s.(threads := s.threads[t := s.threads[t].(queued := false)], runq := Without(s.runq, t))
  }

  function DequeueIfQueued(s: State, t: Id): State
    requires t in s.threads
  {
    if s.threads[t].queued then DequeueThread(s, t) else s
  }

  // ---- the cache ------------------------------------------------------------------

  function NextUp(s: State): Id {
    if s.runq == [] then s.idle else s.runq[0]
  }

  /** should_preempt() */
  predicate ShouldPreempt(s: State, preemptOk: bool)
    requires s.current in s.threads
  {
    preemptOk || Prevented(s.threads[s.current]) || Preemptible(s.threads[s.current])
  }

  function UpdateCache(s: State, preemptOk: bool): State
    requires s.current in s.threads
  {
    s.(cache := if ShouldPreempt(s, preemptOk) then NextUp(s) else s.current)
  }

  function ReadyThread(s: State, t: Id): State
    requires s.current in s.threads && t in s.threads
  {
    if !s.threads[t].queued && Ready(s.threads[t]) then UpdateCache(QueueThread(s, t), false) else s
  }

  /** z_swap() */
  function Swap(s: State): State {
    s.(current := s.cache)
  }

  // ---- wait queues ----------------------------------------------------------------

  function Unready(s: State, t: Id): State
    requires s.current in s.threads && t in s.threads
  {
    UpdateCache(DequeueIfQueued(s, t), t == s.current)
  }

  /** The second half of add_to_waitq_locked(); a swapped out thread finds
      -EAGAIN unless somebody stores another result. */
  function PendOn(s: State, t: Id, q: WaitQ, timed: bool): State
    requires t in s.threads
  {
    var th := s.threads[t];
    s.(threads := s.threads[t := th.(pending := true, pendedOn := q, ret := -EAGAIN, timeout := th.timeout || timed,
                                     since := s.clock)],
       waitqs := s.waitqs[q := Enqueue(s, Waiters(s, q), t)],
       clock := s.clock + 1)
  }

  /** unpend_thread_no_timeout() */
  function Unpend(s: State, t: Id): State
    requires t in s.threads
  {
    var q := s.threads[t].pendedOn;
    s.(threads := s.threads[t := s.threads[t].(pending := false, pendedOn := Nowhere)],
       waitqs := s.waitqs[q := Without(Waiters(s, q), t)])
  }

  function UnpendIfPended(s: State, t: Id): State
    requires t in s.threads
  {
    if s.threads[t].pendedOn != Nowhere then Unpend(s, t) else s
  }

  /** z_abort_thread_timeout() */
  function AbortTimeout(s: State, t: Id): State
    requires t in s.threads
  {
    SetThread(s, t, s.threads[t].(timeout := false))
  }

  // ---- operations -----------------------------------------------------------------

  /** pend() of the current thread, and the swap */
  function PendCurrent(s: State, q: WaitQ, timed: bool): State
    requires s.current in s.threads
  {
    Swap(PendOn(Unready(s, s.current), s.current, q, timed))
  }

  /** What z_sched_wake() does to the thread it has chosen. */
  function WakeThread(s: State, t: Id, ret: int): (r: State)
    requires s.current in s.threads && t in s.threads
    ensures r.current == s.current && r.threads.Keys == s.threads.Keys
  {
    var s1 := SetThread(s, t, s.threads[t].(ret := ret));
    ReadyThread(AbortTimeout(Unpend(s1, t), t), t)
  }

  /** z_sched_wake(): the first waiter, if any */
  function Wake(s: State, q: WaitQ, ret: int): State
    requires s.current in s.threads
    requires forall x :: x in Waiters(s, q) ==> x in s.threads
  {
    if Waiters(s, q) == [] then s else WakeThread(s, Waiters(s, q)[0], ret)
  }

  /** z_sched_start() */
  function Start(s: State, t: Id): State
    requires s.current in s.threads && t in s.threads
  {
    if !s.threads[t].prestart then s
    else ReadyThread(SetThread(s, t, s.threads[t].(prestart := false)), t)
  }

  /** A delayed start: the timeout of a thread that has not started. */
  function StartLater(s: State, t: Id): State
    requires t in s.threads
  {
    SetThread(s, t, s.threads[t].(timeout := true))
  }

  function Suspend(s: State, t: Id): State
    requires s.current in s.threads && t in s.threads
  {
    var s1 := DequeueIfQueued(AbortTimeout(s, t), t);
    var s2 := SetThread(s1, t, s1.threads[t].(suspended := true));
    UpdateCache(s2, t == s.current)
  }

  function Resume(s: State, t: Id): State
    requires s.current in s.threads && t in s.threads
  {
    if !s.threads[t].suspended then s
    else ReadyThread(SetThread(s, t, s.threads[t].(suspended := false)), t)
  }

  predicate OnlySuspended(th: Thread) {
    th.suspended && !th.pending && !th.prestart && !th.dead && !th.queued
  }

  /** z_impl_k_wakeup() */
  function Wakeup(s: State, t: Id): State
    requires s.current in s.threads && t in s.threads
  {
    var th := s.threads[t];
    if th.pending || (!th.timeout && !OnlySuspended(th)) then s
    else ReadyThread(SetThread(s, t, th.(timeout := false, suspended := false)), t)
  }

  /** z_thread_timeout(), called when the thread's timeout has run out */
  function ThreadTimeout(s: State, t: Id): State
    requires s.current in s.threads && t in s.threads
  {
    var s0 := AbortTimeout(s, t);
    if s0.threads[t].dead then s0 else
      var s1 := UnpendIfPended(s0, t);
      ReadyThread(SetThread(s1, t, s1.threads[t].(prestart := false, suspended := false)), t)
  }

  /** z_set_prio() */
  function SetPrio(s: State, t: Id, prio: int): State
    requires s.current in s.threads && t in s.threads
  {
    if Ready(s.threads[t]) then
      var s1 := DequeueThread(s, t);
      var s2 := SetThread(s1, t, s1.threads[t].(prio := prio));
      UpdateCache(QueueThread(s2, t), true)
    else SetThread(s, t, s.threads[t].(prio := prio))
  }

  /** z_impl_k_yield() without the swap */
  function Requeue(s: State, t: Id, preemptOk: bool): State
    requires s.current in s.threads && t in s.threads
  {
    UpdateCache(QueueThread(DequeueThread(s, t), t), preemptOk)
  }

  /** z_tick_sleep() */
  function Sleep(s: State): State
    requires s.current in s.threads
  {
    var s1 := Unready(s, s.current);
    Swap(SetThread(s1, s.current, s1.threads[s.current].(timeout := true, suspended := true)))
  }

  function Lock(s: State): State
    requires s.current in s.threads
  {
    var th := s.threads[s.current];
    SetThread(s, s.current, th.(locked := th.locked + 1))
  }

  function Unlock(s: State): State
    requires s.current in s.threads && s.threads[s.current].locked > 0
  {
    var th := s.threads[s.current];
    UpdateCache(SetThread(s, s.current, th.(locked := th.locked - 1)), false)
  }

  /** unpend_all() on a join queue: everyone is woken with result 0. */
  function WakeEach(s: State, l: seq<Id>): (r: State)
    requires s.current in s.threads
    requires forall x :: x in l ==> x in s.threads
    ensures r.current == s.current && r.threads.Keys == s.threads.Keys
    decreases |l|
  {
    if l == [] then s else WakeEach(WakeThread(s, l[0], 0), l[1..])
  }

  /** The first half of end_thread(): off every list. */
  function Bury(s: State, t: Id): (r: State)
    requires t in s.threads
    ensures r.current == s.current && r.threads.Keys == s.threads.Keys
  {
    var s0 := SetThread(s, t, s.threads[t].(dead := true));
    AbortTimeout(UnpendIfPended(DequeueIfQueued(s0, t), t), t)
  }

  /** end_thread() */
  function EndThread(s: State, t: Id): (r: State)
    requires s.current in s.threads && t in s.threads
    requires forall x :: x in Waiters(Bury(s, t), JoinOf(t)) ==> x in s.threads
  {
    if s.threads[t].dead then s
    else
      var s1 := Bury(s, t);
      UpdateCache(WakeEach(s1, Waiters(s1, JoinOf(t))), true)
  }

  datatype JoinResult = Done(code: int) | Joining

  function JoinCode(s: State, t: Id, wait: bool): JoinResult
    requires t in s.threads
  {
    if s.threads[t].dead then Done(0)
    else if !wait then Done(-EBUSY)
    else if t == s.current || s.threads[t].pendedOn == JoinOf(s.current) then Done(-EDEADLK)
    else Joining
  }

  /** z_impl_k_thread_join() */
  function Join(s: State, t: Id, wait: bool, timed: bool): State
    requires s.current in s.threads && t in s.threads
  {
    if JoinCode(s, t, wait).Joining? then PendCurrent(s, JoinOf(t), timed) else s
  }
}
