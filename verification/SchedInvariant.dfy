/**
 What every step of the scheduler keeps.
 */
module SchedInvariant {
  import opened IdList
  import opened SchedSpec

  function SinceOf(s: State, t: Id): nat {
    if t in s.threads then s.threads[t].since else 0
  }

  /** `a` goes before `b`: higher priority, or the same and queued earlier. */
  predicate Before(s: State, a: Id, b: Id) {
    PrioOf(s, a) < PrioOf(s, b) || (PrioOf(s, a) == PrioOf(s, b) && SinceOf(s, a) < SinceOf(s, b))
  }

  predicate Queued(s: State, t: Id) {
    t in s.threads && s.threads[t].queued
  }

  predicate PendsOn(s: State, t: Id, q: WaitQ) {
    q != Nowhere && t in s.threads && s.threads[t].pendedOn == q
  }

  /** The ready queue holds exactly the threads marked as queued, once each, by
      priority and first come first served. */
  ghost predicate RunqOk(s: State) {
    && NoDup(s.runq)
    && (forall t :: t in s.runq <==> Queued(s, t))
    && (forall i, j :: 0 <= i < j < |s.runq| ==> Before(s, s.runq[i], s.runq[j]))
    && (forall i :: 0 <= i < |s.runq| ==> SinceOf(s, s.runq[i]) < s.clock)
  }

  /** Every wait queue holds exactly the threads that pend on it, once each. */
  ghost predicate WaitqsOk(s: State) {
    && (forall q :: NoDup(Waiters(s, q)))
    && (forall q, t :: t in Waiters(s, q) <==> PendsOn(s, t, q))
  }

  // ---- the ready queue -----------------------------------------------------------------

  lemma {:induction false} SetThreadRunq(s: State, t: Id, th: Thread)
    requires RunqOk(s) && t in s.threads && th.queued == s.threads[t].queued
    requires th.queued ==> th.prio == s.threads[t].prio && th.since == s.threads[t].since
    ensures RunqOk(SetThread(s, t, th))
  {
    var s1 := SetThread(s, t, th);
    assert forall x :: Queued(s1, x) == Queued(s, x);
    forall i | 0 <= i < |s.runq|
      ensures PrioOf(s1, s.runq[i]) == PrioOf(s, s.runq[i]) && SinceOf(s1, s.runq[i]) == SinceOf(s, s.runq[i])
    {
      assert s.runq[i] in s.runq;
    }
  }

  lemma {:induction false} DequeueRunq(s: State, t: Id)
    requires RunqOk(s) && t in s.threads
    ensures RunqOk(DequeueIfQueued(s, t)) && !Queued(DequeueIfQueued(s, t), t)
  {
    var s1 := DequeueIfQueued(s, t);
    if s.threads[t].queued {
      WithoutAt(s.runq, t);
      var k := IndexOf(s.runq, t);
      hide IndexOf;
      forall i | 0 <= i < |s1.runq|
        ensures PrioOf(s1, s1.runq[i]) == PrioOf(s, s1.runq[i]) && SinceOf(s1, s1.runq[i]) == SinceOf(s, s1.runq[i])
      {
      }
      assert forall i :: 0 <= i < |s1.runq| ==> s1.runq[i] == s.runq[if i < k then i else i + 1];
    }
  }

  lemma {:induction false} QueueMembers(s: State, t: Id)
    requires RunqOk(s) && t in s.threads && !s.threads[t].queued
    ensures var s1 := QueueThread(s, t);
            && NoDup(s1.runq) && (forall x :: x in s1.runq <==> Queued(s1, x))
  {
    var s1 := QueueThread(s, t);
    var k := Slot(s, s.runq, PrioOf(s, t));
    assert t !in s.runq;
    InsertAtAt(s.runq, k, t);
    assert s1.runq == InsertAt(s.runq, k, t);
    assert forall x :: Queued(s1, x) <==> Queued(s, x) || x == t;
    hide IndexOf, Slot, InsertAt, Queued, QueueThread;
  }

  /** The new thread goes behind those of its own priority. */
  lemma {:induction false} SlotSplits(s: State, prio: int, i: nat)
    requires RunqOk(s) && i < |s.runq|
    ensures i < Slot(s, s.runq, prio) <==> PrioOf(s, s.runq[i]) <= prio
  {
    var k := Slot(s, s.runq, prio);
    if i > k {
      assert Before(s, s.runq[k], s.runq[i]);
    }
  }

  lemma {:induction false} QueueKeepsKeys(s: State, t: Id, i: nat)
    requires RunqOk(s) && t in s.threads && !s.threads[t].queued && i < |s.runq|
    ensures var s1 := QueueThread(s, t);
            && PrioOf(s1, s.runq[i]) == PrioOf(s, s.runq[i])
            && SinceOf(s1, s.runq[i]) == SinceOf(s, s.runq[i]) < s.clock
  {
    assert s.runq[i] in s.runq;
    hide Slot, InsertAt;
  }

  lemma {:induction false} QueueSorted(s: State, t: Id, i: nat, j: nat)
    requires RunqOk(s) && t in s.threads && !s.threads[t].queued
    requires i < j < |QueueThread(s, t).runq|
    ensures var s1 := QueueThread(s, t); Before(s1, s1.runq[i], s1.runq[j])
  {
    var s1 := QueueThread(s, t);
    var k := Slot(s, s.runq, PrioOf(s, t));
    assert PrioOf(s1, t) == PrioOf(s, t) && SinceOf(s1, t) == s.clock;
    assert s1.runq[i] == if i < k then s.runq[i] else if i == k then t else s.runq[i - 1];
    assert s1.runq[j] == if j < k then s.runq[j] else if j == k then t else s.runq[j - 1];
    hide Slot, InsertAt, QueueThread;
    if i != k {
      QueueKeepsKeys(s, t, if i < k then i else i - 1);
      SlotSplits(s, PrioOf(s, t), if i < k then i else i - 1);
    }
    if j != k {
      QueueKeepsKeys(s, t, if j < k then j else j - 1);
      SlotSplits(s, PrioOf(s, t), if j < k then j else j - 1);
    }
  }

  lemma {:induction false} QueueRunq(s: State, t: Id)
    requires RunqOk(s) && t in s.threads && !s.threads[t].queued
    ensures RunqOk(QueueThread(s, t)) && Queued(QueueThread(s, t), t)
  {
    var s1 := QueueThread(s, t);
    QueueMembers(s, t);
    assert s1.clock == s.clock + 1 && Queued(s1, t) && SinceOf(s1, t) == s.clock;
    var k := Slot(s, s.runq, PrioOf(s, t));
    assert forall i :: 0 <= i < |s1.runq| ==> s1.runq[i] == if i < k then s.runq[i] else if i == k then t else s.runq[i - 1];
    hide Slot, InsertAt, QueueThread, Before, NoDup, PrioOf, SinceOf, Queued;
    forall i, j | 0 <= i < j < |s1.runq| ensures Before(s1, s1.runq[i], s1.runq[j]) {
      QueueSorted(s, t, i, j);
    }
    forall i | 0 <= i < |s1.runq| ensures SinceOf(s1, s1.runq[i]) < s1.clock {
      if i != k {
        QueueKeepsKeys(s, t, if i < k then i else i - 1);
      }
    }
  }

  /** Its head is the first queued thread of the highest queued priority. */
  lemma {:induction false} HeadIsBest(s: State, x: Id)
    requires RunqOk(s) && Queued(s, x)
    ensures s.runq != [] && Queued(s, s.runq[0])
    ensures x != s.runq[0] ==> Before(s, s.runq[0], x)
  {
    assert x in s.runq;
    var i :| 0 <= i < |s.runq| && s.runq[i] == x;
    assert s.runq[0] in s.runq;
  }

  // ---- the wait queues -------------------------------------------------------------------

  lemma {:induction false} SetThreadWaitqs(s: State, t: Id, th: Thread)
    requires WaitqsOk(s) && t in s.threads && th.pendedOn == s.threads[t].pendedOn
    ensures WaitqsOk(SetThread(s, t, th))
  {
    var s1 := SetThread(s, t, th);
    assert forall q :: Waiters(s1, q) == Waiters(s, q);
    assert forall x, q :: PendsOn(s1, x, q) == PendsOn(s, x, q);
    hide Waiters, PendsOn;
  }

  lemma {:induction false} PendWaitqs(s: State, t: Id, q: WaitQ, timed: bool)
    requires WaitqsOk(s) && t in s.threads && s.threads[t].pendedOn == Nowhere && q != Nowhere
    ensures WaitqsOk(PendOn(s, t, q, timed))
  {
    var s1 := PendOn(s, t, q, timed);
    var l := Waiters(s, q);
    assert !PendsOn(s, t, q) && t !in l;
    InsertAtAt(l, Slot(s, l, PrioOf(s, t)), t);
    assert Waiters(s1, q) == Enqueue(s, l, t);
    assert forall r :: r != q ==> Waiters(s1, r) == Waiters(s, r);
    forall x, r ensures PendsOn(s1, x, r) <==> PendsOn(s, x, r) || (x == t && r == q) {
    }
    hide IndexOf, Slot, InsertAt, Waiters, PendsOn, PendOn;
    forall x, r ensures x in Waiters(s1, r) <==> PendsOn(s1, x, r) {
      assert x in Waiters(s, r) <==> PendsOn(s, x, r);
    }
  }

  lemma {:induction false} UnpendWaitqs(s: State, t: Id)
    requires WaitqsOk(s) && t in s.threads
    ensures WaitqsOk(UnpendIfPended(s, t)) && UnpendIfPended(s, t).threads[t].pendedOn == Nowhere
  {
    var q := s.threads[t].pendedOn;
    if q != Nowhere {
      var s1 := UnpendIfPended(s, t);
      var l := Waiters(s, q);
      WithoutAt(l, t);
      assert Waiters(s1, q) == Without(l, t);
      assert forall r :: r != q ==> Waiters(s1, r) == Waiters(s, r);
      forall x, r ensures PendsOn(s1, x, r) <==> PendsOn(s, x, r) && x != t {
      }
      assert forall r :: r != q ==> !PendsOn(s, t, r);
      hide IndexOf, Without, Waiters, PendsOn, UnpendIfPended;
      forall x, r ensures x in Waiters(s1, r) <==> PendsOn(s1, x, r) {
        assert x in Waiters(s, r) <==> PendsOn(s, x, r);
      }
    }
  }

  // ---- threads ------------------------------------------------------------------------------

  /** A thread joins only a live one other than itself, except that the joiners of
      queue `d` are about to be woken. */
  predicate JoinsLive(s: State, t: Id, d: WaitQ)
    requires t in s.threads
  {
    var q := s.threads[t].pendedOn;
    q.JoinOf? && q != d ==> q.thread != t && q.thread in s.threads && !s.threads[q.thread].dead
  }

  /** The state bits of a thread agree with each other and with its timeout; every
      thread but the idle thread is queued exactly when it is ready. */
  predicate BitsOk(th: Thread, idle: bool) {
    && (th.pending <==> th.pendedOn != Nowhere)
    && (th.pending ==> th.ret == -EAGAIN)
    && (th.dead ==> th.pendedOn == Nowhere && !th.timeout)
    && (if idle then !th.queued && Ready(th) && Preemptible(th) else th.queued <==> Ready(th))
  }

  /** The same, of a thread that has yet to be made ready. */
  predicate BitsAlmost(th: Thread) {
    && (th.pending <==> th.pendedOn != Nowhere)
    && (th.pending ==> th.ret == -EAGAIN)
    && (th.dead ==> th.pendedOn == Nowhere && !th.timeout)
    && (th.queued ==> Ready(th))
  }

  ghost predicate AllOk(s: State, d: WaitQ) {
    forall t :: t in s.threads ==> BitsOk(s.threads[t], t == s.idle) && JoinsLive(s, t, d)
  }

  predicate Base(s: State) {
    s.current in s.threads && s.idle in s.threads && !s.threads[s.current].timeout
  }

  /** Everything but the cache. */
  ghost predicate Settled(s: State, d: WaitQ) {
    Base(s) && RunqOk(s) && WaitqsOk(s) && AllOk(s, d)
  }

  /** The cache is the thread to run next: the first queued thread of the highest
      priority, or the idle thread, unless the current thread may not be
      preempted. */
  predicate CacheOk(s: State)
    requires Base(s)
  {
    || s.cache == NextUp(s)
    || (s.cache == s.current && !Prevented(s.threads[s.current]) && !Preemptible(s.threads[s.current]))
  }

  ghost predicate Inv(s: State) {
    Settled(s, Nowhere) && CacheOk(s)
  }

  lemma {:induction false} UpdateCacheOk(s: State, preemptOk: bool, d: WaitQ)
    requires Settled(s, d)
    ensures var s1 := UpdateCache(s, preemptOk); Settled(s1, d) && CacheOk(s1)
  {
    var s1 := UpdateCache(s, preemptOk);
    UpdateCacheLists(s, preemptOk);
    hide RunqOk, WaitqsOk;
    assert forall t :: t in s.threads ==> JoinsLive(s1, t, d) == JoinsLive(s, t, d);
  }

  lemma {:induction false} UpdateCacheLists(s: State, preemptOk: bool)
    requires s.current in s.threads
    ensures RunqOk(s) ==> RunqOk(UpdateCache(s, preemptOk))
    ensures WaitqsOk(s) ==> WaitqsOk(UpdateCache(s, preemptOk))
  {
    var s1 := UpdateCache(s, preemptOk);
    assert forall t :: Queued(s1, t) == Queued(s, t);
    assert forall t, q :: PendsOn(s1, t, q) == PendsOn(s, t, q);
    assert forall q :: Waiters(s1, q) == Waiters(s, q);
    assert forall a, b :: Before(s1, a, b) == Before(s, a, b);
    assert forall t :: SinceOf(s1, t) == SinceOf(s, t);
    hide Queued, PendsOn, Waiters, Before, SinceOf, UpdateCache;
    assert s1.runq == s.runq && s1.clock == s.clock;
  }

  /** Only thread `t` has changed, and it is alive if it was. */
  lemma {:induction false} OthersOk(s: State, s1: State, t: Id, d: WaitQ)
    requires AllOk(s, d) && t in s.threads && s1.idle == s.idle
    requires t in s1.threads && s1.threads == s.threads[t := s1.threads[t]]
    requires s1.threads[t].dead == s.threads[t].dead
    requires BitsOk(s1.threads[t], t == s.idle) && JoinsLive(s1, t, d)
    ensures AllOk(s1, d)
  {
    forall x | x in s1.threads ensures BitsOk(s1.threads[x], x == s1.idle) && JoinsLive(s1, x, d) {
      if x != t {
        assert s1.threads[x] == s.threads[x] && JoinsLive(s, x, d);
      }
    }
  }
}
