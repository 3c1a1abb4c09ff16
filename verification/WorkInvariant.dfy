/**
 The invariant that every step of the work queue state machine keeps.
 */
module WorkInvariant {
  import opened IdList
  import opened WorkSpec

  /** The flag combinations an item can have. */
  predicate FlagsOk(x: Work) {
    && (x.canceling ==> x.running && !x.queued)
    && (x.armed ==> x.delayed)
    && (x.delayed ==> x.role.Delayable?)
    && (x.role.Flusher? ==> !x.queued && !x.running && x.queue.None? && x.fates == [])
  }

  /** Only the last submission can be waiting and only one can be executing,
      exactly when the flags say so. */
  predicate FatesOk(x: Work) {
    && (x.queued ==> x.fates != [])
    && (x.running ==> x.executing < |x.fates|)
    && (forall i :: 0 <= i < |x.fates| ==> (x.fates[i].Waiting? <==> x.queued && i == |x.fates| - 1))
    && (forall i :: 0 <= i < |x.fates| ==> (x.fates[i].Executing? <==> x.running && i == x.executing))
  }

  /** Flags agree with the lists: a queued item is on the list of its queue, a
      running one is what that queue's thread is executing. */
  predicate PlaceOk(s: State, w: WorkId)
    requires w in s.works
  {
    var x := s.works[w];
    && (x.queue.Some? ==> x.queue.value in s.queues)
    && (x.timerQueue.Some? ==> x.timerQueue.value in s.queues)
    && (x.queued ==> x.queue.Some? && w in s.queues[x.queue.value].pending)
    && (x.running ==> x.queue.Some? && s.queues[x.queue.value].worker == Handling(w))
  }

  /** One of the first `n` submissions of the item is not over yet. */
  predicate WaitingAmong(x: Work, n: nat) {
    x.queued && |x.fates| <= n
  }

  predicate ExecutingAmong(x: Work, n: nat) {
    x.running && x.executing < n
  }

  /** A flusher is on its queue, and what it was sent after is over, ahead of it,
      or in the hands of the same thread. */
  predicate FlusherOk(s: State, f: WorkId)
    requires f in s.works
  {
    var x := s.works[f];
    x.role.Flusher? ==>
      var t, n, q := x.role.target, x.role.upTo, x.role.via;
      && q in s.queues
      && t in s.works && !s.works[t].role.Flusher? && n <= |s.works[t].fates|
      && f in s.queues[q].pending
      && (ExecutingAmong(s.works[t], n) ==> s.works[t].queue == Some(q))
      && (WaitingAmong(s.works[t], n) ==> s.works[t].queue == Some(q) && Ahead(s.queues[q].pending, t, f))
  }

  predicate WorkOk(s: State, w: WorkId)
    requires w in s.works
  {
    FlagsOk(s.works[w]) && FatesOk(s.works[w]) && PlaceOk(s, w) && FlusherOk(s, w)
  }

  /** Whatever is on the list of `q` belongs there. */
  predicate PendingOk(s: State, q: QueueId)
    requires q in s.queues
  {
    forall w :: w in s.queues[q].pending ==>
      && w in s.works
      && Home(s.works[w]) == Some(q)
      && (s.works[w].role.Flusher? || s.works[w].queued)
  }

  /** The queue's own flags, its thread and the threads waiting on it. */
  predicate ControlOk(k: Queue) {
    && NoDup(k.pending)
    && (k.busy <==> k.worker.Handling? || k.worker.Flushing?)
    && (k.worker.Asleep? ==> k.pending == [] && !k.draining)
    && (k.drainq != [] ==> k.draining)
    && (k.plugged && !k.draining ==> k.pending == [] && !k.busy)
    && (!k.started ==> k.pending == [] && k.worker.Looking?)
  }

  predicate WorkerOk(s: State, q: QueueId)
    requires q in s.queues
  {
    var h := s.queues[q].worker;
    h.Handling? ==> h.work in s.works && s.works[h.work].running && Home(s.works[h.work]) == Some(q)
  }

  predicate QueueOk(s: State, q: QueueId)
    requires q in s.queues
  {
    ControlOk(s.queues[q]) && PendingOk(s, q) && WorkerOk(s, q)
  }

  predicate CancelsOk(s: State) {
    forall i :: 0 <= i < |s.cancels| ==> s.cancels[i].work in s.works && s.works[s.cancels[i].work].canceling
  }

  ghost predicate Inv(s: State) {
    && (forall w :: w in s.works ==> WorkOk(s, w))
    && (forall q :: q in s.queues ==> QueueOk(s, q))
    && CancelsOk(s)
  }

  // ---- an edit of one item and one queue ---------------------------------------

  /** Between `s` and `s'` only item `w` and queue `q` differ, and on that queue
      only the place of `w`; no other queue knows of `w`. */
  ghost predicate Edit(s: State, s': State, w: WorkId, q: QueueId) {
    && q in s.queues && s'.queues.Keys == s.queues.Keys
    && (forall p :: p in s.queues && p != q ==> s'.queues[p] == s.queues[p])
    && (forall p :: p in s.queues && p != q ==> w !in s.queues[p].pending && s.queues[p].worker != Handling(w))
    && (forall v :: v != w ==> (v in s'.works <==> v in s.works))
    && (forall v :: v != w && v in s.works ==> s'.works[v] == s.works[v])
    && (forall v :: v != w ==> (v in s'.queues[q].pending <==> v in s.queues[q].pending))
    && (forall v :: v != w ==> (s'.queues[q].worker == Handling(v) <==> s.queues[q].worker == Handling(v)))
  }

  /** What the edit must establish for `w` and `q` themselves. */
  ghost predicate EditOk(s': State, w: WorkId, q: QueueId) {
    && q in s'.queues && ControlOk(s'.queues[q])
    && (w in s'.works ==> WorkOk(s', w))
    && (w in s'.queues[q].pending ==>
          && w in s'.works && Home(s'.works[w]) == Some(q)
          && (s'.works[w].role.Flusher? || s'.works[w].queued))
    && (s'.queues[q].worker == Handling(w) ==>
          w in s'.works && s'.works[w].running && Home(s'.works[w]) == Some(q))
  }

  /** The order of the other items on the edited list is kept. */
  ghost predicate KeepsOrder(s: State, s': State, w: WorkId, q: QueueId)
    requires q in s.queues && q in s'.queues
  {
    forall a, b :: a != w && b != w && Ahead(s.queues[q].pending, a, b) ==> Ahead(s'.queues[q].pending, a, b)
  }

  /** The flushers sent after `w` still are where they should be. */
  ghost predicate FollowersOk(s: State, s': State, w: WorkId) {
    forall f :: f in s.works && f != w && f in s'.works && s.works[f].role.Flusher? && s.works[f].role.target == w
      ==> FlusherOk(s', f)
  }

  lemma {:induction false} EditPlace(s: State, s': State, w: WorkId, q: QueueId, v: WorkId)
    requires Inv(s) && Edit(s, s', w, q) && v in s.works && v != w
    ensures PlaceOk(s', v)
  {
    hide FlagsOk, FatesOk, FlusherOk, ControlOk, PendingOk, CancelsOk, NoDup, WorkerOk;
    assert WorkOk(s, v);
  }

  lemma {:induction false} EditFlusher(s: State, s': State, w: WorkId, q: QueueId, v: WorkId)
    requires Inv(s) && Edit(s, s', w, q) && KeepsOrder(s, s', w, q) && v in s.works && v != w
    requires s.works[v].role.Flusher? ==> s.works[v].role.target != w
    ensures FlusherOk(s', v)
  {
    hide FlagsOk, FatesOk, PlaceOk, ControlOk, PendingOk, CancelsOk, NoDup, WorkerOk, Ahead;
    assert WorkOk(s, v);
  }

  lemma {:induction false} EditQueue(s: State, s': State, w: WorkId, q: QueueId, p: QueueId)
    requires Inv(s) && Edit(s, s', w, q) && EditOk(s', w, q) && p in s.queues
    ensures QueueOk(s', p)
  {
    hide FlagsOk, FatesOk, PlaceOk, FlusherOk, ControlOk, CancelsOk, NoDup;
    assert QueueOk(s, p);
  }

  lemma {:induction false} EditKeeps(s: State, s': State, w: WorkId, q: QueueId)
    requires Inv(s) && Edit(s, s', w, q) && EditOk(s', w, q)
    requires KeepsOrder(s, s', w, q) && FollowersOk(s, s', w) && CancelsOk(s')
    ensures Inv(s')
  {
    forall v | v in s'.works
      ensures WorkOk(s', v)
    {
      if v != w {
        EditPlace(s, s', w, q, v);
        if !(s.works[v].role.Flusher? && s.works[v].role.target == w) {
          EditFlusher(s, s', w, q, v);
        }
        hide PlaceOk, FlusherOk, QueueOk, FlagsOk, FatesOk;
        assert WorkOk(s, v);
      }
    }
    forall p | p in s'.queues
      ensures QueueOk(s', p)
    {
      EditQueue(s, s', w, q, p);
    }
  }

  /** An item is on no list and in no handler but those of its own queue. */
  lemma {:induction false} OnlyAtHome(s: State, w: WorkId, p: QueueId)
    requires Inv(s) && p in s.queues && w in s.works && Home(s.works[w]) != Some(p)
    ensures w !in s.queues[p].pending && s.queues[p].worker != Handling(w)
  {
    assert QueueOk(s, p);
  }

  // ---- accepting a submission ---------------------------------------------------

  ghost predicate CanAppend(s: State, w: WorkId, q: QueueId) {
    && w in s.works && q in s.queues
    && var x, k := s.works[w], s.queues[q];
    && !x.role.Flusher? && !x.queued && !x.canceling && (x.running ==> x.queue == Some(q))
    && k.started && !(k.plugged && !k.draining)
  }

  lemma {:induction false} IdleNowhere(s: State, w: WorkId, p: QueueId)
    requires Inv(s) && p in s.queues && w in s.works
    requires !s.works[w].role.Flusher? && !s.works[w].queued && (s.works[w].running ==> Home(s.works[w]) != Some(p))
    ensures w !in s.queues[p].pending && s.queues[p].worker != Handling(w)
  {
    assert QueueOk(s, p);
  }

  lemma {:induction false} AppendEdits(s: State, w: WorkId, q: QueueId)
    requires Inv(s) && CanAppend(s, w, q)
    ensures Edit(s, Append(s, w, q), w, q)
    ensures KeepsOrder(s, Append(s, w, q), w, q)
    ensures NoDup(Append(s, w, q).queues[q].pending)
  {
    hide FlagsOk, FatesOk, FlusherOk, CancelsOk, Ahead;
    var s' := Append(s, w, q);
    var l := s.queues[q].pending;
    assert QueueOk(s, q);
    forall p | p in s.queues && p != q
      ensures w !in s.queues[p].pending && s.queues[p].worker != Handling(w)
    {
      IdleNowhere(s, w, p);
    }
    AppendIsInsert(l, w);
    InsertAtAt(l, |l|, w);
    forall a, b | Ahead(l, a, b)
      ensures Ahead(s'.queues[q].pending, a, b)
    {
      InsertAtKeepsOrder(l, |l|, w, a, b);
    }
  }

  lemma {:induction false} AppendLocal(s: State, w: WorkId, q: QueueId)
    requires Inv(s) && CanAppend(s, w, q) && NoDup(Append(s, w, q).queues[q].pending)
    ensures EditOk(Append(s, w, q), w, q)
  {
    hide NoDup;
    assert WorkOk(s, w) && QueueOk(s, q);
  }

  lemma {:induction false} AppendIsInsert(l: seq<WorkId>, w: WorkId)
    ensures l + [w] == InsertAt(l, |l|, w)
  {
  }

  lemma {:induction false} AppendFollowers(s: State, w: WorkId, q: QueueId)
    requires Inv(s) && CanAppend(s, w, q)
    ensures FollowersOk(s, Append(s, w, q), w)
  {
    hide FlagsOk, PlaceOk, ControlOk, PendingOk, CancelsOk, NoDup, Ahead, WorkerOk;
    forall f | f in s.works && f != w && s.works[f].role.Flusher? && s.works[f].role.target == w
      ensures FlusherOk(Append(s, w, q), f)
    {
      assert WorkOk(s, f) && WorkOk(s, w);
    }
  }

  lemma {:induction false} AppendKeeps(s: State, w: WorkId, q: QueueId)
    requires Inv(s) && CanAppend(s, w, q)
    ensures Inv(Append(s, w, q))
  {
    hide WorkOk, QueueOk, EditOk, Edit, KeepsOrder, FollowersOk, NoDup;
    AppendEdits(s, w, q);
    AppendLocal(s, w, q);
    AppendFollowers(s, w, q);
    EditKeeps(s, Append(s, w, q), w, q);
  }

  // ---- taking a queued item off its list ------------------------------------------

  ghost predicate CanDequeue(s: State, w: WorkId) {
    && w in s.works && s.works[w].queued
    && s.works[w].queue.Some? && s.works[w].queue.value in s.queues && s.works[w].fates != []
  }

  lemma {:induction false} DequeueEdits(s: State, w: WorkId)
    requires Inv(s) && CanDequeue(s, w)
    ensures var q := s.works[w].queue.value;
            && Edit(s, Dequeue(s, w), w, q) && KeepsOrder(s, Dequeue(s, w), w, q)
            && NoDup(Dequeue(s, w).queues[q].pending) && w !in Dequeue(s, w).queues[q].pending
  {
    hide FatesOk, FlusherOk, CancelsOk, Ahead, Without;
    var s', q := Dequeue(s, w), s.works[w].queue.value;
    var l := s.queues[q].pending;
    assert QueueOk(s, q) && WorkOk(s, w);
    forall p | p in s.queues && p != q
      ensures w !in s.queues[p].pending && s.queues[p].worker != Handling(w)
    {
      OnlyAtHome(s, w, p);
    }
    WithoutAt(l, w);
    forall a, b | a != w && b != w && Ahead(l, a, b)
      ensures Ahead(s'.queues[q].pending, a, b)
    {
      WithoutKeepsOrder(l, w, a, b);
    }
  }

  lemma {:induction false} DequeueLocal(s: State, w: WorkId)
    requires Inv(s) && CanDequeue(s, w)
    requires var k := Dequeue(s, w).queues[s.works[w].queue.value]; NoDup(k.pending) && w !in k.pending
    ensures EditOk(Dequeue(s, w), w, s.works[w].queue.value)
  {
    hide NoDup;
    var q := s.works[w].queue.value;
    assert WorkOk(s, w) && QueueOk(s, q);
    WithoutNil(s.queues[q].pending, w);
    hide Without;
    var s' := Dequeue(s, w);
    assert ControlOk(s'.queues[q]);
    assert FlagsOk(s'.works[w]) && FatesOk(s'.works[w]);
    assert PlaceOk(s', w) && FlusherOk(s', w);
  }

  lemma {:induction false} WithoutNil(l: seq<WorkId>, w: WorkId)
    ensures l == [] ==> Without(l, w) == []
  {
  }

  lemma {:induction false} DequeueFollowers(s: State, w: WorkId)
    requires Inv(s) && CanDequeue(s, w)
    ensures FollowersOk(s, Dequeue(s, w), w)
  {
    DequeueEdits(s, w);
    hide FlagsOk, PlaceOk, ControlOk, PendingOk, CancelsOk, NoDup, Ahead, WorkerOk, Without;
    forall f | f in s.works && f != w && s.works[f].role.Flusher? && s.works[f].role.target == w
      ensures FlusherOk(Dequeue(s, w), f)
    {
      assert WorkOk(s, f) && WorkOk(s, w);
    }
  }

  lemma {:induction false} DequeueKeeps(s: State, w: WorkId)
    requires Inv(s) && CanDequeue(s, w)
    ensures Inv(Dequeue(s, w))
  {
    hide WorkOk, QueueOk, EditOk, Edit, KeepsOrder, FollowersOk, NoDup, Without;
    DequeueEdits(s, w);
    DequeueLocal(s, w);
    DequeueFollowers(s, w);
    EditKeeps(s, Dequeue(s, w), w, s.works[w].queue.value);
  }

  // ---- queueing a flusher -----------------------------------------------------------

  ghost predicate CanFlush(s: State, w: WorkId, f: WorkId, q: QueueId) {
    && w in s.works && (s.works[w].queued || s.works[w].running)
    && !s.works[w].role.Flusher? && s.works[w].queue == Some(q)
    && q in s.queues && f !in s.works
  }

  lemma {:induction false} FlushEdits(s: State, w: WorkId, f: WorkId, q: QueueId)
    requires Inv(s) && CanFlush(s, w, f, q)
    ensures Edit(s, InsertFlusher(s, w, f, q), f, q)
    ensures KeepsOrder(s, InsertFlusher(s, w, f, q), f, q)
    ensures NoDup(InsertFlusher(s, w, f, q).queues[q].pending)
    ensures f in InsertFlusher(s, w, f, q).queues[q].pending
    ensures w in s.queues[q].pending ==> Ahead(InsertFlusher(s, w, f, q).queues[q].pending, w, f)
  {
    hide FlagsOk, FatesOk, FlusherOk, CancelsOk, Ahead, InsertAt, IndexOf;
    var s' := InsertFlusher(s, w, f, q);
    var l := s.queues[q].pending;
    assert QueueOk(s, q);
    forall p | p in s.queues
      ensures f !in s.queues[p].pending && s.queues[p].worker != Handling(f)
    {
      assert QueueOk(s, p);
    }
    var i := IndexOf(l, w);
    var k := if i < |l| then i + 1 else 0;
    InsertAtAt(l, k, f);
    forall a, b | Ahead(l, a, b)
      ensures Ahead(s'.queues[q].pending, a, b)
    {
      InsertAtKeepsOrder(l, k, f, a, b);
    }
    assert i < |l| ==> l[i] == w;
  }

  lemma {:induction false} FlushControl(s: State, w: WorkId, f: WorkId, q: QueueId)
    requires Inv(s) && CanFlush(s, w, f, q) && NoDup(InsertFlusher(s, w, f, q).queues[q].pending)
    ensures ControlOk(InsertFlusher(s, w, f, q).queues[q])
  {
    hide NoDup, InsertAt, FlusherOk, FatesOk;
    assert WorkOk(s, w) && QueueOk(s, q);
  }

  lemma {:induction false} FlushLocal(s: State, w: WorkId, f: WorkId, q: QueueId)
    requires Inv(s) && CanFlush(s, w, f, q)
    ensures EditOk(InsertFlusher(s, w, f, q), f, q)
  {
    FlushEdits(s, w, f, q);
    FlushControl(s, w, f, q);
    hide NoDup, Ahead, InsertAt, KeepsOrder, Edit, ControlOk, PendingOk, IndexOf;
    assert WorkOk(s, w);
    assert s.works[w].queued ==> w in s.queues[q].pending;
    var s' := InsertFlusher(s, w, f, q);
    assert FlagsOk(s'.works[f]) && FatesOk(s'.works[f]) && PlaceOk(s', f);
    assert FlusherOk(s', f);
    assert s.queues[q].worker != Handling(f) by {
      assert QueueOk(s, q) && WorkerOk(s, q);
    }
  }

  lemma {:induction false} FlushFollowers(s: State, w: WorkId, f: WorkId, q: QueueId)
    requires Inv(s) && CanFlush(s, w, f, q)
    ensures FollowersOk(s, InsertFlusher(s, w, f, q), f)
  {
    forall g | g in s.works && s.works[g].role.Flusher?
      ensures s.works[g].role.target != f
    {
      assert WorkOk(s, g);
    }
  }

  lemma {:induction false} FlushKeeps(s: State, w: WorkId, f: WorkId, q: QueueId)
    requires Inv(s) && CanFlush(s, w, f, q)
    ensures Inv(InsertFlusher(s, w, f, q))
  {
    hide WorkOk, QueueOk, EditOk, Edit, KeepsOrder, FollowersOk, NoDup, Ahead, InsertAt;
    FlushEdits(s, w, f, q);
    FlushLocal(s, w, f, q);
    FlushFollowers(s, w, f, q);
    EditKeeps(s, InsertFlusher(s, w, f, q), f, q);
  }

  // ---- the queue thread takes an item ---------------------------------------------------

  ghost predicate CanTake(s: State, q: QueueId) {
    q in s.queues && s.queues[q].started && s.queues[q].worker.Looking?
  }

  /** The head of the list is what Take's precondition asks for. */
  lemma {:induction false} HeadOk(s: State, q: QueueId)
    requires Inv(s) && q in s.queues && s.queues[q].pending != []
    ensures var w := s.queues[q].pending[0];
            w in s.works && Home(s.works[w]) == Some(q)
            && (!s.works[w].role.Flusher? ==> s.works[w].queued && s.works[w].fates != [])
  {
    assert QueueOk(s, q);
    var w := s.queues[q].pending[0];
    assert w in s.queues[q].pending;
    assert WorkOk(s, w);
  }

  ghost predicate TakesFrom(s: State, q: QueueId, w: WorkId) {
    && CanTake(s, q) && s.queues[q].pending != [] && s.queues[q].pending[0] == w
    && w in s.works && Home(s.works[w]) == Some(q)
    && (!s.works[w].role.Flusher? ==> s.works[w].queued && s.works[w].fates != [])
  }

  lemma {:induction false} TakeEdits(s: State, q: QueueId, w: WorkId)
    requires Inv(s) && TakesFrom(s, q, w)
    ensures Edit(s, Take(s, q), w, q) && KeepsOrder(s, Take(s, q), w, q)
    ensures var l := Take(s, q).queues[q].pending; NoDup(l) && w !in l
  {
    hide FlagsOk, FatesOk, FlusherOk, CancelsOk, Ahead;
    var s' := Take(s, q);
    var l := s.queues[q].pending;
    assert QueueOk(s, q);
    forall p | p in s.queues && p != q
      ensures w !in s.queues[p].pending && s.queues[p].worker != Handling(w)
    {
      OnlyAtHome(s, w, p);
    }
    TailAt(l);
    forall a, b | a != w && b != w && Ahead(l, a, b)
      ensures Ahead(s'.queues[q].pending, a, b)
    {
      TailKeepsOrder(l, a, b);
    }
  }

  /** The heart of flushing: when a flusher comes to the head of its list and
      the thread is free, nothing it was sent after is waiting or executing. */
  lemma {:induction false} FlusherFindsThemOver(s: State, q: QueueId, f: WorkId)
    requires Inv(s) && TakesFrom(s, q, f) && s.works[f].role.Flusher?
    ensures FlusherOk(s, f) && f in s.queues[q].pending
    ensures var t, n := s.works[f].role.target, s.works[f].role.upTo;
            !WaitingAmong(s.works[t], n) && !ExecutingAmong(s.works[t], n)
  {
    var t, n := s.works[f].role.target, s.works[f].role.upTo;
    assert WorkOk(s, f) && QueueOk(s, q);
    assert f in s.queues[q].pending;
    assert WorkOk(s, t);
    if WaitingAmong(s.works[t], n) {
      TailKeepsOrder(s.queues[q].pending, t, f);
      assert false;
    }
  }

  lemma {:induction false} TakeLocal(s: State, q: QueueId, w: WorkId)
    requires Inv(s) && TakesFrom(s, q, w)
    requires var l := Take(s, q).queues[q].pending; NoDup(l) && w !in l
    ensures EditOk(Take(s, q), w, q)
  {
    if s.works[w].role.Flusher? {
      FlusherFindsThemOver(s, q, w);
    }
    hide NoDup, Ahead;
    assert WorkOk(s, w) && QueueOk(s, q);
    assert ControlOk(Take(s, q).queues[q]);
    hide ControlOk, PendingOk;
  }

  lemma {:induction false} TakeFollowers(s: State, q: QueueId, w: WorkId)
    requires Inv(s) && TakesFrom(s, q, w)
    ensures FollowersOk(s, Take(s, q), w)
  {
    TakeEdits(s, q, w);
    assert QueueOk(s, q);
    hide PlaceOk, ControlOk, PendingOk, CancelsOk, NoDup, Ahead;
    forall f | f in s.works && f != w && s.works[f].role.Flusher? && s.works[f].role.target == w
      ensures FlusherOk(Take(s, q), f)
    {
      assert WorkOk(s, f) && WorkOk(s, w);
    }
  }

  lemma {:induction false} TakeKeeps(s: State, q: QueueId, w: WorkId)
    requires Inv(s) && TakesFrom(s, q, w)
    ensures Inv(Take(s, q))
  {
    hide WorkOk, QueueOk, EditOk, Edit, KeepsOrder, FollowersOk, NoDup;
    TakeEdits(s, q, w);
    TakeLocal(s, q, w);
    TakeFollowers(s, q, w);
    TakeCancels(s, q, w);
    EditKeeps(s, Take(s, q), w, q);
  }

  lemma {:induction false} TakeCancels(s: State, q: QueueId, w: WorkId)
    requires Inv(s) && TakesFrom(s, q, w)
    ensures CancelsOk(Take(s, q))
  {
    assert WorkOk(s, w);
    hide WorkOk, QueueOk;
  }

  // ---- the handler returns ------------------------------------------------------------------

  ghost predicate CanFinish(s: State, q: QueueId) {
    && q in s.queues && s.queues[q].worker.Handling?
    && var w := s.queues[q].worker.work;
    && w in s.works && s.works[w].running && Home(s.works[w]) == Some(q)
    && s.works[w].executing < |s.works[w].fates|
  }

  lemma {:induction false} FinishReady(s: State, q: QueueId)
    requires Inv(s) && q in s.queues && s.queues[q].worker.Handling?
    ensures CanFinish(s, q)
  {
    assert QueueOk(s, q);
    assert WorkOk(s, s.queues[q].worker.work);
  }

  lemma {:induction false} FinishEdits(s: State, q: QueueId)
    requires Inv(s) && CanFinish(s, q)
    ensures var w := s.queues[q].worker.work;
            Edit(s, Finish(s, q), w, q) && KeepsOrder(s, Finish(s, q), w, q)
  {
    hide FlagsOk, FatesOk, FlusherOk, CancelsOk, Ahead, Others, Matching;
    var w := s.queues[q].worker.work;
    forall p | p in s.queues && p != q
      ensures w !in s.queues[p].pending && s.queues[p].worker != Handling(w)
    {
      OnlyAtHome(s, w, p);
    }
  }

  lemma {:induction false} FinishLocal(s: State, q: QueueId)
    requires Inv(s) && CanFinish(s, q)
    ensures EditOk(Finish(s, q), s.queues[q].worker.work, q)
  {
    hide NoDup, Ahead, Others, Matching;
    var w := s.queues[q].worker.work;
    assert WorkOk(s, w) && QueueOk(s, q);
    var s' := Finish(s, q);
    assert ControlOk(s'.queues[q]);
    assert FlagsOk(s'.works[w]) && FatesOk(s'.works[w]);
    assert PlaceOk(s', w) && FlusherOk(s', w);
  }

  lemma {:induction false} FinishFollowers(s: State, q: QueueId)
    requires Inv(s) && CanFinish(s, q)
    ensures FollowersOk(s, Finish(s, q), s.queues[q].worker.work)
  {
    hide FlagsOk, PlaceOk, ControlOk, PendingOk, CancelsOk, NoDup, Ahead, WorkerOk, Others, Matching;
    var w := s.queues[q].worker.work;
    forall f | f in s.works && f != w && s.works[f].role.Flusher? && s.works[f].role.target == w
      ensures FlusherOk(Finish(s, q), f)
    {
      assert WorkOk(s, f) && WorkOk(s, w);
    }
  }

  /** Records left behind wait for other items, and keep their order. */
  lemma {:induction false} OthersOnly(cs: seq<Canceller>, w: WorkId)
    ensures forall c :: c in Others(cs, w) <==> c in cs && c.work != w
  {
    if cs == [] {
    } else {
      OthersOnly(cs[1..], w);
      assert cs == [cs[0]] + cs[1..];
    }
  }

  lemma {:induction false} FinishCancels(s: State, q: QueueId)
    requires Inv(s) && CanFinish(s, q)
    ensures CancelsOk(Finish(s, q))
  {
    hide PlaceOk, FlusherOk, ControlOk, PendingOk, FatesOk;
    var w, s' := s.queues[q].worker.work, Finish(s, q);
    assert WorkOk(s, w);
    OthersOnly(s.cancels, w);
    forall i | 0 <= i < |s'.cancels|
      ensures s'.cancels[i].work in s'.works && s'.works[s'.cancels[i].work].canceling
    {
      assert s'.cancels[i] in s.cancels;
    }
  }

  lemma {:induction false} FinishKeeps(s: State, q: QueueId)
    requires Inv(s) && CanFinish(s, q)
    ensures Inv(Finish(s, q))
  {
    hide WorkOk, QueueOk, EditOk, Edit, KeepsOrder, FollowersOk, CancelsOk;
    FinishEdits(s, q);
    FinishLocal(s, q);
    FinishFollowers(s, q);
    FinishCancels(s, q);
    EditKeeps(s, Finish(s, q), s.queues[q].worker.work, q);
  }

  // ---- flags of one item, control of one queue --------------------------------------------------

  /** Only the delay and cancellation flags of an item differ. */
  ghost predicate SamePlace(x: Work, y: Work) {
    y == x.(canceling := y.canceling, delayed := y.delayed, armed := y.armed, timerQueue := y.timerQueue)
  }

  lemma {:induction false} FlagsWork(s: State, w: WorkId, x: Work, v: WorkId)
    requires Inv(s) && w in s.works && FlagsOk(x) && SamePlace(s.works[w], x) && v in s.works
    requires x.timerQueue.Some? ==> x.timerQueue.value in s.queues
    ensures WorkOk(SetWork(s, w, x), v)
  {
    hide QueueOk, Ahead, CancelsOk;
    assert WorkOk(s, v) && WorkOk(s, w);
    var s' := SetWork(s, w, x);
    assert PlaceOk(s', v);
    assert FlusherOk(s', v);
  }

  lemma {:induction false} FlagsQueue(s: State, w: WorkId, x: Work, p: QueueId)
    requires Inv(s) && w in s.works && SamePlace(s.works[w], x) && p in s.queues
    ensures QueueOk(SetWork(s, w, x), p)
  {
    hide WorkOk, ControlOk, CancelsOk;
    assert QueueOk(s, p);
  }

  /** Changing only the delay and cancellation flags of an item. */
  lemma {:induction false} FlagsKeep(s: State, w: WorkId, x: Work)
    requires Inv(s) && w in s.works && FlagsOk(x) && SamePlace(s.works[w], x)
    requires s.works[w].canceling ==> x.canceling
    requires x.timerQueue.Some? ==> x.timerQueue.value in s.queues
    ensures Inv(SetWork(s, w, x))
  {
    hide WorkOk, QueueOk, FlagsOk;
    var s' := SetWork(s, w, x);
    forall v | v in s'.works
      ensures WorkOk(s', v)
    {
      FlagsWork(s, w, x, v);
    }
    forall p | p in s'.queues
      ensures QueueOk(s', p)
    {
      FlagsQueue(s, w, x, p);
    }
  }

  /** Changing only the control state of a queue whose thread is not inside a
      handler, or leaving its thread alone. */
  lemma {:induction false} ControlKeeps(s: State, q: QueueId, k: Queue)
    requires Inv(s) && q in s.queues && ControlOk(k) && k.pending == s.queues[q].pending
    requires k.worker == s.queues[q].worker || (!k.worker.Handling? && !s.queues[q].worker.Handling?)
    ensures Inv(SetQueue(s, q, k))
  {
    var s' := SetQueue(s, q, k);
    forall v | v in s'.works
      ensures WorkOk(s', v)
    {
      hide FlagsOk, FatesOk, QueueOk, Ahead;
      assert WorkOk(s, v);
    }
    forall p | p in s'.queues
      ensures QueueOk(s', p)
    {
      hide WorkOk, ControlOk;
      assert QueueOk(s, p);
    }
  }
}
