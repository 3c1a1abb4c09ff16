/**
 Message queues (zephyr/kernel/msg_q.c) as a bounded first-in first-out queue
 with one wait queue for both kinds of callers.
 */
module MsgqSpec {
  import opened WaitQueue

  const EAGAIN := 11
  const ENOMSG := 35

  type Byte = bv8
  type Msg = seq<Byte>
  type CallId = nat

  /** A blocked call; `data` is the buffer its swap_data points at. */
  datatype Waiter = Waiter(call: CallId, prio: int, getter: bool, data: Msg)

  /** What a call was made for; calls are numbered as they are made. */
  datatype Call = Putting(msg: Msg) | Getting

  /** A message the queue has taken, and the call that gave it. */
  datatype Entry = Entry(call: CallId, msg: Msg)

  /** How a message left the queue. */
  datatype Exit = Taken(call: CallId, msg: Msg) | Dropped(msg: Msg)

  /** A call that has returned: with a code, and with what is in its buffer. */
  datatype Return = Return(call: CallId, code: int, data: Msg)

  datatype State = State(
    max: nat,
    ring: seq<Msg>,
    waiters: seq<Waiter>,
    calls: seq<Call>,          // every call made
    accepted: seq<Entry>,      // every message the queue has taken, in order
    left: seq<Exit>,           // every message that has left it, in order
    returned: seq<Return>)     // every call that has returned, in order

  datatype Outcome = Returned(code: int, data: Msg) | Blocked

  function WaiterPrio(w: Waiter): int {
    w.prio
  }

  /** z_impl_k_msgq_put() */
  function Put(s: State, prio: int, msg: Msg, wait: bool): (State, Outcome) {
    var c, s0 := |s.calls|, s.(calls := s.calls + [Putting(msg)]);
    if |s.ring| < s.max then
      var s1 := s0.(accepted := s.accepted + [Entry(c, msg)]);
      (Finish(if s.waiters == [] then s1.(ring := s.ring + [msg]) else Hand(s1, msg), Return(c, 0, msg)), Returned(0, msg))
    else if !wait then (Finish(s0, Return(c, -ENOMSG, msg)), Returned(-ENOMSG, msg))
    else (s0.(waiters := Insert(s.waiters, Waiter(c, prio, false, msg), WaiterPrio)), Blocked)
  }

  /** z_impl_k_msgq_get() into buffer `data` */
  function Get(s: State, prio: int, data: Msg, wait: bool): (State, Outcome) {
    var c, s0 := |s.calls|, s.(calls := s.calls + [Getting]);
    if s.ring != [] then
      var s1 := s0.(ring := s.ring[1..], left := s.left + [Taken(c, s.ring[0])]);
      (Finish(if s.waiters == [] then s1 else Admit(s1), Return(c, 0, s.ring[0])), Returned(0, s.ring[0]))
    else if !wait then (Finish(s0, Return(c, -ENOMSG, data)), Returned(-ENOMSG, data))
    else (s0.(waiters := Insert(s.waiters, Waiter(c, prio, true, data), WaiterPrio)), Blocked)
  }

  function Finish(s: State, r: Return): State {
    s.(returned := s.returned + [r])
  }

  /** The first waiter is given the message. */
  function Hand(s: State, msg: Msg): State
    requires s.waiters != []
  {
    var w := s.waiters[0];
    Finish(s.(waiters := s.waiters[1..], left := s.left + [Taken(w.call, msg)]), Return(w.call, 0, msg))
  }

  /** The first waiter's message goes into the queue. */
  function Admit(s: State): State
    requires s.waiters != []
  {
    var w := s.waiters[0];
    Finish(s.(waiters := s.waiters[1..], ring := s.ring + [w.data], accepted := s.accepted + [Entry(w.call, w.data)]),
           Return(w.call, 0, w.data))
  }

  /** z_impl_k_msgq_peek() */
  function Peek(s: State, data: Msg): Outcome {
    if s.ring != [] then Returned(0, s.ring[0]) else Returned(-ENOMSG, data)
  }

  function Drops(ms: seq<Msg>): seq<Exit> {
    if ms == [] then [] else [Dropped(ms[0])] + Drops(ms[1..])
  }

  function Refusals(ws: seq<Waiter>): seq<Return> {
    if ws == [] then [] else [Return(ws[0].call, -ENOMSG, ws[0].data)] + Refusals(ws[1..])
  }

  /** z_impl_k_msgq_purge(): everything in the queue is dropped, and every waiter of
      either kind is woken. */
  function Purge(s: State): State {
    s.(ring := [], waiters := [], left := s.left + Drops(s.ring), returned := s.returned + Refusals(s.waiters))
  }

  /** The timeout of a waiter runs out. */
  function Expire(s: State, i: nat): State
    requires i < |s.waiters|
  {
    var w := s.waiters[i];
    Finish(s.(waiters := s.waiters[..i] + s.waiters[i + 1..]), Return(w.call, -EAGAIN, w.data))
  }

  // ---- the invariant ---------------------------------------------------------------------

  function Messages(es: seq<Exit>): seq<Msg> {
    if es == [] then [] else [es[0].msg] + Messages(es[1..])
  }

  function Contents(es: seq<Entry>): seq<Msg> {
    if es == [] then [] else [es[0].msg] + Contents(es[1..])
  }

  /** First in, first out. */
  predicate Fifo(s: State) {
    Contents(s.accepted) == Messages(s.left) + s.ring
  }

  /** All waiters are getters and the queue is empty, or all are putters and it is
      full. */
  predicate OneKind(s: State) {
    || (s.ring == [] && forall i :: 0 <= i < |s.waiters| ==> s.waiters[i].getter)
    || (|s.ring| == s.max && forall i :: 0 <= i < |s.waiters| ==> !s.waiters[i].getter)
    || s.waiters == []
  }

  predicate Inv(s: State) {
    Fifo(s) && |s.ring| <= s.max && Ordered(s.waiters, WaiterPrio) && (s.max > 0 ==> OneKind(s))
  }

  lemma {:induction false} MessagesAppend(a: seq<Exit>, b: seq<Exit>)
    ensures Messages(a + b) == Messages(a) + Messages(b)
  {
    if a == [] {
      assert a + b == b;
    } else {
      assert (a + b)[1..] == a[1..] + b;
      MessagesAppend(a[1..], b);
    }
  }

  lemma {:induction false} ContentsAppend(es: seq<Entry>, e: Entry)
    ensures Contents(es + [e]) == Contents(es) + [e.msg]
  {
    if es == [] {
      assert [e][1..] == [];
    } else {
      assert (es + [e])[1..] == es[1..] + [e];
      ContentsAppend(es[1..], e);
    }
  }

  lemma {:induction false} MessagesOne(e: Exit)
    ensures Messages([e]) == [e.msg]
  {
    assert [e][1..] == [];
  }

  lemma {:induction false} MessagesDrops(ms: seq<Msg>)
    ensures Messages(Drops(ms)) == ms
  {
    if ms == [] {
    } else {
      assert Drops(ms)[1..] == Drops(ms[1..]);
      MessagesDrops(ms[1..]);
    }
  }

  lemma {:induction false} PendKeeps(s: State, w: Waiter)
    requires Inv(s)
    requires if w.getter then s.ring == [] else |s.ring| == s.max
    ensures Inv(s.(waiters := Insert(s.waiters, w, WaiterPrio)))
  {
    var k := InsertedAt(s.waiters, w, WaiterPrio);
    hide Insert, Fifo, Ordered;
    FifoSame(s, s.(waiters := Insert(s.waiters, w, WaiterPrio)));
  }

  /** New log entries that Fifo does not look at. */
  lemma {:induction false} LogsKeep(s: State, s1: State)
    requires Inv(s) && s1 == s.(calls := s1.calls, returned := s1.returned)
    ensures Inv(s1)
  {
  }

  lemma {:induction false} PutKeeps(s: State, prio: int, msg: Msg, wait: bool)
    requires Inv(s)
    ensures Inv(Put(s, prio, msg, wait).0)
  {
    hide Insert;
    if |s.ring| < s.max {
      ContentsAppend(s.accepted, Entry(|s.calls|, msg));
      if s.waiters != [] {
        var e := Taken(s.waiters[0].call, msg);
        MessagesAppend(s.left, [e]);
        MessagesOne(e);
      } else {
        assert Messages(s.left) + s.ring + [msg] == Messages(s.left) + (s.ring + [msg]);
      }
      hide Messages, Contents;
    } else {
      var s0 := s.(calls := s.calls + [Putting(msg)]);
      LogsKeep(s, s0);
      if wait {
        PendKeeps(s0, Waiter(|s.calls|, prio, false, msg));
      } else {
        hide Inv;
        LogsKeep(s0, Put(s, prio, msg, wait).0);
      }
    }
  }

  lemma {:induction false} GetFifo(s: State, prio: int, data: Msg, wait: bool)
    requires Fifo(s) && s.ring != []
    ensures Fifo(Get(s, prio, data, wait).0)
  {
    var e := Taken(|s.calls|, s.ring[0]);
    MessagesAppend(s.left, [e]);
    MessagesOne(e);
    hide Messages;
    assert s.ring == [s.ring[0]] + s.ring[1..];
    if s.waiters != [] {
      var w := s.waiters[0];
      ContentsAppend(s.accepted, Entry(w.call, w.data));
      hide Contents;
      assert Contents(s.accepted) + [w.data] == Messages(s.left + [e]) + (s.ring[1..] + [w.data]);
    } else {
      assert Contents(s.accepted) == Messages(s.left + [e]) + s.ring[1..];
    }
  }

  lemma {:induction false} GetKeeps(s: State, prio: int, data: Msg, wait: bool)
    requires Inv(s)
    ensures Inv(Get(s, prio, data, wait).0)
  {
    hide Insert;
    if s.ring != [] {
      GetFifo(s, prio, data, wait);
      hide Fifo;
    } else {
      var s0 := s.(calls := s.calls + [Getting]);
      LogsKeep(s, s0);
      if wait {
        PendKeeps(s0, Waiter(|s.calls|, prio, true, data));
      } else {
        hide Inv;
        LogsKeep(s0, Get(s, prio, data, wait).0);
      }
    }
  }

  lemma {:induction false} PurgeKeeps(s: State)
    requires Inv(s)
    ensures Inv(Purge(s))
  {
    MessagesAppend(s.left, Drops(s.ring));
    MessagesDrops(s.ring);
    hide Messages, Drops;
    assert Messages(s.left) + s.ring + [] == Messages(s.left) + s.ring;
  }

  lemma {:induction false} ExpireKeeps(s: State, i: nat)
    requires Inv(s) && i < |s.waiters|
    ensures Inv(Expire(s, i))
  {
    var l := Expire(s, i).waiters;
    hide Fifo;
    assert forall j :: 0 <= j < |l| ==> l[j] == s.waiters[if j < i then j else j + 1];
    assert Fifo(Expire(s, i)) by {
      FifoSame(s, Expire(s, i));
    }
  }

  lemma {:induction false} FifoSame(s: State, r: State)
    requires Fifo(s) && r.accepted == s.accepted && r.left == s.left && r.ring == s.ring
    ensures Fifo(r)
  {
  }

  // ---- runs -------------------------------------------------------------------------------

  datatype Op =
    | DoPut(prio: int, msg: Msg, wait: bool)
    | DoGet(prio: int, buffer: Msg, wait: bool)
    | DoPurge
    | DoExpire(waiter: nat)

  function Step(s: State, op: Op): State {
    match op
    case DoPut(prio, msg, wait) => Put(s, prio, msg, wait).0
    case DoGet(prio, data, wait) => Get(s, prio, data, wait).0
    case DoPurge => Purge(s)
    case DoExpire(i) => if i < |s.waiters| then Expire(s, i) else s
  }

  function Run(s: State, ops: seq<Op>): State
    decreases |ops|
  {
    if ops == [] then s else Run(Step(s, ops[0]), ops[1..])
  }

  function Initial(max: nat): State {
    State(max, [], [], [], [], [], [])
  }

  lemma {:induction false} StepKeeps(s: State, op: Op)
    requires Inv(s)
    ensures Inv(Step(s, op)) && Step(s, op).max == s.max
  {
    match op
    case DoPut(prio, msg, wait) => PutKeeps(s, prio, msg, wait);
    case DoGet(prio, data, wait) => GetKeeps(s, prio, data, wait);
    case DoPurge => PurgeKeeps(s);
    case DoExpire(i) => if i < |s.waiters| { ExpireKeeps(s, i); }
  }

  lemma {:induction false} RunKeeps(s: State, ops: seq<Op>)
    requires Inv(s)
    ensures Inv(Run(s, ops)) && Run(s, ops).max == s.max
    decreases |ops|
  {
    hide Inv, Step;
    if ops != [] {
      StepKeeps(s, ops[0]);
      RunKeeps(Step(s, ops[0]), ops[1..]);
    }
  }

  // ---- the laws -----------------------------------------------------------------------------

  /** The queue is first-in first-out and bounded, over every run: the messages
      that have left it, in order, followed by those it holds, are the accepted
      ones. */
  lemma {:induction false} FifoLaw(max: nat, ops: seq<Op>)
    ensures var s := Run(Initial(max), ops);
            Contents(s.accepted) == Messages(s.left) + s.ring && |s.ring| <= max
  {
    RunKeeps(Initial(max), ops);
    hide Run;
  }

  /** Over every run the waiters are of one kind, and there is nothing for them
      to do, exactly when the queue has room for a message at all. */
  lemma {:induction false} WaitersLaw(max: nat)
    ensures (forall ops :: OneKind(Run(Initial(max), ops))) <==> max > 0
  {
    if max > 0 {
      forall ops ensures OneKind(Run(Initial(max), ops)) {
        RunKeeps(Initial(max), ops);
      }
    } else {
      var ops := [DoPut(0, [], true), DoGet(0, [], true)];
      MixedWaiters(ops);
    }
  }

  /** A queue without room: a putter and a getter wait side by side. */
  lemma {:induction false} MixedWaiters(ops: seq<Op>)
    requires ops == [DoPut(0, [], true), DoGet(0, [], true)]
    ensures !OneKind(Run(Initial(0), ops))
  {
    var s1 := Step(Initial(0), ops[0]);
    assert s1.waiters == [Waiter(0, 0, false, [])];
    var s2 := Step(s1, ops[1]);
    assert s2.waiters == [Waiter(0, 0, false, []), Waiter(1, 0, true, [])];
    assert !s2.waiters[0].getter && s2.waiters[1].getter;
    assert !OneKind(s2);
    hide Step, OneKind;
    assert ops[1..] == [ops[1]] && ops[1..][1..] == [];
    assert Run(s2, []) == s2;
    assert Run(s1, ops[1..]) == Run(s2, ops[1..][1..]);
    assert Run(Initial(0), ops) == Run(s1, ops[1..]);
  }

  lemma {:induction false} MessageCounts(es: seq<Entry>, xs: seq<Exit>)
    ensures |Contents(es)| == |es| && |Messages(xs)| == |xs|
    ensures forall i :: 0 <= i < |es| ==> Contents(es)[i] == es[i].msg
    decreases |es| + |xs|
  {
    if es != [] {
      MessageCounts(es[1..], xs);
    } else if xs != [] {
      MessageCounts(es, xs[1..]);
    }
  }

  /** After every run a peek shows the first accepted message that has not left. */
  lemma {:induction false} PeekLaw(max: nat, ops: seq<Op>, data: Msg)
    ensures var s := Run(Initial(max), ops);
            && |s.left| <= |s.accepted|
            && Peek(s, data) == if |s.left| < |s.accepted| then Returned(0, s.accepted[|s.left|].msg)
                                else Returned(-ENOMSG, data)
  {
    var s := Run(Initial(max), ops);
    FifoLaw(max, ops);
    MessageCounts(s.accepted, s.left);
    hide Run, Contents, Messages;
    assert s.ring != [] ==> (Messages(s.left) + s.ring)[|s.left|] == s.ring[0];
  }

  /** A purge leaves an empty queue with nobody waiting, every waiter being told. */
  lemma {:induction false} PurgeTellsAll(s: State, i: nat)
    requires i < |s.waiters|
    ensures Purge(s).ring == [] && Purge(s).waiters == []
    ensures Return(s.waiters[i].call, -ENOMSG, s.waiters[i].data) in Purge(s).returned
  {
    RefusalIn(s.waiters, i);
  }

  lemma {:induction false} RefusalIn(ws: seq<Waiter>, i: nat)
    requires i < |ws|
    ensures Return(ws[i].call, -ENOMSG, ws[i].data) in Refusals(ws)
  {
    if i == 0 {
    } else {
      RefusalIn(ws[1..], i - 1);
    }
  }
}
