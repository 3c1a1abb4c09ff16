/**
 Mailboxes (zephyr/kernel/mailbox.c): senders and receivers that name each other,
 or anybody, meet; the sender goes on when the receiver has disposed of the
 message.
 */
module MailboxSpec {
  import opened WaitQueue

  const EAGAIN := 11
  const ENOMSG := 35

  type Byte = bv8
  type ThreadId = nat
  type MsgId = nat

  datatype Who = Any | Only(thread: ThreadId)

  /** The descriptor of one send: `source` sends to `target`. */
  datatype Tx = Tx(id: MsgId, prio: int, source: ThreadId, target: Who, size: nat, info: nat, data: seq<Byte>, sync: bool)

  /** The descriptor of one receive. */
  datatype Rx = Rx(id: MsgId, prio: int, receiver: ThreadId, source: Who, size: nat, info: nat)

  /** A message in the hands of its receiver. */
  datatype Match = Match(tx: Tx, rx: Rx)

  /** How a matched message ended: its sender was resumed, or its semaphore given,
      and told how much was received. */
  datatype Finished = Finished(tx: MsgId, sync: bool, size: nat)

  datatype State = State(
    nextTx: nat, nextRx: nat,            // sends and receives so far
    txq: seq<Tx>, rxq: seq<Rx>,          // who waits
    open: seq<Match>,                    // matched, not disposed of
    matches: seq<Match>,                 // every match ever made
    finished: seq<Finished>,
    failedTx: seq<MsgId>, failedRx: seq<MsgId>)

  /** mbox_message_match(): the condition. */
  predicate Compatible(tx: Tx, rx: Rx) {
    (tx.target == Any || tx.target == Only(rx.receiver)) && (rx.source == Any || rx.source == Only(tx.source))
  }

  /** The sender names another receiver, or the receiver another sender. */
  predicate Refuses(tx: Tx, rx: Rx) {
    || (tx.target.Only? && tx.target.thread != rx.receiver)
    || (rx.source.Only? && rx.source.thread != tx.source)
  }

  function Min(a: nat, b: nat): nat {
    if a < b then a else b
  }

  /** mbox_message_match(): the update of both descriptors. */
  function MatchOf(tx: Tx, rx: Rx): Match {
    Match(tx.(target := Only(rx.receiver), info := rx.info),
          rx.(source := Only(tx.source), info := tx.info, size := Min(rx.size, tx.size)))
  }

  // ---- queues -------------------------------------------------------------------------

  function TxPrio(t: Tx): int {
    t.prio
  }

  function RxPrio(r: Rx): int {
    r.prio
  }

  /** The first receiver that fits `tx`, or the length of the queue. */
  function FindRx(q: seq<Rx>, tx: Tx): (k: nat)
    ensures k <= |q|
    ensures forall i :: 0 <= i < k ==> Refuses(tx, q[i])
    ensures k < |q| ==> !Refuses(tx, q[k])
  {
    if q == [] || Compatible(tx, q[0]) then 0 else 1 + FindRx(q[1..], tx)
  }

  function FindTx(q: seq<Tx>, rx: Rx): (k: nat)
    ensures k <= |q|
    ensures forall i :: 0 <= i < k ==> Refuses(q[i], rx)
    ensures k < |q| ==> !Refuses(q[k], rx)
  {
    if q == [] || Compatible(q[0], rx) then 0 else 1 + FindTx(q[1..], rx)
  }

  function RemoveAt<T>(q: seq<T>, k: nat): seq<T>
    requires k < |q|
  {
    q[..k] + q[k + 1..]
  }

  // ---- operations ----------------------------------------------------------------------

  datatype Outcome = Returned(code: int) | Blocked

  function AddMatch(s: State, m: Match): State {
    s.(open := s.open + [m], matches := s.matches + [m])
  }

  /** mbox_message_put() of a descriptor with number nextTx. A matched sender pends
      until disposal; so does an asynchronous descriptor. */
  function Put(s: State, tx: Tx, wait: bool): (State, Outcome) {
    var s0 := s.(nextTx := s.nextTx + 1);
    var k := FindRx(s.rxq, tx);
    if k < |s.rxq| then
      (AddMatch(s0.(rxq := RemoveAt(s.rxq, k)), MatchOf(tx, s.rxq[k])), if tx.sync then Blocked else Returned(0))
    else if !wait then (s0.(failedTx := s.failedTx + [tx.id]), Returned(-ENOMSG))
    else (s0.(txq := Insert(s.txq, tx, TxPrio)), if tx.sync then Blocked else Returned(0))
  }

  /** k_mbox_get() up to the match; the data is consumed by Consume. */
  function Get(s: State, rx: Rx, wait: bool): (State, Outcome) {
    var s0 := s.(nextRx := s.nextRx + 1);
    var k := FindTx(s.txq, rx);
    if k < |s.txq| then
      (AddMatch(s0.(txq := RemoveAt(s.txq, k)), MatchOf(s.txq[k], rx)), Returned(0))
    else if !wait then (s0.(failedRx := s.failedRx + [rx.id]), Returned(-ENOMSG))
    else (s0.(rxq := Insert(s.rxq, rx, RxPrio)), Blocked)
  }

  /** Timeouts of waiting senders and receivers. */
  function ExpireTx(s: State, i: nat): State
    requires i < |s.txq|
  {
    s.(txq := RemoveAt(s.txq, i), failedTx := s.failedTx + [s.txq[i].id])
  }

  function ExpireRx(s: State, i: nat): State
    requires i < |s.rxq|
  {
    s.(rxq := RemoveAt(s.rxq, i), failedRx := s.failedRx + [s.rxq[i].id])
  }

  /** The open message that receive `id` holds, or the number of open messages. */
  function FindOpen(ms: seq<Match>, id: MsgId): (k: nat)
    ensures k <= |ms|
    ensures forall i :: 0 <= i < k ==> ms[i].rx.id != id
    ensures k < |ms| ==> ms[k].rx.id == id
  {
    if ms == [] || ms[0].rx.id == id then 0 else 1 + FindOpen(ms[1..], id)
  }

  /** mbox_message_dispose() of the message that receive `id` holds, of which `size`
      bytes count as received. A message disposed of earlier is left alone. */
  function Dispose(s: State, id: MsgId, size: nat): State {
    var k := FindOpen(s.open, id);
    if k == |s.open| then s else
      var m := s.open[k];
      s.(open := RemoveAt(s.open, k), finished := s.finished + [Finished(m.tx.id, m.tx.sync, size)])
  }

  /** What the receiver does with a message: retrieve it into a buffer, discard it,
      or check whether there is anything to keep. */
  datatype Way = IntoBuffer | Discard | Keep

  /** k_mbox_data_get() and mbox_message_data_check(): the new state and the bytes
      stored in the buffer. */
  function Consume(s: State, id: MsgId, way: Way): (State, seq<Byte>) {
    var k := FindOpen(s.open, id);
    if k == |s.open| then (s, []) else
      var m := s.open[k];
      match way
      case IntoBuffer => (Dispose(s, id, m.rx.size), m.tx.data[..Min(m.rx.size, |m.tx.data|)])
      case Discard => (Dispose(s, id, 0), [])
      case Keep => (if m.rx.size == 0 then Dispose(s, id, 0) else s, [])
  }

  // ---- counting ---------------------------------------------------------------------------

  function Count<T>(q: seq<T>, f: T -> MsgId, id: MsgId): nat {
    if q == [] then 0 else (if f(q[0]) == id then 1 else 0) + Count(q[1..], f, id)
  }

  lemma {:induction false} CountAppend<T>(a: seq<T>, b: seq<T>, f: T -> MsgId, id: MsgId)
    ensures Count(a + b, f, id) == Count(a, f, id) + Count(b, f, id)
  {
    if a == [] {
      assert a + b == b;
    } else {
      assert (a + b)[1..] == a[1..] + b;
      CountAppend(a[1..], b, f, id);
    }
  }

  lemma {:induction false} CountOne<T>(x: T, f: T -> MsgId, id: MsgId)
    ensures Count([x], f, id) == if f(x) == id then 1 else 0
  {
    assert [x][1..] == [];
  }

  lemma {:induction false} CountMore<T>(q: seq<T>, x: T, f: T -> MsgId, id: MsgId)
    ensures Count(q + [x], f, id) == Count(q, f, id) + if f(x) == id then 1 else 0
  {
    CountAppend(q, [x], f, id);
    CountOne(x, f, id);
  }

  lemma {:induction false} CountRemove<T>(q: seq<T>, k: nat, f: T -> MsgId, id: MsgId)
    requires k < |q|
    ensures Count(q, f, id) == Count(RemoveAt(q, k), f, id) + if f(q[k]) == id then 1 else 0
  {
    CountAppend(q[..k], q[k + 1..], f, id);
    assert q == q[..k] + ([q[k]] + q[k + 1..]);
    CountAppend(q[..k], [q[k]] + q[k + 1..], f, id);
    CountAppend([q[k]], q[k + 1..], f, id);
    CountOne(q[k], f, id);
  }

  lemma {:induction false} CountInsert<T>(q: seq<T>, x: T, prio: T -> int, f: T -> MsgId, id: MsgId)
    ensures Count(Insert(q, x, prio), f, id) == Count(q, f, id) + if f(x) == id then 1 else 0
  {
    if q == [] || prio(x) < prio(q[0]) {
      CountAppend([x], q, f, id);
      CountOne(x, f, id);
    } else {
      CountInsert(q[1..], x, prio, f, id);
      assert ([q[0]] + Insert(q[1..], x, prio))[1..] == Insert(q[1..], x, prio);
    }
  }
}
