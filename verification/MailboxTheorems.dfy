/**
 What holds of a mailbox over every run of sends, receives, timeouts and
 disposals.
 */
module MailboxTheorems {
  import opened MailboxSpec
  import opened WaitQueue

  function TxId(t: Tx): MsgId { t.id }
  function RxId(r: Rx): MsgId { r.id }
  function MatchTx(m: Match): MsgId { m.tx.id }
  function MatchRx(m: Match): MsgId { m.rx.id }
  function FinishedTx(f: Finished): MsgId { f.tx }
  function Itself(id: MsgId): MsgId { id }

  // ---- the invariant --------------------------------------------------------------------

  /** Every send made so far waits, has been matched, or has failed: once. */
  ghost predicate TxOnce(s: State) {
    forall id: MsgId :: Count(s.txq, TxId, id) + Count(s.matches, MatchTx, id) + Count(s.failedTx, Itself, id)
                        == (if id < s.nextTx then 1 else 0)
  }

  ghost predicate RxOnce(s: State) {
    forall id: MsgId :: Count(s.rxq, RxId, id) + Count(s.matches, MatchRx, id) + Count(s.failedRx, Itself, id)
                        == (if id < s.nextRx then 1 else 0)
  }

  /** Every matched message is held by its receiver or has been disposed of. */
  ghost predicate Ends(s: State) {
    && (forall id: MsgId :: Count(s.open, MatchTx, id) + Count(s.finished, FinishedTx, id) == Count(s.matches, MatchTx, id))
    && (forall id: MsgId :: Count(s.open, MatchRx, id) <= Count(s.matches, MatchRx, id))
  }

  /** No waiting sender could be served by a waiting receiver. */
  predicate NoneMissed(s: State) {
    forall i, j :: 0 <= i < |s.txq| && 0 <= j < |s.rxq| ==> Refuses(s.txq[i], s.rxq[j])
  }

  predicate SizesOk(s: State) {
    && (forall i :: 0 <= i < |s.txq| ==> |s.txq[i].data| == s.txq[i].size)
    && (forall i :: 0 <= i < |s.open| ==> s.open[i].rx.size <= s.open[i].tx.size == |s.open[i].tx.data|)
  }

  predicate InOrder(s: State) {
    Ordered(s.txq, TxPrio) && Ordered(s.rxq, RxPrio)
  }

  ghost predicate Inv(s: State) {
    TxOnce(s) && RxOnce(s) && Ends(s) && NoneMissed(s) && SizesOk(s) && InOrder(s)
  }

  // ---- put ----------------------------------------------------------------------------------

  lemma {:induction false} PutCounts(s: State, tx: Tx, wait: bool)
    requires TxOnce(s) && RxOnce(s) && Ends(s) && tx.id == s.nextTx
    ensures var s1 := Put(s, tx, wait).0; TxOnce(s1) && RxOnce(s1) && Ends(s1)
  {
    var s1 := Put(s, tx, wait).0;
    var k := FindRx(s.rxq, tx);
    hide FindRx, Count, Insert, RemoveAt;
    forall id: MsgId
      ensures Count(s1.txq, TxId, id) + Count(s1.matches, MatchTx, id) + Count(s1.failedTx, Itself, id)
              == (if id < s1.nextTx then 1 else 0)
      ensures Count(s1.rxq, RxId, id) + Count(s1.matches, MatchRx, id) + Count(s1.failedRx, Itself, id)
              == (if id < s1.nextRx then 1 else 0)
      ensures Count(s1.open, MatchTx, id) + Count(s1.finished, FinishedTx, id) == Count(s1.matches, MatchTx, id)
      ensures Count(s1.open, MatchRx, id) <= Count(s1.matches, MatchRx, id)
    {
      if k < |s.rxq| {
        var m := MatchOf(tx, s.rxq[k]);
        CountRemove(s.rxq, k, RxId, id);
        CountMore(s.matches, m, MatchTx, id);
        CountMore(s.matches, m, MatchRx, id);
        CountMore(s.open, m, MatchTx, id);
        CountMore(s.open, m, MatchRx, id);
      } else if !wait {
        CountMore(s.failedTx, tx.id, Itself, id);
      } else {
        CountInsert(s.txq, tx, TxPrio, TxId, id);
      }
    }
  }

  predicate QueuesOk(s: State) {
    NoneMissed(s) && SizesOk(s) && InOrder(s)
  }

  /** Taking waiters away, and adding a fitting match, keeps the queues in order. */
  lemma {:induction false} RxGone(s: State, k: nat, s1: State)
    requires QueuesOk(s) && k < |s.rxq|
    requires s1.txq == s.txq && s1.rxq == RemoveAt(s.rxq, k)
    requires s1.open == s.open
             || exists m :: s1.open == s.open + [m] && m.rx.size <= m.tx.size == |m.tx.data|
    ensures QueuesOk(s1)
  {
    assert forall i :: 0 <= i < |s1.rxq| ==> s1.rxq[i] == s.rxq[if i < k then i else i + 1];
    hide RemoveAt, Refuses;
    assert NoneMissed(s1) && InOrder(s1);
    hide NoneMissed, InOrder;
  }

  lemma {:induction false} TxGone(s: State, k: nat, s1: State)
    requires QueuesOk(s) && k < |s.txq|
    requires s1.rxq == s.rxq && s1.txq == RemoveAt(s.txq, k)
    requires s1.open == s.open
             || exists m :: s1.open == s.open + [m] && m.rx.size <= m.tx.size == |m.tx.data|
    ensures QueuesOk(s1)
  {
    assert forall i :: 0 <= i < |s1.txq| ==> s1.txq[i] == s.txq[if i < k then i else i + 1];
    hide RemoveAt, Refuses;
    assert NoneMissed(s1) && InOrder(s1);
    hide NoneMissed, InOrder;
  }

  lemma {:induction false} TxAdded(s: State, tx: Tx, s1: State)
    requires QueuesOk(s) && |tx.data| == tx.size && forall j :: 0 <= j < |s.rxq| ==> Refuses(tx, s.rxq[j])
    requires s1.txq == Insert(s.txq, tx, TxPrio) && s1.rxq == s.rxq && s1.open == s.open
    ensures QueuesOk(s1)
  {
    var p := InsertedAt(s.txq, tx, TxPrio);
    hide Insert, Refuses;
    assert NoneMissed(s1);
    hide NoneMissed;
    assert SizesOk(s1);
    hide SizesOk;
    assert InOrder(s1);
  }

  lemma {:induction false} RxAdded(s: State, rx: Rx, s1: State)
    requires QueuesOk(s) && forall i :: 0 <= i < |s.txq| ==> Refuses(s.txq[i], rx)
    requires s1.rxq == Insert(s.rxq, rx, RxPrio) && s1.txq == s.txq && s1.open == s.open
    ensures QueuesOk(s1)
  {
    var p := InsertedAt(s.rxq, rx, RxPrio);
    hide Insert, Refuses;
    assert NoneMissed(s1);
    hide NoneMissed;
    assert SizesOk(s1);
    hide SizesOk;
    assert InOrder(s1);
  }

  lemma {:induction false} PutQueues(s: State, tx: Tx, wait: bool)
    requires QueuesOk(s) && |tx.data| == tx.size
    ensures QueuesOk(Put(s, tx, wait).0)
  {
    var s1 := Put(s, tx, wait).0;
    var k := FindRx(s.rxq, tx);
    if k < |s.rxq| {
      var m := MatchOf(tx, s.rxq[k]);
      assert s1.open == s.open + [m] && m.rx.size <= m.tx.size == |m.tx.data|;
      hide QueuesOk, RemoveAt;
      RxGone(s, k, s1);
    } else if wait {
      hide QueuesOk, Insert;
      TxAdded(s, tx, s1);
    }
  }

  // ---- get ----------------------------------------------------------------------------------

  lemma {:induction false} GetCounts(s: State, rx: Rx, wait: bool)
    requires TxOnce(s) && RxOnce(s) && Ends(s) && rx.id == s.nextRx
    ensures var s1 := Get(s, rx, wait).0; TxOnce(s1) && RxOnce(s1) && Ends(s1)
  {
    var s1 := Get(s, rx, wait).0;
    var k := FindTx(s.txq, rx);
    hide FindTx, Count, Insert, RemoveAt;
    forall id: MsgId
      ensures Count(s1.txq, TxId, id) + Count(s1.matches, MatchTx, id) + Count(s1.failedTx, Itself, id)
              == (if id < s1.nextTx then 1 else 0)
      ensures Count(s1.rxq, RxId, id) + Count(s1.matches, MatchRx, id) + Count(s1.failedRx, Itself, id)
              == (if id < s1.nextRx then 1 else 0)
      ensures Count(s1.open, MatchTx, id) + Count(s1.finished, FinishedTx, id) == Count(s1.matches, MatchTx, id)
      ensures Count(s1.open, MatchRx, id) <= Count(s1.matches, MatchRx, id)
    {
      if k < |s.txq| {
        var m := MatchOf(s.txq[k], rx);
        CountRemove(s.txq, k, TxId, id);
        CountMore(s.matches, m, MatchTx, id);
        CountMore(s.matches, m, MatchRx, id);
        CountMore(s.open, m, MatchTx, id);
        CountMore(s.open, m, MatchRx, id);
      } else if !wait {
        CountMore(s.failedRx, rx.id, Itself, id);
      } else {
        CountInsert(s.rxq, rx, RxPrio, RxId, id);
      }
    }
  }

  lemma {:induction false} GetQueues(s: State, rx: Rx, wait: bool)
    requires QueuesOk(s)
    ensures QueuesOk(Get(s, rx, wait).0)
  {
    var s1 := Get(s, rx, wait).0;
    var k := FindTx(s.txq, rx);
    if k < |s.txq| {
      var m := MatchOf(s.txq[k], rx);
      assert s1.open == s.open + [m] && m.rx.size <= m.tx.size == |m.tx.data|;
      hide QueuesOk, RemoveAt;
      TxGone(s, k, s1);
    } else if wait {
      hide QueuesOk, Insert;
      RxAdded(s, rx, s1);
    }
  }

  // ---- timeouts and disposal ------------------------------------------------------------------

  lemma {:induction false} ExpireTxCounts(s: State, i: nat)
    requires TxOnce(s) && RxOnce(s) && Ends(s) && i < |s.txq|
    ensures var s1 := ExpireTx(s, i); TxOnce(s1) && RxOnce(s1) && Ends(s1)
  {
    var s1 := ExpireTx(s, i);
    hide Count, RemoveAt;
    forall id: MsgId
      ensures Count(s1.txq, TxId, id) + Count(s1.failedTx, Itself, id) == Count(s.txq, TxId, id) + Count(s.failedTx, Itself, id)
    {
      CountRemove(s.txq, i, TxId, id);
      CountMore(s.failedTx, s.txq[i].id, Itself, id);
    }
  }

  lemma {:induction false} ExpireRxCounts(s: State, i: nat)
    requires TxOnce(s) && RxOnce(s) && Ends(s) && i < |s.rxq|
    ensures var s1 := ExpireRx(s, i); TxOnce(s1) && RxOnce(s1) && Ends(s1)
  {
    var s1 := ExpireRx(s, i);
    hide Count, RemoveAt;
    forall id: MsgId
      ensures Count(s1.rxq, RxId, id) + Count(s1.failedRx, Itself, id) == Count(s.rxq, RxId, id) + Count(s.failedRx, Itself, id)
    {
      CountRemove(s.rxq, i, RxId, id);
      CountMore(s.failedRx, s.rxq[i].id, Itself, id);
    }
  }

  lemma {:induction false} DisposeCounts(s: State, id: MsgId, size: nat)
    requires TxOnce(s) && RxOnce(s) && Ends(s)
    ensures var s1 := Dispose(s, id, size); TxOnce(s1) && RxOnce(s1) && Ends(s1)
  {
    var s1 := Dispose(s, id, size);
    var k := FindOpen(s.open, id);
    hide Count, RemoveAt, FindOpen;
    if k < |s.open| {
      var m := s.open[k];
      forall x: MsgId
        ensures Count(s1.open, MatchTx, x) + Count(s1.finished, FinishedTx, x) == Count(s.open, MatchTx, x) + Count(s.finished, FinishedTx, x)
        ensures Count(s1.open, MatchRx, x) <= Count(s.open, MatchRx, x)
      {
        CountRemove(s.open, k, MatchTx, x);
        CountRemove(s.open, k, MatchRx, x);
        CountMore(s.finished, Finished(m.tx.id, m.tx.sync, size), FinishedTx, x);
      }
    }
  }

  lemma {:induction false} DisposeQueues(s: State, id: MsgId, size: nat)
    requires QueuesOk(s)
    ensures QueuesOk(Dispose(s, id, size))
  {
    var s1 := Dispose(s, id, size);
    var k := FindOpen(s.open, id);
    if k < |s.open| {
      assert forall i :: 0 <= i < |s1.open| ==> s1.open[i] == s.open[if i < k then i else i + 1];
      hide RemoveAt, FindOpen, Refuses;
    }
  }

  // ---- runs ---------------------------------------------------------------------------------------

  datatype Op =
    | DoPut(tx: Tx, wait: bool)
    | DoGet(rx: Rx, wait: bool)
    | DoExpireTx(sender: nat) | DoExpireRx(receiver: nat)
    | DoConsume(message: MsgId, way: Way)

  /** Sends and receives are numbered, and a message has as many bytes as its
      descriptor says. */
  predicate Enabled(s: State, op: Op) {
    match op
    case DoPut(tx, wait) => tx.id == s.nextTx && |tx.data| == tx.size
    case DoGet(rx, wait) => rx.id == s.nextRx
    case DoExpireTx(i) => i < |s.txq|
    case DoExpireRx(i) => i < |s.rxq|
    case DoConsume(id, way) => true
  }

  function Step(s: State, op: Op): State
    requires Enabled(s, op)
  {
    match op
    case DoPut(tx, wait) => Put(s, tx, wait).0
    case DoGet(rx, wait) => Get(s, rx, wait).0
    case DoExpireTx(i) => ExpireTx(s, i)
    case DoExpireRx(i) => ExpireRx(s, i)
    case DoConsume(id, way) => Consume(s, id, way).0
  }

  lemma {:induction false} StepKeeps(s: State, op: Op)
    requires Inv(s) && Enabled(s, op)
    ensures Inv(Step(s, op))
  {
    assert QueuesOk(s);
    hide TxOnce, RxOnce, Ends, Put, Get, Dispose, FindOpen;
    match op
    case DoPut(tx, wait) =>
      PutCounts(s, tx, wait);
      PutQueues(s, tx, wait);
    case DoGet(rx, wait) =>
      GetCounts(s, rx, wait);
      GetQueues(s, rx, wait);
    case DoExpireTx(i) =>
      ExpireTxCounts(s, i);
      TxGone(s, i, ExpireTx(s, i));
    case DoExpireRx(i) =>
      ExpireRxCounts(s, i);
      RxGone(s, i, ExpireRx(s, i));
    case DoConsume(id, way) =>
      ConsumeKeeps(s, id, way);
  }

  lemma {:induction false} ConsumeKeeps(s: State, id: MsgId, way: Way)
    requires Inv(s)
    ensures Inv(Consume(s, id, way).0)
  {
    assert QueuesOk(s);
    forall size: nat ensures Inv(Dispose(s, id, size)) {
      DisposeCounts(s, id, size);
      DisposeQueues(s, id, size);
      hide TxOnce, RxOnce, Ends, Dispose;
    }
    hide Inv, Dispose;
  }

  ghost predicate CanRun(s: State, ops: seq<Op>)
    decreases |ops|
  {
    ops == [] || (Enabled(s, ops[0]) && CanRun(Step(s, ops[0]), ops[1..]))
  }

  ghost function Run(s: State, ops: seq<Op>): State
    requires CanRun(s, ops)
    decreases |ops|
  {
    if ops == [] then s else Run(Step(s, ops[0]), ops[1..])
  }

  function Initial(): State {
    State(0, 0, [], [], [], [], [], [], [])
  }

  lemma {:induction false} RunKeeps(s: State, ops: seq<Op>)
    requires Inv(s) && CanRun(s, ops)
    ensures Inv(Run(s, ops))
    decreases |ops|
  {
    hide Inv, Step, Enabled;
    if ops != [] {
      StepKeeps(s, ops[0]);
      RunKeeps(Step(s, ops[0]), ops[1..]);
    }
  }

  // ---- the laws ---------------------------------------------------------------------------------------

  /** In every reachable state, of a waiting sender and a waiting receiver one names
      somebody else. */
  lemma {:induction false} RendezvousLaw(ops: seq<Op>)
    requires CanRun(Initial(), ops)
    ensures var s := Run(Initial(), ops);
            forall t, r :: t in s.txq && r in s.rxq ==>
              || (t.target.Only? && t.target.thread != r.receiver)
              || (r.source.Only? && r.source.thread != t.source)
  {
    RunKeeps(Initial(), ops);
    var s := Run(Initial(), ops);
    hide Run, CanRun;
    forall t, r | t in s.txq && r in s.rxq ensures Refuses(t, r) {
      var i :| 0 <= i < |s.txq| && s.txq[i] == t;
      var j :| 0 <= j < |s.rxq| && s.rxq[j] == r;
    }
  }

  /** Every message is matched with at most one receive and every receive with at
      most one message; whoever has not failed or been matched still waits. */
  lemma {:induction false} OnceLaw(ops: seq<Op>, id: MsgId)
    requires CanRun(Initial(), ops)
    ensures var s := Run(Initial(), ops);
            && Count(s.matches, MatchTx, id) <= 1 && Count(s.matches, MatchRx, id) <= 1
            && Count(s.txq, TxId, id) + Count(s.matches, MatchTx, id) + Count(s.failedTx, Itself, id)
               == (if id < s.nextTx then 1 else 0)
            && Count(s.rxq, RxId, id) + Count(s.matches, MatchRx, id) + Count(s.failedRx, Itself, id)
               == (if id < s.nextRx then 1 else 0)
  {
    RunKeeps(Initial(), ops);
    hide Run, CanRun, Count;
  }

  /** The sender of a matched message goes on exactly once, when the receiver has
      disposed of it: until then the message is open. */
  lemma {:induction false} DisposalLaw(ops: seq<Op>, id: MsgId)
    requires CanRun(Initial(), ops)
    ensures var s := Run(Initial(), ops);
            && Count(s.finished, FinishedTx, id) <= 1
            && Count(s.open, MatchTx, id) + Count(s.finished, FinishedTx, id) == Count(s.matches, MatchTx, id)
            && (Count(s.finished, FinishedTx, id) == 1 ==> Count(s.txq, TxId, id) == 0 && Count(s.failedTx, Itself, id) == 0)
  {
    RunKeeps(Initial(), ops);
    OnceLaw(ops, id);
    hide Run, CanRun, Count;
  }

  /** The step ends the receiver's hold on message `m`. */
  predicate EndsHold(op: Op, m: Match) {
    op.DoConsume? && op.message == m.rx.id && (!op.way.Keep? || m.rx.size == 0)
  }

  lemma {:induction false} StaysOpen(s: State, op: Op, m: Match)
    requires Enabled(s, op) && m in s.open && !EndsHold(op, m)
    ensures m in Step(s, op).open
  {
    if op.DoConsume? {
      var k := FindOpen(s.open, op.message);
      if k < |s.open| {
        var i :| 0 <= i < |s.open| && s.open[i] == m;
        if i != k {
          assert RemoveAt(s.open, k)[if i < k then i else i - 1] == m;
        }
      }
    } else {
      hide FindRx, FindTx, Insert;
    }
  }

  /** Over every run that does not retrieve, discard or finish checking a matched
      message, its receiver still has it and its sender has not gone on. */
  lemma {:induction false} OnlyDisposalResumes(s: State, ops: seq<Op>, m: Match)
    requires Inv(s) && CanRun(s, ops) && m in s.open && forall op :: op in ops ==> !EndsHold(op, m)
    ensures var r := Run(s, ops); m in r.open && Count(r.finished, FinishedTx, m.tx.id) == 0
    decreases |ops|
  {
    if ops == [] {
      CountIn(s.open, m);
      hide Count;
    } else {
      assert ops[0] in ops && forall op :: op in ops[1..] ==> op in ops;
      hide Inv, Step, EndsHold, Enabled, Count;
      StepKeeps(s, ops[0]);
      StaysOpen(s, ops[0], m);
      OnlyDisposalResumes(Step(s, ops[0]), ops[1..], m);
    }
  }

  lemma {:induction false} CountIn(q: seq<Match>, m: Match)
    requires m in q
    ensures Count(q, MatchTx, m.tx.id) >= 1
  {
    if q[0] != m {
      assert m in q[1..];
      CountIn(q[1..], m);
    }
  }

  /** Retrieving a message stores the front of the sender's data, as much as was
      agreed, and tells the sender so. */
  lemma {:induction false} RetrieveLaw(s: State, k: nat)
    requires Inv(s) && k < |s.open|
    ensures var m := s.open[k];
            var (s1, bytes) := Consume(s, m.rx.id, IntoBuffer);
            && bytes == m.tx.data[..m.rx.size]
            && s1.open == s.open[..k] + s.open[k + 1..]
            && s1.finished == s.finished + [Finished(m.tx.id, m.tx.sync, m.rx.size)]
  {
    OpenUnique(s, k);
    hide FindOpen, Count;
  }

  /** Each receive holds one message at most. */
  lemma {:induction false} OpenUnique(s: State, k: nat)
    requires Inv(s) && k < |s.open|
    ensures FindOpen(s.open, s.open[k].rx.id) == k
  {
    var id := s.open[k].rx.id;
    var j := FindOpen(s.open, id);
    assert Count(s.open, MatchRx, id) <= Count(s.matches, MatchRx, id) <= 1;
    if j < k {
      CountTwo(s.open, j, k, MatchRx, id);
    }
  }

  lemma {:induction false} CountTwo<T>(q: seq<T>, i: nat, j: nat, f: T -> MsgId, id: MsgId)
    requires i < j < |q| && f(q[i]) == id && f(q[j]) == id
    ensures Count(q, f, id) >= 2
  {
    CountRemove(q, j, f, id);
    assert RemoveAt(q, j)[i] == q[i];
    CountRemove(RemoveAt(q, j), i, f, id);
  }

  /** Disposing of a message twice is disposing of it once. */
  lemma {:induction false} DisposeTwice(s: State, id: MsgId, size: nat, again: nat)
    requires Inv(s)
    ensures Dispose(Dispose(s, id, size), id, again) == Dispose(s, id, size)
  {
    var k := FindOpen(s.open, id);
    if k < |s.open| {
      var r := RemoveAt(s.open, k);
      forall i | 0 <= i < |r| ensures r[i].rx.id != id {
        var j := if i < k then i else i + 1;
        assert r[i] == s.open[j];
        OpenUnique(s, j);
      }
      assert FindOpen(r, id) == |r|;
    }
  }
}
