/**
 Every run of a pipe: the invariant is kept by each put, get and timeout, and
 what follows from it.
 */
module PipeRuns {
  import opened PipeSpec
  import opened PipeTheorems
  import opened WaitQueue

  // ---- a call in progress -------------------------------------------------------------

  /** Call `c` has been made, and neither waits nor has returned. */
  ghost predicate Open(p: Pipe, c: CallId) {
    && p.next == c + 1
    && Shape(p) && Stream(p) && CallsUpTo(p, c) && SharesOk(p) && ReturnsOk(p)
  }

  lemma {:induction false} BeginCall(p: Pipe)
    requires Inv(p)
    ensures Open(p.(next := p.next + 1), p.next)
    ensures Part(p.sent, p.next) == [] && Part(p.delivered, p.next) == []
  {
    var p0 := p.(next := p.next + 1);
    assert forall x: CallId :: Copies(p0, x) == Copies(p, x);
    assert Shape(p0) && Stream(p0) && ReturnsOk(p0) && CallsUpTo(p0, p.next);
    hide Shape, Stream, ReturnsOk, Copies, CallsUpTo, WriterCalls, ReaderCalls, Part, Bytes, WritersOk, ReadersOk;
  }

  lemma {:induction false} ShapeRing(p: Pipe, c: CallId, data: seq<Byte>)
    requires Shape(p)
    ensures |p.ring| <= p.size && PutMoves(p, c, data).next == p.next
  {
  }

  lemma {:induction false} PutOpen(p: Pipe, c: CallId, data: seq<Byte>)
    requires Open(p, c) && Part(p.sent, c) == [] && Part(p.delivered, c) == []
    ensures |p.ring| <= p.size
    ensures var p1 := PutMoves(p, c, data);
            && Open(p1, c)
            && Part(p1.sent, c) == data[..PutCount(p, data)] && Part(p1.delivered, c) == []
            && (PutCount(p, data) < |data| ==> |p1.ring| == p1.size && p1.readers == [])
  {
    hide PutMoves, Copies, Shape, Stream, SharesOk, ReturnsOk, WriterCalls, ReaderCalls, ReturnCalls, Part;
    ShapeRing(p, c, data);
    CallsApart(p, c);
    PutShape(p, c, data);
    PutStream(p, c, data);
    forall x: CallId ensures Copies(PutMoves(p, c, data), x) == Copies(p, x) {
      PutCalls(p, c, data, x);
    }
    PutSharesOk(p, c, data);
    PutReturnsOk(p, c, data);
    assert c !in ReaderCalls(p.readers);
    PutShares(p, c, data, c);
  }

  lemma {:induction false} GetOpen(p: Pipe, c: CallId, n: nat)
    requires Open(p, c) && Part(p.sent, c) == [] && Part(p.delivered, c) == []
    ensures var (p1, out) := GetMoves(p, c, n);
            && Open(p1, c)
            && Part(p1.delivered, c) == out && Part(p1.sent, c) == []
            && (|out| < n ==> p1.ring == [] && p1.writers == [])
  {
    hide GetMoves, Copies, Shape, Stream, SharesOk, ReturnsOk, WriterCalls, ReaderCalls, ReturnCalls, Part;
    CallsApart(p, c);
    GetShape(p, c, n);
    GetStream(p, c, n);
    forall x: CallId ensures Copies(GetMoves(p, c, n).0, x) == Copies(p, x) {
      GetCalls(p, c, n, x);
    }
    GetSharesOk(p, c, n);
    GetReturnsOk(p, c, n);
    GetWritersOk(p, c, n);
    assert c !in WriterCalls(p.writers);
    GetShares(p, c, n, c);
  }

  // ---- how a call ends ------------------------------------------------------------------

  lemma {:induction false} FinishCalls(p: Pipe, r: Return)
    requires p.next == r.call + 1 && CallsUpTo(p, r.call)
    ensures CallsOk(Finish(p, r))
  {
    ReturnCallsAppend(p.finished, [r]);
    assert ReturnCalls([r]) == multiset{r.call} by {
      assert [r][1..] == [];
    }
    hide WriterCalls, ReaderCalls, ReturnCalls;
    assert forall x: CallId :: Copies(Finish(p, r), x) == Copies(p, x) + if x == r.call then 1 else 0;
  }

  lemma {:induction false} FinishKeeps(p: Pipe, r: Return)
    requires Open(p, r.call) && ReturnOk(r, p.sent, p.delivered)
    ensures Inv(Finish(p, r))
  {
    var p1 := Finish(p, r);
    FinishCalls(p, r);
    hide Copies, CallsOk, CallsUpTo, WriterCalls, ReaderCalls, ReturnCalls, Part, Bytes;
    assert Shape(p1) && Stream(p1) && SharesOk(p1);
    hide Shape, Stream, SharesOk, ReturnOk;
    assert forall i :: 0 <= i < |p1.finished| ==> p1.finished[i] == if i < |p.finished| then p.finished[i] else r;
  }

  lemma {:induction false} InsertedWriterCalls(ws: seq<Writer>, w: Writer)
    ensures WriterCalls(Insert(ws, w, WriterPrio)) == WriterCalls(ws) + multiset{w.call}
  {
    hide WriterCalls;
    if ws == [] || w.prio < ws[0].prio {
      WriterCallsCons(w, ws);
    } else {
      var m := Insert(ws[1..], w, WriterPrio);
      assert Insert(ws, w, WriterPrio) == [ws[0]] + m && ws == [ws[0]] + ws[1..];
      InsertedWriterCalls(ws[1..], w);
      hide Insert;
      WriterCallsCons(ws[0], m);
      WriterCallsCons(ws[0], ws[1..]);
    }
  }

  lemma {:induction false} InsertedReaderCalls(rs: seq<Reader>, r: Reader)
    ensures ReaderCalls(Insert(rs, r, ReaderPrio)) == ReaderCalls(rs) + multiset{r.call}
  {
    hide ReaderCalls;
    if rs == [] || r.prio < rs[0].prio {
      ReaderCallsCons(r, rs);
    } else {
      var m := Insert(rs[1..], r, ReaderPrio);
      assert Insert(rs, r, ReaderPrio) == [rs[0]] + m && rs == [rs[0]] + rs[1..];
      InsertedReaderCalls(rs[1..], r);
      hide Insert;
      ReaderCallsCons(rs[0], m);
      ReaderCallsCons(rs[0], rs[1..]);
    }
  }

  lemma {:induction false} PendWriterCalls(p: Pipe, w: Writer)
    requires p.next == w.call + 1 && CallsUpTo(p, w.call)
    ensures CallsOk(PendWriter(p, w))
    ensures forall x :: x in WriterCalls(PendWriter(p, w).writers) ==> x in WriterCalls(p.writers) || x == w.call
  {
    var p1 := PendWriter(p, w);
    InsertedWriterCalls(p.writers, w);
    hide WriterCalls, ReaderCalls, ReturnCalls, Insert;
    assert forall x: CallId :: Copies(p1, x) == Copies(p, x) + if x == w.call then 1 else 0;
  }

  lemma {:induction false} PendWriterShape(p: Pipe, w: Writer)
    requires Shape(p) && WriterWaits(w) && |p.ring| == p.size && p.readers == []
    ensures Shape(PendWriter(p, w))
  {
    var q := Insert(p.writers, w, WriterPrio);
    var k := InsertedAt(p.writers, w, WriterPrio);
    hide Insert, Ordered;
  }

  lemma {:induction false} PendWriterShares(p: Pipe, w: Writer)
    requires SharesOk(p) && Ordered(p.writers, WriterPrio) && Ordered(p.readers, ReaderPrio)
    requires Part(p.sent, w.call) + w.left == w.data && Part(p.delivered, w.call) == []
    requires forall x :: x in WriterCalls(Insert(p.writers, w, WriterPrio)) ==> x in WriterCalls(p.writers) || x == w.call
    ensures SharesOk(PendWriter(p, w))
  {
    var q := Insert(p.writers, w, WriterPrio);
    var k := InsertedAt(p.writers, w, WriterPrio);
    hide Insert, Ordered, Part, WriterCalls, ReaderCalls;
    assert WritersOk(q, p.sent);
  }

  lemma {:induction false} PendWriterKeeps(p: Pipe, w: Writer)
    requires Open(p, w.call)
    requires WriterWaits(w) && |p.ring| == p.size && p.readers == []
    requires Part(p.sent, w.call) + w.left == w.data && Part(p.delivered, w.call) == []
    ensures Inv(PendWriter(p, w))
  {
    PendWriterCalls(p, w);
    PendWriterShape(p, w);
    PendWriterShares(p, w);
    hide Insert, Ordered, Part, WriterCalls, ReaderCalls, ReturnCalls, Copies, Shape, SharesOk, Bytes, ReturnOk;
  }

  lemma {:induction false} PendReaderCalls(p: Pipe, r: Reader)
    requires p.next == r.call + 1 && CallsUpTo(p, r.call)
    ensures CallsOk(PendReader(p, r))
    ensures forall x :: x in ReaderCalls(PendReader(p, r).readers) ==> x in ReaderCalls(p.readers) || x == r.call
  {
    var p1 := PendReader(p, r);
    InsertedReaderCalls(p.readers, r);
    hide WriterCalls, ReaderCalls, ReturnCalls, Insert;
    assert forall x: CallId :: Copies(p1, x) == Copies(p, x) + if x == r.call then 1 else 0;
  }

  lemma {:induction false} PendReaderShape(p: Pipe, r: Reader)
    requires Shape(p) && ReaderWaits(r) && p.ring == [] && p.writers == []
    ensures Shape(PendReader(p, r))
  {
    var q := Insert(p.readers, r, ReaderPrio);
    var k := InsertedAt(p.readers, r, ReaderPrio);
    hide Insert, Ordered;
  }

  lemma {:induction false} PendReaderShares(p: Pipe, r: Reader)
    requires SharesOk(p) && Ordered(p.writers, WriterPrio) && Ordered(p.readers, ReaderPrio)
    requires Part(p.delivered, r.call) == r.got && Part(p.sent, r.call) == []
    requires forall x :: x in ReaderCalls(Insert(p.readers, r, ReaderPrio)) ==> x in ReaderCalls(p.readers) || x == r.call
    ensures SharesOk(PendReader(p, r))
  {
    var q := Insert(p.readers, r, ReaderPrio);
    var k := InsertedAt(p.readers, r, ReaderPrio);
    hide Insert, Ordered, Part, WriterCalls, ReaderCalls;
    assert ReadersOk(q, p.delivered);
  }

  lemma {:induction false} PendReaderKeeps(p: Pipe, r: Reader)
    requires Open(p, r.call)
    requires ReaderWaits(r) && p.ring == [] && p.writers == []
    requires Part(p.delivered, r.call) == r.got && Part(p.sent, r.call) == []
    ensures Inv(PendReader(p, r))
  {
    PendReaderCalls(p, r);
    PendReaderShape(p, r);
    PendReaderShares(p, r);
    hide Insert, Ordered, Part, WriterCalls, ReaderCalls, ReturnCalls, Copies, Shape, SharesOk, Bytes, ReturnOk;
  }

  // ---- timeouts -----------------------------------------------------------------------------

  lemma {:induction false} WithoutWriterCalls(ws: seq<Writer>, i: nat)
    requires i < |ws|
    ensures WriterCalls(ws) == WriterCalls(ws[..i] + ws[i + 1..]) + multiset{ws[i].call}
  {
    hide WriterCalls;
    var a, w, b := ws[..i], ws[i], ws[i + 1..];
    assert ws == a + ([w] + b);
    WriterCallsAppend(a, [w] + b);
    WriterCallsCons(w, b);
    WriterCallsAppend(a, b);
  }

  lemma {:induction false} WithoutReaderCalls(rs: seq<Reader>, i: nat)
    requires i < |rs|
    ensures ReaderCalls(rs) == ReaderCalls(rs[..i] + rs[i + 1..]) + multiset{rs[i].call}
  {
    hide ReaderCalls;
    var a, r, b := rs[..i], rs[i], rs[i + 1..];
    assert rs == a + ([r] + b);
    ReaderCallsAppend(a, [r] + b);
    ReaderCallsCons(r, b);
    ReaderCallsAppend(a, b);
  }

  lemma {:induction false} ExpireWriterCalls(p: Pipe, i: nat, x: CallId)
    requires i < |p.writers|
    ensures var p1 := ExpireWriter(p, i);
            && Copies(p1, x) == Copies(p, x)
            && (x in WriterCalls(p1.writers) ==> x in WriterCalls(p.writers))
  {
    var w := p.writers[i];
    WithoutWriterCalls(p.writers, i);
    assert WriterCalls([w]) == multiset{w.call} by {
      assert [w][1..] == [];
    }
    WriterReturnCalls([w]);
    ReturnCallsAppend(p.finished, WriterReturns([w]));
    hide WriterCalls, ReturnCalls, ReaderCalls, WriterReturns;
  }

  lemma {:induction false} ExpireReaderCalls(p: Pipe, i: nat, x: CallId)
    requires i < |p.readers|
    ensures var p1 := ExpireReader(p, i);
            && Copies(p1, x) == Copies(p, x)
            && (x in ReaderCalls(p1.readers) ==> x in ReaderCalls(p.readers))
  {
    var r := p.readers[i];
    WithoutReaderCalls(p.readers, i);
    assert ReaderCalls([r]) == multiset{r.call} by {
      assert [r][1..] == [];
    }
    ReaderReturnCalls([r]);
    ReturnCallsAppend(p.finished, ReaderReturns([r]));
    hide WriterCalls, ReturnCalls, ReaderCalls, ReaderReturns;
  }

  lemma {:induction false} ExpireWriterReturns(p: Pipe, i: nat)
    requires i < |p.writers| && SharesOk(p) && ReturnsOk(p)
    ensures ReturnsOk(ExpireWriter(p, i))
  {
    var w := p.writers[i];
    WriterIn(p.writers, i);
    WriterReturnLength([w]);
    WriterReturnAt([w], 0);
    hide WriterCalls, ReaderCalls, Part, WriterReturns;
    var r := WriterReturns([w])[0];
    assert Part(p.sent, w.call) + w.left == w.data;
    assert ReturnOk(r, p.sent, p.delivered);
  }

  lemma {:induction false} ExpireReaderReturns(p: Pipe, i: nat)
    requires i < |p.readers| && SharesOk(p) && ReturnsOk(p)
    ensures ReturnsOk(ExpireReader(p, i))
  {
    var r := p.readers[i];
    ReaderIn(p.readers, i);
    ReaderReturnLength([r]);
    ReaderReturnAt([r], 0);
    hide WriterCalls, ReaderCalls, Part, ReaderReturns;
    assert ReturnOk(ReaderReturns([r])[0], p.sent, p.delivered);
  }

  lemma {:induction false} ExpireWriterShape(p: Pipe, i: nat)
    requires Shape(p) && i < |p.writers|
    ensures Shape(ExpireWriter(p, i))
  {
    var p1 := ExpireWriter(p, i);
    hide WriterReturns, Ordered;
    assert forall j :: 0 <= j < |p1.writers| ==> p1.writers[j] == p.writers[if j < i then j else j + 1];
  }

  lemma {:induction false} ExpireWriterShares(p: Pipe, i: nat)
    requires SharesOk(p) && i < |p.writers|
    requires forall x :: x in WriterCalls(ExpireWriter(p, i).writers) ==> x in WriterCalls(p.writers)
    ensures SharesOk(ExpireWriter(p, i))
  {
    var p1 := ExpireWriter(p, i);
    hide WriterReturns, Part, WriterCalls, ReaderCalls;
    assert forall j :: 0 <= j < |p1.writers| ==> p1.writers[j] == p.writers[if j < i then j else j + 1];
    assert WritersOk(p1.writers, p1.sent);
  }

  lemma {:induction false} ExpireWriterKeeps(p: Pipe, i: nat)
    requires Inv(p) && i < |p.writers|
    ensures Inv(ExpireWriter(p, i))
  {
    var p1 := ExpireWriter(p, i);
    assert Stream(p1) && p1.next == p.next;
    hide Copies, WriterCalls, ReaderCalls, Shape, Stream, SharesOk, ReturnsOk, ExpireWriter;
    forall x: CallId ensures Copies(p1, x) == Copies(p, x)
                     ensures x in WriterCalls(p1.writers) ==> x in WriterCalls(p.writers) {
      ExpireWriterCalls(p, i, x);
    }
    ExpireWriterReturns(p, i);
    ExpireWriterShape(p, i);
    ExpireWriterShares(p, i);
  }

  lemma {:induction false} ExpireReaderShape(p: Pipe, i: nat)
    requires Shape(p) && i < |p.readers|
    ensures Shape(ExpireReader(p, i))
  {
    var p1 := ExpireReader(p, i);
    hide ReaderReturns, Ordered;
    assert forall j :: 0 <= j < |p1.readers| ==> p1.readers[j] == p.readers[if j < i then j else j + 1];
  }

  lemma {:induction false} ExpireReaderShares(p: Pipe, i: nat)
    requires SharesOk(p) && i < |p.readers|
    requires forall x :: x in ReaderCalls(ExpireReader(p, i).readers) ==> x in ReaderCalls(p.readers)
    ensures SharesOk(ExpireReader(p, i))
  {
    var p1 := ExpireReader(p, i);
    hide ReaderReturns, Part, WriterCalls, ReaderCalls;
    assert forall j :: 0 <= j < |p1.readers| ==> p1.readers[j] == p.readers[if j < i then j else j + 1];
    assert ReadersOk(p1.readers, p1.delivered);
  }

  lemma {:induction false} ExpireReaderKeeps(p: Pipe, i: nat)
    requires Inv(p) && i < |p.readers|
    ensures Inv(ExpireReader(p, i))
  {
    var p1 := ExpireReader(p, i);
    assert Stream(p1) && p1.next == p.next;
    hide Copies, WriterCalls, ReaderCalls, Shape, Stream, SharesOk, ReturnsOk, ExpireReader;
    forall x: CallId ensures Copies(p1, x) == Copies(p, x)
                     ensures x in ReaderCalls(p1.readers) ==> x in ReaderCalls(p.readers) {
      ExpireReaderCalls(p, i, x);
    }
    ExpireReaderReturns(p, i);
    ExpireReaderShape(p, i);
    ExpireReaderShares(p, i);
  }

  // ---- whole calls -----------------------------------------------------------------------------

  lemma {:induction false} RingFits(p: Pipe)
    requires Inv(p)
    ensures |p.ring| <= p.size
  {
  }

  lemma {:induction false} PutKeeps(p: Pipe, prio: int, data: seq<Byte>, min: nat, wait: bool)
    requires Inv(p)
    ensures |p.ring| <= p.size && Inv(Put(p, prio, data, min, wait).0)
  {
    hide Inv, Open, PutMoves, Demand, Part;
    RingFits(p);
    var c, p0 := p.next, p.(next := p.next + 1);
    BeginCall(p);
    var n := PutCount(p0, data);
    if min > |data| {
      FinishKeeps(p0, Return(c, Invalid, 0, min));
    } else if !wait && Demand(p.readers) + (p.size - |p.ring|) < min {
      FinishKeeps(p0, Return(c, Io, 0, min));
    } else {
      PutOpen(p0, c, data);
      var p1 := PutMoves(p0, c, data);
      if n == |data| || (wait && n >= min && min > 0) {
        FinishKeeps(p1, Return(c, Ok, n, min));
      } else if wait {
        assert data[..n] + data[n..] == data;
        PendWriterKeeps(p1, Writer(c, prio, min, data, data[n..]));
      } else {
        FinishKeeps(p1, Return(c, ReturnCode(min, n), n, min));
      }
    }
  }

  lemma {:induction false} GetKeeps(p: Pipe, prio: int, n: nat, min: nat, wait: bool)
    requires Inv(p)
    ensures Inv(Get(p, prio, n, min, wait).0)
  {
    hide Inv, Open, GetMoves, Offered, Part, PendReader;
    var c, p0 := p.next, p.(next := p.next + 1);
    BeginCall(p);
    if min > n {
      FinishKeeps(p0, Return(c, Invalid, 0, min));
    } else if !wait && |Offered(p.writers)| + |p.ring| < min {
      FinishKeeps(p0, Return(c, Io, 0, min));
    } else {
      GetOpen(p0, c, n);
      var (p1, out) := GetMoves(p0, c, n);
      if |out| == n || (wait && |out| >= min && min > 0) {
        FinishKeeps(p1, Return(c, Ok, |out|, min));
      } else if wait {
        PendReaderKeeps(p1, Reader(c, prio, min, out, n - |out|));
      } else {
        FinishKeeps(p1, Return(c, ReturnCode(min, |out|), |out|, min));
      }
    }
  }

  // ---- runs -----------------------------------------------------------------------------------

  datatype Op =
    | DoPut(prio: int, data: seq<Byte>, putMin: nat, putWait: bool)
    | DoGet(prio: int, size: nat, getMin: nat, getWait: bool)
    | PutTimeout(writer: nat)
    | GetTimeout(reader: nat)

  /** A timeout can only expire while its call waits. */
  function Step(p: Pipe, op: Op): Pipe
    requires |p.ring| <= p.size
  {
    match op
    case DoPut(prio, data, min, wait) => Put(p, prio, data, min, wait).0
    case DoGet(prio, n, min, wait) => Get(p, prio, n, min, wait).0
    case PutTimeout(i) => if i < |p.writers| then ExpireWriter(p, i) else p
    case GetTimeout(i) => if i < |p.readers| then ExpireReader(p, i) else p
  }

  /** An empty pipe nobody has called yet. */
  ghost function Initial(size: nat): (p: Pipe)
    ensures Inv(p)
  {
    var p := Pipe(size, [], [], [], 0, [], [], []);
    assert forall x: CallId :: Copies(p, x) == 0;
    p
  }

  lemma {:induction false} StepKeeps(p: Pipe, op: Op)
    requires Inv(p)
    ensures |p.ring| <= p.size && Inv(Step(p, op))
  {
    hide Inv, Put, Get, ExpireWriter, ExpireReader;
    RingFits(p);
    match op
    case DoPut(prio, data, min, wait) => PutKeeps(p, prio, data, min, wait);
    case DoGet(prio, n, min, wait) => GetKeeps(p, prio, n, min, wait);
    case PutTimeout(i) => if i < |p.writers| { ExpireWriterKeeps(p, i); }
    case GetTimeout(i) => if i < |p.readers| { ExpireReaderKeeps(p, i); }
  }

  ghost function Run(p: Pipe, ops: seq<Op>): (r: Pipe)
    requires Inv(p)
    ensures Inv(r)
    decreases |ops|
  {
    if ops == [] then p else
      StepKeeps(p, ops[0]);
      Run(Step(p, ops[0]), ops[1..])
  }

  // ---- the laws ----------------------------------------------------------------------------------

  /** The stream law: what was taken from the writers, in order, is what was
      delivered to the readers followed by what the ring holds. */
  lemma {:induction false} StreamLaw(size: nat, ops: seq<Op>)
    ensures var p := Run(Initial(size), ops);
            Bytes(p.sent) == Bytes(p.delivered) + p.ring
  {
    assert Inv(Run(Initial(size), ops));
  }

  /** Who waits, and when. */
  lemma {:induction false} WaitersLaw(size: nat, ops: seq<Op>)
    ensures var p := Run(Initial(size), ops);
            && (p.readers != [] ==> p.ring == [] && p.writers == [])
            && (p.writers != [] ==> |p.ring| == p.size && p.readers == [])
            && (forall w :: w in p.writers ==> w.left != [])
            && (forall r :: r in p.readers ==> r.want > 0)
  {
    assert Shape(Run(Initial(size), ops));
  }

  /** Every call made so far is in exactly one place, and one that has returned
      has reported exactly the bytes moved for it. */
  lemma {:induction false} CallsLaw(size: nat, ops: seq<Op>, c: CallId)
    ensures var p := Run(Initial(size), ops);
            && WriterCalls(p.writers)[c] + ReaderCalls(p.readers)[c] + ReturnCalls(p.finished)[c]
               == (if c < p.next then 1 else 0)
            && (forall f :: f in p.finished ==>
                  && f.count == |Part(p.sent, f.call)| + |Part(p.delivered, f.call)|
                  && (f.code == Ok ==> f.count >= f.min)
                  && (f.code == Again ==> f.count < f.min)
                  && (f.code == Io || f.code == Invalid ==> f.count == 0))
  {
    var p := Run(Initial(size), ops);
    assert CallsOk(p) && Copies(p, c) == if c < p.next then 1 else 0;
    assert ReturnsOk(p);
    hide WriterCalls, ReaderCalls, ReturnCalls, Part, Shape, Stream, SharesOk, Run;
  }

  /** A put that may not wait moves nothing and reports an I/O error, or moves at
      least its minimum and succeeds. */
  lemma {:induction false} PutNoWait(p: Pipe, prio: int, data: seq<Byte>, min: nat)
    requires |p.ring| <= p.size && min <= |data|
    ensures var (p1, r) := Put(p, prio, data, min, false);
            if Demand(p.readers) + (p.size - |p.ring|) < min then
              && r == Returned(Io, 0)
              && p1 == p.(next := p.next + 1, finished := p.finished + [Return(p.next, Io, 0, min)])
            else
              r.Returned? && r.code == Ok && min <= r.count == Min(|data|, Demand(p.readers) + (p.size - |p.ring|))
  {
  }

  lemma {:induction false} GetNoWait(p: Pipe, prio: int, n: nat, min: nat)
    requires min <= n
    ensures var (p1, out, r) := Get(p, prio, n, min, false);
            if |p.ring| + |Offered(p.writers)| < min then
              && out == [] && r == Returned(Io, 0)
              && p1 == p.(next := p.next + 1, finished := p.finished + [Return(p.next, Io, 0, min)])
            else
              && r.Returned? && r.code == Ok && min <= r.count == |out|
              && |out| == Min(n, |p.ring| + |Offered(p.writers)|)
  {
  }

  // ---- who is released ------------------------------------------------------------------------------

  lemma {:induction false} PulledOrWaiting(ws: seq<Writer>, n: nat, i: nat)
    requires i < |ws|
    ensures var d := Pull(ws, n);
            ws[i].call in WriterCalls(d.waiting) || ws[i].(left := []) in d.done
  {
    if n == 0 || |ws[0].left| > n {
      PullCalls(ws, n);
      WriterIn(ws, i);
      assert Pull(ws, n).done == [] && WriterCalls(Pull(ws, n).done) == multiset{};
    } else if i > 0 {
      PulledOrWaiting(ws[1..], n - |ws[0].left|, i - 1);
    }
  }

  lemma {:induction false} WriterReturnIn(ws: seq<Writer>, w: Writer)
    requires w in ws
    ensures var count := |w.data| - |w.left|;
            Return(w.call, ReturnCode(w.min, count), count, w.min) in WriterReturns(ws)
  {
    if w != ws[0] {
      WriterReturnIn(ws[1..], w);
    }
  }

  lemma {:induction false} PrefixIn(a: seq<Return>, b: seq<Return>, all: seq<Return>, r: Return)
    requires a + b <= all && r in b
    ensures r in all
  {
    var j :| 0 <= j < |b| && b[j] == r;
    assert all[|a| + j] == (a + b)[|a| + j] == r;
  }

  lemma {:induction false} GetQueues(p: Pipe, prio: int, n: nat, min: nat, wait: bool)
    ensures var p1, d := Get(p, prio, n, min, wait).0, Pull(p.writers, n);
            || p1.writers == p.writers
            || (p1.writers == d.waiting && p.finished + WriterReturns(d.done) <= p1.finished)
  {
    hide Pull, Bytes, Offered, WriterReturns, Insert;
  }

  lemma {:induction false} PutQueues(p: Pipe, prio: int, data: seq<Byte>, min: nat, wait: bool)
    requires |p.ring| <= p.size
    ensures var p1, f := Put(p, prio, data, min, wait).0, Feed(p.readers, data);
            || p1.readers == p.readers
            || (p1.readers == f.waiting && p.finished + ReaderReturns(f.done) <= p1.finished)
  {
    hide Feed, Demand, ReaderReturns, Insert;
  }

  lemma {:induction false} WaitersKnown(p: Pipe)
    requires Inv(p)
    ensures p.writers != [] ==> |p.ring| == p.size
    ensures p.readers != [] ==> p.ring == []
    ensures forall w :: w in p.writers ==> WriterWaits(w)
    ensures forall r :: r in p.readers ==> ReaderWaits(r)
  {
  }

  /** A writer that a get takes off the wait queue has had all its data taken and
      returns its full count; one left on the queue still has data, and then the
      ring is full. */
  lemma {:induction false} GetReleases(p: Pipe, prio: int, n: nat, min: nat, wait: bool, i: nat)
    requires Inv(p) && i < |p.writers|
    ensures var p1, w := Get(p, prio, n, min, wait).0, p.writers[i];
            && (w.call in WriterCalls(p1.writers) || Return(w.call, Ok, |w.data|, w.min) in p1.finished)
            && (p1.writers != [] ==> |p1.ring| == p1.size)
            && (forall v :: v in p1.writers ==> v.left != [])
  {
    hide Inv, Get, Pull, WriterReturns, WriterCalls;
    var p1, w, d := Get(p, prio, n, min, wait).0, p.writers[i], Pull(p.writers, n);
    GetKeeps(p, prio, n, min, wait);
    GetQueues(p, prio, n, min, wait);
    WaitersKnown(p);
    assert w in p.writers && WriterWaits(w);
    WaitersKnown(p1);
    if p1.writers == p.writers {
      WriterIn(p.writers, i);
    } else {
      PulledOrWaiting(p.writers, n, i);
      if w.(left := []) in d.done {
        WriterReturnIn(d.done, w.(left := []));
        PrefixIn(p.finished, WriterReturns(d.done), p1.finished, Return(w.call, Ok, |w.data|, w.min));
      }
    }
  }

  lemma {:induction false} FedOrWaiting(rs: seq<Reader>, data: seq<Byte>, i: nat)
    requires i < |rs|
    ensures var f := Feed(rs, data);
            || rs[i].call in ReaderCalls(f.waiting)
            || exists b :: |b| == rs[i].want && Serve(rs[i], b) in f.done
  {
    var f := Feed(rs, data);
    if data == [] || rs[0].want > |data| {
      FeedCalls(rs, data);
      ReaderIn(rs, i);
      assert f.done == [] && ReaderCalls(f.done) == multiset{};
    } else if i > 0 {
      FedOrWaiting(rs[1..], data[rs[0].want..], i - 1);
      assert f.waiting == Feed(rs[1..], data[rs[0].want..]).waiting;
      assert forall r :: r in Feed(rs[1..], data[rs[0].want..]).done ==> r in f.done;
    } else {
      var b := data[..rs[0].want];
      assert |b| == rs[0].want && Serve(rs[0], b) in f.done;
    }
  }

  lemma {:induction false} ReaderReturnIn(rs: seq<Reader>, r: Reader)
    requires r in rs
    ensures Return(r.call, ReturnCode(r.min, |r.got|), |r.got|, r.min) in ReaderReturns(rs)
  {
    if r != rs[0] {
      ReaderReturnIn(rs[1..], r);
    }
  }

  /** A reader that a put takes off the wait queue has got all it asked for. */
  lemma {:induction false} PutReleases(p: Pipe, prio: int, data: seq<Byte>, min: nat, wait: bool, i: nat)
    requires Inv(p) && i < |p.readers|
    ensures |p.ring| <= p.size
    ensures var p1, r := Put(p, prio, data, min, wait).0, p.readers[i];
            && (r.call in ReaderCalls(p1.readers) || Return(r.call, Ok, |r.got| + r.want, r.min) in p1.finished)
            && (p1.readers != [] ==> p1.ring == [])
            && (forall v :: v in p1.readers ==> v.want > 0)
  {
    hide Inv, Put, Feed, ReaderReturns, ReaderCalls;
    RingFits(p);
    var p1, r, f := Put(p, prio, data, min, wait).0, p.readers[i], Feed(p.readers, data);
    PutKeeps(p, prio, data, min, wait);
    PutQueues(p, prio, data, min, wait);
    WaitersKnown(p);
    assert r in p.readers && ReaderWaits(r);
    WaitersKnown(p1);
    if p1.readers == p.readers {
      ReaderIn(p.readers, i);
    } else {
      FedOrWaiting(p.readers, data, i);
      if r.call !in ReaderCalls(f.waiting) {
        var b :| |b| == r.want && Serve(r, b) in f.done;
        ReaderReturnIn(f.done, Serve(r, b));
        PrefixIn(p.finished, ReaderReturns(f.done), p1.finished, Return(r.call, Ok, |r.got| + r.want, r.min));
      }
    }
  }
}
