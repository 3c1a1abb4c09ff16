/**
 When a put or a get returns, with what, and when it waits; and how those who
 wait came to.
 */
module PipeOutcomes {
  import opened PipeSpec
  import opened PipeTheorems
  import opened PipeRuns
  import opened WaitQueue

  /** The bytes the waiting readers want, and the room in the ring. */
  function Takers(p: Pipe): int {
    Demand(p.readers) + p.size - |p.ring|
  }

  /** The bytes in the ring, and those the waiting writers have left. */
  function Stock(p: Pipe): nat {
    |p.ring| + |Offered(p.writers)|
  }

  /** The last return noted is this one. */
  predicate Notes(p: Pipe, c: CallId, r: Outcome, min: nat) {
    r.Returned? && p.finished != [] && p.finished[|p.finished| - 1] == Return(c, r.code, r.count, min)
  }

  // ---- put -------------------------------------------------------------------------

  /** A minimum above the size of the request is refused; the pipe is as it was. */
  lemma {:induction false} PutInvalid(p: Pipe, prio: int, data: seq<Byte>, min: nat, wait: bool)
    requires |p.ring| <= p.size
    ensures var (p1, r) := Put(p, prio, data, min, wait);
            && (r.Returned? && r.code == Invalid <==> min > |data|)
            && (min > |data| ==> r.count == 0 && Notes(p1, p.next, r, min)
                                 && p1 == p.(next := p.next + 1, finished := p1.finished))
  {
    hide PutMoves, Insert, Demand;
  }

  /** A put that may wait places as many bytes as can be placed, and returns exactly
      when those are all, or at least a minimum above zero. Otherwise its caller
      waits with the rest of its bytes. */
  lemma {:induction false} PutWaits(p: Pipe, prio: int, data: seq<Byte>, min: nat)
    requires |p.ring| <= p.size && min <= |data|
    ensures var (p1, r) := Put(p, prio, data, min, true);
            var n := if |data| < Takers(p) then |data| else Takers(p);
            && 0 <= n <= |data| && p1.next == p.next + 1
            && (r == Returned(Ok, n) <==> n == |data| || 0 < min <= n)
            && (r == Blocked <==> n < |data| && (min == 0 || n < min))
            && (r.Returned? ==> Notes(p1, p.next, r, min) && p1.writers == p.writers)
            && (r == Blocked ==> p1.writers == Insert(p.writers, Writer(p.next, prio, min, data, data[n..]), WriterPrio))
  {
    hide PutMoves, Insert, Demand;
    PutMovesWriters(p.(next := p.next + 1), p.next, data);
  }

  lemma {:induction false} PutMovesWriters(p: Pipe, c: CallId, data: seq<Byte>)
    requires |p.ring| <= p.size
    ensures PutMoves(p, c, data).writers == p.writers && PutMoves(p, c, data).next == p.next
  {
  }

  /** Readers are served in the order they wait: each gets the bytes that follow what
      those in front of it want, all it wants, or what there is, or none. */
  lemma {:induction false} FeedInOrder(rs: seq<Reader>, data: seq<Byte>, i: nat)
    requires i < |rs| && forall j :: 0 <= j < |rs| ==> rs[j].want > 0
    ensures var f, r, from := Feed(rs, data), rs[i], Demand(rs[..i]);
            && (from + r.want <= |data| ==> Serve(r, data[from..from + r.want]) in f.done)
            && (from < |data| < from + r.want ==> f.waiting == [Serve(r, data[from..])] + rs[i + 1..])
            && (|data| <= from ==> r in f.waiting)
  {
    if i == 0 {
      assert data[0..] == data;
      assert rs[..0] == [];
    } else {
      assert rs[..i][1..] == rs[1..][..i - 1];
      assert Demand(rs[..i]) == rs[0].want + Demand(rs[1..][..i - 1]);
      if rs[0].want <= |data| {
        var rest := data[rs[0].want..];
        FeedInOrder(rs[1..], rest, i - 1);
        var from := Demand(rs[..i]);
        assert from + rs[i].want <= |data| ==> rest[from - rs[0].want..from - rs[0].want + rs[i].want] == data[from..from + rs[i].want];
        assert from <= |data| ==> rest[from - rs[0].want..] == data[from..];
      }
    }
  }

  // ---- get -------------------------------------------------------------------------

  lemma {:induction false} GetInvalid(p: Pipe, prio: int, n: nat, min: nat, wait: bool)
    ensures var (p1, out, r) := Get(p, prio, n, min, wait);
            && (r.Returned? && r.code == Invalid <==> min > n)
            && (min > n ==> r.count == 0 && out == [] && Notes(p1, p.next, r, min)
                            && p1 == p.(next := p.next + 1, finished := p1.finished))
  {
    hide GetMoves, Insert, Offered;
  }

  /** A get that may wait takes as many bytes as there are, and returns exactly when
      those are all it wants, or at least a minimum above zero. */
  lemma {:induction false} GetWaits(p: Pipe, prio: int, size: nat, min: nat)
    requires min <= size
    ensures var (p1, out, r) := Get(p, prio, size, min, true);
            var n := if size < Stock(p) then size else Stock(p);
            && |out| == n && p1.next == p.next + 1
            && (r == Returned(Ok, n) <==> n == size || 0 < min <= n)
            && (r == Blocked <==> n < size && (min == 0 || n < min))
            && (r.Returned? ==> Notes(p1, p.next, r, min) && p1.readers == p.readers)
            && (r == Blocked ==> p1.readers == Insert(p.readers, Reader(p.next, prio, min, out, size - n), ReaderPrio))
  {
    hide GetMoves, Insert, Offered;
    GetMovesReaders(p.(next := p.next + 1), p.next, size);
  }

  lemma {:induction false} GetMovesReaders(p: Pipe, c: CallId, n: nat)
    ensures GetMoves(p, c, n).0.readers == p.readers && GetMoves(p, c, n).0.next == p.next
  {
  }

  // ---- timeouts --------------------------------------------------------------------

  /** A put whose timeout runs out reports the bytes taken from it, with success exactly
      if those are its minimum, and -EAGAIN otherwise; they stay taken. */
  lemma {:induction false} PutTimesOut(p: Pipe, i: nat)
    requires i < |p.writers|
    ensures var w := p.writers[i];
            var taken := |w.data| - |w.left|;
            ExpireWriter(p, i)
            == p.(writers := p.writers[..i] + p.writers[i + 1..],
                  finished := p.finished + [Return(w.call, if taken >= w.min then Ok else Again, taken, w.min)])
  {
    var ws := [p.writers[i]];
    assert ws[1..] == [];
    assert WriterReturns(ws) == [WriterReturns(ws)[0]] + WriterReturns(ws[1..]);
  }

  lemma {:induction false} GetTimesOut(p: Pipe, i: nat)
    requires i < |p.readers|
    ensures var r := p.readers[i];
            ExpireReader(p, i)
            == p.(readers := p.readers[..i] + p.readers[i + 1..],
                  finished := p.finished + [Return(r.call, if |r.got| >= r.min then Ok else Again, |r.got|, r.min)])
  {
    var rs := [p.readers[i]];
    assert rs[1..] == [];
    assert ReaderReturns(rs) == [ReaderReturns(rs)[0]] + ReaderReturns(rs[1..]);
  }

  // ---- where those who wait come from --------------------------------------------------

  /** The same call, some of whose bytes may have been taken since. */
  predicate SameWriter(v: Writer, w: Writer) {
    v.call == w.call && v.prio == w.prio && v.min == w.min && v.data == w.data
  }

  predicate SameReader(v: Reader, r: Reader) {
    v.call == r.call && v.prio == r.prio && v.min == r.min && v.got <= r.got && |v.got| + v.want == |r.got| + r.want
  }

  lemma {:induction false} PulledFrom(ws: seq<Writer>, n: nat, w: Writer)
    requires w in Pull(ws, n).waiting
    ensures exists v :: v in ws && SameWriter(v, w)
  {
    if ws == [] || n == 0 || |ws[0].left| > n {
      var i :| 0 <= i < |Pull(ws, n).waiting| && Pull(ws, n).waiting[i] == w;
      assert ws[i] in ws && SameWriter(ws[i], w);
    } else {
      PulledFrom(ws[1..], n - |ws[0].left|, w);
      var v :| v in ws[1..] && SameWriter(v, w);
      assert v in ws;
    }
  }

  lemma {:induction false} FedFrom(rs: seq<Reader>, data: seq<Byte>, r: Reader)
    requires r in Feed(rs, data).waiting
    ensures exists v :: v in rs && SameReader(v, r)
  {
    if rs == [] || data == [] || rs[0].want > |data| {
      var i :| 0 <= i < |Feed(rs, data).waiting| && Feed(rs, data).waiting[i] == r;
      assert rs[i] in rs && SameReader(rs[i], r);
    } else {
      FedFrom(rs[1..], data[rs[0].want..], r);
      var v :| v in rs[1..] && SameReader(v, r);
      assert v in rs;
    }
  }

  /** Whether the put `op`, made in state `p`, is how writer `w` came to wait: with all
      the room taken it had placed `n` bytes, not all of them, and fewer than its
      minimum if that is above zero. */
  predicate BlockedPut(p: Pipe, op: Op, w: Writer) {
    && op == DoPut(w.prio, w.data, w.min, true) && p.next == w.call
    && w.min <= |w.data| && Takers(p) < |w.data| && (w.min > 0 ==> Takers(p) < w.min)
  }

  predicate BlockedGet(p: Pipe, op: Op, r: Reader) {
    && op == DoGet(r.prio, |r.got| + r.want, r.min, true) && p.next == r.call
    && r.min <= |r.got| + r.want && Stock(p) < |r.got| + r.want && (r.min > 0 ==> Stock(p) < r.min)
  }

  lemma {:induction false} InsertIn<T>(l: seq<T>, x: T, prio: T -> int, y: T)
    requires y in Insert(l, x, prio)
    ensures y in l || y == x
  {
    if l != [] && !(prio(x) < prio(l[0])) && y != l[0] {
      InsertIn(l[1..], x, prio, y);
    }
  }

  lemma {:induction false} PutWriters(p: Pipe, op: Op, w: Writer)
    requires |p.ring| <= p.size && op.DoPut? && w in Step(p, op).writers
    ensures w in p.writers || BlockedPut(p, op, w)
  {
    hide Insert, Demand, PutMoves, Put;
    PutInvalid(p, op.prio, op.data, op.putMin, op.putWait);
    if op.putMin <= |op.data| {
      if op.putWait {
        PutWaits(p, op.prio, op.data, op.putMin);
        var n := if |op.data| < Takers(p) then |op.data| else Takers(p);
        if Put(p, op.prio, op.data, op.putMin, true).1 == Blocked {
          InsertIn(p.writers, Writer(p.next, op.prio, op.putMin, op.data, op.data[n..]), WriterPrio, w);
        }
      } else {
        PutNever(p, op.prio, op.data, op.putMin);
      }
    }
  }

  lemma {:induction false} PutNever(p: Pipe, prio: int, data: seq<Byte>, min: nat)
    requires |p.ring| <= p.size
    ensures Put(p, prio, data, min, false).0.writers == p.writers
  {
    hide Feed, Demand, ReaderReturns;
  }

  lemma {:induction false} GetReaders(p: Pipe, op: Op, r: Reader)
    requires |p.ring| <= p.size && op.DoGet? && r in Step(p, op).readers
    ensures r in p.readers || BlockedGet(p, op, r)
  {
    hide Insert, Offered, GetMoves, Get;
    GetInvalid(p, op.prio, op.size, op.getMin, op.getWait);
    if op.getMin <= op.size {
      if op.getWait {
        GetWaits(p, op.prio, op.size, op.getMin);
        var out := Get(p, op.prio, op.size, op.getMin, true).1;
        if Get(p, op.prio, op.size, op.getMin, true).2 == Blocked {
          InsertIn(p.readers, Reader(p.next, op.prio, op.getMin, out, op.size - |out|), ReaderPrio, r);
        }
      } else {
        GetNever(p, op.prio, op.size, op.getMin);
      }
    }
  }

  lemma {:induction false} GetNever(p: Pipe, prio: int, n: nat, min: nat)
    ensures Get(p, prio, n, min, false).0.readers == p.readers
  {
    hide Pull, Offered, WriterReturns, Bytes;
  }

  /** Whoever waits after a step waited before it, or came to wait by it. */
  lemma {:induction false} StepWriters(p: Pipe, op: Op, w: Writer)
    requires |p.ring| <= p.size && w in Step(p, op).writers
    ensures (exists v :: v in p.writers && SameWriter(v, w)) || BlockedPut(p, op, w)
  {
    hide Put, Get, Pull, Insert;
    match op
    case DoPut(prio, data, min, wait) =>
      PutWriters(p, op, w);
      assert w in p.writers ==> SameWriter(w, w);
    case DoGet(prio, n, min, wait) =>
      GetQueues(p, prio, n, min, wait);
      if w in p.writers {
        assert SameWriter(w, w);
      } else {
        PulledFrom(p.writers, n, w);
      }
    case PutTimeout(i) => assert w in p.writers && SameWriter(w, w);
    case GetTimeout(i) => assert w in p.writers && SameWriter(w, w);
  }

  lemma {:induction false} StepReaders(p: Pipe, op: Op, r: Reader)
    requires |p.ring| <= p.size && r in Step(p, op).readers
    ensures (exists v :: v in p.readers && SameReader(v, r)) || BlockedGet(p, op, r)
  {
    hide Put, Get, Feed, Insert;
    match op
    case DoPut(prio, data, min, wait) =>
      PutQueues(p, prio, data, min, wait);
      if r in p.readers {
        assert SameReader(r, r);
      } else {
        FedFrom(p.readers, data, r);
      }
    case DoGet(prio, n, min, wait) =>
      GetReaders(p, op, r);
      assert r in p.readers ==> SameReader(r, r);
    case PutTimeout(i) => assert r in p.readers && SameReader(r, r);
    case GetTimeout(i) => assert r in p.readers && SameReader(r, r);
  }

  lemma {:induction false} RunLast(p: Pipe, ops: seq<Op>)
    requires Inv(p) && ops != []
    ensures var q := Run(p, ops[..|ops| - 1]);
            |q.ring| <= q.size && Run(p, ops) == Step(q, ops[|ops| - 1])
    decreases |ops|
  {
    hide Inv, Step;
    StepKeeps(p, ops[0]);
    if |ops| == 1 {
      assert ops[1..] == [] && ops[..0] == [];
      assert Run(Step(p, ops[0]), []) == Step(p, ops[0]);
    } else {
      RunLast(Step(p, ops[0]), ops[1..]);
      assert ops[..|ops| - 1][1..] == ops[1..][..|ops[1..]| - 1];
    }
  }

  /** Step number `i` of the run is the put that made `w` wait. */
  ghost predicate CameBy(size: nat, ops: seq<Op>, i: nat, w: Writer)
    requires i < |ops|
  {
    BlockedPut(Run(Initial(size), ops[..i]), ops[i], w)
  }

  ghost predicate ReaderCameBy(size: nat, ops: seq<Op>, i: nat, r: Reader)
    requires i < |ops|
  {
    BlockedGet(Run(Initial(size), ops[..i]), ops[i], r)
  }

  lemma {:induction false} NobodyAtFirst(size: nat)
    ensures Run(Initial(size), []).writers == [] && Run(Initial(size), []).readers == []
  {
  }

  /** Over every run: whoever waits in a put came to wait by a put that found less
      room than its bytes, and less than its minimum if that is above zero. */
  lemma {:induction false} WritersHadToWait(size: nat, ops: seq<Op>, w: Writer) returns (i: nat)
    requires w in Run(Initial(size), ops).writers
    ensures i < |ops| && CameBy(size, ops, i, w)
    decreases |ops|
  {
    hide Inv, Step, Run, Initial, BlockedPut, SameWriter;
    NobodyAtFirst(size);
    RunLast(Initial(size), ops);
    var n := |ops| - 1;
    var p := Run(Initial(size), ops[..n]);
    StepWriters(p, ops[n], w);
    if BlockedPut(p, ops[n], w) {
      i := n;
    } else {
      var v :| v in p.writers && SameWriter(v, w);
      i := WritersHadToWait(size, ops[..n], v);
      assert ops[..n][..i] == ops[..i];
      SamePut(Run(Initial(size), ops[..i]), ops[i], v, w);
    }
  }

  lemma {:induction false} SamePut(p: Pipe, op: Op, v: Writer, w: Writer)
    requires SameWriter(v, w) && BlockedPut(p, op, v)
    ensures BlockedPut(p, op, w)
  {
  }

  lemma {:induction false} SameGet(p: Pipe, op: Op, v: Reader, r: Reader)
    requires SameReader(v, r) && BlockedGet(p, op, v)
    ensures BlockedGet(p, op, r)
  {
  }

  lemma {:induction false} ReadersHadToWait(size: nat, ops: seq<Op>, r: Reader) returns (i: nat)
    requires r in Run(Initial(size), ops).readers
    ensures i < |ops| && ReaderCameBy(size, ops, i, r)
    decreases |ops|
  {
    hide Inv, Step, Run, Initial, BlockedGet, SameReader;
    NobodyAtFirst(size);
    RunLast(Initial(size), ops);
    var n := |ops| - 1;
    var p := Run(Initial(size), ops[..n]);
    StepReaders(p, ops[n], r);
    if BlockedGet(p, ops[n], r) {
      i := n;
    } else {
      var v :| v in p.readers && SameReader(v, r);
      i := ReadersHadToWait(size, ops[..n], v);
      assert ops[..n][..i] == ops[..i];
      SameGet(Run(Initial(size), ops[..i]), ops[i], v, r);
    }
  }
}
