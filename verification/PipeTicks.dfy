/**
 Timeouts while a call copies. A call picks the threads it will satisfy with the
 pipe locked, and then copies with only the scheduler locked: ticks are delivered,
 and the timeout of a thread left on a wait queue can run out. The call still
 copies to or from the one it has a pointer to. All of that is as if the timeouts
 had run out just after the call.
 */
module PipeTicks {
  import opened WaitQueue
  import opened PipeSpec
  import opened PipeTheorems
  import opened PipeRuns

  /** A thread whose timeout has run out during the call; it returns when the call
      lets it run. */
  datatype Late = LateReader(r: Reader) | LateWriter(w: Writer)

  /** The pipe while a call copies: its wait queues as they are now. */
  datatype Busy = Busy(readers: seq<Reader>, writers: seq<Writer>, late: seq<Late>)

  datatype Tick = ReaderTimesOut(i: nat) | WriterTimesOut(i: nat)

  function Without<T>(l: seq<T>, i: nat): seq<T>
    requires i < |l|
  {
    l[..i] + l[i + 1..]
  }

  function Ticked(b: Busy, t: Tick): Busy {
    match t
    case ReaderTimesOut(i) =>
      if i < |b.readers| then b.(readers := Without(b.readers, i), late := b.late + [LateReader(b.readers[i])]) else b
    case WriterTimesOut(i) =>
      if i < |b.writers| then b.(writers := Without(b.writers, i), late := b.late + [LateWriter(b.writers[i])]) else b
  }

  function TickedAll(b: Busy, ts: seq<Tick>): Busy
    decreases |ts|
  {
    if ts == [] then b else TickedAll(Ticked(b, ts[0]), ts[1..])
  }

  // ---- through the pointer ----------------------------------------------------------------

  /** The record of the reader the call has a pointer to, after copying; `after` is
      what the call leaves waiting, that reader in front. */
  function ReaderNow(r: Reader, after: seq<Reader>): Reader {
    if after != [] && r.call == after[0].call then after[0] else r
  }

  function ReadersNow(l: seq<Reader>, after: seq<Reader>): seq<Reader> {
    seq(|l|, i requires 0 <= i < |l| => ReaderNow(l[i], after))
  }

  function WriterNow(w: Writer, after: seq<Writer>): Writer {
    if after != [] && w.call == after[0].call then after[0] else w
  }

  function WritersNow(l: seq<Writer>, after: seq<Writer>): seq<Writer> {
    seq(|l|, i requires 0 <= i < |l| => WriterNow(l[i], after))
  }

  /** What the threads that timed out return with, in order. */
  function LateReturns(ls: seq<Late>, rs: seq<Reader>, ws: seq<Writer>): seq<Return> {
    if ls == [] then []
    else
      (match ls[0]
       case LateReader(r) => ReaderReturns([ReaderNow(r, rs)])
       case LateWriter(w) => WriterReturns([WriterNow(w, ws)]))
      + LateReturns(ls[1..], rs, ws)
  }

  // ---- a put ----------------------------------------------------------------------------------

  /** Neither -EINVAL nor -EIO */
  predicate PutGoes(p: Pipe, data: seq<Byte>, min: nat, wait: bool)
    requires |p.ring| <= p.size
  {
    min <= |data| && (wait || Demand(p.readers) + (p.size - |p.ring|) >= min)
  }

  /** pipe_xfer_prepare(): the readers that will be satisfied leave the queue, and
      with it their timeouts. */
  function BeginPut(p: Pipe, data: seq<Byte>): Busy
    requires |Feed(p.readers, data).done| <= |p.readers|
  {
    Busy(p.readers[|Feed(p.readers, data).done|..], p.writers, [])
  }

  /** From the copying on; `p` is the pipe as it was when the call began. */
  function EndPut(p: Pipe, b: Busy, prio: int, data: seq<Byte>, min: nat, wait: bool): Pipe
    requires |p.ring| <= p.size
  {
    var c, f, n, rest := p.next, Feed(p.readers, data), PutCount(p, data), PutRest(p, data);
    var p1 := p.(next := c + 1, writers := b.writers, readers := ReadersNow(b.readers, f.waiting),
                 ring := p.ring + rest[..Min(p.size - |p.ring|, |rest|)],
                 sent := p.sent + [Chunk(c, data[..n])],
                 delivered := p.delivered + f.chunks,
                 finished := p.finished + ReaderReturns(f.done));
    var p2 := if n == |data| || (wait && n >= min && min > 0) then Finish(p1, Return(c, Ok, n, min))
              else if wait then PendWriter(p1, Writer(c, prio, min, data, data[n..]))
              else Finish(p1, Return(c, ReturnCode(min, n), n, min));
    p2.(finished := p2.finished + LateReturns(b.late, f.waiting, []))
  }

  // ---- a get -----------------------------------------------------------------------------------

  predicate GetGoes(p: Pipe, n: nat, min: nat, wait: bool) {
    min <= n && (wait || |Offered(p.writers)| + |p.ring| >= min)
  }

  function BeginGet(p: Pipe, n: nat): Busy
    requires |Pull(p.writers, n).done| <= |p.writers|
  {
    Busy(p.readers, p.writers[|Pull(p.writers, n).done|..], [])
  }

  function EndGet(p: Pipe, b: Busy, prio: int, n: nat, min: nat, wait: bool): Pipe {
    PullBytes(p.writers, n);
    var c, d, k := p.next, Pull(p.writers, n), GetCount(p, n);
    var stream := p.ring + Bytes(d.chunks);
    var out := stream[..k];
    var p1 := p.(next := c + 1, readers := b.readers, writers := WritersNow(b.writers, d.waiting),
                 ring := stream[k..],
                 sent := p.sent + d.chunks,
                 delivered := p.delivered + [Chunk(c, out)],
                 finished := p.finished + WriterReturns(d.done));
    var p2 := if k == n || (wait && k >= min && min > 0) then Finish(p1, Return(c, Ok, k, min))
              else if wait then PendReader(p1, Reader(c, prio, min, out, n - k))
              else Finish(p1, Return(c, ReturnCode(min, k), k, min));
    p2.(finished := p2.finished + LateReturns(b.late, [], d.waiting))
  }

  // ---- without ticks ----------------------------------------------------------------------------

  /** Feeding changes the reader in front of those left, and no other. */
  lemma {:induction false} FeedLeaves(rs: seq<Reader>, data: seq<Byte>)
    ensures var f, k := Feed(rs, data), |Feed(rs, data).done|;
            && k <= |rs| && |f.waiting| == |rs| - k
            && (f.waiting != [] ==> f.waiting[0].call == rs[k].call && f.waiting[1..] == rs[k + 1..])
  {
    if rs == [] || data == [] {
    } else if rs[0].want <= |data| {
      FeedLeaves(rs[1..], data[rs[0].want..]);
    } else {
      assert Feed(rs, data).waiting[1..] == rs[1..];
    }
  }

  lemma {:induction false} PullLeaves(ws: seq<Writer>, n: nat)
    ensures var d, k := Pull(ws, n), |Pull(ws, n).done|;
            && k <= |ws| && |d.waiting| == |ws| - k
            && (d.waiting != [] ==> d.waiting[0].call == ws[k].call && d.waiting[1..] == ws[k + 1..])
  {
    if ws == [] || n == 0 {
    } else if |ws[0].left| <= n {
      PullLeaves(ws[1..], n - |ws[0].left|);
    } else {
      assert Pull(ws, n).waiting[1..] == ws[1..];
    }
  }

  predicate ReadersApart(l: seq<Reader>) {
    forall i, j :: 0 <= i < j < |l| ==> l[i].call != l[j].call
  }

  predicate WritersApart(l: seq<Writer>) {
    forall i, j :: 0 <= i < j < |l| ==> l[i].call != l[j].call
  }

  lemma {:induction false} ReaderCounted(l: seq<Reader>, i: nat)
    requires i < |l|
    ensures ReaderCalls(l)[l[i].call] >= 1
  {
    if i == 0 {
    } else {
      ReaderCounted(l[1..], i - 1);
    }
  }

  lemma {:induction false} ReadersApartBy(l: seq<Reader>)
    requires forall x :: ReaderCalls(l)[x] <= 1
    ensures ReadersApart(l)
  {
    if l == [] {
    } else {
      forall x ensures ReaderCalls(l[1..])[x] <= 1 {
        assert ReaderCalls(l)[x] >= ReaderCalls(l[1..])[x];
      }
      ReadersApartBy(l[1..]);
      forall j | 0 < j < |l| ensures l[0].call != l[j].call {
        ReaderCounted(l[1..], j - 1);
      }
    }
  }

  lemma {:induction false} WriterCounted(l: seq<Writer>, i: nat)
    requires i < |l|
    ensures WriterCalls(l)[l[i].call] >= 1
  {
    if i == 0 {
    } else {
      WriterCounted(l[1..], i - 1);
    }
  }

  lemma {:induction false} WritersApartBy(l: seq<Writer>)
    requires forall x :: WriterCalls(l)[x] <= 1
    ensures WritersApart(l)
  {
    if l == [] {
    } else {
      forall x ensures WriterCalls(l[1..])[x] <= 1 {
        assert WriterCalls(l)[x] >= WriterCalls(l[1..])[x];
      }
      WritersApartBy(l[1..]);
      forall j | 0 < j < |l| ensures l[0].call != l[j].call {
        WriterCounted(l[1..], j - 1);
      }
    }
  }

  lemma {:induction false} AllApart(p: Pipe)
    requires Inv(p)
    ensures ReadersApart(p.readers) && WritersApart(p.writers)
  {
    hide ReaderCalls, WriterCalls, ReturnCalls, Shape, Stream, SharesOk, ReturnsOk;
    forall x ensures ReaderCalls(p.readers)[x] <= 1 && WriterCalls(p.writers)[x] <= 1 {
      assert Copies(p, x) <= 1;
    }
    ReadersApartBy(p.readers);
    WritersApartBy(p.writers);
  }

  lemma {:induction false} ReadersAfter(rs: seq<Reader>, data: seq<Byte>)
    requires ReadersApart(rs)
    ensures var f := Feed(rs, data);
            |f.done| <= |rs| && ReadersNow(rs[|f.done|..], f.waiting) == f.waiting
  {
    FeedLeaves(rs, data);
    hide Feed;
    var f, k := Feed(rs, data), |Feed(rs, data).done|;
    assert forall i :: 1 <= i < |f.waiting| ==> f.waiting[i] == f.waiting[1..][i - 1] == rs[k + 1..][i - 1];
  }

  lemma {:induction false} WritersAfter(ws: seq<Writer>, n: nat)
    requires WritersApart(ws)
    ensures var d := Pull(ws, n);
            |d.done| <= |ws| && WritersNow(ws[|d.done|..], d.waiting) == d.waiting
  {
    PullLeaves(ws, n);
    hide Pull;
    var d, k := Pull(ws, n), |Pull(ws, n).done|;
    assert forall i :: 1 <= i < |d.waiting| ==> d.waiting[i] == d.waiting[1..][i - 1] == ws[k + 1..][i - 1];
  }

  lemma {:induction false} QuietPut(p: Pipe, prio: int, data: seq<Byte>, min: nat, wait: bool)
    requires Inv(p) && |p.ring| <= p.size && PutGoes(p, data, min, wait)
    ensures |Feed(p.readers, data).done| <= |p.readers|
    ensures EndPut(p, BeginPut(p, data), prio, data, min, wait) == Put(p, prio, data, min, wait).0
  {
    hide Inv, Feed, Demand, Insert, ReadersNow, ReaderReturns;
    AllApart(p);
    ReadersAfter(p.readers, data);
    hide ReadersApart, WritersApart;
  }

  lemma {:induction false} QuietGet(p: Pipe, prio: int, n: nat, min: nat, wait: bool)
    requires Inv(p) && GetGoes(p, n, min, wait)
    ensures |Pull(p.writers, n).done| <= |p.writers|
    ensures EndGet(p, BeginGet(p, n), prio, n, min, wait) == Get(p, prio, n, min, wait).0
  {
    hide Inv, Pull, Offered, Insert, WritersNow, Bytes, WriterReturns;
    AllApart(p);
    WritersAfter(p.writers, n);
    hide ReadersApart, WritersApart;
  }

  // ---- one tick ---------------------------------------------------------------------------------

  lemma {:induction false} InsertCons<T>(h: T, tail: seq<T>, x: T, prio: T -> int)
    requires prio(h) <= prio(x)
    ensures Insert([h] + tail, x, prio) == [h] + Insert(tail, x, prio)
  {
    assert ([h] + tail)[1..] == tail;
  }

  lemma {:induction false} WithoutCons<T>(h: T, tail: seq<T>, i: nat)
    requires i < |tail|
    ensures Without([h] + tail, i + 1) == [h] + Without(tail, i)
  {
  }

  /** Inserting and removing another waiter commute. */
  lemma {:induction false} InsertRemove<T>(l: seq<T>, x: T, prio: T -> int, i: nat) returns (j: nat)
    requires Ordered(l, prio) && i < |l|
    ensures j < |Insert(l, x, prio)| && Insert(l, x, prio)[j] == l[i]
    ensures Insert(Without(l, i), x, prio) == Without(Insert(l, x, prio), j)
  {
    var m, h, tail := Without(l, i), l[0], l[1..];
    assert l == [h] + tail;
    if prio(x) < prio(h) {
      j := i + 1;
      assert m != [] ==> prio(x) < prio(m[0]);
      WithoutCons(x, l, i);
    } else if i == 0 {
      j := 0;
      assert m == tail;
      InsertCons(h, tail, x, prio);
      assert Without([h] + Insert(tail, x, prio), 0) == Insert(tail, x, prio);
    } else {
      var k := InsertRemove(tail, x, prio, i - 1);
      j := k + 1;
      hide Insert;
      WithoutCons(h, tail, i - 1);
      InsertCons(h, Without(tail, i - 1), x, prio);
      InsertCons(h, tail, x, prio);
      WithoutCons(h, Insert(tail, x, prio), k);
    }
  }

  lemma {:induction false} LateAppend(ls: seq<Late>, x: Late, rs: seq<Reader>, ws: seq<Writer>)
    ensures LateReturns(ls + [x], rs, ws) == LateReturns(ls, rs, ws) + LateReturns([x], rs, ws)
  {
    if ls == [] {
      assert ls + [x] == [x];
    } else {
      assert (ls + [x])[1..] == ls[1..] + [x];
      LateAppend(ls[1..], x, rs, ws);
    }
  }

  lemma {:induction false} LateOne(x: Late, rs: seq<Reader>, ws: seq<Writer>)
    ensures LateReturns([x], rs, ws) == match x
                                        case LateReader(r) => ReaderReturns([ReaderNow(r, rs)])
                                        case LateWriter(w) => WriterReturns([WriterNow(w, ws)])
  {
    assert [x][1..] == [];
  }

  lemma {:induction false} ReadersNowWithout(l: seq<Reader>, after: seq<Reader>, i: nat)
    requires i < |l|
    ensures ReadersNow(Without(l, i), after) == Without(ReadersNow(l, after), i)
    ensures ReadersNow(l, after)[i] == ReaderNow(l[i], after)
  {
  }

  lemma {:induction false} WritersNowWithout(l: seq<Writer>, after: seq<Writer>, i: nat)
    requires i < |l|
    ensures WritersNow(Without(l, i), after) == Without(WritersNow(l, after), i)
    ensures WritersNow(l, after)[i] == WriterNow(l[i], after)
  {
  }

  /** A reader's timeout during a put is its timeout after the put. */
  lemma {:induction false} PutReaderTick(p: Pipe, b: Busy, prio: int, data: seq<Byte>, min: nat, wait: bool, i: nat)
    requires |p.ring| <= p.size && i < |b.readers|
    ensures var e := EndPut(p, b, prio, data, min, wait);
            && i < |e.readers|
            && EndPut(p, Ticked(b, ReaderTimesOut(i)), prio, data, min, wait) == ExpireReader(e, i)
  {
    hide Feed, Demand, Insert, ReaderReturns, LateReturns;
    var after := Feed(p.readers, data).waiting;
    ReadersNowWithout(b.readers, after, i);
    LateAppend(b.late, LateReader(b.readers[i]), after, []);
    LateOne(LateReader(b.readers[i]), after, []);
    hide ReadersNow, ReaderNow;
  }

  predicate PutPends(p: Pipe, data: seq<Byte>, min: nat, wait: bool)
    requires |p.ring| <= p.size
  {
    wait && PutCount(p, data) != |data| && !(PutCount(p, data) >= min && min > 0)
  }

  lemma {:induction false} PutWriterTick(p: Pipe, b: Busy, prio: int, data: seq<Byte>, min: nat, wait: bool, i: nat) returns (j: nat)
    requires |p.ring| <= p.size && i < |b.writers| && Ordered(b.writers, WriterPrio)
    ensures var e := EndPut(p, b, prio, data, min, wait);
            && j < |e.writers|
            && EndPut(p, Ticked(b, WriterTimesOut(i)), prio, data, min, wait) == ExpireWriter(e, j)
  {
    hide Feed, Demand, Insert, ReaderReturns, WriterReturns, LateReturns, ReadersNow, Ordered;
    var after := Feed(p.readers, data).waiting;
    LateAppend(b.late, LateWriter(b.writers[i]), after, []);
    LateOne(LateWriter(b.writers[i]), after, []);
    if PutPends(p, data, min, wait) {
      j := InsertRemove(b.writers, Writer(p.next, prio, min, data, data[PutCount(p, data)..]), WriterPrio, i);
    } else {
      j := i;
    }
  }

  predicate GetPends(p: Pipe, n: nat, min: nat, wait: bool) {
    wait && GetCount(p, n) != n && !(GetCount(p, n) >= min && min > 0)
  }

  /** What a get gives its caller. */
  function Taken(p: Pipe, n: nat): seq<Byte> {
    PullBytes(p.writers, n);
    (p.ring + Bytes(Pull(p.writers, n).chunks))[..GetCount(p, n)]
  }

  lemma {:induction false} GetReaderTick(p: Pipe, b: Busy, prio: int, n: nat, min: nat, wait: bool, i: nat) returns (j: nat)
    requires i < |b.readers| && Ordered(b.readers, ReaderPrio)
    ensures var e := EndGet(p, b, prio, n, min, wait);
            && j < |e.readers|
            && EndGet(p, Ticked(b, ReaderTimesOut(i)), prio, n, min, wait) == ExpireReader(e, j)
  {
    hide Pull, Offered, Bytes, Insert, ReaderReturns, WriterReturns, LateReturns, WritersNow, Ordered;
    PullBytes(p.writers, n);
    var after := Pull(p.writers, n).waiting;
    LateAppend(b.late, LateReader(b.readers[i]), [], after);
    LateOne(LateReader(b.readers[i]), [], after);
    if GetPends(p, n, min, wait) {
      j := InsertRemove(b.readers, Reader(p.next, prio, min, Taken(p, n), n - GetCount(p, n)), ReaderPrio, i);
    } else {
      j := i;
    }
  }

  /** A writer's timeout during a get is its timeout after the get. */
  lemma {:induction false} GetWriterTick(p: Pipe, b: Busy, prio: int, n: nat, min: nat, wait: bool, i: nat)
    requires i < |b.writers|
    ensures var e := EndGet(p, b, prio, n, min, wait);
            && i < |e.writers|
            && EndGet(p, Ticked(b, WriterTimesOut(i)), prio, n, min, wait) == ExpireWriter(e, i)
  {
    hide Pull, Offered, Bytes, Insert, WriterReturns, LateReturns;
    PullBytes(p.writers, n);
    var after := Pull(p.writers, n).waiting;
    WritersNowWithout(b.writers, after, i);
    LateAppend(b.late, LateWriter(b.writers[i]), [], after);
    LateOne(LateWriter(b.writers[i]), [], after);
    hide WritersNow, WriterNow;
  }

  // ---- any number of ticks ------------------------------------------------------------------------

  predicate Sorted(b: Busy) {
    Ordered(b.readers, ReaderPrio) && Ordered(b.writers, WriterPrio)
  }

  lemma {:induction false} WithoutOrdered<T>(l: seq<T>, prio: T -> int, i: nat)
    requires Ordered(l, prio) && i < |l|
    ensures Ordered(Without(l, i), prio)
  {
    var m := Without(l, i);
    assert forall j :: 0 <= j < |m| ==> m[j] == l[if j < i then j else j + 1];
  }

  lemma {:induction false} TickedSorted(b: Busy, t: Tick)
    requires Sorted(b)
    ensures Sorted(Ticked(b, t))
  {
    hide Ordered, Without;
    match t
    case ReaderTimesOut(i) => if i < |b.readers| { WithoutOrdered(b.readers, ReaderPrio, i); }
    case WriterTimesOut(i) => if i < |b.writers| { WithoutOrdered(b.writers, WriterPrio, i); }
  }

  predicate Timeouts(ops: seq<Op>) {
    forall i :: 0 <= i < |ops| ==> ops[i].PutTimeout? || ops[i].GetTimeout?
  }

  /** The timeout of the same thread after the call. */
  lemma {:induction false} PutTick(p: Pipe, b: Busy, prio: int, data: seq<Byte>, min: nat, wait: bool, t: Tick) returns (op: Op)
    requires |p.ring| <= p.size && Sorted(b)
    ensures var e := EndPut(p, b, prio, data, min, wait);
            && (op.PutTimeout? || op.GetTimeout?)
            && (|e.ring| <= e.size ==> EndPut(p, Ticked(b, t), prio, data, min, wait) == Step(e, op))
  {
    hide EndPut;
    match t
    case ReaderTimesOut(i) =>
      op := GetTimeout(i);
      if i < |b.readers| {
        PutReaderTick(p, b, prio, data, min, wait, i);
      } else {
        PutQueues(p, b, prio, data, min, wait);
      }
    case WriterTimesOut(i) =>
      if i < |b.writers| {
        var j := PutWriterTick(p, b, prio, data, min, wait, i);
        op := PutTimeout(j);
      } else {
        op := PutTimeout(|EndPut(p, b, prio, data, min, wait).writers|);
      }
  }

  lemma {:induction false} PutQueues(p: Pipe, b: Busy, prio: int, data: seq<Byte>, min: nat, wait: bool)
    requires |p.ring| <= p.size
    ensures |EndPut(p, b, prio, data, min, wait).readers| == |b.readers|
  {
  }

  lemma {:induction false} GetTick(p: Pipe, b: Busy, prio: int, n: nat, min: nat, wait: bool, t: Tick) returns (op: Op)
    requires Sorted(b)
    ensures var e := EndGet(p, b, prio, n, min, wait);
            && (op.PutTimeout? || op.GetTimeout?)
            && (|e.ring| <= e.size ==> EndGet(p, Ticked(b, t), prio, n, min, wait) == Step(e, op))
  {
    hide EndGet;
    match t
    case WriterTimesOut(i) =>
      op := PutTimeout(i);
      if i < |b.writers| {
        GetWriterTick(p, b, prio, n, min, wait, i);
      } else {
        GetQueues(p, b, prio, n, min, wait);
      }
    case ReaderTimesOut(i) =>
      if i < |b.readers| {
        var j := GetReaderTick(p, b, prio, n, min, wait, i);
        op := GetTimeout(j);
      } else {
        op := GetTimeout(|EndGet(p, b, prio, n, min, wait).readers|);
      }
  }

  lemma {:induction false} GetQueues(p: Pipe, b: Busy, prio: int, n: nat, min: nat, wait: bool)
    ensures |EndGet(p, b, prio, n, min, wait).writers| == |b.writers|
  {
  }

  lemma {:induction false} PutTicks(p: Pipe, b: Busy, prio: int, data: seq<Byte>, min: nat, wait: bool, ts: seq<Tick>) returns (ops: seq<Op>)
    requires |p.ring| <= p.size && Sorted(b) && Inv(EndPut(p, b, prio, data, min, wait))
    ensures Timeouts(ops)
    ensures EndPut(p, TickedAll(b, ts), prio, data, min, wait) == Run(EndPut(p, b, prio, data, min, wait), ops)
    decreases |ts|
  {
    hide Inv, EndPut, Sorted, Ticked, Step;
    var e := EndPut(p, b, prio, data, min, wait);
    if ts == [] {
      ops := [];
    } else {
      RingFits(e);
      TickedSorted(b, ts[0]);
      var op := PutTick(p, b, prio, data, min, wait, ts[0]);
      StepKeeps(e, op);
      var rest := PutTicks(p, Ticked(b, ts[0]), prio, data, min, wait, ts[1..]);
      ops := [op] + rest;
      assert ops[1..] == rest;
    }
  }

  lemma {:induction false} GetTicks(p: Pipe, b: Busy, prio: int, n: nat, min: nat, wait: bool, ts: seq<Tick>) returns (ops: seq<Op>)
    requires Sorted(b) && Inv(EndGet(p, b, prio, n, min, wait))
    ensures Timeouts(ops)
    ensures EndGet(p, TickedAll(b, ts), prio, n, min, wait) == Run(EndGet(p, b, prio, n, min, wait), ops)
    decreases |ts|
  {
    hide Inv, EndGet, Sorted, Ticked, Step;
    var e := EndGet(p, b, prio, n, min, wait);
    if ts == [] {
      ops := [];
    } else {
      RingFits(e);
      TickedSorted(b, ts[0]);
      var op := GetTick(p, b, prio, n, min, wait, ts[0]);
      StepKeeps(e, op);
      var rest := GetTicks(p, Ticked(b, ts[0]), prio, n, min, wait, ts[1..]);
      ops := [op] + rest;
      assert ops[1..] == rest;
    }
  }

  // ---- whole runs -----------------------------------------------------------------------------------

  /** A step, with the ticks that are delivered while it copies. */
  datatype Timed = Timed(op: Op, ticks: seq<Tick>)

  lemma {:induction false} DoneFits(p: Pipe, data: seq<Byte>, n: nat)
    ensures |Feed(p.readers, data).done| <= |p.readers| && |Pull(p.writers, n).done| <= |p.writers|
  {
    FeedLeaves(p.readers, data);
    PullLeaves(p.writers, n);
  }

  function TimedStep(p: Pipe, t: Timed): Pipe
    requires |p.ring| <= p.size
  {
    match t.op
    case DoPut(prio, data, min, wait) =>
      DoneFits(p, data, 0);
      if PutGoes(p, data, min, wait) then EndPut(p, TickedAll(BeginPut(p, data), t.ticks), prio, data, min, wait)
      else Step(p, t.op)
    case DoGet(prio, n, min, wait) =>
      DoneFits(p, [], n);
      if GetGoes(p, n, min, wait) then EndGet(p, TickedAll(BeginGet(p, n), t.ticks), prio, n, min, wait)
      else Step(p, t.op)
    case _ => Step(p, t.op)
  }

  lemma {:induction false} BeginSorted(p: Pipe, data: seq<Byte>, n: nat)
    requires Inv(p)
    ensures |Feed(p.readers, data).done| <= |p.readers| && Sorted(BeginPut(p, data))
    ensures |Pull(p.writers, n).done| <= |p.writers| && Sorted(BeginGet(p, n))
  {
    DoneFits(p, data, n);
    hide Feed, Pull;
    assert Shape(p);
  }

  /** A call with ticks is that call and then some timeouts. */
  lemma {:induction false} TimedStepIs(p: Pipe, t: Timed) returns (ops: seq<Op>)
    requires Inv(p)
    ensures |p.ring| <= p.size && Timeouts(ops)
    ensures Inv(Step(p, t.op)) && TimedStep(p, t) == Run(Step(p, t.op), ops)
  {
    hide Inv, EndPut, EndGet, BeginPut, BeginGet, Put, Get, PutGoes, GetGoes, Sorted;
    RingFits(p);
    StepKeeps(p, t.op);
    ops := [];
    match t.op {
      case DoPut(prio, data, min, wait) =>
        if PutGoes(p, data, min, wait) {
          QuietPut(p, prio, data, min, wait);
          BeginSorted(p, data, 0);
          ops := PutTicks(p, BeginPut(p, data), prio, data, min, wait, t.ticks);
        }
      case DoGet(prio, n, min, wait) =>
        if GetGoes(p, n, min, wait) {
          QuietGet(p, prio, n, min, wait);
          BeginSorted(p, [], n);
          ops := GetTicks(p, BeginGet(p, n), prio, n, min, wait, t.ticks);
        }
      case _ =>
    }
  }

  lemma {:induction false} RunAppend(p: Pipe, a: seq<Op>, b: seq<Op>)
    requires Inv(p)
    ensures Run(p, a + b) == Run(Run(p, a), b)
    decreases |a|
  {
    if a == [] {
      assert a + b == b;
    } else {
      assert (a + b)[1..] == a[1..] + b;
      hide Inv, Step;
      StepKeeps(p, a[0]);
      RunAppend(Step(p, a[0]), a[1..], b);
    }
  }

  lemma {:induction false} TimedKeeps(p: Pipe, t: Timed)
    requires Inv(p)
    ensures |p.ring| <= p.size && Inv(TimedStep(p, t))
  {
    hide Inv, TimedStep;
    var ops := TimedStepIs(p, t);
  }

  ghost function TimedRun(p: Pipe, ts: seq<Timed>): (r: Pipe)
    requires Inv(p)
    ensures Inv(r)
    decreases |ts|
  {
    if ts == [] then p else
      TimedKeeps(p, ts[0]);
      TimedRun(TimedStep(p, ts[0]), ts[1..])
  }

  /** Every run with ticks during calls is a run with timeouts between calls, so
      everything that holds over those runs holds over these. */
  lemma {:induction false} TimedRunIsRun(p: Pipe, ts: seq<Timed>) returns (ops: seq<Op>)
    requires Inv(p)
    ensures TimedRun(p, ts) == Run(p, ops)
    decreases |ts|
  {
    if ts == [] {
      ops := [];
    } else {
      hide Inv, TimedStep, Step;
      TimedKeeps(p, ts[0]);
      var first := TimedStepIs(p, ts[0]);
      var rest := TimedRunIsRun(TimedStep(p, ts[0]), ts[1..]);
      ops := [ts[0].op] + (first + rest);
      assert ops[1..] == first + rest;
      RunAppend(Step(p, ts[0].op), first, rest);
    }
  }

  /** The stream law, with timeouts at any time. */
  lemma {:induction false} TimedStreamLaw(size: nat, ts: seq<Timed>)
    ensures var p := TimedRun(Initial(size), ts);
            && Bytes(p.sent) == Bytes(p.delivered) + p.ring
            && (p.readers != [] ==> p.ring == [] && p.writers == [])
            && (p.writers != [] ==> |p.ring| == p.size && p.readers == [])
  {
    var ops := TimedRunIsRun(Initial(size), ts);
    StreamLaw(size, ops);
    WaitersLaw(size, ops);
  }
}
