/**
 What holds of a pipe over every run of puts, gets and timeouts.
 */
module PipeTheorems {
  import opened PipeSpec
  import opened WaitQueue

  // ---- logs ---------------------------------------------------------------------

  lemma {:induction false} BytesAppend(a: seq<Chunk>, b: seq<Chunk>)
    ensures Bytes(a + b) == Bytes(a) + Bytes(b)
  {
    if a == [] {
      assert a + b == b;
    } else {
      assert (a + b)[1..] == a[1..] + b;
      BytesAppend(a[1..], b);
    }
  }

  lemma {:induction false} PartAppend(a: seq<Chunk>, b: seq<Chunk>, c: CallId)
    ensures Part(a + b, c) == Part(a, c) + Part(b, c)
  {
    if a == [] {
      assert a + b == b;
    } else {
      assert (a + b)[1..] == a[1..] + b;
      PartAppend(a[1..], b, c);
    }
  }

  lemma {:induction false} OneChunk(k: Chunk, c: CallId)
    ensures Bytes([k]) == k.bytes
    ensures Part([k], c) == if k.call == c then k.bytes else []
  {
    assert Bytes([]) == [] && Part([], c) == [];
  }

  // ---- calls --------------------------------------------------------------------

  function WriterCalls(ws: seq<Writer>): multiset<CallId> {
    if ws == [] then multiset{} else multiset{ws[0].call} + WriterCalls(ws[1..])
  }

  function ReaderCalls(rs: seq<Reader>): multiset<CallId> {
    if rs == [] then multiset{} else multiset{rs[0].call} + ReaderCalls(rs[1..])
  }

  function ReturnCalls(fs: seq<Return>): multiset<CallId> {
    if fs == [] then multiset{} else multiset{fs[0].call} + ReturnCalls(fs[1..])
  }

  lemma {:induction false} WriterCallsAppend(a: seq<Writer>, b: seq<Writer>)
    ensures WriterCalls(a + b) == WriterCalls(a) + WriterCalls(b)
  {
    if a == [] {
      assert a + b == b;
    } else {
      assert (a + b)[1..] == a[1..] + b;
      WriterCallsAppend(a[1..], b);
    }
  }

  lemma {:induction false} ReaderCallsAppend(a: seq<Reader>, b: seq<Reader>)
    ensures ReaderCalls(a + b) == ReaderCalls(a) + ReaderCalls(b)
  {
    if a == [] {
      assert a + b == b;
    } else {
      assert (a + b)[1..] == a[1..] + b;
      ReaderCallsAppend(a[1..], b);
    }
  }

  lemma {:induction false} ReturnCallsAppend(a: seq<Return>, b: seq<Return>)
    ensures ReturnCalls(a + b) == ReturnCalls(a) + ReturnCalls(b)
  {
    if a == [] {
      assert a + b == b;
    } else {
      assert (a + b)[1..] == a[1..] + b;
      ReturnCallsAppend(a[1..], b);
    }
  }

  lemma {:induction false} WriterIn(ws: seq<Writer>, i: nat)
    requires i < |ws|
    ensures ws[i].call in WriterCalls(ws)
  {
    if i == 0 {
    } else {
      WriterIn(ws[1..], i - 1);
    }
  }

  lemma {:induction false} ReaderIn(rs: seq<Reader>, i: nat)
    requires i < |rs|
    ensures rs[i].call in ReaderCalls(rs)
  {
    if i == 0 {
    } else {
      ReaderIn(rs[1..], i - 1);
    }
  }

  lemma {:induction false} ReaderCallsCons(r: Reader, rs: seq<Reader>)
    ensures ReaderCalls([r] + rs) == multiset{r.call} + ReaderCalls(rs)
  {
    assert ([r] + rs)[1..] == rs;
  }

  lemma {:induction false} WriterCallsCons(w: Writer, ws: seq<Writer>)
    ensures WriterCalls([w] + ws) == multiset{w.call} + WriterCalls(ws)
  {
    assert ([w] + ws)[1..] == ws;
  }

  lemma {:induction false} PartCons(k: Chunk, cs: seq<Chunk>, c: CallId)
    ensures Part([k] + cs, c) == (if k.call == c then k.bytes else []) + Part(cs, c)
  {
    assert ([k] + cs)[1..] == cs;
  }

  // ---- feeding readers --------------------------------------------------------------

  /** What is stored for each waiting reader is what the log says. */
  predicate ReadersOk(rs: seq<Reader>, log: seq<Chunk>) {
    forall i :: 0 <= i < |rs| ==> Part(log, rs[i].call) == rs[i].got
  }

  predicate WritersOk(ws: seq<Writer>, log: seq<Chunk>) {
    forall i :: 0 <= i < |ws| ==> Part(log, ws[i].call) + ws[i].left == ws[i].data
  }

  ghost predicate Single(m: multiset<CallId>) {
    forall c :: m[c] <= 1
  }

  lemma {:induction false} FeedStep(r: Reader, rs: seq<Reader>, data: seq<Byte>)
    requires r.want <= |data| && data != []
    ensures var f, e := Feed([r] + rs, data), Feed(rs, data[r.want..]);
            && f.waiting == e.waiting && f.done == [Serve(r, data[..r.want])] + e.done
            && f.chunks == [Chunk(r.call, data[..r.want])] + e.chunks
  {
    assert ([r] + rs)[1..] == rs;
  }

  /** Nobody is lost. */
  lemma {:induction false} FeedCalls(rs: seq<Reader>, data: seq<Byte>)
    ensures var f := Feed(rs, data); ReaderCalls(rs) == ReaderCalls(f.waiting) + ReaderCalls(f.done)
  {
    var f := Feed(rs, data);
    if rs == [] || data == [] {
      assert ReaderCalls(f.done) == multiset{};
    } else {
      var tail := rs[1..];
      assert rs == [rs[0]] + tail;
      if rs[0].want <= |data| {
        var b, rest := data[..rs[0].want], data[rs[0].want..];
        FeedCalls(tail, rest);
        var f1 := Feed(tail, rest);
        assert f.waiting == f1.waiting && f.done == [Serve(rs[0], b)] + f1.done;
        hide Feed, ReaderCalls;
        ReaderCallsCons(rs[0], tail);
        ReaderCallsCons(Serve(rs[0], b), f1.done);
      } else {
        assert f.done == [] && ReaderCalls(f.done) == multiset{};
        assert f.waiting == [Serve(rs[0], data)] + tail;
        hide Feed, ReaderCalls;
        ReaderCallsCons(rs[0], tail);
        ReaderCallsCons(Serve(rs[0], data), tail);
      }
    }
  }

  lemma {:induction false} ReaderReturnCalls(rs: seq<Reader>)
    ensures ReturnCalls(ReaderReturns(rs)) == ReaderCalls(rs)
  {
    if rs == [] {
    } else {
      ReaderReturnCalls(rs[1..]);
      assert ReaderReturns(rs)[1..] == ReaderReturns(rs[1..]);
    }
  }

  /** Only the readers of the queue get anything. */
  lemma {:induction false} FeedOthers(rs: seq<Reader>, data: seq<Byte>, c: CallId)
    requires c !in ReaderCalls(rs)
    ensures Part(Feed(rs, data).chunks, c) == []
  {
    if rs != [] && data != [] {
      if rs[0].want <= |data| {
        var b, rest := data[..rs[0].want], data[rs[0].want..];
        FeedOthers(rs[1..], rest, c);
        PartCons(Chunk(rs[0].call, b), Feed(rs[1..], rest).chunks, c);
      } else {
        OneChunk(Chunk(rs[0].call, data), c);
      }
    }
  }

  lemma {:induction false} FeedReaders(rs: seq<Reader>, data: seq<Byte>, log: seq<Chunk>)
    requires Single(ReaderCalls(rs)) && ReadersOk(rs, log)
    ensures var f := Feed(rs, data);
            ReadersOk(f.waiting, log + f.chunks) && ReadersOk(f.done, log + f.chunks)
  {
    var f := Feed(rs, data);
    if rs == [] || data == [] {
      assert log + f.chunks == log;
    } else {
      var r, tail := rs[0], rs[1..];
      var b := if r.want <= |data| then data[..r.want] else data;
      var log1 := log + [Chunk(r.call, b)];
      TailOk(rs, log, b);
      if r.want <= |data| {
        hide Feed, Part, Single, ReaderCalls;
        var rest := data[r.want..];
        FeedReaders(tail, rest, log1);
        var f1 := Feed(tail, rest);
        assert rs == [r] + tail;
        FeedStep(r, tail, data);
        assert log + f.chunks == log1 + f1.chunks;
        FeedOthers(tail, rest, r.call);
        PartAppend(log1, f1.chunks, r.call);
        assert Part(log1 + f1.chunks, r.call) == Serve(r, b).got;
      } else {
        assert f.waiting == [Serve(r, b)] + tail && log + f.chunks == log1 && f.done == [];
        hide Feed, Part, Single, ReaderCalls;
        assert Part(log1, r.call) == Serve(r, b).got;
      }
    }
  }

  lemma {:induction false} TailOk(rs: seq<Reader>, log: seq<Chunk>, b: seq<Byte>)
    requires rs != [] && Single(ReaderCalls(rs)) && ReadersOk(rs, log)
    ensures var log1 := log + [Chunk(rs[0].call, b)];
            && rs[0].call !in ReaderCalls(rs[1..]) && Single(ReaderCalls(rs[1..]))
            && ReadersOk(rs[1..], log1)
            && Part(log1, rs[0].call) == rs[0].got + b
  {
    var k := Chunk(rs[0].call, b);
    var log1 := log + [k];
    assert ReaderCalls(rs)[rs[0].call] == 1 + ReaderCalls(rs[1..])[rs[0].call];
    assert forall c :: ReaderCalls(rs[1..])[c] <= ReaderCalls(rs)[c];
    PartAppend(log, [k], rs[0].call);
    OneChunk(k, rs[0].call);
    forall i | 0 <= i < |rs[1..]|
      ensures Part(log1, rs[1..][i].call) == rs[1..][i].got
    {
      var c := rs[1..][i].call;
      ReaderIn(rs[1..], i);
      PartAppend(log, [k], c);
      OneChunk(k, c);
      assert rs[1..][i] == rs[i + 1];
    }
  }

  // ---- draining writers ---------------------------------------------------------------

  lemma {:induction false} PullStep(w: Writer, ws: seq<Writer>, n: nat)
    requires |w.left| <= n && n != 0
    ensures var d, e := Pull([w] + ws, n), Pull(ws, n - |w.left|);
            && d.waiting == e.waiting && d.done == [w.(left := [])] + e.done
            && d.chunks == [Chunk(w.call, w.left)] + e.chunks
  {
    assert ([w] + ws)[1..] == ws;
  }

  lemma {:induction false} PullCalls(ws: seq<Writer>, n: nat)
    ensures var d := Pull(ws, n); WriterCalls(ws) == WriterCalls(d.waiting) + WriterCalls(d.done)
  {
    var d := Pull(ws, n);
    if ws == [] || n == 0 {
      assert WriterCalls(d.done) == multiset{};
    } else {
      var w, tail := ws[0], ws[1..];
      assert ws == [w] + tail;
      if |w.left| <= n {
        PullCalls(tail, n - |w.left|);
        var d1 := Pull(tail, n - |w.left|);
        assert d.waiting == d1.waiting && d.done == [w.(left := [])] + d1.done;
        hide Pull, WriterCalls;
        WriterCallsCons(w, tail);
        WriterCallsCons(w.(left := []), d1.done);
      } else {
        assert d.done == [] && WriterCalls(d.done) == multiset{};
        assert d.waiting == [w.(left := w.left[n..])] + tail;
        hide Pull, WriterCalls;
        WriterCallsCons(w, tail);
        WriterCallsCons(w.(left := w.left[n..]), tail);
      }
    }
  }

  lemma {:induction false} WriterReturnCalls(ws: seq<Writer>)
    ensures ReturnCalls(WriterReturns(ws)) == WriterCalls(ws)
  {
    if ws == [] {
    } else {
      WriterReturnCalls(ws[1..]);
      assert WriterReturns(ws)[1..] == WriterReturns(ws[1..]);
    }
  }

  lemma {:induction false} PullOthers(ws: seq<Writer>, n: nat, c: CallId)
    requires c !in WriterCalls(ws)
    ensures Part(Pull(ws, n).chunks, c) == []
  {
    if ws != [] && n != 0 {
      if |ws[0].left| <= n {
        PullOthers(ws[1..], n - |ws[0].left|, c);
        PartCons(Chunk(ws[0].call, ws[0].left), Pull(ws[1..], n - |ws[0].left|).chunks, c);
      } else {
        OneChunk(Chunk(ws[0].call, ws[0].left[..n]), c);
      }
    }
  }

  lemma {:induction false} WritersOkCons(w: Writer, ws: seq<Writer>, log: seq<Chunk>)
    requires Part(log, w.call) + w.left == w.data && WritersOk(ws, log)
    ensures WritersOk([w] + ws, log)
  {
    hide Part;
  }

  lemma {:induction false} PullWritersCut(w: Writer, tail: seq<Writer>, n: nat, log1: seq<Chunk>)
    requires 0 < n < |w.left| && WritersOk(tail, log1) && Part(log1, w.call) + w.left[n..] == w.data
    ensures var d := Pull([w] + tail, n);
            WritersOk(d.waiting, log1) && d.done == [] && d.chunks == [Chunk(w.call, w.left[..n])]
  {
    assert ([w] + tail)[1..] == tail;
    assert Pull([w] + tail, n).waiting == [w.(left := w.left[n..])] + tail;
    hide Pull, Part;
    WritersOkCons(w.(left := w.left[n..]), tail, log1);
  }

  lemma {:induction false} PullNothing(ws: seq<Writer>, n: nat, log: seq<Chunk>)
    requires ws == [] || n == 0
    ensures var d := Pull(ws, n); d.waiting == ws && d.done == [] && log + d.chunks == log
  {
  }

  lemma {:induction false} WriterOkFirst(ws: seq<Writer>, log: seq<Chunk>)
    requires ws != [] && WritersOk(ws, log)
    ensures Part(log, ws[0].call) + ws[0].left == ws[0].data
  {
  }

  lemma {:induction false} PullWriters(ws: seq<Writer>, n: nat, log: seq<Chunk>)
    requires Single(WriterCalls(ws)) && WritersOk(ws, log)
    ensures var d := Pull(ws, n);
            WritersOk(d.waiting, log + d.chunks) && WritersOk(d.done, log + d.chunks)
  {
    hide Pull, Part, Single, WriterCalls, WritersOk;
    var d := Pull(ws, n);
    if ws == [] || n == 0 {
      PullNothing(ws, n, log);
      NoWriters(log);
    } else {
      var w, tail := ws[0], ws[1..];
      assert ws == [w] + tail;
      WriterOkFirst(ws, log);
      if |w.left| <= n {
        var log1 := log + [Chunk(w.call, w.left)];
        WriterTailOk(ws, log, w.left);
        PullWriters(tail, n - |w.left|, log1);
        var d1 := Pull(tail, n - |w.left|);
        PullStep(w, tail, n);
        assert log + d.chunks == log1 + d1.chunks;
        PullOthers(tail, n - |w.left|, w.call);
        PartAppend(log1, d1.chunks, w.call);
        WritersOkCons(w.(left := []), d1.done, log1 + d1.chunks);
      } else {
        var b, rest := w.left[..n], w.left[n..];
        var log1 := log + [Chunk(w.call, b)];
        WriterTailOk(ws, log, b);
        assert b + rest == w.left;
        assert Part(log, w.call) + b + rest == Part(log, w.call) + (b + rest);
        PullWritersCut(w, tail, n, log1);
        NoWriters(log1);
      }
    }
  }

  lemma {:induction false} NoWriters(log: seq<Chunk>)
    ensures WritersOk([], log)
  {
  }

  lemma {:induction false} WriterTailOk(ws: seq<Writer>, log: seq<Chunk>, b: seq<Byte>)
    requires ws != [] && Single(WriterCalls(ws)) && WritersOk(ws, log)
    ensures var log1 := log + [Chunk(ws[0].call, b)];
            && ws[0].call !in WriterCalls(ws[1..]) && Single(WriterCalls(ws[1..]))
            && WritersOk(ws[1..], log1)
            && Part(log1, ws[0].call) == Part(log, ws[0].call) + b
  {
    var k := Chunk(ws[0].call, b);
    var log1 := log + [k];
    assert WriterCalls(ws)[ws[0].call] == 1 + WriterCalls(ws[1..])[ws[0].call];
    assert forall c :: WriterCalls(ws[1..])[c] <= WriterCalls(ws)[c];
    PartAppend(log, [k], ws[0].call);
    OneChunk(k, ws[0].call);
    forall i | 0 <= i < |ws[1..]|
      ensures Part(log1, ws[1..][i].call) + ws[1..][i].left == ws[1..][i].data
    {
      var c := ws[1..][i].call;
      WriterIn(ws[1..], i);
      PartAppend(log, [k], c);
      OneChunk(k, c);
      assert ws[1..][i] == ws[i + 1];
    }
  }

  // ---- the invariant ----------------------------------------------------------------------

  predicate WriterWaits(w: Writer) {
    w.left != [] && w.min <= |w.data|
  }

  predicate ReaderWaits(r: Reader) {
    r.want > 0 && r.min <= |r.got| + r.want
  }

  /** Readers wait only on an empty pipe with no writer waiting, writers only on
      a full one with no reader waiting, in the order of their priorities, and
      nobody waits for nothing. */
  predicate Shape(p: Pipe) {
    && |p.ring| <= p.size
    && (p.readers != [] ==> p.ring == [] && p.writers == [])
    && (p.writers != [] ==> |p.ring| == p.size)
    && (forall i :: 0 <= i < |p.writers| ==> WriterWaits(p.writers[i]))
    && (forall i :: 0 <= i < |p.readers| ==> ReaderWaits(p.readers[i]))
    && Ordered(p.writers, WriterPrio) && Ordered(p.readers, ReaderPrio)
  }

  /** The stream law. */
  predicate Stream(p: Pipe) {
    Bytes(p.sent) == Bytes(p.delivered) + p.ring
  }

  /** How often a call is found waiting or finished. */
  ghost function Copies(p: Pipe, x: CallId): nat {
    WriterCalls(p.writers)[x] + ReaderCalls(p.readers)[x] + ReturnCalls(p.finished)[x]
  }

  /** Every call made before call `c` waits in one place or has returned once. */
  ghost predicate CallsUpTo(p: Pipe, c: CallId) {
    forall x: CallId :: Copies(p, x) == if x < c then 1 else 0
  }

  ghost predicate CallsOk(p: Pipe) {
    CallsUpTo(p, p.next)
  }

  /** The return value of a call agrees with the bytes moved for it. */
  predicate ReturnOk(f: Return, sent: seq<Chunk>, delivered: seq<Chunk>) {
    && f.count == |Part(sent, f.call)| + |Part(delivered, f.call)|
    && match f.code
       case Ok => f.count >= f.min
       case Again => f.count < f.min
       case Invalid => f.count == 0
       case Io => f.count == 0
  }

  /** What the logs say about each waiting call, and about calls yet to come. */
  ghost predicate SharesOk(p: Pipe) {
    && WritersOk(p.writers, p.sent) && ReadersOk(p.readers, p.delivered)
    && (forall x :: x in WriterCalls(p.writers) ==> Part(p.delivered, x) == [])
    && (forall x :: x in ReaderCalls(p.readers) ==> Part(p.sent, x) == [])
    && (forall x :: x >= p.next ==> Part(p.sent, x) == [] && Part(p.delivered, x) == [])
  }

  predicate ReturnsOk(p: Pipe) {
    forall i :: 0 <= i < |p.finished| ==> ReturnOk(p.finished[i], p.sent, p.delivered)
  }

  ghost predicate Inv(p: Pipe) {
    Shape(p) && Stream(p) && CallsOk(p) && SharesOk(p) && ReturnsOk(p)
  }

  // ---- the stream law is kept -----------------------------------------------------------------

  lemma {:induction false} DemandPositive(rs: seq<Reader>)
    requires rs == [] || rs[0].want > 0
    ensures rs == [] <==> Demand(rs) == 0
  {
  }

  lemma {:induction false} PutAlgebra(sent: seq<Byte>, delivered: seq<Byte>, ring: seq<Byte>, data: seq<Byte>, m: nat, k: nat)
    requires m + k <= |data| && sent == delivered + ring && (m == 0 || ring == [])
    ensures sent + data[..m + k] == delivered + data[..m] + (ring + data[m..][..k])
  {
    assert data[..m + k] == data[..m] + data[m..][..k];
  }

  lemma {:induction false} PutStream(p: Pipe, c: CallId, data: seq<Byte>)
    requires Shape(p) && Stream(p)
    ensures Stream(PutMoves(p, c, data))
  {
    var p1 := PutMoves(p, c, data);
    var f, n, m := Feed(p.readers, data), PutCount(p, data), Min(Demand(p.readers), |data|);
    var k := Min(p.size - |p.ring|, |data| - m);
    DemandPositive(p.readers);
    FeedBytes(p.readers, data);
    var ck := Chunk(c, data[..n]);
    BytesAppend(p.sent, [ck]);
    OneChunk(ck, c);
    BytesAppend(p.delivered, f.chunks);
    assert m > 0 ==> p.ring == [];
    PutAlgebra(Bytes(p.sent), Bytes(p.delivered), p.ring, data, m, k);
    assert p1.ring == p.ring + data[m..][..k];
    assert p1.sent == p.sent + [ck] && p1.delivered == p.delivered + f.chunks;
    hide Shape, Bytes, Feed, Demand, PutMoves;
    assert n == m + k;
  }

  lemma {:induction false} GetAlgebra(sent: seq<Byte>, delivered: seq<Byte>, ring: seq<Byte>, pulled: seq<Byte>, k: nat)
    requires k <= |ring + pulled| && sent == delivered + ring
    ensures sent + pulled == delivered + (ring + pulled)[..k] + (ring + pulled)[k..]
  {
    var stream := ring + pulled;
    assert stream == stream[..k] + stream[k..];
    assert delivered + ring + pulled == delivered + stream;
    assert delivered + stream[..k] + stream[k..] == delivered + (stream[..k] + stream[k..]);
  }

  lemma {:induction false} GetStream(p: Pipe, c: CallId, n: nat)
    requires Shape(p) && Stream(p)
    ensures Stream(GetMoves(p, c, n).0)
  {
    var p1 := GetMoves(p, c, n).0;
    var d, k := Pull(p.writers, n), GetCount(p, n);
    PullBytes(p.writers, n);
    var ck := Chunk(c, (p.ring + Bytes(d.chunks))[..k]);
    BytesAppend(p.sent, d.chunks);
    BytesAppend(p.delivered, [ck]);
    OneChunk(ck, c);
    GetAlgebra(Bytes(p.sent), Bytes(p.delivered), p.ring, Bytes(d.chunks), k);
    assert p1.ring == (p.ring + Bytes(d.chunks))[k..];
    assert p1.sent == p.sent + d.chunks && p1.delivered == p.delivered + [ck];
    hide Bytes, Pull, Offered, GetMoves;
  }

  // ---- who waits, and when ---------------------------------------------------------------------

  lemma {:induction false} FeedShape(rs: seq<Reader>, data: seq<Byte>)
    requires forall i :: 0 <= i < |rs| ==> ReaderWaits(rs[i])
    ensures var f := Feed(rs, data);
            && (forall i :: 0 <= i < |f.waiting| ==> ReaderWaits(f.waiting[i]))
            && (forall i :: 0 <= i < |f.done| ==> f.done[i].want == 0 && f.done[i].min <= |f.done[i].got|)
            && (f.waiting == [] <==> Demand(rs) <= |data|)
            && (Ordered(rs, ReaderPrio) ==> Ordered(f.waiting, ReaderPrio))
  {
    if rs != [] && data != [] && rs[0].want <= |data| {
      FeedShape(rs[1..], data[rs[0].want..]);
    }
  }

  lemma {:induction false} PullShape(ws: seq<Writer>, n: nat)
    requires forall i :: 0 <= i < |ws| ==> WriterWaits(ws[i])
    ensures var d := Pull(ws, n);
            && (forall i :: 0 <= i < |d.waiting| ==> WriterWaits(d.waiting[i]))
            && (forall i :: 0 <= i < |d.done| ==> d.done[i].left == [] && d.done[i].min <= |d.done[i].data|)
            && (d.waiting == [] <==> |Offered(ws)| <= n)
            && (Ordered(ws, WriterPrio) ==> Ordered(d.waiting, WriterPrio))
  {
    if ws != [] && n != 0 && |ws[0].left| <= n {
      PullShape(ws[1..], n - |ws[0].left|);
    }
  }

  /** After a put has moved what it can: nothing of it is left, or the ring is
      full and no reader waits. */
  lemma {:induction false} PutShape(p: Pipe, c: CallId, data: seq<Byte>)
    requires Shape(p)
    ensures var p1 := PutMoves(p, c, data);
            && Shape(p1)
            && (PutCount(p, data) < |data| ==> |p1.ring| == p1.size && p1.readers == [])
  {
    FeedShape(p.readers, data);
    DemandPositive(p.readers);
    hide Feed, Demand;
  }

  /** After a get has moved what it can: it is satisfied, or the ring is empty
      and no writer waits. */
  lemma {:induction false} GetShape(p: Pipe, c: CallId, n: nat)
    requires Shape(p)
    ensures var (p1, out) := GetMoves(p, c, n);
            && Shape(p1)
            && (|out| < n ==> p1.ring == [] && p1.writers == [])
  {
    PullShape(p.writers, n);
    PullBytes(p.writers, n);
    hide Pull, Bytes;
    assert p.writers == [] ==> Offered(p.writers) == [];
    hide Offered;
  }

  // ---- every call is in one place, with the bytes its return value says ---------------------

  lemma {:induction false} ReturnIn(fs: seq<Return>, i: nat)
    requires i < |fs|
    ensures fs[i].call in ReturnCalls(fs)
  {
    if i == 0 {
    } else {
      ReturnIn(fs[1..], i - 1);
    }
  }

  /** Waiting writers, waiting readers and finished calls are different calls. */
  ghost predicate Apart(p: Pipe, c: CallId) {
    var ws, rs, fs := WriterCalls(p.writers), ReaderCalls(p.readers), ReturnCalls(p.finished);
    && Single(ws) && Single(rs)
    && (forall x :: x in ws ==> x < c && x !in rs)
    && (forall x :: x in rs ==> x < c && x !in ws)
    && (forall x :: x in fs ==> x < c && x !in rs && x !in ws)
  }

  lemma {:induction false} CallsApart(p: Pipe, c: CallId)
    requires CallsUpTo(p, c)
    ensures Apart(p, c)
  {
    hide WriterCalls, ReaderCalls, ReturnCalls;
    var ws, rs, fs := WriterCalls(p.writers), ReaderCalls(p.readers), ReturnCalls(p.finished);
    forall x: CallId ensures ws[x] + rs[x] + fs[x] == if x < c then 1 else 0 {
      assert Copies(p, x) == if x < c then 1 else 0;
    }
    hide Copies, CallsUpTo;
  }

  lemma {:induction false} ReaderReturnLength(rs: seq<Reader>)
    ensures |ReaderReturns(rs)| == |rs|
  {
    if rs == [] {
    } else {
      ReaderReturnLength(rs[1..]);
    }
  }

  lemma {:induction false} ReaderReturnAt(rs: seq<Reader>, i: nat)
    requires i < |rs| == |ReaderReturns(rs)|
    ensures ReaderReturns(rs)[i] == Return(rs[i].call, ReturnCode(rs[i].min, |rs[i].got|), |rs[i].got|, rs[i].min)
  {
    if i == 0 {
    } else {
      ReaderReturnAt(rs[1..], i - 1);
    }
  }

  lemma {:induction false} WriterReturnLength(ws: seq<Writer>)
    ensures |WriterReturns(ws)| == |ws|
  {
    if ws == [] {
    } else {
      WriterReturnLength(ws[1..]);
    }
  }

  lemma {:induction false} WriterReturnAt(ws: seq<Writer>, i: nat)
    requires i < |ws| == |WriterReturns(ws)|
    ensures var count := |ws[i].data| - |ws[i].left|;
            WriterReturns(ws)[i] == Return(ws[i].call, ReturnCode(ws[i].min, count), count, ws[i].min)
  {
    if i == 0 {
    } else {
      WriterReturnAt(ws[1..], i - 1);
    }
  }

  /** What a put adds to each call's share of the logs. */
  lemma {:induction false} PutShares(p: Pipe, c: CallId, data: seq<Byte>, x: CallId)
    requires |p.ring| <= p.size
    ensures var p1 := PutMoves(p, c, data);
            && Part(p1.sent, x) == Part(p.sent, x) + (if x == c then data[..PutCount(p, data)] else [])
            && Part(p1.delivered, x) == Part(p.delivered, x) + Part(Feed(p.readers, data).chunks, x)
            && (x !in ReaderCalls(p.readers) ==> Part(p1.delivered, x) == Part(p.delivered, x))
  {
    var ck := Chunk(c, data[..PutCount(p, data)]);
    PartAppend(p.sent, [ck], x);
    OneChunk(ck, x);
    PartAppend(p.delivered, Feed(p.readers, data).chunks, x);
    if x !in ReaderCalls(p.readers) {
      FeedOthers(p.readers, data, x);
    }
    hide Part, Feed, ReaderCalls, Demand;
  }

  /** No call is lost or made up by the moves of a put. */
  lemma {:induction false} PutCalls(p: Pipe, c: CallId, data: seq<Byte>, x: CallId)
    requires |p.ring| <= p.size
    ensures Copies(PutMoves(p, c, data), x) == Copies(p, x)
  {
    var f := Feed(p.readers, data);
    FeedCalls(p.readers, data);
    ReaderReturnCalls(f.done);
    ReturnCallsAppend(p.finished, ReaderReturns(f.done));
    hide Feed, ReaderCalls, WriterCalls, ReturnCalls, ReaderReturns;
  }

  lemma {:induction false} PutWritersOk(p: Pipe, c: CallId, data: seq<Byte>)
    requires |p.ring| <= p.size && Apart(p, c) && SharesOk(p)
    ensures WritersOk(p.writers, PutMoves(p, c, data).sent)
  {
    hide Part, WriterCalls, ReaderCalls, ReturnCalls, PutMoves, Single;
    forall i | 0 <= i < |p.writers|
      ensures Part(PutMoves(p, c, data).sent, p.writers[i].call) + p.writers[i].left == p.writers[i].data
    {
      WriterIn(p.writers, i);
      PutShares(p, c, data, p.writers[i].call);
    }
  }

  lemma {:induction false} PutSharesOk(p: Pipe, c: CallId, data: seq<Byte>)
    requires |p.ring| <= p.size && Apart(p, c) && SharesOk(p) && c < p.next
    ensures SharesOk(PutMoves(p, c, data))
  {
    var p1 := PutMoves(p, c, data);
    PutWritersOk(p, c, data);
    FeedReaders(p.readers, data, p.delivered);
    FeedCalls(p.readers, data);
    assert p1.writers == p.writers && p1.readers == Feed(p.readers, data).waiting;
    assert p1.delivered == p.delivered + Feed(p.readers, data).chunks && p1.next == p.next;
    hide Feed, Part, WriterCalls, ReaderCalls, ReturnCalls, PutMoves, Single, WritersOk, ReadersOk;
    forall x | x in WriterCalls(p1.writers) ensures Part(p1.delivered, x) == [] {
      PutShares(p, c, data, x);
    }
    forall x | x in ReaderCalls(p1.readers) ensures Part(p1.sent, x) == [] {
      assert x in ReaderCalls(p.readers);
      PutShares(p, c, data, x);
    }
    forall x | x >= p1.next ensures Part(p1.sent, x) == [] && Part(p1.delivered, x) == [] {
      PutShares(p, c, data, x);
    }
  }

  lemma {:induction false} FeedDoneIn(rs: seq<Reader>, data: seq<Byte>, i: nat)
    requires i < |Feed(rs, data).done|
    ensures Feed(rs, data).done[i].call in ReaderCalls(rs)
  {
    FeedCalls(rs, data);
    ReaderIn(Feed(rs, data).done, i);
    hide Feed, ReaderCalls;
  }

  lemma {:induction false} PutReturnsOk(p: Pipe, c: CallId, data: seq<Byte>)
    requires |p.ring| <= p.size && Apart(p, c) && SharesOk(p) && ReturnsOk(p)
    ensures ReturnsOk(PutMoves(p, c, data))
  {
    var p1, f := PutMoves(p, c, data), Feed(p.readers, data);
    FeedReaders(p.readers, data, p.delivered);
    assert p1.finished == p.finished + ReaderReturns(f.done);
    assert p1.delivered == p.delivered + f.chunks;
    hide PutMoves, WriterCalls, ReaderCalls, ReturnCalls, Part;
    forall i | 0 <= i < |p1.finished| ensures ReturnOk(p1.finished[i], p1.sent, p1.delivered) {
      if i < |p.finished| {
        ReturnIn(p.finished, i);
        PutShares(p, c, data, p.finished[i].call);
      } else {
        PutReaderReturn(p, c, data, i - |p.finished|);
      }
    }
  }

  lemma {:induction false} PutReaderReturn(p: Pipe, c: CallId, data: seq<Byte>, i: nat)
    requires |p.ring| <= p.size && Apart(p, c) && SharesOk(p)
    requires i < |ReaderReturns(Feed(p.readers, data).done)|
    ensures var p1 := PutMoves(p, c, data);
            ReturnOk(ReaderReturns(Feed(p.readers, data).done)[i], p1.sent, p1.delivered)
  {
    var p1, f := PutMoves(p, c, data), Feed(p.readers, data);
    FeedReaders(p.readers, data, p.delivered);
    assert p1.delivered == p.delivered + f.chunks;
    ReaderReturnLength(f.done);
    FeedDoneIn(p.readers, data, i);
    ReaderReturnAt(f.done, i);
    var x := f.done[i].call;
    PutShares(p, c, data, x);
    hide PutMoves, WriterCalls, ReaderCalls, ReturnCalls, Part, Feed, ReaderReturns;
    assert Part(p1.delivered, x) == f.done[i].got;
  }

  /** What a get adds to each call's share of the logs. */
  lemma {:induction false} GetShares(p: Pipe, c: CallId, n: nat, x: CallId)
    ensures var (p1, out) := GetMoves(p, c, n);
            && Part(p1.delivered, x) == Part(p.delivered, x) + (if x == c then out else [])
            && Part(p1.sent, x) == Part(p.sent, x) + Part(Pull(p.writers, n).chunks, x)
            && (x !in WriterCalls(p.writers) ==> Part(p1.sent, x) == Part(p.sent, x))
  {
    var ck := Chunk(c, GetMoves(p, c, n).1);
    PartAppend(p.delivered, [ck], x);
    OneChunk(ck, x);
    PartAppend(p.sent, Pull(p.writers, n).chunks, x);
    if x !in WriterCalls(p.writers) {
      PullOthers(p.writers, n, x);
    }
    hide Part, Pull, WriterCalls, Offered, Bytes;
  }

  lemma {:induction false} GetCalls(p: Pipe, c: CallId, n: nat, x: CallId)
    ensures Copies(GetMoves(p, c, n).0, x) == Copies(p, x)
  {
    var d := Pull(p.writers, n);
    PullCalls(p.writers, n);
    WriterReturnCalls(d.done);
    ReturnCallsAppend(p.finished, WriterReturns(d.done));
    hide Pull, ReaderCalls, WriterCalls, ReturnCalls, WriterReturns;
  }

  lemma {:induction false} GetReadersOk(p: Pipe, c: CallId, n: nat)
    requires Apart(p, c) && SharesOk(p)
    ensures ReadersOk(p.readers, GetMoves(p, c, n).0.delivered)
  {
    hide Part, WriterCalls, ReaderCalls, ReturnCalls, GetMoves, Single;
    forall i | 0 <= i < |p.readers|
      ensures Part(GetMoves(p, c, n).0.delivered, p.readers[i].call) == p.readers[i].got
    {
      ReaderIn(p.readers, i);
      GetShares(p, c, n, p.readers[i].call);
    }
  }

  lemma {:induction false} GetWritersOk(p: Pipe, c: CallId, n: nat)
    requires Apart(p, c) && SharesOk(p)
    ensures var p1 := GetMoves(p, c, n).0;
            && p1.readers == p.readers && p1.next == p.next
            && WritersOk(p1.writers, p1.sent)
            && (forall x :: x in WriterCalls(p1.writers) ==> x in WriterCalls(p.writers))
  {
    PullWriters(p.writers, n, p.sent);
    PullCalls(p.writers, n);
    hide Pull, Part, WriterCalls, ReaderCalls, ReturnCalls, Single, WritersOk, ReadersOk, Offered, Bytes;
  }

  lemma {:induction false} GetSharesOk(p: Pipe, c: CallId, n: nat)
    requires Apart(p, c) && SharesOk(p) && c < p.next
    ensures SharesOk(GetMoves(p, c, n).0)
  {
    hide Pull, Part, WriterCalls, ReaderCalls, ReturnCalls, GetMoves, Single, WritersOk, ReadersOk, Offered, Bytes;
    var p1 := GetMoves(p, c, n).0;
    GetReadersOk(p, c, n);
    GetWritersOk(p, c, n);
    forall x | x in ReaderCalls(p1.readers) ensures Part(p1.sent, x) == [] {
      GetShares(p, c, n, x);
    }
    forall x | x in WriterCalls(p1.writers) ensures Part(p1.delivered, x) == [] {
      assert x in WriterCalls(p.writers);
      GetShares(p, c, n, x);
    }
    forall x | x >= p1.next ensures Part(p1.sent, x) == [] && Part(p1.delivered, x) == [] {
      GetShares(p, c, n, x);
    }
  }

  lemma {:induction false} PullDoneIn(ws: seq<Writer>, n: nat, i: nat)
    requires i < |Pull(ws, n).done|
    ensures Pull(ws, n).done[i].call in WriterCalls(ws)
  {
    PullCalls(ws, n);
    WriterIn(Pull(ws, n).done, i);
    hide Pull, WriterCalls;
  }

  lemma {:induction false} GetDoneShare(p: Pipe, c: CallId, n: nat, i: nat)
    requires Apart(p, c) && SharesOk(p) && i < |Pull(p.writers, n).done|
    ensures var p1, w := GetMoves(p, c, n).0, Pull(p.writers, n).done[i];
            Part(p1.sent, w.call) + w.left == w.data && Part(p1.delivered, w.call) == []
  {
    var p1, d := GetMoves(p, c, n).0, Pull(p.writers, n);
    assert p1.sent == p.sent + d.chunks;
    hide GetMoves, WriterCalls, ReaderCalls, ReturnCalls, Part, Pull, Offered, Bytes;
    PullWriters(p.writers, n, p.sent);
    PullDoneIn(p.writers, n, i);
    GetShares(p, c, n, d.done[i].call);
  }

  lemma {:induction false} GetWriterReturn(p: Pipe, c: CallId, n: nat, i: nat)
    requires Apart(p, c) && SharesOk(p)
    requires i < |WriterReturns(Pull(p.writers, n).done)|
    ensures var p1 := GetMoves(p, c, n).0;
            ReturnOk(WriterReturns(Pull(p.writers, n).done)[i], p1.sent, p1.delivered)
  {
    hide GetMoves, WriterCalls, ReaderCalls, ReturnCalls, Part, Pull, WriterReturns, Offered, Bytes, Apart, SharesOk;
    var d := Pull(p.writers, n);
    WriterReturnLength(d.done);
    GetDoneShare(p, c, n, i);
    WriterReturnAt(d.done, i);
  }

  lemma {:induction false} GetOldReturn(p: Pipe, c: CallId, n: nat, i: nat)
    requires Apart(p, c) && ReturnsOk(p) && i < |p.finished|
    ensures var p1 := GetMoves(p, c, n).0; ReturnOk(p.finished[i], p1.sent, p1.delivered)
  {
    hide GetMoves, WriterCalls, ReaderCalls, ReturnCalls, Part, Pull, Offered, Bytes;
    ReturnIn(p.finished, i);
    GetShares(p, c, n, p.finished[i].call);
  }

  lemma {:induction false} GetReturnsOk(p: Pipe, c: CallId, n: nat)
    requires Apart(p, c) && SharesOk(p) && ReturnsOk(p)
    ensures ReturnsOk(GetMoves(p, c, n).0)
  {
    var p1, d := GetMoves(p, c, n).0, Pull(p.writers, n);
    assert p1.finished == p.finished + WriterReturns(d.done);
    hide *;
    forall i | 0 <= i < |p1.finished| ensures ReturnOk(p1.finished[i], p1.sent, p1.delivered) {
      if i < |p.finished| {
        GetOldReturn(p, c, n, i);
      } else {
        GetWriterReturn(p, c, n, i - |p.finished|);
      }
    }
  }
}
