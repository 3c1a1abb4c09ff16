/**
 struct k_pipe and the functions of zephyr/kernel/pipes.c that work on it,
 proved equal to the steps of PipeSpec.
 */
module PipeObject {
  import opened PipeSpec
  import opened PipeTheorems
  import opened PipeRuns
  import opened WaitQueue

  // ---- the circular buffer, on values -----------------------------------------------

  function Wrap(i: nat, size: nat): nat {
    if i < size then i else i - size
  }

  predicate Indexes(size: nat, read: nat, write: nat, used: nat) {
    && used <= size
    && (read < size || (size == 0 && read == 0))
    && (write < size || (size == 0 && write == 0))
    && write == Wrap(read + used, size)
  }

  /** The `n` bytes from index `read` on, across the end of the buffer. */
  function Window(b: seq<Byte>, read: nat, n: nat): (w: seq<Byte>)
    requires n <= |b| && (n == 0 || read < |b|)
    ensures |w| == n && forall i :: 0 <= i < n ==> w[i] == b[Wrap(read + i, |b|)]
  {
    seq(n, i requires 0 <= i < n => b[Wrap(read + i, |b|)])
  }

  /** Writing a run behind the window appends it. */
  lemma {:induction false} WindowPut(b: seq<Byte>, c: seq<Byte>, read: nat, n: nat, write: nat, d: seq<Byte>)
    requires Indexes(|b|, read, write, n) && n + |d| <= |b| && write + |d| <= |b|
    requires |c| == |b| && c == b[..write] + d + b[write + |d|..]
    ensures Window(c, read, n + |d|) == Window(b, read, n) + d
  {
    forall i | 0 <= i < n + |d| ensures Window(c, read, n + |d|)[i] == (Window(b, read, n) + d)[i] {
      var j := Wrap(read + i, |b|);
      if i < n {
        assert j < write || j >= write + |d|;
        assert c[j] == b[j];
      } else {
        assert j == write + (i - n);
        assert c[j] == d[i - n];
      }
    }
  }

  lemma {:induction false} IndexesPut(size: nat, read: nat, write: nat, used: nat, k: nat)
    requires Indexes(size, read, write, used) && used + k <= size && write + k <= size
    ensures Indexes(size, read, if write + k == size then 0 else write + k, used + k)
  {
  }

  lemma {:induction false} IndexesGet(size: nat, read: nat, write: nat, used: nat, k: nat)
    requires Indexes(size, read, write, used) && k <= used && read + k <= size
    ensures Indexes(size, if read + k == size then 0 else read + k, write, used - k)
  {
  }

  lemma {:induction false} IndexesKnown(size: nat, read: nat, write: nat, used: nat)
    requires Indexes(size, read, write, used)
    ensures used <= size && read <= size && write <= size && (used == 0 || read < size)
  {
  }

  /** Reading a run takes it off the front. */
  lemma {:induction false} WindowGet(b: seq<Byte>, read: nat, n: nat, k: nat)
    requires n <= |b| && (n == 0 || read < |b|) && k <= n && read + k <= |b|
    ensures var r := if read + k == |b| then 0 else read + k;
            b[read..read + k] + Window(b, r, n - k) == Window(b, read, n)
  {
    var r := if read + k == |b| then 0 else read + k;
    var w := b[read..read + k] + Window(b, r, n - k);
    forall i | 0 <= i < n ensures w[i] == Window(b, read, n)[i] {
      if i < k {
        assert w[i] == b[read + i];
      } else {
        assert w[i] == b[Wrap(r + (i - k), |b|)];
      }
    }
  }

  // ---- working sets -----------------------------------------------------------------

  function Emptied(ws: seq<Writer>): (r: seq<Writer>)
    ensures |r| == |ws|
  {
    if ws == [] then [] else [ws[0].(left := [])] + Emptied(ws[1..])
  }

  lemma {:induction false} OfferedAppend(a: seq<Writer>, b: seq<Writer>)
    ensures Offered(a + b) == Offered(a) + Offered(b)
  {
    if a == [] {
      assert a + b == b;
    } else {
      assert (a + b)[1..] == a[1..] + b;
      OfferedAppend(a[1..], b);
    }
  }

  lemma {:induction false} DemandAppend(a: seq<Reader>, b: seq<Reader>)
    ensures Demand(a + b) == Demand(a) + Demand(b)
  {
    if a == [] {
      assert a + b == b;
    } else {
      assert (a + b)[1..] == a[1..] + b;
      DemandAppend(a[1..], b);
    }
  }

  /** The writers of the working set are emptied, the next one is cut. */
  lemma {:induction false} PullWorking(xfer: seq<Writer>, rest: seq<Writer>, n: nat)
    requires forall i :: 0 <= i < |xfer| ==> xfer[i].left != []
    requires |Offered(xfer)| <= n
    requires rest == [] || |Offered(xfer)| + |rest[0].left| > n
    ensures var d := Pull(xfer + rest, n);
            && d.done == Emptied(xfer)
            && d.waiting == if rest == [] then []
                            else [rest[0].(left := rest[0].left[n - |Offered(xfer)|..])] + rest[1..]
  {
    if xfer == [] {
      assert xfer + rest == rest;
      assert Emptied(xfer) == [];
      if rest != [] && n == 0 {
        assert rest == [rest[0]] + rest[1..];
        assert rest[0].left[n..] == rest[0].left;
      }
    } else {
      var w, tail := xfer[0], xfer[1..];
      assert Offered(xfer) == w.left + Offered(tail) && Emptied(xfer) == [w.(left := [])] + Emptied(tail);
      hide Pull, Offered, Emptied;
      assert xfer + rest == [w] + (tail + rest);
      assert n - |Offered(xfer)| == (n - |w.left|) - |Offered(tail)|;
      PullStep(w, tail + rest, n);
      PullWorking(tail, rest, n - |w.left|);
    }
  }

  lemma {:induction false} SliceOn(d: seq<Byte>, n: nat, k: nat)
    requires n + k <= |d|
    ensures d[..n] + d[n..][..k] == d[..n + k]
  {
  }

  lemma {:induction false} Cut(a: seq<Byte>, b: seq<Byte>, c: seq<Byte>)
    requires a + b == c
    ensures a == c[..|a|] && b == c[|a|..]
  {
  }

  lemma {:induction false} EmptiedHead(w: Writer, ws: seq<Writer>)
    ensures Emptied([w] + ws) == [w.(left := [])] + Emptied(ws)
  {
    assert ([w] + ws)[1..] == ws;
  }

  // ---- a get in progress: what was handed out, then the ring, then the writers -------

  predicate Flow(out: seq<Byte>, ring: seq<Byte>, ws: seq<Writer>, total: seq<Byte>) {
    out + ring + Offered(ws) == total
  }

  function CutWriter(w: Writer, t: nat): Writer
    requires t <= |w.left|
  {
    w.(left := w.left[t..])
  }

  function CutHead(ws: seq<Writer>, t: nat): (r: seq<Writer>)
    requires ws != [] && t <= |ws[0].left|
    ensures r != [] && r[0].left == ws[0].left[t..]
  {
    [CutWriter(ws[0], t)] + ws[1..]
  }

  lemma {:induction false} CutTwice(ws: seq<Writer>, t: nat, u: nat)
    requires ws != [] && t + u <= |ws[0].left|
    ensures CutHead(CutHead(ws, t), u) == CutHead(ws, t + u)
    ensures CutHead(ws, 0) == ws
  {
    assert ws[0].left[t..][u..] == ws[0].left[t + u..];
    assert ws[0].left[0..] == ws[0].left && ws == [ws[0]] + ws[1..];
  }

  lemma {:induction false} OfferedCut(w: Writer, ws: seq<Writer>, t: nat)
    requires t <= |w.left|
    ensures Offered([w] + ws) == w.left[..t] + Offered([CutWriter(w, t)] + ws)
    ensures t == |w.left| ==> Offered([CutWriter(w, t)] + ws) == Offered(ws)
  {
    assert ([w] + ws)[1..] == ws && ([CutWriter(w, t)] + ws)[1..] == ws;
    assert w.left == w.left[..t] + w.left[t..];
  }

  /** Bytes of the first writer go straight to the caller, past an empty ring. */
  lemma {:induction false} FlowOut(out: seq<Byte>, w: Writer, ws: seq<Writer>, t: nat, total: seq<Byte>)
    requires t <= |w.left| && Flow(out, [], [w] + ws, total)
    ensures Flow(out + w.left[..t], [], [CutWriter(w, t)] + ws, total)
    ensures t == |w.left| ==> Flow(out + w.left[..t], [], ws, total)
  {
    OfferedCut(w, ws, t);
    hide Offered;
    assert out + [] == out;
    assert out + w.left[..t] + [] == out + w.left[..t];
  }

  /** Bytes of the first writer go behind the ring. */
  lemma {:induction false} FlowIn(out: seq<Byte>, ring: seq<Byte>, w: Writer, ws: seq<Writer>, t: nat, total: seq<Byte>)
    requires t <= |w.left| && Flow(out, ring, [w] + ws, total)
    ensures Flow(out, ring + w.left[..t], [CutWriter(w, t)] + ws, total)
    ensures t == |w.left| ==> Flow(out, ring + w.left[..t], ws, total)
  {
    OfferedCut(w, ws, t);
    var o := Offered([CutWriter(w, t)] + ws);
    hide Offered;
    assert out + ring + (w.left[..t] + o) == out + (ring + w.left[..t]) + o;
  }

  lemma {:induction false} FlowEnds(out: seq<Byte>, ring: seq<Byte>, kept: seq<Byte>, front: seq<Byte>, offered: seq<Byte>, m: nat)
    requires m <= |offered| && out + ring + kept == front + offered && kept == offered[m..]
    ensures out + ring == front + offered[..m]
  {
    assert offered == offered[..m] + offered[m..];
    assert front + offered == (front + offered[..m]) + kept;
    assert |out + ring| == |front + offered[..m]|;
    assert (out + ring + kept)[..|out + ring|] == out + ring;
    assert (front + offered[..m] + kept)[..|out + ring|] == front + offered[..m];
  }

  /** When the flow has stopped as pipe_xfer_prepare() planned it, the get is done. */
  lemma {:induction false} GetDone(p: Pipe, c: CallId, n: nat, out: seq<Byte>, ring: seq<Byte>, ws: seq<Writer>)
    requires ws == Pull(p.writers, n).waiting && |out| == GetCount(p, n)
    requires Flow(out, ring, ws, p.ring + Offered(p.writers))
    ensures var (p1, o) := GetMoves(p, c, n); o == out && p1.ring == ring && p1.writers == ws
  {
    PullBytes(p.writers, n);
    var d := Pull(p.writers, n);
    var m := Min(n, |Offered(p.writers)|);
    FlowEnds(out, ring, Offered(ws), p.ring, Offered(p.writers), m);
    hide Pull, Offered, Bytes;
    var stream := p.ring + Bytes(d.chunks);
    assert stream == out + ring;
    Cut(out, ring, stream);
  }

  lemma {:induction false} FlowStarts(got: seq<Byte>, left: seq<Byte>, ring: seq<Byte>, ws: seq<Writer>)
    requires got + left == ring
    ensures Flow(got, left, ws, ring + Offered(ws))
  {
  }

  lemma {:induction false} PullWaiting(p: Pipe, xfer: seq<Writer>, rest: seq<Writer>, n: nat)
    requires Shape(p) && p.writers == xfer + rest
    requires |Offered(xfer)| <= n && (rest != [] ==> |Offered(xfer)| + |rest[0].left| > n)
    ensures var d := Pull(p.writers, n);
            && d.done == Emptied(xfer)
            && d.waiting == if rest == [] then []
                            else CutHead(rest, n - |Offered(xfer)|)
  {
    forall i | 0 <= i < |xfer| ensures xfer[i].left != [] {
      assert p.writers[i] == xfer[i] && WriterWaits(p.writers[i]);
    }
    PullWorking(xfer, rest, n);
  }

  /** How much is on offer, and how full the ring is. */
  lemma {:induction false} OffersKnown(p: Pipe, xfer: seq<Writer>, rest: seq<Writer>, n: nat)
    requires Shape(p) && p.writers == xfer + rest
    ensures xfer + rest != [] ==> |p.ring| == p.size
    ensures xfer == [] ==> Offered(xfer) == []
    ensures rest == [] ==> |Offered(p.writers)| == |Offered(xfer)|
    ensures rest != [] ==> |Offered(p.writers)| >= |Offered(xfer)| + |rest[0].left|
  {
    OfferedAppend(xfer, rest);
  }

  /** The sizes in a get: `s` bytes in the working set, `head` in the writer left on
      the queue, if any; `kept` bytes of the working set did not fit the caller's
      buffer, and `t` bytes of the head did. */
  predicate Sizes(size: nat, used: nat, n: nat, s: nat, rest: bool, head: nat, offered: nat, outs: nat, kept: nat, t: nat) {
    && used <= size && s <= n
    && (if rest then used == size && s + head > n && offered >= s + head && t <= head
        else offered == s && t == 0 && (s > 0 ==> used == size))
    && outs + kept == Min(n, used) + s + t
    && outs <= n && (outs < n ==> kept == 0 && !rest)
    && (t > 0 ==> kept == 0)
  }

  lemma {:induction false} SizesFit(size: nat, used: nat, n: nat, s: nat, rest: bool, head: nat, offered: nat, outs: nat, kept: nat, t: nat)
    requires Sizes(size, used, n, s, rest, head, offered, outs, kept, t)
    ensures used <= size && kept <= size - (used - Min(n, used))
    ensures rest ==> t + Min(head - t, size - (used - Min(n, used)) - kept) == n - s
    ensures outs == Min(n, used + offered)
  {
  }

  lemma {:induction false} GetSizes(p: Pipe, xfer: seq<Writer>, rest: seq<Writer>, n: nat, outs: nat, kept: nat, t: nat)
    requires Shape(p) && p.writers == xfer + rest
    requires |Offered(xfer)| <= n && (rest != [] ==> |Offered(xfer)| + |rest[0].left| > n && t <= |rest[0].left|)
    requires outs + kept == Min(n, |p.ring|) + |Offered(xfer)| + t
    requires outs <= n && (outs < n ==> kept == 0 && rest == []) && (t > 0 ==> kept == 0 && rest != [])
    ensures Sizes(p.size, |p.ring|, n, |Offered(xfer)|, rest != [], if rest == [] then 0 else |rest[0].left|,
                  |Offered(p.writers)|, outs, kept, t)
  {
    OffersKnown(p, xfer, rest, n);
    hide Offered;
  }

  /** What the caller has after ServeFirst, and that the rest of the working set
      then fits the ring. */
  ghost predicate Served(p: Pipe, xfer: seq<Writer>, rest: seq<Writer>, n: nat, outs: nat, list: seq<Writer>, t: nat, ws: seq<Writer>) {
    && Shape(p) && p.writers == xfer + rest
    && |Offered(xfer)| <= n && (rest != [] ==> |Offered(xfer)| + |rest[0].left| > n && t <= |rest[0].left|)
    && outs + |Offered(list)| == Min(n, |p.ring|) + |Offered(xfer)| + t
    && outs <= n && (outs < n ==> list == [] && rest == []) && (t > 0 ==> list == [] && rest != [])
    && ws == if rest == [] then [] else CutHead(rest, t)
  }

  lemma {:induction false} ServedSizes(p: Pipe, xfer: seq<Writer>, rest: seq<Writer>, n: nat, outs: nat, list: seq<Writer>, t: nat, ws: seq<Writer>)
    requires Served(p, xfer, rest, n, outs, list, t, ws)
    ensures rest == [] <==> ws == []
    ensures var head := if rest == [] then 0 else |rest[0].left|;
            && Sizes(p.size, |p.ring|, n, |Offered(xfer)|, rest != [], head, |Offered(p.writers)|, outs, |Offered(list)|, t)
            && (ws != [] ==> t <= head && |ws[0].left| == head - t)
  {
    assert list == [] ==> Offered(list) == [];
    hide Offered, CutHead, Sizes, Shape, Min;
    GetSizes(p, xfer, rest, n, outs, |Offered(list)|, t);
  }

  lemma {:induction false} ServedFits(p: Pipe, xfer: seq<Writer>, rest: seq<Writer>, n: nat, outs: nat, list: seq<Writer>, t: nat, ws: seq<Writer>)
    requires Served(p, xfer, rest, n, outs, list, t, ws)
    ensures |p.ring| <= p.size && |Offered(list)| <= p.size - (|p.ring| - Min(n, |p.ring|))
    ensures ws != [] ==> t + Min(|ws[0].left|, p.size - (|p.ring| - Min(n, |p.ring|)) - |Offered(list)|) == n - |Offered(xfer)|
    ensures outs == GetCount(p, n)
  {
    hide Served, Offered, Sizes;
    ServedSizes(p, xfer, rest, n, outs, list, t, ws);
    var head := if rest == [] then 0 else |rest[0].left|;
    SizesFit(p.size, |p.ring|, n, |Offered(xfer)|, rest != [], head, |Offered(p.writers)|, outs, |Offered(list)|, t);
  }

  lemma {:induction false} ServedDone(p: Pipe, c: CallId, xfer: seq<Writer>, rest: seq<Writer>, n: nat, out: seq<Byte>,
                                      list: seq<Writer>, t: nat, ws: seq<Writer>, u: nat, ring: seq<Byte>, last: seq<Writer>)
    requires Served(p, xfer, rest, n, |out|, list, t, ws)
    requires ws == [] ==> last == []
    requires ws != [] ==> u <= |ws[0].left| && t + u == n - |Offered(xfer)| && last == CutHead(ws, u)
    requires |out| == GetCount(p, n) && Flow(out, ring, last, p.ring + Offered(p.writers))
    ensures Pull(p.writers, n).done == Emptied(xfer)
    ensures var (p1, o) := GetMoves(p, c, n); out == o && ring == p1.ring && last == p1.writers
  {
    hide Offered, CutHead, Flow, GetMoves, Pull, Emptied, Shape, GetCount;
    PullWaiting(p, xfer, rest, n);
    if rest != [] {
      CutTwice(rest, t, u);
    }
    GetDone(p, c, n, out, ring, last);
  }

  // ---- a put in progress -------------------------------------------------------------

  lemma {:induction false} FeedNext(list: seq<Reader>, rest: seq<Reader>, data: seq<Byte>, k: nat)
    requires list != [] && 0 < list[0].want && k + Demand(list) <= |data|
    ensures var r := list[0];
            && Demand(list) == r.want + Demand(list[1..])
            && var f, e := Feed(list + rest, data[k..]), Feed(list[1..] + rest, data[k + r.want..]);
               f.waiting == e.waiting && f.done == [Serve(r, data[k..k + r.want])] + e.done
  {
    hide Feed, Demand;
    var r, tail := list[0], list[1..];
    assert list == [r] + tail;
    DemandCons(r, tail);
    var d := data[k..];
    assert d[r.want..] == data[k + r.want..] && d[..r.want] == data[k..k + r.want];
    assert list + rest == [r] + (tail + rest);
    FeedStep(r, tail + rest, d);
  }

  /** The reader left on the queue gets what remains, which may be nothing. */
  lemma {:induction false} FeedLast(r: Reader, rs: seq<Reader>, data: seq<Byte>)
    requires r.want > |data|
    ensures var f := Feed([r] + rs, data); f.done == [] && f.waiting == [Serve(r, data)] + rs
  {
    assert ([r] + rs)[1..] == rs;
    if data == [] {
      assert Serve(r, data) == r;
    }
  }

  lemma {:induction false} DemandCons(r: Reader, rs: seq<Reader>)
    ensures Demand([r] + rs) == r.want + Demand(rs)
  {
    assert ([r] + rs)[1..] == rs;
  }

  lemma {:induction false} XferWaits(p: Pipe, xfer: seq<Reader>, rest: seq<Reader>)
    requires Shape(p) && p.readers == xfer + rest
    ensures |p.ring| <= p.size && forall i :: 0 <= i < |xfer| ==> xfer[i].want > 0
  {
    forall i | 0 <= i < |xfer| ensures xfer[i].want > 0 {
      assert p.readers[i] == xfer[i] && ReaderWaits(p.readers[i]);
    }
  }

  lemma {:induction false} PutCountSame(p: Pipe, data: seq<Byte>)
    requires |p.ring| <= p.size
    ensures PutCount(p.(next := p.next + 1), data) == PutCount(p, data)
  {
  }

  lemma {:induction false} GetLogs(p: Pipe, c: CallId, n: nat)
    ensures var (p1, o) := GetMoves(p, c, n);
            p1 == p.(writers := p1.writers, ring := p1.ring, sent := p.sent + Pull(p.writers, n).chunks,
                     delivered := p.delivered + [Chunk(c, o)],
                     finished := p.finished + WriterReturns(Pull(p.writers, n).done))
  {
    hide Pull, Bytes, Offered, WriterReturns;
  }

  lemma {:induction false} ShapeKnown(p: Pipe)
    requires Inv(p)
    ensures Shape(p) && Shape(p.(next := p.next + 1))
  {
    hide Stream, CallsOk, SharesOk, ReturnsOk;
  }

  class KPipe {
    const size: nat
    const buffer: array<Byte>
    var bytesUsed: nat
    var readIndex: nat
    var writeIndex: nat
    var writers: seq<Writer>
    var readers: seq<Reader>
    var next: CallId
    ghost var sent: seq<Chunk>
    ghost var delivered: seq<Chunk>
    ghost var finished: seq<Return>

    ghost predicate Shaped()
      reads this`bytesUsed, this`readIndex, this`writeIndex
    {
      buffer.Length == size && Indexes(size, readIndex, writeIndex, bytesUsed)
    }

    ghost function Contents(): (c: seq<Byte>)
      requires Shaped()
      reads this`bytesUsed, this`readIndex, this`writeIndex, buffer
      ensures |c| == bytesUsed
    {
      Window(buffer[..], readIndex, bytesUsed)
    }

    ghost function View(): Pipe
      requires Shaped()
      reads this, buffer
    {
      Pipe(size, Contents(), writers, readers, next, sent, delivered, finished)
    }

    ghost predicate Valid()
      reads this, buffer
    {
      Shaped() && Inv(View())
    }

    constructor (data: array<Byte>)
      ensures Valid() && buffer == data && View() == Initial(data.Length)
    {
      size := data.Length;
      buffer := data;
      bytesUsed, readIndex, writeIndex := 0, 0, 0;
      writers, readers := [], [];
      next, sent, delivered, finished := 0, [], [], [];
    }

    /** pipe_xfer() with a destination inside the circular buffer. */
    method XferIn(src: seq<Byte>, room: nat) returns (n: nat)
      requires Shaped() && writeIndex + room <= size
      modifies buffer
      ensures n == Min(room, |src|)
      ensures buffer[..] == old(buffer[..writeIndex]) + src[..n] + old(buffer[writeIndex + n..])
    {
      n := Min(room, |src|);
      var i := 0;
      while i < n
        invariant i <= n
        invariant forall k :: 0 <= k < size && !(writeIndex <= k < writeIndex + i) ==> buffer[k] == old(buffer[k])
        invariant forall k :: 0 <= k < i ==> buffer[writeIndex + k] == src[k]
      {
        buffer[writeIndex + i] := src[i];
        i := i + 1;
      }
    }

    /** pipe_xfer() with a source inside the circular buffer. */
    method XferOut(room: nat, run: nat) returns (out: seq<Byte>)
      requires Shaped() && readIndex + run <= size
      ensures out == buffer[readIndex..readIndex + Min(room, run)]
    {
      var n := Min(room, run);
      out := [];
      while |out| < n
        invariant |out| <= n
        invariant out == buffer[readIndex..readIndex + |out|]
      {
        out := out + [buffer[readIndex + |out|]];
      }
    }

    /** One round of pipe_buffer_put(): up to the end of the buffer. */
    method PutRun(data: seq<Byte>) returns (k: nat)
      requires Shaped()
      modifies buffer, this`bytesUsed, this`writeIndex
      ensures Shaped()
      ensures k == Min(Min(size - old(bytesUsed), size - old(writeIndex)), |data|)
      ensures bytesUsed == old(bytesUsed) + k
      ensures writeIndex == 0 || writeIndex == old(writeIndex) + k < size
      ensures Contents() == old(Contents()) + data[..k]
    {
      hide Indexes, Window;
      IndexesKnown(size, readIndex, writeIndex, bytesUsed);
      var run := Min(size - bytesUsed, size - writeIndex);
      ghost var before := buffer[..];
      k := XferIn(data, run);
      WindowPut(before, buffer[..], readIndex, bytesUsed, writeIndex, data[..k]);
      IndexesPut(size, readIndex, writeIndex, bytesUsed, k);
      bytesUsed, writeIndex := bytesUsed + k, writeIndex + k;
      if writeIndex == size {
        writeIndex := 0;
      }
    }

    /** pipe_buffer_put() */
    method BufferPut(data: seq<Byte>) returns (n: nat)
      requires Shaped()
      modifies buffer, this`bytesUsed, this`writeIndex
      ensures Shaped()
      ensures n == Min(|data|, size - old(bytesUsed))
      ensures Contents() == old(Contents()) + data[..n]
    {
      hide Contents, Window;
      n := 0;
      var i := 0;
      while i < 2
        invariant i <= 2 && n <= |data| && Shaped()
        invariant bytesUsed == old(bytesUsed) + n
        invariant Contents() == old(Contents()) + data[..n]
        invariant i == 1 ==> n == |data| || bytesUsed == size || writeIndex == 0
        invariant i == 2 ==> n == |data| || bytesUsed == size
      {
        ghost var c := Contents();
        var k := PutRun(data[n..]);
        SliceOn(data, n, k);
        assert Contents() == old(Contents()) + (data[..n] + data[n..][..k]);
        n := n + k;
        i := i + 1;
      }
    }

    /** One round of pipe_buffer_get(). */
    method GetRun(room: nat) returns (b: seq<Byte>)
      requires Shaped()
      modifies this`bytesUsed, this`readIndex
      ensures Shaped()
      ensures |b| == Min(room, Min(old(bytesUsed), size - old(readIndex)))
      ensures bytesUsed == old(bytesUsed) - |b|
      ensures readIndex == 0 || readIndex == old(readIndex) + |b| < size
      ensures b + Contents() == old(Contents())
    {
      hide Indexes, Window;
      IndexesKnown(size, readIndex, writeIndex, bytesUsed);
      var run := Min(bytesUsed, size - readIndex);
      b := XferOut(room, run);
      WindowGet(buffer[..], readIndex, bytesUsed, |b|);
      assert b == buffer[..][readIndex..readIndex + |b|];
      IndexesGet(size, readIndex, writeIndex, bytesUsed, |b|);
      bytesUsed, readIndex := bytesUsed - |b|, readIndex + |b|;
      if readIndex == size {
        readIndex := 0;
      }
    }

    /** pipe_buffer_get() */
    method BufferGet(room: nat) returns (out: seq<Byte>)
      requires Shaped()
      modifies this`bytesUsed, this`readIndex
      ensures Shaped()
      ensures out + Contents() == old(Contents())
      ensures |out| == Min(room, old(bytesUsed)) && bytesUsed == old(bytesUsed) - |out|
    {
      hide Contents, Window;
      out := [];
      ghost var c := Contents();
      var i := 0;
      while i < 2
        invariant i <= 2 && |out| <= room && Shaped()
        invariant |out| + bytesUsed == old(bytesUsed)
        invariant out + Contents() == c
        invariant i == 1 ==> |out| == room || bytesUsed == 0 || readIndex == 0
        invariant i == 2 ==> |out| == room || bytesUsed == 0
      {
        var b := GetRun(room - |out|);
        assert out + (b + Contents()) == out + b + Contents();
        out := out + b;
        i := i + 1;
      }
    }

    /** pipe_xfer_prepare() for the writers: whether the request can be met at all,
        and the writers whose whole data it can take. */
    method PrepareWriters(space: nat, n: nat, min: nat, wait: bool) returns (ok: bool, xfer: seq<Writer>)
      requires min <= n
      modifies this`writers
      ensures ok == (wait || |Offered(old(writers))| + space >= min)
      ensures xfer + writers == old(writers)
      ensures !ok ==> xfer == []
      ensures ok ==> |Offered(xfer)| <= n && (writers != [] ==> |Offered(xfer)| + |writers[0].left| > n)
    {
      xfer := [];
      if !wait {
        var bytes, i := 0, 0;
        while i < |writers| && (i == 0 || bytes < n)
          invariant i <= |writers|
          invariant bytes + |Offered(writers[i..])| == |Offered(writers)|
        {
          bytes := bytes + |writers[i].left|;
          i := i + 1;
          assert writers[i - 1..][1..] == writers[i..];
        }
        assert bytes >= n || writers[i..] == [];
        if bytes + space < min {
          return false, [];
        }
      }
      var bytes := 0;
      while writers != []
        invariant xfer + writers == old(writers)
        invariant bytes == |Offered(xfer)| <= n
      {
        var w := writers[0];
        bytes := bytes + |w.left|;
        if bytes > n {
          break;
        }
        OfferedAppend(xfer, [w]);
        assert Offered([w]) == w.left by {
          assert [w][1..] == [];
        }
        xfer, writers := xfer + [w], writers[1..];
      }
      ok := true;
    }

    /** The working set serves the caller of a get until it has `n` bytes; a writer
        whose data is used up is released. */
    method ServeCaller(n: nat, got: seq<Byte>, xfer: seq<Writer>, ghost total: seq<Byte>)
      returns (out: seq<Byte>, list: seq<Writer>, released: seq<Writer>)
      requires Shaped() && |got| <= n && (|got| < n ==> Contents() == [])
      requires Flow(got, Contents(), xfer + writers, total)
      ensures Flow(out, Contents(), list + writers, total)
      ensures released + Emptied(list) == Emptied(xfer)
      ensures |out| + |Offered(list)| == |got| + |Offered(xfer)|
      ensures |out| <= n && (|out| < n ==> list == [])
      ensures |got| == n ==> out == got && list == xfer
    {
      hide Contents, Flow;
      out, list, released := got, xfer, [];
      while list != [] && |out| < n
        invariant |got| <= |out| <= n
        invariant Flow(out, Contents(), list + writers, total)
        invariant released + Emptied(list) == Emptied(xfer)
        invariant |out| + |Offered(list)| == |got| + |Offered(xfer)|
        invariant |got| == n ==> out == got && list == xfer
      {
        var w, rest := list[0], list[1..];
        var t := Min(n - |out|, |w.left|);
        assert list + writers == [w] + (rest + writers) && list == [w] + rest;
        FlowOut(out, w, rest + writers, t, total);
        OfferedCut(w, rest, t);
        EmptiedHead(w, rest);
        EmptiedHead(CutWriter(w, t), rest);
        hide Offered, Emptied;
        out, list := out + w.left[..t], [CutWriter(w, t)] + rest;
        assert list + writers == [CutWriter(w, t)] + (rest + writers);
        if |out| == n {
          break;
        }
        released, list := released + [list[0]], rest;
      }
    }

    /** What is left of the working set refills the ring. */
    method Refill(xfer: seq<Writer>, ghost out: seq<Byte>, ghost total: seq<Byte>) returns (released: seq<Writer>)
      requires Shaped() && |Offered(xfer)| <= size - bytesUsed
      requires Flow(out, Contents(), xfer + writers, total)
      modifies buffer, this`bytesUsed, this`writeIndex
      ensures Shaped() && bytesUsed == old(bytesUsed) + |Offered(xfer)|
      ensures Flow(out, Contents(), writers, total)
      ensures released == Emptied(xfer)
    {
      hide Contents, Flow;
      released := [];
      var list := xfer;
      while list != []
        invariant Shaped() && bytesUsed + |Offered(list)| == old(bytesUsed) + |Offered(xfer)|
        invariant Flow(out, Contents(), list + writers, total)
        invariant released + Emptied(list) == Emptied(xfer)
      {
        var w, rest := list[0], list[1..];
        assert list + writers == [w] + (rest + writers) && list == [w] + rest;
        FlowIn(out, Contents(), w, rest + writers, |w.left|, total);
        OfferedCut(w, rest, |w.left|);
        EmptiedHead(w, rest);
        hide Offered, Emptied;
        var k := BufferPut(w.left);
        assert k == |w.left|;
        released, list := released + [CutWriter(w, k)], rest;
      }
      assert list + writers == writers;
    }

    /** The writer left on the queue serves the caller as well. */
    method HeadServes(n: nat, got: seq<Byte>, ghost total: seq<Byte>) returns (out: seq<Byte>, ghost t: nat)
      requires Shaped() && writers != [] && |got| < n && Contents() == []
      requires Flow(got, Contents(), writers, total)
      modifies this`writers
      ensures Flow(out, Contents(), writers, total)
      ensures t == Min(n - |got|, |old(writers)[0].left|) && |out| == |got| + t
      ensures writers == CutHead(old(writers), t)
    {
      hide Contents, Flow;
      var w, ws := writers[0], writers[1..];
      var k := Min(n - |got|, |w.left|);
      assert writers == [w] + ws;
      FlowOut(got, w, ws, k, total);
      out, writers := got + w.left[..k], [CutWriter(w, k)] + ws;
      t := k;
    }

    /** ... and tops up the ring. */
    method HeadRefills(ghost out: seq<Byte>, ghost total: seq<Byte>) returns (ghost t: nat)
      requires Shaped() && writers != []
      requires Flow(out, Contents(), writers, total)
      modifies buffer, this`writers, this`bytesUsed, this`writeIndex
      ensures Shaped() && Flow(out, Contents(), writers, total)
      ensures t == Min(|old(writers)[0].left|, size - old(bytesUsed))
      ensures writers == CutHead(old(writers), t)
    {
      hide Contents, Flow;
      var w, ws := writers[0], writers[1..];
      assert writers == [w] + ws;
      FlowIn(out, Contents(), w, ws, Min(|w.left|, size - bytesUsed), total);
      var k := BufferPut(w.left);
      writers := [CutWriter(w, k)] + ws;
      t := k;
    }

    /** z_impl_k_pipe_get() up to the point where the caller has its data. */
    method ServeFirst(n: nat, xfer: seq<Writer>, ghost total: seq<Byte>)
      returns (out: seq<Byte>, list: seq<Writer>, released: seq<Writer>, ghost t: nat)
      requires Shaped() && total == Contents() + Offered(xfer + writers)
      requires |Offered(xfer)| <= n && (writers != [] ==> |Offered(xfer)| + |writers[0].left| > n)
      modifies this`writers, this`bytesUsed, this`readIndex
      ensures Shaped() && Flow(out, Contents(), list + writers, total)
      ensures released + Emptied(list) == Emptied(xfer)
      ensures bytesUsed == old(bytesUsed) - Min(n, old(bytesUsed))
      ensures |out| + |Offered(list)| == Min(n, old(bytesUsed)) + |Offered(xfer)| + t
      ensures |out| <= n && (|out| < n ==> list == [] && writers == [])
      ensures if old(writers) == [] then writers == [] && t == 0
              else t <= |old(writers)[0].left| && writers == CutHead(old(writers), t) && (t > 0 ==> list == [])
    {
      assert Offered([]) == [];
      hide Contents, Flow, Window, Offered, CutHead, Emptied;
      ghost var ring := Contents();
      var got := BufferGet(n);
      FlowStarts(got, Contents(), ring, xfer + writers);
      out, list, released := ServeCaller(n, got, xfer, total);
      t := 0;
      if writers != [] {
        CutTwice(writers, 0, 0);
        if |out| < n {
          assert list + writers == writers;
          out, t := HeadServes(n, out, total);
          assert list + writers == writers;
        }
      }
    }

    /** z_impl_k_pipe_get() from there on: the rest of the working set, and then
        the writer left on the queue, go into the ring. */
    method RefillLast(list: seq<Writer>, ghost out: seq<Byte>, ghost total: seq<Byte>)
      returns (released: seq<Writer>, ghost u: nat)
      requires Shaped() && |Offered(list)| <= size - bytesUsed
      requires Flow(out, Contents(), list + writers, total)
      modifies buffer, this`writers, this`bytesUsed, this`writeIndex
      ensures Shaped() && Flow(out, Contents(), writers, total) && released == Emptied(list)
      ensures if old(writers) == [] then writers == [] && u == 0
              else && u <= |old(writers)[0].left|
                   && u == Min(|old(writers)[0].left|, size - old(bytesUsed) - |Offered(list)|)
                   && writers == CutHead(old(writers), u)
    {
      hide Contents, Flow, Window, Offered, CutHead, Emptied;
      released := Refill(list, out, total);
      u := 0;
      if writers != [] {
        u := HeadRefills(out, total);
      }
    }

    /** The copying part of z_impl_k_pipe_get(): the ring, then the working set and
        the writer left on the queue, first to the caller and then into the ring. */
    method GetBytes(n: nat, xfer: seq<Writer>, ghost p: Pipe, c: CallId)
      returns (out: seq<Byte>)
      requires Shaped() && Shape(p) && p == View().(writers := xfer + writers)
      requires |Offered(xfer)| <= n && (writers != [] ==> |Offered(xfer)| + |writers[0].left| > n)
      modifies this, buffer
      ensures Shaped() && (View(), out) == GetMoves(p, c, n) && next == old(next)
    {
      hide Shape, Pull, Contents, Flow, GetMoves, Window, Offered, CutHead, Emptied, Min, Indexes, GetCount;
      ghost var total, rest := p.ring + Offered(p.writers), writers;
      var list, first, second;
      ghost var t, u;
      out, list, first, t := ServeFirst(n, xfer, total);
      ghost var ws := writers;
      ServedFits(p, xfer, rest, n, |out|, list, t, ws);
      hide Served;
      second, u := RefillLast(list, out, total);
      ServedDone(p, c, xfer, rest, n, out, list, t, ws, u, Contents(), writers);
      GetLogs(p, c, n);
      sent := sent + Pull(p.writers, n).chunks;
      delivered := delivered + [Chunk(c, out)];
      finished := finished + WriterReturns(first + second);
    }

    /** z_impl_k_pipe_get() */
    method PipeGet(prio: int, n: nat, min: nat, wait: bool) returns (out: seq<Byte>, r: Outcome)
      requires Valid()
      modifies this, buffer
      ensures Valid()
      ensures (View(), out, r) == Get(old(View()), prio, n, min, wait)
    {
      hide Inv, Contents, Offered, Insert, Window, Indexes, GetMoves;
      ghost var p := View();
      var c := next;
      GetKeeps(p, prio, n, min, wait);
      next := next + 1;
      if min > n {
        finished := finished + [Return(c, Invalid, 0, min)];
        return [], Returned(Invalid, 0);
      }
      var ok, xfer := PrepareWriters(bytesUsed, n, min, wait);
      if !ok {
        assert xfer + writers == writers;
        finished := finished + [Return(c, Io, 0, min)];
        return [], Returned(Io, 0);
      }
      ghost var p0 := p.(next := c + 1);
      ShapeKnown(p);
      out := GetBytes(n, xfer, p0, c);
      if |out| == n || (wait && |out| >= min && min > 0) {
        finished := finished + [Return(c, Ok, |out|, min)];
        r := Returned(Ok, |out|);
      } else if wait {
        readers := PriqAdd(readers, Reader(c, prio, min, out, n - |out|), ReaderPrio);
        r := Blocked;
      } else {
        var code := ReturnCode(min, |out|);
        finished := finished + [Return(c, code, |out|, min)];
        r := Returned(code, |out|);
      }
    }

    /** pipe_xfer_prepare() for the readers. */
    method PrepareReaders(space: nat, n: nat, min: nat, wait: bool) returns (ok: bool, xfer: seq<Reader>)
      requires min <= n
      modifies this`readers
      ensures ok == (wait || Demand(old(readers)) + space >= min)
      ensures xfer + readers == old(readers)
      ensures !ok ==> xfer == []
      ensures ok ==> Demand(xfer) <= n && (readers != [] ==> Demand(xfer) + readers[0].want > n)
    {
      xfer := [];
      if !wait {
        var bytes, i := 0, 0;
        while i < |readers| && (i == 0 || bytes < n)
          invariant i <= |readers|
          invariant bytes + Demand(readers[i..]) == Demand(readers)
        {
          bytes := bytes + readers[i].want;
          i := i + 1;
          assert readers[i - 1..][1..] == readers[i..];
        }
        assert bytes >= n || readers[i..] == [];
        if bytes + space < min {
          return false, [];
        }
      }
      var bytes := 0;
      while readers != []
        invariant xfer + readers == old(readers)
        invariant bytes == Demand(xfer) <= n
      {
        var r := readers[0];
        bytes := bytes + r.want;
        if bytes > n {
          break;
        }
        DemandAppend(xfer, [r]);
        assert Demand([r]) == r.want by {
          assert [r][1..] == [];
        }
        xfer, readers := xfer + [r], readers[1..];
      }
      ok := true;
    }

    /** Every reader of the working set gets all it wants and is released. */
    method ServeReaders(data: seq<Byte>, xfer: seq<Reader>) returns (k: nat, released: seq<Reader>)
      requires Demand(xfer) <= |data|
      requires forall i :: 0 <= i < |xfer| ==> xfer[i].want > 0
      ensures k == Demand(xfer)
      ensures var f, e := Feed(xfer + readers, data), Feed(readers, data[Demand(xfer)..]);
              f.waiting == e.waiting && f.done == released + e.done
    {
      assert Demand([]) == 0;
      hide Feed, Demand;
      ghost var f, all := Feed(xfer + readers, data), Demand(xfer);
      assert data[0..] == data;
      k, released := 0, [];
      var list := xfer;
      while list != []
        invariant k + Demand(list) == all
        invariant forall i :: 0 <= i < |list| ==> list[i].want > 0
        invariant f.waiting == Feed(list + readers, data[k..]).waiting
        invariant f.done == released + Feed(list + readers, data[k..]).done
      {
        FeedNext(list, readers, data, k);
        var r := list[0];
        released, k, list := released + [Serve(r, data[k..k + r.want])], k + r.want, list[1..];
      }
      assert list + readers == readers && data[k..] == data[all..];
    }

    /** ... and the reader left on the queue gets what remains. */
    method ServeAll(data: seq<Byte>, xfer: seq<Reader>) returns (n: nat, released: seq<Reader>)
      requires forall i :: 0 <= i < |xfer| ==> xfer[i].want > 0
      requires Demand(xfer) <= |data| && (readers != [] ==> Demand(xfer) + readers[0].want > |data|)
      modifies this`readers
      ensures n == Min(Demand(xfer + old(readers)), |data|)
      ensures var f := Feed(xfer + old(readers), data); released == f.done && readers == f.waiting
    {
      assert readers != [] ==> Demand(readers) >= readers[0].want;
      assert readers == [] ==> Demand(readers) == 0;
      DemandAppend(xfer, readers);
      assert Feed([], data[Demand(xfer)..]) == Fed([], [], []);
      hide Feed, Demand;
      n, released := ServeReaders(data, xfer);
      if readers != [] {
        var r, rest := readers[0], readers[1..];
        assert readers == [r] + rest;
        FeedLast(r, rest, data[n..]);
        readers := [Serve(r, data[n..])] + rest;
        n := |data|;
      }
    }

    /** The copying part of z_pipe_put_internal(): the working set, the reader left
        on the queue, and then the ring. */
    method PutBytes(data: seq<Byte>, xfer: seq<Reader>, ghost p: Pipe, c: CallId)
      returns (n: nat)
      requires Shaped() && Shape(p) && p == View().(readers := xfer + readers)
      requires Demand(xfer) <= |data| && (readers != [] ==> Demand(xfer) + readers[0].want > |data|)
      modifies this, buffer
      ensures Shaped() && n == PutCount(p, data) && View() == PutMoves(p, c, data) && next == old(next)
    {
      hide Feed, Contents, Window, Demand, Indexes, ReaderReturns, WriterWaits, ReaderWaits, Ordered;
      XferWaits(p, xfer, readers);
      hide Shape;
      var released;
      n, released := ServeAll(data, xfer);
      var k := BufferPut(data[n..]);
      n := n + k;
      sent := sent + [Chunk(c, data[..n])];
      delivered := delivered + Feed(p.readers, data).chunks;
      finished := finished + ReaderReturns(released);
    }

    /** z_pipe_put_internal() */
    method PipePut(prio: int, data: seq<Byte>, min: nat, wait: bool) returns (r: Outcome)
      requires Valid()
      modifies this, buffer
      ensures Valid() && |old(View()).ring| <= old(View()).size
      ensures (View(), r) == Put(old(View()), prio, data, min, wait)
    {
      hide Inv, Contents, Demand, Insert, Window, PutMoves, PutCount;
      ghost var p := View();
      var c := next;
      PutKeeps(p, prio, data, min, wait);
      next := next + 1;
      if min > |data| {
        finished := finished + [Return(c, Invalid, 0, min)];
        return Returned(Invalid, 0);
      }
      var ok, xfer := PrepareReaders(size - bytesUsed, |data|, min, wait);
      if !ok {
        assert xfer + readers == readers;
        finished := finished + [Return(c, Io, 0, min)];
        return Returned(Io, 0);
      }
      hide Indexes;
      ghost var p0 := p.(next := c + 1);
      ShapeKnown(p);
      var n := PutBytes(data, xfer, p0, c);
      PutCountSame(p, data);
      if n == |data| || (wait && n >= min && min > 0) {
        finished := finished + [Return(c, Ok, n, min)];
        r := Returned(Ok, n);
      } else if wait {
        writers := PriqAdd(writers, Writer(c, prio, min, data, data[n..]), WriterPrio);
        r := Blocked;
      } else {
        var code := ReturnCode(min, n);
        finished := finished + [Return(c, code, n, min)];
        r := Returned(code, n);
      }
    }

    /** z_impl_k_pipe_read_avail() */
    method ReadAvail() returns (n: nat)
      requires Shaped()
      ensures n == |Contents()|
    {
      if size == 0 {
        n := 0;
      } else if readIndex == writeIndex {
        n := bytesUsed;
      } else if readIndex < writeIndex {
        n := writeIndex - readIndex;
      } else {
        n := size - (readIndex - writeIndex);
      }
    }

    /** z_impl_k_pipe_write_avail() */
    method WriteAvail() returns (n: nat)
      requires Shaped()
      ensures n == size - |Contents()|
    {
      if size == 0 {
        n := 0;
      } else if writeIndex == readIndex {
        n := size - bytesUsed;
      } else if writeIndex < readIndex {
        n := readIndex - writeIndex;
      } else {
        n := size - (writeIndex - readIndex);
      }
    }
  }
}
