/**
 Pipes (zephyr/kernel/pipes.c) as a state machine over byte streams. One step
 is one call, or the expiry of one waiting call's timeout; a call moves all
 its bytes with the scheduler locked.
 */
module PipeSpec {
  import opened WaitQueue

  type Byte = bv8
  type CallId = nat

  /** Return codes of put and get. */
  datatype Code = Ok | Invalid | Io | Again

  /** A blocked put: `left` is what its descriptor still points at. */
  datatype Writer = Writer(call: CallId, prio: int, min: nat, data: seq<Byte>, left: seq<Byte>)

  /** A blocked get: `got` has been stored, `want` bytes are outstanding. */
  datatype Reader = Reader(call: CallId, prio: int, min: nat, got: seq<Byte>, want: nat)

  /** Some bytes moved by one copy, and the call they belong to. */
  datatype Chunk = Chunk(call: CallId, bytes: seq<Byte>)

  /** A finished call: its return code, its byte count, and the minimum asked. */
  datatype Return = Return(call: CallId, code: Code, count: int, min: nat)

  datatype Pipe = Pipe(
    size: nat,
    ring: seq<Byte>,
    writers: seq<Writer>,
    readers: seq<Reader>,
    next: CallId,                // calls made so far
    sent: seq<Chunk>,            // everything taken from writers, in order
    delivered: seq<Chunk>,       // everything stored for readers, in order
    finished: seq<Return>)

  function Min(a: nat, b: nat): nat {
    if a < b then a else b
  }

  /** pipe_return_code() */
  function ReturnCode(min: nat, count: int): Code {
    if count >= min then Ok else Again
  }

  function Bytes(cs: seq<Chunk>): seq<Byte> {
    if cs == [] then [] else cs[0].bytes + Bytes(cs[1..])
  }

  /** What one call contributed to a log. */
  function Part(cs: seq<Chunk>, c: CallId): seq<Byte> {
    if cs == [] then [] else (if cs[0].call == c then cs[0].bytes else []) + Part(cs[1..], c)
  }

  // ---- wait queues, sorted by priority and first come first served ---------------

  function WriterPrio(w: Writer): int {
    w.prio
  }

  function ReaderPrio(r: Reader): int {
    r.prio
  }

  // ---- moving bytes ---------------------------------------------------------------

  function Demand(rs: seq<Reader>): nat {
    if rs == [] then 0 else rs[0].want + Demand(rs[1..])
  }

  function Offered(ws: seq<Writer>): seq<Byte> {
    if ws == [] then [] else ws[0].left + Offered(ws[1..])
  }

  /** Readers in queue order take from `data`: who is satisfied, who still
      waits, and what was stored for whom. */
  datatype Fed = Fed(waiting: seq<Reader>, done: seq<Reader>, chunks: seq<Chunk>)

  function Serve(r: Reader, b: seq<Byte>): Reader
    requires |b| <= r.want
  {
    r.(got := r.got + b, want := r.want - |b|)
  }

  function Feed(rs: seq<Reader>, data: seq<Byte>): Fed {
    if rs == [] || data == [] then Fed(rs, [], [])
    else if rs[0].want <= |data| then
      var b := data[..rs[0].want];
      var f := Feed(rs[1..], data[rs[0].want..]);
      Fed(f.waiting, [Serve(rs[0], b)] + f.done, [Chunk(rs[0].call, b)] + f.chunks)
    else
      Fed([Serve(rs[0], data)] + rs[1..], [], [Chunk(rs[0].call, data)])
  }

  /** Writers in queue order give up to `n` bytes. */
  datatype Drained = Drained(waiting: seq<Writer>, done: seq<Writer>, chunks: seq<Chunk>)

  function Pull(ws: seq<Writer>, n: nat): Drained {
    if ws == [] || n == 0 then Drained(ws, [], [])
    else if |ws[0].left| <= n then
      var d := Pull(ws[1..], n - |ws[0].left|);
      Drained(d.waiting, [ws[0].(left := [])] + d.done, [Chunk(ws[0].call, ws[0].left)] + d.chunks)
    else
      Drained([ws[0].(left := ws[0].left[n..])] + ws[1..], [], [Chunk(ws[0].call, ws[0].left[..n])])
  }

  /** The readers are stored exactly the front of the data, as far as they want
      any. */
  lemma {:induction false} FeedBytes(rs: seq<Reader>, data: seq<Byte>)
    ensures Bytes(Feed(rs, data).chunks) == data[..Min(Demand(rs), |data|)]
  {
    if rs != [] && data != [] {
      if rs[0].want <= |data| {
        var b, rest := data[..rs[0].want], data[rs[0].want..];
        FeedBytes(rs[1..], rest);
        assert Feed(rs, data).chunks[1..] == Feed(rs[1..], rest).chunks;
        assert b + rest[..Min(Demand(rs[1..]), |rest|)] == data[..Min(Demand(rs), |data|)];
      } else {
        assert Feed(rs, data).chunks[1..] == [];
      }
    }
  }

  /** What is pulled is the front of what the writers offer; the rest stays on
      offer, in the same order. */
  lemma {:induction false} PullBytes(ws: seq<Writer>, n: nat)
    ensures var m := Min(n, |Offered(ws)|);
            && Bytes(Pull(ws, n).chunks) == Offered(ws)[..m]
            && Offered(Pull(ws, n).waiting) == Offered(ws)[m..]
  {
    if ws != [] && n != 0 {
      var left, tail := ws[0].left, Offered(ws[1..]);
      if |left| <= n {
        PullBytes(ws[1..], n - |left|);
        assert Pull(ws, n).chunks[1..] == Pull(ws[1..], n - |left|).chunks;
        var k := Min(n - |left|, |tail|);
        assert left + tail[..k] == (left + tail)[..|left| + k];
        assert tail[k..] == (left + tail)[|left| + k..];
      } else {
        assert Pull(ws, n).chunks[1..] == [];
        assert Pull(ws, n).waiting[1..] == ws[1..];
        assert left[n..] + tail == (left + tail)[n..];
      }
    }
  }

  function ReaderReturns(rs: seq<Reader>): seq<Return> {
    if rs == [] then []
    else [Return(rs[0].call, ReturnCode(rs[0].min, |rs[0].got|), |rs[0].got|, rs[0].min)] + ReaderReturns(rs[1..])
  }

  function WriterReturns(ws: seq<Writer>): seq<Return> {
    if ws == [] then []
    else
      var count := |ws[0].data| - |ws[0].left|;
      [Return(ws[0].call, ReturnCode(ws[0].min, count), count, ws[0].min)] + WriterReturns(ws[1..])
  }

  // ---- operations -----------------------------------------------------------------

  /** The bytes of a put that go past the waiting readers into the ring. */
  function PutRest(p: Pipe, data: seq<Byte>): seq<Byte> {
    data[Min(Demand(p.readers), |data|)..]
  }

  function PutCount(p: Pipe, data: seq<Byte>): (n: nat)
    requires |p.ring| <= p.size
    ensures n <= |data|
  {
    Min(|data|, Demand(p.readers) + (p.size - |p.ring|))
  }

  /** The bytes of a put that can be placed now have been placed. */
  function PutMoves(p: Pipe, c: CallId, data: seq<Byte>): Pipe
    requires |p.ring| <= p.size
  {
    var f := Feed(p.readers, data);
    var rest := PutRest(p, data);
    p.(readers := f.waiting,
       ring := p.ring + rest[..Min(p.size - |p.ring|, |rest|)],
       sent := p.sent + [Chunk(c, data[..PutCount(p, data)])],
       delivered := p.delivered + f.chunks,
       finished := p.finished + ReaderReturns(f.done))
  }

  /** z_pipe_put_internal(). None of the codes means that the caller waits. */
  datatype Outcome = Returned(code: Code, count: nat) | Blocked

  function Put(p: Pipe, prio: int, data: seq<Byte>, min: nat, wait: bool): (r: (Pipe, Outcome))
    requires |p.ring| <= p.size
  {
    var c := p.next;
    var p0 := p.(next := p.next + 1);
    if min > |data| then (Finish(p0, Return(c, Invalid, 0, min)), Returned(Invalid, 0))
    else if !wait && Demand(p.readers) + (p.size - |p.ring|) < min then
      (Finish(p0, Return(c, Io, 0, min)), Returned(Io, 0))
    else
      var p1 := PutMoves(p0, c, data);
      var n := PutCount(p, data);
      if n == |data| || (wait && n >= min && min > 0) then (Finish(p1, Return(c, Ok, n, min)), Returned(Ok, n))
      else if wait then (PendWriter(p1, Writer(c, prio, min, data, data[n..])), Blocked)
      else (Finish(p1, Return(c, ReturnCode(min, n), n, min)), Returned(ReturnCode(min, n), n))
  }

  function PendWriter(p: Pipe, w: Writer): Pipe {
    p.(writers := Insert(p.writers, w, WriterPrio))
  }

  function PendReader(p: Pipe, r: Reader): Pipe {
    p.(readers := Insert(p.readers, r, ReaderPrio))
  }

  function Finish(p: Pipe, r: Return): Pipe {
    p.(finished := p.finished + [r])
  }

  function GetCount(p: Pipe, n: nat): nat {
    Min(n, |p.ring| + |Offered(p.writers)|)
  }

  /** A get sees the ring and the waiting writers as one stream: it takes from
      the front, and the writers refill what the ring gave. */
  function GetMoves(p: Pipe, c: CallId, n: nat): (r: (Pipe, seq<Byte>))
    ensures |r.1| == GetCount(p, n) <= n
  {
    PullBytes(p.writers, n);
    var d := Pull(p.writers, n);
    var stream := p.ring + Bytes(d.chunks);
    var k := GetCount(p, n);
    (p.(writers := d.waiting,
        ring := stream[k..],
        sent := p.sent + d.chunks,
        delivered := p.delivered + [Chunk(c, stream[..k])],
        finished := p.finished + WriterReturns(d.done)),
     stream[..k])
  }

  /** z_impl_k_pipe_get() */
  function Get(p: Pipe, prio: int, n: nat, min: nat, wait: bool): (r: (Pipe, seq<Byte>, Outcome)) {
    var c := p.next;
    var p0 := p.(next := p.next + 1);
    if min > n then (Finish(p0, Return(c, Invalid, 0, min)), [], Returned(Invalid, 0))
    else if !wait && |Offered(p.writers)| + |p.ring| < min then
      (Finish(p0, Return(c, Io, 0, min)), [], Returned(Io, 0))
    else
      var (p1, out) := GetMoves(p0, c, n);
      if |out| == n || (wait && |out| >= min && min > 0) then
        (Finish(p1, Return(c, Ok, |out|, min)), out, Returned(Ok, |out|))
      else if wait then (PendReader(p1, Reader(c, prio, min, out, n - |out|)), out, Blocked)
      else
        (Finish(p1, Return(c, ReturnCode(min, |out|), |out|, min)), out, Returned(ReturnCode(min, |out|), |out|))
  }

  /** The timeout of a waiting put expires. */
  function ExpireWriter(p: Pipe, i: nat): Pipe
    requires i < |p.writers|
  {
    p.(writers := p.writers[..i] + p.writers[i + 1..], finished := p.finished + WriterReturns([p.writers[i]]))
  }

  function ExpireReader(p: Pipe, i: nat): Pipe
    requires i < |p.readers|
  {
    p.(readers := p.readers[..i] + p.readers[i + 1..], finished := p.finished + ReaderReturns([p.readers[i]]))
  }
}
