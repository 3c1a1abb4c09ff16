/**
 struct k_msgq over its byte buffer, with read and write pointers that wrap, and
 the calls of zephyr/kernel/msg_q.c, proved equal to the steps of MsgqSpec.
 */
module MessageQueue {
  import opened MsgqSpec
  import opened WaitQueue

  // ---- slots of a byte buffer --------------------------------------------------------

  function Wrap(i: nat, max: nat): nat {
    if i < max then i else i - max
  }

  lemma {:induction false} SlotApart(j: nat, k: nat, size: nat)
    requires j < k
    ensures j * size + size <= k * size
  {
    assert (j + 1) * size <= k * size;
  }

  /** MsgAt `k` of a buffer of `max` messages of `size` bytes. */
  function MsgAt(b: seq<Byte>, max: nat, size: nat, k: nat): Msg
    requires k < max && |b| == max * size
  {
    SlotApart(k, max, size);
    b[k * size..k * size + size]
  }

  /** The `n` messages from slot `read` on, across the end of the buffer. */
  function Slots(b: seq<Byte>, max: nat, size: nat, read: nat, n: nat): (r: seq<Msg>)
    requires |b| == max * size && n <= max && (n == 0 || read < max)
    ensures |r| == n && forall i :: 0 <= i < n ==> r[i] == MsgAt(b, max, size, Wrap(read + i, max))
  {
    seq(n, i requires 0 <= i < n => MsgAt(b, max, size, Wrap(read + i, max)))
  }

  /** Writing one slot leaves the others alone. */
  lemma {:induction false} SlotWritten(b: seq<Byte>, c: seq<Byte>, max: nat, size: nat, w: nat, m: Msg, k: nat)
    requires |b| == max * size && |c| == |b| && w < max && k < max && |m| == size
    requires w * size + size <= |b| && c == b[..w * size] + m + b[w * size + size..]
    ensures MsgAt(c, max, size, k) == if k == w then m else MsgAt(b, max, size, k)
  {
    SlotApart(k, max, size);
    if k < w {
      SlotApart(k, w, size);
      assert c[k * size..k * size + size] == b[k * size..k * size + size];
    } else if w < k {
      SlotApart(w, k, size);
      assert c[k * size..k * size + size] == b[k * size..k * size + size];
    }
  }

  lemma {:induction false} SlotsPut(b: seq<Byte>, c: seq<Byte>, max: nat, size: nat, read: nat, n: nat, m: Msg)
    requires |b| == max * size && |c| == |b| && n < max && read < max && |m| == size
    requires var w := Wrap(read + n, max);
             w * size + size <= |b| && c == b[..w * size] + m + b[w * size + size..]
    ensures Slots(c, max, size, read, n + 1) == Slots(b, max, size, read, n) + [m]
  {
    var w := Wrap(read + n, max);
    hide MsgAt;
    forall i | 0 <= i < n + 1 ensures Slots(c, max, size, read, n + 1)[i] == (Slots(b, max, size, read, n) + [m])[i] {
      SlotWritten(b, c, max, size, w, m, Wrap(read + i, max));
    }
  }

  lemma {:induction false} SlotsGet(b: seq<Byte>, max: nat, size: nat, read: nat, n: nat)
    requires |b| == max * size && 0 < n <= max && read < max
    ensures Slots(b, max, size, read, n) == [MsgAt(b, max, size, read)] + Slots(b, max, size, Wrap(read + 1, max), n - 1)
  {
    hide MsgAt;
  }

  class MsgQueue {
    const msgSize: nat
    const maxMsgs: nat
    const buffer: array<Byte>
    var readPtr: nat               // byte offsets from buffer_start
    var writePtr: nat
    var usedMsgs: nat
    var waitq: seq<Waiter>
    var next: CallId               // calls made so far
    ghost var slot: nat            // the slot at the read pointer
    ghost var calls: seq<Call>
    ghost var accepted: seq<Entry>
    ghost var left: seq<Exit>
    ghost var returned: seq<Return>

    ghost predicate Shaped()
      reads this
    {
      && buffer.Length == maxMsgs * msgSize && usedMsgs <= maxMsgs
      && (slot < maxMsgs || (maxMsgs == 0 && slot == 0))
      && readPtr == slot * msgSize
      && writePtr == Wrap(slot + usedMsgs, maxMsgs) * msgSize
      && (forall i :: 0 <= i < |waitq| ==> |waitq[i].data| == msgSize)
      && next == |calls|
    }

    ghost function View(): State
      requires Shaped()
      reads this, buffer
    {
      State(maxMsgs, Slots(buffer[..], maxMsgs, msgSize, slot, usedMsgs), waitq, calls, accepted, left, returned)
    }

    ghost predicate Valid()
      reads this, buffer
    {
      Shaped() && Inv(View())
    }

    /** k_msgq_init() */
    constructor (data: array<Byte>, size: nat, max: nat)
      requires data.Length == max * size
      ensures Valid() && buffer == data && msgSize == size && maxMsgs == max && View() == Initial(max)
    {
      msgSize, maxMsgs, buffer := size, max, data;
      readPtr, writePtr, usedMsgs, waitq, next := 0, 0, 0, [], 0;
      slot, calls, accepted, left, returned := 0, [], [], [], [];
    }

    /** The memcpy() at the write pointer, and its advance. */
    method Store(m: Msg)
      requires Shaped() && usedMsgs < maxMsgs && |m| == msgSize
      modifies buffer, this`writePtr, this`usedMsgs
      ensures Shaped() && View() == old(View()).(ring := old(View()).ring + [m])
    {
      ghost var w := Wrap(slot + usedMsgs, maxMsgs);
      ghost var b := buffer[..];
      SlotApart(w, maxMsgs, msgSize);
      CopyIn(writePtr, m);
      SlotsPut(b, buffer[..], maxMsgs, msgSize, slot, usedMsgs, m);
      hide Slots;
      writePtr := writePtr + msgSize;
      WrapNext(w, maxMsgs, msgSize);
      if writePtr == maxMsgs * msgSize {
        writePtr := 0;
      }
      usedMsgs := usedMsgs + 1;
    }

    method CopyIn(at: nat, m: Msg)
      requires at + |m| <= buffer.Length
      modifies buffer
      ensures buffer[..] == old(buffer[..at]) + m + old(buffer[at + |m|..])
    {
      var i := 0;
      while i < |m|
        invariant i <= |m|
        invariant forall k :: 0 <= k < buffer.Length && !(at <= k < at + i) ==> buffer[k] == old(buffer[k])
        invariant forall k :: 0 <= k < i ==> buffer[at + k] == m[k]
      {
        buffer[at + i] := m[i];
        i := i + 1;
      }
    }

    /** The memcpy() from the read pointer, and its advance. */
    method Fetch() returns (m: Msg)
      requires Shaped() && usedMsgs > 0
      modifies this`readPtr, this`usedMsgs, this`slot
      ensures Shaped() && View() == old(View()).(ring := old(View()).ring[1..])
      ensures m == old(View()).ring[0]
    {
      SlotApart(slot, maxMsgs, msgSize);
      m := buffer[readPtr..readPtr + msgSize];
      SlotsGet(buffer[..], maxMsgs, msgSize, slot, usedMsgs);
      assert m == MsgAt(buffer[..], maxMsgs, msgSize, slot);
      hide Slots, MsgAt;
      WrapNext(slot, maxMsgs, msgSize);
      readPtr := readPtr + msgSize;
      if readPtr == maxMsgs * msgSize {
        readPtr := 0;
      }
      slot, usedMsgs := Wrap(slot + 1, maxMsgs), usedMsgs - 1;
    }

    /** z_pend_curr() on the wait queue */
    method Pend(w: Waiter)
      requires Shaped() && |w.data| == msgSize
      modifies this`waitq
      ensures Shaped() && waitq == Insert(old(waitq), w, WaiterPrio)
    {
      InsertSizes(waitq, w, msgSize);
      hide Insert;
      waitq := PriqAdd(waitq, w, WaiterPrio);
    }

    /** A get lets the first waiting putter's message in. */
    method AdmitFirst()
      requires Shaped() && waitq != [] && usedMsgs < maxMsgs
      modifies buffer, this`writePtr, this`usedMsgs, this`waitq, this`accepted, this`returned
      ensures Shaped() && View() == Admit(old(View()))
    {
      hide Slots;
      var w := waitq[0];
      waitq := waitq[1..];
      Store(w.data);
      accepted, returned := accepted + [Entry(w.call, w.data)], returned + [Return(w.call, 0, w.data)];
    }

    /** z_impl_k_msgq_put() */
    method PutMsg(prio: int, msg: Msg, wait: bool) returns (r: Outcome)
      requires Valid() && |msg| == msgSize
      modifies this, buffer
      ensures Valid() && (View(), r) == Put(old(View()), prio, msg, wait)
    {
      hide Inv, Slots, Insert;
      PutKeeps(View(), prio, msg, wait);
      var call := next;
      next, calls := next + 1, calls + [Putting(msg)];
      if usedMsgs < maxMsgs {
        accepted := accepted + [Entry(call, msg)];
        if waitq != [] {
          var w := waitq[0];
          waitq := waitq[1..];
          left, returned := left + [Taken(w.call, msg)], returned + [Return(w.call, 0, msg)];
        } else {
          Store(msg);
        }
        returned := returned + [Return(call, 0, msg)];
        r := Returned(0, msg);
      } else if !wait {
        returned := returned + [Return(call, -ENOMSG, msg)];
        r := Returned(-ENOMSG, msg);
      } else {
        Pend(Waiter(call, prio, false, msg));
        r := Blocked;
      }
    }

    /** z_impl_k_msgq_get() */
    method GetMsg(prio: int, data: Msg, wait: bool) returns (r: Outcome)
      requires Valid() && |data| == msgSize
      modifies this, buffer
      ensures Valid() && (View(), r) == Get(old(View()), prio, data, wait)
    {
      hide Inv, Slots, Insert, Admit;
      GetKeeps(View(), prio, data, wait);
      var call := next;
      next, calls := next + 1, calls + [Getting];
      if usedMsgs > 0 {
        var m := Fetch();
        left := left + [Taken(call, m)];
        if waitq != [] {
          AdmitFirst();
        }
        returned := returned + [Return(call, 0, m)];
        r := Returned(0, m);
      } else if !wait {
        returned := returned + [Return(call, -ENOMSG, data)];
        r := Returned(-ENOMSG, data);
      } else {
        Pend(Waiter(call, prio, true, data));
        r := Blocked;
      }
    }

    /** z_impl_k_msgq_peek() */
    method PeekMsg(data: Msg) returns (r: Outcome)
      requires Valid()
      ensures r == Peek(View(), data)
    {
      if usedMsgs > 0 {
        SlotApart(slot, maxMsgs, msgSize);
        r := Returned(0, buffer[readPtr..readPtr + msgSize]);
        SlotsGet(buffer[..], maxMsgs, msgSize, slot, usedMsgs);
        assert buffer[readPtr..readPtr + msgSize] == MsgAt(buffer[..], maxMsgs, msgSize, slot);
      } else {
        r := Returned(-ENOMSG, data);
      }
    }

    method WakeAll()
      requires Shaped()
      modifies this`waitq, this`returned
      ensures Shaped() && waitq == [] && returned == old(returned) + Refusals(old(waitq))
    {
      hide Slots;
      while waitq != []
        invariant Shaped()
        invariant returned + Refusals(waitq) == old(returned) + Refusals(old(waitq))
        decreases |waitq|
      {
        var w := waitq[0];
        waitq, returned := waitq[1..], returned + [Return(w.call, -ENOMSG, w.data)];
      }
    }

    /** z_impl_k_msgq_purge() */
    method PurgeMsgs()
      requires Valid()
      modifies this
      ensures Valid() && View() == Purge(old(View()))
    {
      PurgeKeeps(View());
      hide Inv, Slots, MsgAt;
      ghost var ring := View().ring;
      WakeAll();
      left := left + Drops(ring);
      slot, usedMsgs := Wrap(slot + usedMsgs, maxMsgs), 0;
      readPtr := writePtr;
    }
  }

  /** Advancing a pointer by one message and wrapping it at the end of the buffer
      is advancing the slot, also when messages have no bytes. */
  lemma {:induction false} WrapNext(k: nat, max: nat, size: nat)
    requires k < max
    ensures (if k * size + size == max * size then 0 else k * size + size) == Wrap(k + 1, max) * size
  {
    if k + 1 < max && size > 0 {
      SlotApart(k + 1, max, size);
      assert (k + 1) * size == k * size + size;
    } else {
      assert (k + 1) * size == k * size + size;
    }
  }

  lemma {:induction false} InsertSizes(l: seq<Waiter>, w: Waiter, size: nat)
    requires |w.data| == size && forall i :: 0 <= i < |l| ==> |l[i].data| == size
    ensures var r := Insert(l, w, WaiterPrio); forall i :: 0 <= i < |r| ==> |r[i].data| == size
  {
    InsertLength(l, w, WaiterPrio);
    var r := Insert(l, w, WaiterPrio);
    hide Insert;
    forall i | 0 <= i < |r| ensures |r[i].data| == size {
      InsertNth(l, w, WaiterPrio, i);
    }
  }
}
