/**
 What each call on a message queue answers, and what it does to the queue and to
 those who wait.
 */
module MsgqOutcomes {
  import opened MsgqSpec
  import opened WaitQueue

  /** The returns noted from `s` to `t` are these. */
  predicate Notes(s: State, t: State, rs: seq<Return>) {
    t.returned == s.returned + rs
  }

  /** A put succeeds exactly when there is room: its message goes behind all others, or
      straight to the receiver in front of those who wait. Without room it fails at
      once with -ENOMSG, or its caller waits with the message. */
  lemma {:induction false} PutLaw(s: State, prio: int, msg: Msg, wait: bool)
    requires Inv(s)
    ensures var (t, r) := Put(s, prio, msg, wait);
            var c := |s.calls|;
            && t.calls == s.calls + [Putting(msg)] && t.max == s.max
            && (r == Returned(0, msg) <==> |s.ring| < s.max)
            && (r == Returned(-35, msg) <==> |s.ring| == s.max && !wait)
            && (r == Blocked <==> |s.ring| == s.max && wait)
            && (r == Returned(0, msg) && s.waiters == [] ==>
                  && t.ring == s.ring + [msg] && t.waiters == [] && t.left == s.left
                  && Notes(s, t, [Return(c, 0, msg)]))
            && (r == Returned(0, msg) && s.waiters != [] ==>
                  && s.waiters[0].getter && t.ring == s.ring && t.waiters == s.waiters[1..]
                  && t.left == s.left + [Taken(s.waiters[0].call, msg)]
                  && Notes(s, t, [Return(s.waiters[0].call, 0, msg), Return(c, 0, msg)]))
            && (r == Returned(-35, msg) ==>
                  t == s.(calls := t.calls, returned := t.returned) && Notes(s, t, [Return(c, -35, msg)]))
            && (r == Blocked ==>
                  t == s.(calls := t.calls, waiters := Insert(s.waiters, Waiter(c, prio, false, msg), WaiterPrio)))
  {
    hide Insert, Fifo, Ordered;
    if |s.ring| < s.max && s.waiters != [] {
      var a, b := Return(s.waiters[0].call, 0, msg), Return(|s.calls|, 0, msg);
      assert s.returned + [a] + [b] == s.returned + [a, b];
    }
  }

  /** A get succeeds exactly when there is a message, and takes the first; then the
      message of the sender in front of those who wait comes in behind the others.
      Without a message it fails at once with -ENOMSG, or its caller waits. */
  lemma {:induction false} GetLaw(s: State, prio: int, data: Msg, wait: bool)
    requires Inv(s)
    ensures var (t, r) := Get(s, prio, data, wait);
            var c := |s.calls|;
            && t.calls == s.calls + [Getting] && t.max == s.max
            && (s.ring != [] ==>
                  && r == Returned(0, s.ring[0]) && t.left == s.left + [Taken(c, s.ring[0])]
                  && (s.waiters == [] ==>
                        t.ring == s.ring[1..] && t.waiters == [] && Notes(s, t, [Return(c, 0, s.ring[0])]))
                  && (s.waiters != [] ==>
                        var w := s.waiters[0];
                        && !w.getter && t.ring == s.ring[1..] + [w.data] && t.waiters == s.waiters[1..]
                        && Notes(s, t, [Return(w.call, 0, w.data), Return(c, 0, s.ring[0])])))
            && (s.ring == [] && !wait ==>
                  && r == Returned(-35, data) && t == s.(calls := t.calls, returned := t.returned)
                  && Notes(s, t, [Return(c, -35, data)]))
            && (s.ring == [] && wait ==>
                  && r == Blocked
                  && t == s.(calls := t.calls, waiters := Insert(s.waiters, Waiter(c, prio, true, data), WaiterPrio)))
  {
    hide Insert, Fifo, Ordered;
    if s.ring != [] && s.waiters != [] {
      var w := s.waiters[0];
      var a, b := Return(w.call, 0, w.data), Return(|s.calls|, 0, s.ring[0]);
      assert s.returned + [a] + [b] == s.returned + [a, b];
    }
  }

  /** A timeout takes one waiter off the queue and tells it -EAGAIN; nothing else
      changes, and no message is lost. */
  lemma {:induction false} ExpireLaw(s: State, i: nat)
    requires i < |s.waiters|
    ensures var t := Expire(s, i);
            && t == s.(waiters := s.waiters[..i] + s.waiters[i + 1..], returned := t.returned)
            && Notes(s, t, [Return(s.waiters[i].call, -11, s.waiters[i].data)])
  {
  }
}
