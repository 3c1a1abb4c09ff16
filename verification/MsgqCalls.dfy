/**
 Every call on a message queue is accounted for: it waits in one place, or it has
 returned once, with what its code says.
 */
module MsgqCalls {
  import opened MsgqSpec
  import opened WaitQueue

  // ---- how often a call occurs in the logs ---------------------------------------------

  function One(b: bool): nat {
    if b then 1 else 0
  }

  function Waits(ws: seq<Waiter>, c: CallId): nat {
    if ws == [] then 0 else One(ws[0].call == c) + Waits(ws[1..], c)
  }

  function Returns(rs: seq<Return>, c: CallId): nat {
    if rs == [] then 0 else One(rs[0].call == c) + Returns(rs[1..], c)
  }

  /** Successful returns */
  function Oks(rs: seq<Return>, c: CallId): nat {
    if rs == [] then 0 else One(rs[0].call == c && rs[0].code == 0) + Oks(rs[1..], c)
  }

  function Entries(es: seq<Entry>, c: CallId): nat {
    if es == [] then 0 else One(es[0].call == c) + Entries(es[1..], c)
  }

  function Takes(xs: seq<Exit>, c: CallId): nat {
    if xs == [] then 0 else One(xs[0].Taken? && xs[0].call == c) + Takes(xs[1..], c)
  }

  lemma {:induction false} ReturnsAppend(a: seq<Return>, b: seq<Return>, c: CallId)
    ensures Returns(a + b, c) == Returns(a, c) + Returns(b, c)
    ensures Oks(a + b, c) == Oks(a, c) + Oks(b, c)
  {
    if a == [] {
      assert a + b == b;
    } else {
      assert (a + b)[1..] == a[1..] + b;
      ReturnsAppend(a[1..], b, c);
    }
  }

  lemma {:induction false} ReturnOne(rs: seq<Return>, r: Return, c: CallId)
    ensures Returns(rs + [r], c) == Returns(rs, c) + One(r.call == c)
    ensures Oks(rs + [r], c) == Oks(rs, c) + One(r.call == c && r.code == 0)
  {
    ReturnsAppend(rs, [r], c);
    assert [r][1..] == [];
  }

  lemma {:induction false} OksReturn(rs: seq<Return>, c: CallId)
    ensures Oks(rs, c) <= Returns(rs, c)
  {
    if rs == [] {
    } else {
      OksReturn(rs[1..], c);
    }
  }

  lemma {:induction false} EntryOne(es: seq<Entry>, e: Entry, c: CallId)
    ensures Entries(es + [e], c) == Entries(es, c) + One(e.call == c)
  {
    if es == [] {
      assert [e][1..] == [];
    } else {
      assert (es + [e])[1..] == es[1..] + [e];
      EntryOne(es[1..], e, c);
    }
  }

  lemma {:induction false} TakesAppend(a: seq<Exit>, b: seq<Exit>, c: CallId)
    ensures Takes(a + b, c) == Takes(a, c) + Takes(b, c)
  {
    if a == [] {
      assert a + b == b;
    } else {
      assert (a + b)[1..] == a[1..] + b;
      TakesAppend(a[1..], b, c);
    }
  }

  lemma {:induction false} TakeOne(xs: seq<Exit>, x: Exit, c: CallId)
    ensures Takes(xs + [x], c) == Takes(xs, c) + One(x.Taken? && x.call == c)
  {
    TakesAppend(xs, [x], c);
    assert [x][1..] == [];
  }

  lemma {:induction false} DropsTakeNone(ms: seq<Msg>, c: CallId)
    ensures Takes(Drops(ms), c) == 0
  {
    if ms == [] {
    } else {
      assert Drops(ms)[1..] == Drops(ms[1..]);
      DropsTakeNone(ms[1..], c);
    }
  }

  lemma {:induction false} WaitsInsert(ws: seq<Waiter>, w: Waiter, c: CallId)
    ensures Waits(Insert(ws, w, WaiterPrio), c) == Waits(ws, c) + One(w.call == c)
  {
    if ws == [] || WaiterPrio(w) < WaiterPrio(ws[0]) {
      assert ([w] + ws)[1..] == ws;
    } else {
      assert ([ws[0]] + Insert(ws[1..], w, WaiterPrio))[1..] == Insert(ws[1..], w, WaiterPrio);
      WaitsInsert(ws[1..], w, c);
    }
  }

  lemma {:induction false} WaitsWithout(ws: seq<Waiter>, i: nat, c: CallId)
    requires i < |ws|
    ensures Waits(ws, c) == Waits(ws[..i] + ws[i + 1..], c) + One(ws[i].call == c)
  {
    var r := ws[..i] + ws[i + 1..];
    if i == 0 {
      assert r == ws[1..];
    } else {
      assert r[1..] == ws[1..][..i - 1] + ws[1..][i..];
      WaitsWithout(ws[1..], i - 1, c);
    }
  }

  lemma {:induction false} RefusalsCount(ws: seq<Waiter>, c: CallId)
    ensures Returns(Refusals(ws), c) == Waits(ws, c) && Oks(Refusals(ws), c) == 0
  {
    if ws == [] {
    } else {
      assert Refusals(ws)[1..] == Refusals(ws[1..]);
      RefusalsCount(ws[1..], c);
    }
  }

  // ---- the accounts ---------------------------------------------------------------------

  predicate Known(s: State, c: CallId) {
    c < |s.calls|
  }

  predicate IsPut(s: State, c: CallId) {
    Known(s, c) && s.calls[c].Putting?
  }

  predicate IsGet(s: State, c: CallId) {
    Known(s, c) && s.calls[c].Getting?
  }

  /** A call that was made waits once or has returned once. If it has succeeded,
      a put has entered its message once and a get has taken one once; otherwise
      neither has happened. */
  predicate Account(s: State, c: CallId) {
    && Waits(s.waiters, c) + Returns(s.returned, c) == One(Known(s, c))
    && Entries(s.accepted, c) == (if IsPut(s, c) then Oks(s.returned, c) else 0)
    && Takes(s.left, c) == (if IsGet(s, c) then Oks(s.returned, c) else 0)
  }

  /** A blocked call is what it says it is. */
  predicate WaiterOk(s: State, w: Waiter) {
    Known(s, w.call) && s.calls[w.call] == if w.getter then Getting else Putting(w.data)
  }

  predicate EntryOk(s: State, e: Entry) {
    Known(s, e.call) && s.calls[e.call] == Putting(e.msg)
  }

  /** A successful get has in its buffer the message it has taken. */
  predicate ReturnOk(s: State, r: Return) {
    && Known(s, r.call)
    && (r.code == 0 || r.code == -ENOMSG || r.code == -EAGAIN)
    && (r.code == 0 && s.calls[r.call].Getting? ==> Taken(r.call, r.data) in s.left)
  }

  predicate Contained(s: State) {
    && (forall w :: w in s.waiters ==> WaiterOk(s, w))
    && (forall e :: e in s.accepted ==> EntryOk(s, e))
    && (forall r :: r in s.returned ==> ReturnOk(s, r))
  }

  ghost predicate Accounted(s: State) {
    Contained(s) && forall c :: Account(s, c)
  }

  // ---- every step keeps them ---------------------------------------------------------------

  /** The waiter a put serves is a getter, and the one a get serves a putter. */
  lemma {:induction false} FrontKind(s: State)
    requires Inv(s) && s.waiters != [] && Contained(s)
    ensures |s.ring| < s.max ==> s.waiters[0].getter
    ensures s.ring != [] ==> !s.waiters[0].getter
    ensures WaiterOk(s, s.waiters[0])
  {
    assert s.waiters[0] in s.waiters;
  }

  lemma {:induction false} PutAccount(s: State, prio: int, msg: Msg, wait: bool, c: CallId)
    requires Inv(s) && Contained(s) && Account(s, c)
    ensures Account(Put(s, prio, msg, wait).0, c)
  {
    hide Inv, Contained, Insert;
    var n, r := |s.calls|, Put(s, prio, msg, wait).0;
    OksReturn(s.returned, c);
    assert r.calls == s.calls + [r.calls[n]];
    assert s.waiters != [] ==> Waits(s.waiters, c) == One(s.waiters[0].call == c) + Waits(s.waiters[1..], c);
    hide Waits, Returns, Oks, Entries, Takes;
    if |s.ring| < s.max {
      EntryOne(s.accepted, Entry(n, msg), c);
      if s.waiters == [] {
        ReturnOne(s.returned, Return(n, 0, msg), c);
      } else {
        FrontKind(s);
        var w := s.waiters[0];
        TakeOne(s.left, Taken(w.call, msg), c);
        ReturnOne(s.returned, Return(w.call, 0, msg), c);
        ReturnOne(s.returned + [Return(w.call, 0, msg)], Return(n, 0, msg), c);
      }
    } else if wait {
      WaitsInsert(s.waiters, Waiter(n, prio, false, msg), c);
    } else {
      ReturnOne(s.returned, Return(n, -ENOMSG, msg), c);
    }
  }

  lemma {:induction false} GetAccount(s: State, prio: int, data: Msg, wait: bool, c: CallId)
    requires Inv(s) && Contained(s) && Account(s, c)
    ensures Account(Get(s, prio, data, wait).0, c)
  {
    hide Inv, Contained, Insert;
    var n, r := |s.calls|, Get(s, prio, data, wait).0;
    OksReturn(s.returned, c);
    assert r.calls == s.calls + [r.calls[n]];
    assert s.waiters != [] ==> Waits(s.waiters, c) == One(s.waiters[0].call == c) + Waits(s.waiters[1..], c);
    hide Waits, Returns, Oks, Entries, Takes;
    if s.ring != [] {
      TakeOne(s.left, Taken(n, s.ring[0]), c);
      if s.waiters == [] {
        ReturnOne(s.returned, Return(n, 0, s.ring[0]), c);
      } else {
        FrontKind(s);
        var w := s.waiters[0];
        EntryOne(s.accepted, Entry(w.call, w.data), c);
        ReturnOne(s.returned, Return(w.call, 0, w.data), c);
        ReturnOne(s.returned + [Return(w.call, 0, w.data)], Return(n, 0, s.ring[0]), c);
      }
    } else if wait {
      WaitsInsert(s.waiters, Waiter(n, prio, true, data), c);
    } else {
      ReturnOne(s.returned, Return(n, -ENOMSG, data), c);
    }
  }

  lemma {:induction false} PurgeAccount(s: State, c: CallId)
    requires Account(s, c)
    ensures Account(Purge(s), c)
  {
    TakesAppend(s.left, Drops(s.ring), c);
    DropsTakeNone(s.ring, c);
    ReturnsAppend(s.returned, Refusals(s.waiters), c);
    RefusalsCount(s.waiters, c);
  }

  lemma {:induction false} ExpireAccount(s: State, i: nat, c: CallId)
    requires Account(s, c) && i < |s.waiters|
    ensures Account(Expire(s, i), c)
  {
    WaitsWithout(s.waiters, i, c);
    ReturnOne(s.returned, Return(s.waiters[i].call, -EAGAIN, s.waiters[i].data), c);
  }

  lemma {:induction false} InsertIn(ws: seq<Waiter>, w: Waiter, x: Waiter)
    ensures x in Insert(ws, w, WaiterPrio) <==> x in ws || x == w
  {
    if !(ws == [] || WaiterPrio(w) < WaiterPrio(ws[0])) {
      InsertIn(ws[1..], w, x);
      assert ws == [ws[0]] + ws[1..];
    }
  }

  /** What was true of log entries stays true. */
  lemma {:induction false} StillOk(s: State, r: State)
    requires Contained(s) && s.calls <= r.calls && s.left <= r.left
    ensures forall w :: w in s.waiters ==> WaiterOk(r, w)
    ensures forall e :: e in s.accepted ==> EntryOk(r, e)
    ensures forall x :: x in s.returned ==> ReturnOk(r, x)
  {
    assert forall x :: x in s.left ==> x in r.left;
  }

  lemma {:induction false} PutContained(s: State, prio: int, msg: Msg, wait: bool)
    requires Inv(s) && Contained(s)
    ensures Contained(Put(s, prio, msg, wait).0)
  {
    var r := Put(s, prio, msg, wait).0;
    StillOk(s, r);
    if |s.ring| < s.max && s.waiters != [] {
      FrontKind(s);
      var w := s.waiters[0];
      assert r.left == s.left + [Taken(w.call, msg)] && Taken(w.call, msg) in r.left;
    }
    hide Inv, Contained, Insert;
    forall w | w in r.waiters ensures WaiterOk(r, w) {
      if |s.ring| >= s.max && wait {
        InsertIn(s.waiters, Waiter(|s.calls|, prio, false, msg), w);
      }
    }
    ContainedBy(r);
  }

  lemma {:induction false} ContainedBy(s: State)
    requires forall w :: w in s.waiters ==> WaiterOk(s, w)
    requires forall e :: e in s.accepted ==> EntryOk(s, e)
    requires forall r :: r in s.returned ==> ReturnOk(s, r)
    ensures Contained(s)
  {
  }

  lemma {:induction false} GetContained(s: State, prio: int, data: Msg, wait: bool)
    requires Inv(s) && Contained(s)
    ensures Contained(Get(s, prio, data, wait).0)
  {
    var r := Get(s, prio, data, wait).0;
    StillOk(s, r);
    if s.ring != [] {
      assert r.left == s.left + [Taken(|s.calls|, s.ring[0])] && Taken(|s.calls|, s.ring[0]) in r.left;
      if s.waiters != [] {
        FrontKind(s);
      }
    }
    hide Inv, Contained, Insert;
    forall w | w in r.waiters ensures WaiterOk(r, w) {
      if s.ring == [] && wait {
        InsertIn(s.waiters, Waiter(|s.calls|, prio, true, data), w);
      }
    }
    ContainedBy(r);
  }

  lemma {:induction false} RefusalsOk(s: State, ws: seq<Waiter>, r: Return)
    requires (forall w :: w in ws ==> WaiterOk(s, w)) && r in Refusals(ws)
    ensures ReturnOk(s, r)
  {
    if r != Refusals(ws)[0] {
      assert Refusals(ws)[1..] == Refusals(ws[1..]) && r in Refusals(ws[1..]);
      RefusalsOk(s, ws[1..], r);
    } else {
      assert ws[0] in ws;
    }
  }

  lemma {:induction false} PurgeContained(s: State)
    requires Contained(s)
    ensures Contained(Purge(s))
  {
    var p := Purge(s);
    StillOk(s, p);
    forall r | r in p.returned ensures ReturnOk(p, r) {
      if r !in s.returned {
        RefusalsOk(p, s.waiters, r);
      }
    }
  }

  lemma {:induction false} ExpireContained(s: State, i: nat)
    requires Contained(s) && i < |s.waiters|
    ensures Contained(Expire(s, i))
  {
    StillOk(s, Expire(s, i));
    assert s.waiters[i] in s.waiters && WaiterOk(s, s.waiters[i]);
  }

  lemma {:induction false} StepAccounts(s: State, op: Op)
    requires Inv(s) && Accounted(s)
    ensures Accounted(Step(s, op))
  {
    hide Inv, Contained, Account, Put, Get, Purge, Expire;
    match op {
      case DoPut(prio, msg, wait) =>
        PutContained(s, prio, msg, wait);
        forall c ensures Account(Step(s, op), c) {
          PutAccount(s, prio, msg, wait, c);
        }
      case DoGet(prio, data, wait) =>
        GetContained(s, prio, data, wait);
        forall c ensures Account(Step(s, op), c) {
          GetAccount(s, prio, data, wait, c);
        }
      case DoPurge =>
        PurgeContained(s);
        forall c ensures Account(Step(s, op), c) {
          PurgeAccount(s, c);
        }
      case DoExpire(i) =>
        if i < |s.waiters| {
          ExpireContained(s, i);
          forall c ensures Account(Step(s, op), c) {
            ExpireAccount(s, i, c);
          }
        }
    }
  }

  lemma {:induction false} RunAccounts(s: State, ops: seq<Op>)
    requires Inv(s) && Accounted(s)
    ensures Accounted(Run(s, ops))
    decreases |ops|
  {
    if ops == [] {
    } else {
      hide Inv, Accounted, Step;
      StepKeeps(s, ops[0]);
      StepAccounts(s, ops[0]);
      RunAccounts(Step(s, ops[0]), ops[1..]);
    }
  }

  /** Over every run, every call waits in one place or has returned, once. A put has
      entered its own message once if it has returned 0, and never otherwise; a get
      has taken one message if it has returned 0, the one in its buffer, and never
      otherwise. */
  lemma {:induction false} CallsLaw(max: nat, ops: seq<Op>, c: CallId)
    ensures var s := Run(Initial(max), ops);
            && Waits(s.waiters, c) + Returns(s.returned, c) == (if c < |s.calls| then 1 else 0)
            && (forall e :: e in s.accepted && e.call == c ==> c < |s.calls| && s.calls[c] == Putting(e.msg))
            && Entries(s.accepted, c) == (if c < |s.calls| && s.calls[c].Putting? then Oks(s.returned, c) else 0)
            && Takes(s.left, c) == (if c < |s.calls| && s.calls[c].Getting? then Oks(s.returned, c) else 0)
            && (forall r :: r in s.returned && r.call == c ==>
                  && c < |s.calls|
                  && (r.code == 0 || r.code == -ENOMSG || r.code == -EAGAIN)
                  && (r.code == 0 && s.calls[c].Getting? ==> Taken(c, r.data) in s.left))
  {
    var s := Run(Initial(max), ops);
    assert Accounted(Initial(max));
    RunAccounts(Initial(max), ops);
    hide Run;
    assert Account(s, c);
    hide Waits, Returns, Oks, Entries, Takes;
  }
}
