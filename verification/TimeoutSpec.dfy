/**
 The kernel timeout queue (zephyr/kernel/timeout.c).

 TimeoutSpec describes the queue by the absolute tick at which each pending
 timeout expires; TimeoutQueue is the delta-encoded list of the source, whose
 methods are proved against that description.
 */
module TimeoutSpec {

  type TimeoutId = nat

  const K_TICKS_FOREVER: int := -1

  datatype Expiry = Expiry(id: TimeoutId, at: int)

  /** Pending timeouts in firing order, and the current tick. */
  datatype Clock = Clock(now: int, queue: seq<Expiry>)

  /** What a timeout handler may ask of the queue. `hw` is what the timer
      driver would report as elapsed at that moment. */
  datatype Command =
    | Add(id: TimeoutId, ticks: int, hw: nat)
    | Abort(id: TimeoutId)

  /** One handler invocation: which timeout, and the value of curr_tick. */
  datatype Fired = Fired(id: TimeoutId, at: int)

  /** The behaviour of all handlers: given every invocation so far, the
      commands issued by the last one. */
  type Handler = seq<Fired> -> seq<Command>

  predicate Sorted(q: seq<Expiry>) {
    forall i, j :: 0 <= i < j < |q| ==> q[i].at <= q[j].at
  }

  predicate Distinct(q: seq<Expiry>) {
    forall i, j :: 0 <= i < j < |q| ==> q[i].id != q[j].id
  }

  predicate Wf(c: Clock) {
    && Sorted(c.queue)
    && Distinct(c.queue)
    && forall i :: 0 <= i < |c.queue| ==> c.now <= c.queue[i].at
  }

  predicate Linked(q: seq<Expiry>, id: TimeoutId) {
    exists i :: 0 <= i < |q| && q[i].id == id
  }

  /** Number of leading entries that expire no later than `at`. */
  function Slot(q: seq<Expiry>, at: int): (k: nat)
    ensures k <= |q|
    ensures forall i :: 0 <= i < k ==> q[i].at <= at
    ensures k < |q| ==> at < q[k].at
  {
    if q == [] || at < q[0].at then 0 else 1 + Slot(q[1..], at)
  }

  /** Position of `id`, or the length of the queue when it is not pending. */
  function Position(q: seq<Expiry>, id: TimeoutId): (k: nat)
    ensures k <= |q|
    ensures forall i :: 0 <= i < k ==> q[i].id != id
    ensures k < |q| ==> q[k].id == id
    ensures k < |q| <==> Linked(q, id)
  {
    if q == [] || q[0].id == id then 0 else 1 + Position(q[1..], id)
  }

  function Insert(q: seq<Expiry>, e: Expiry): seq<Expiry> {
    var k := Slot(q, e.at);
    q[..k] + [e] + q[k..]
  }

  function Remove(q: seq<Expiry>, id: TimeoutId): seq<Expiry> {
    var k := Position(q, id);
    if k == |q| then q else q[..k] + q[k + 1..]
  }

  function TickAbs(t: int): int {
    K_TICKS_FOREVER - 1 - t
  }

  function Max(a: int, b: int): int {
    if a < b then b else a
  }

  /** The tick at which a timeout requested now must fire. */
  function Due(now: int, ticks: int, elapsed: nat): (at: int)
    requires ticks != K_TICKS_FOREVER
    ensures now < at
  {
    if TickAbs(ticks) >= 0 then
      now + Max(1, TickAbs(ticks) - now)
    else
      now + ticks + 1 + elapsed
  }

  /** elapsed(): the driver's count, except while ticks are being announced. */
  function Elapsed(remaining: int, hw: nat): nat {
    if remaining == 0 then hw else 0
  }

  /** A command issued while `remaining` ticks are still to be announced. An
      Add of a pending timeout is what the source asserts against; it has no
      effect here. */
  function Exec(c: Clock, cmd: Command, remaining: int): (r: Clock)
    requires Wf(c)
    ensures Wf(r) && r.now == c.now
    ensures Slot(r.queue, c.now) <= Slot(c.queue, c.now)
  {
    match cmd
    case Add(id, ticks, hw) =>
      if ticks == K_TICKS_FOREVER || Linked(c.queue, id) then c
      else
        var e := Expiry(id, Due(c.now, ticks, Elapsed(remaining, hw)));
        InsertKeepsOrder(c.queue, e);
        SlotUnique(Insert(c.queue, e), c.now, Slot(c.queue, c.now));
        c.(queue := Insert(c.queue, e))
    case Abort(id) =>
      RemoveKeepsOrder(c.queue, id);
      RemoveSlot(c.queue, id, c.now);
      RemoveAt(c.queue, id);
      c.(queue := Remove(c.queue, id))
  }

  function ExecAll(c: Clock, cmds: seq<Command>, remaining: int): (r: Clock)
    requires Wf(c)
    ensures Wf(r) && r.now == c.now
    ensures Slot(r.queue, c.now) <= Slot(c.queue, c.now)
    decreases |cmds|
  {
    if cmds == [] then c
    else ExecAll(Exec(c, cmds[0], remaining), cmds[1..], remaining)
  }

  /** The queue and clock just after the first timeout has been taken off. */
  function Pop(c: Clock): (r: Clock)
    requires Wf(c) && c.queue != []
    ensures Wf(r) && c.now <= r.now
    ensures r.now == c.now ==> Slot(r.queue, r.now) < Slot(c.queue, c.now)
  {
    Clock(c.queue[0].at, c.queue[1..])
  }

  predicate HasDue(c: Clock, until: int) {
    c.queue != [] && c.queue[0].at <= until
  }

  /** One handler run: the first timeout comes off the queue, time moves to its
      expiry, and its handler changes what is pending. */
  function Turn(c: Clock, until: int, h: Handler, log: seq<Fired>): (r: (Clock, seq<Fired>))
    requires Wf(c) && HasDue(c, until)
    ensures Wf(r.0) && c.now <= r.0.now <= until
    ensures r.0.now == c.now ==> Slot(r.0.queue, r.0.now) < Slot(c.queue, c.now)
    ensures r.1 == log + [Fired(c.queue[0].id, r.0.now)] && r.0.now == c.queue[0].at
  {
    var p := Pop(c);
    var log' := log + [Fired(c.queue[0].id, p.now)];
    (ExecAll(p, h(log'), until - p.now), log')
  }

  /** Event-driven time: advance to `until`, running each handler at its own
      expiry and letting it change what is pending. */
  function EventLoop(c: Clock, until: int, h: Handler, log: seq<Fired>): (r: (Clock, seq<Fired>))
    requires Wf(c) && c.now <= until
    decreases until - c.now, Slot(c.queue, c.now)
  {
    if HasDue(c, until) then
      var t := Turn(c, until, h, log);
      EventLoop(t.0, until, h, t.1)
    else
      (c.(now := until), log)
  }

  // ---- lists -----------------------------------------------------------

  lemma {:induction false} SlotUnique(q: seq<Expiry>, at: int, k: nat)
    requires k <= |q|
    requires forall i :: 0 <= i < k ==> q[i].at <= at
    requires k < |q| ==> at < q[k].at
    ensures Slot(q, at) == k
  {
    var s := Slot(q, at);
    assert !(s < k) && !(k < s);
  }

  lemma {:induction false} InsertKeepsOrder(q: seq<Expiry>, e: Expiry)
    requires Sorted(q) && Distinct(q) && !Linked(q, e.id)
    ensures Sorted(Insert(q, e)) && Distinct(Insert(q, e))
  {
    var k, r := Slot(q, e.at), Insert(q, e);
    hide Slot;
    assert forall j :: k <= j < |q| ==> e.at < q[j].at;
    assert r == q[..k] + [e] + q[k..];
    forall i, j | 0 <= i < j < |r|
      ensures r[i].at <= r[j].at && r[i].id != r[j].id
    {
      assert r[i] == if i < k then q[i] else if i == k then e else q[i - 1];
      assert r[j] == if j < k then q[j] else if j == k then e else q[j - 1];
    }
  }

  /** Remove, index by index. */
  lemma {:induction false} RemoveAt(q: seq<Expiry>, id: TimeoutId)
    ensures var k, r := Position(q, id), Remove(q, id);
            if k == |q| then r == q
            else |r| == |q| - 1 && forall i :: 0 <= i < |r| ==> r[i] == if i < k then q[i] else q[i + 1]
  {
    hide Position;
    var k := Position(q, id);
    if k < |q| {
      assert Remove(q, id) == q[..k] + q[k + 1..];
    }
  }

  lemma {:induction false} RemoveKeepsOrder(q: seq<Expiry>, id: TimeoutId)
    requires Sorted(q) && Distinct(q)
    ensures Sorted(Remove(q, id)) && Distinct(Remove(q, id))
  {
    hide Position;
    var k, r := Position(q, id), Remove(q, id);
    if k < |q| {
      forall i, j | 0 <= i < j < |r|
        ensures r[i].at <= r[j].at && r[i].id != r[j].id
      {
        var i', j' := if i < k then i else i + 1, if j < k then j else j + 1;
        assert r[i] == q[i'] && r[j] == q[j'];
      }
    }
  }

  lemma {:induction false} RemoveSlot(q: seq<Expiry>, id: TimeoutId, at: int)
    requires Sorted(q)
    ensures Slot(Remove(q, id), at) <= Slot(q, at)
  {
    RemoveAt(q, id);
    var k, s := Position(q, id), Slot(q, at);
    if k < |q| {
      SlotUnique(Remove(q, id), at, if k < s then s - 1 else s);
    }
  }

  // ---- when a requested timeout is due --------------------------------------------------

  /** A request for `cmd.ticks` ticks counts from the next tick, and from what the
      driver has counted unless ticks are being announced; one for an absolute
      tick, written -2 - tick, is due then, or on the next tick if that is past. */
  predicate AsksFor(cmd: Command, x: Expiry, now: int, remaining: int) {
    && cmd.Add? && cmd.id == x.id && cmd.ticks != -1
    && x.at == if cmd.ticks >= 0 then now + cmd.ticks + 1 + (if remaining == 0 then cmd.hw else 0)
               else if -2 - cmd.ticks > now then -2 - cmd.ticks
               else now + 1
  }

  /** Adding a timeout that is not pending makes it pending once, with the expiry
      asked for; a request to wait forever, or of a pending one, changes nothing. */
  lemma {:induction false} AddIsDue(c: Clock, id: TimeoutId, ticks: int, hw: nat, remaining: int, at: int)
    requires Wf(c)
    ensures var q := Exec(c, Add(id, ticks, hw), remaining).queue;
            if ticks == -1 || Linked(c.queue, id) then q == c.queue
            else && |q| == |c.queue| + 1
                 && (Expiry(id, at) in q <==> AsksFor(Add(id, ticks, hw), Expiry(id, at), c.now, remaining))
  {
    hide Sorted, Distinct, Insert;
    if ticks != K_TICKS_FOREVER && !Linked(c.queue, id) {
      InsertMembers(c.queue, Expiry(id, Due(c.now, ticks, Elapsed(remaining, hw))), Expiry(id, at));
    }
  }

  lemma {:induction false} InsertMembers(q: seq<Expiry>, e: Expiry, x: Expiry)
    ensures |Insert(q, e)| == |q| + 1
    ensures x in Insert(q, e) <==> x in q || x == e
  {
    var k := Slot(q, e.at);
    hide Slot;
    assert Insert(q, e)[k] == e;
    assert q == q[..k] + q[k..];
  }

  /** An aborted timeout is no longer pending. */
  lemma {:induction false} AbortUnlinks(c: Clock, id: TimeoutId, remaining: int)
    requires Wf(c)
    ensures !Linked(Exec(c, Abort(id), remaining).queue, id)
  {
    RemoveAt(c.queue, id);
    hide Sorted, Position;
  }

  // ---- what an announcement guarantees ------------------------------------

  /** The whole advance is made, nothing due is left behind, and handlers run
      in nondecreasing order of expiry, all within the announced interval. */
  lemma {:induction false} EventLoopAdvances(c: Clock, until: int, h: Handler, log: seq<Fired>)
    requires Wf(c) && c.now <= until
    ensures var (c', log') := EventLoop(c, until, h, log);
            && Wf(c') && c'.now == until
            && (forall i :: 0 <= i < |c'.queue| ==> until < c'.queue[i].at)
            && log <= log'
            && (forall i :: |log| <= i < |log'| ==> c.now <= log'[i].at <= until)
            && (forall i, j :: |log| <= i < j < |log'| ==> log'[i].at <= log'[j].at)
    decreases until - c.now, Slot(c.queue, c.now)
  {
    hide Distinct, Turn, Slot;
    if HasDue(c, until) {
      var t := Turn(c, until, h, log);
      hide Sorted;
      EventLoopAdvances(t.0, until, h, t.1);
      assert EventLoop(c, until, h, log).1[|log|] == t.1[|log|];
    }
  }

  ghost predicate NeverAborts(h: Handler, id: TimeoutId) {
    forall l: seq<Fired> :: Abort(id) !in h(l)
  }

  lemma {:induction false} InsertKeeps(q: seq<Expiry>, e: Expiry, x: Expiry)
    requires x in q
    ensures x in Insert(q, e)
  {
    var i :| 0 <= i < |q| && q[i] == x;
    var k := Slot(q, e.at);
    assert Insert(q, e)[if i < k then i else i + 1] == x;
  }

  lemma {:induction false} RemoveKeeps(q: seq<Expiry>, id: TimeoutId, x: Expiry)
    requires x in q && x.id != id
    ensures x in Remove(q, id)
  {
    RemoveAt(q, id);
    var i :| 0 <= i < |q| && q[i] == x;
    var k := Position(q, id);
    assert k == |q| || Remove(q, id)[if i < k then i else i - 1] == x;
  }

  /** Adding or aborting a timeout leaves every other one with its expiry. */
  lemma {:induction false} ExecKeepsOthers(c: Clock, cmd: Command, remaining: int, x: Expiry)
    requires Wf(c) && x in c.queue && cmd != Abort(x.id)
    ensures x in Exec(c, cmd, remaining).queue
  {
    hide Sorted, Distinct;
    match cmd {
      case Add(id, ticks, hw) =>
        if ticks != K_TICKS_FOREVER && !Linked(c.queue, id) {
          InsertKeeps(c.queue, Expiry(id, Due(c.now, ticks, Elapsed(remaining, hw))), x);
        }
      case Abort(id) =>
        RemoveKeeps(c.queue, id, x);
    }
  }

  lemma {:induction false} ExecAllKeeps(c: Clock, cmds: seq<Command>, remaining: int, x: Expiry)
    requires Wf(c) && x in c.queue && Abort(x.id) !in cmds
    ensures x in ExecAll(c, cmds, remaining).queue
    decreases |cmds|
  {
    hide Sorted, Distinct, Exec, Slot;
    if cmds != [] {
      ExecKeepsOthers(c, cmds[0], remaining, x);
      ExecAllKeeps(Exec(c, cmds[0], remaining), cmds[1..], remaining, x);
    }
  }

  /** A pending timeout that no handler aborts fires exactly at its expiry when
      that lies in the announced interval, and stays pending with the same
      expiry otherwise, whatever the handlers before it add or remove. */
  lemma {:induction false} EventLoopIsPunctual(c: Clock, until: int, h: Handler, log: seq<Fired>, x: Expiry)
    requires Wf(c) && c.now <= until
    requires x in c.queue && NeverAborts(h, x.id)
    ensures var (c', log') := EventLoop(c, until, h, log);
            && log <= log'
            && if x.at <= until then Fired(x.id, x.at) in log'[|log|..] else x in c'.queue
    decreases until - c.now, Slot(c.queue, c.now)
  {
    hide Distinct, ExecAll, Slot;
    if HasDue(c, until) {
      var t := Turn(c, until, h, log);
      EventLoopAdvances(t.0, until, h, t.1);
      var log' := EventLoop(c, until, h, log).1;
      if c.queue[0] == x {
        assert log'[|log|..][0] == t.1[|log|];
      } else {
        ExecAllKeeps(Pop(c), h(t.1), until - t.0.now, x);
        EventLoopIsPunctual(t.0, until, h, t.1, x);
        assert log'[|t.1|..] == log'[|log|..][1..];
      }
    } else {
      assert c.queue[0].at <= x.at;
    }
  }

  /** One of the commands, issued at tick `now` with `remaining` ticks still to be
      announced, asked for this very expiry. */
  ghost predicate Asked(x: Expiry, cmds: seq<Command>, now: int, remaining: int) {
    exists cmd :: cmd in cmds && AsksFor(cmd, x, now, remaining)
  }

  /** The expiry was there at the start or was asked for by one of the
      handlers in `log[from..]`. */
  ghost predicate Requested(x: Expiry, start: seq<Expiry>, log: seq<Fired>, from: nat, h: Handler, until: int) {
    || x in start
    || exists j :: from < j <= |log| && Asked(x, h(log[..j]), log[j - 1].at, until - log[j - 1].at)
  }

  lemma {:induction false} ExecRequested(c: Clock, cmd: Command, remaining: int, x: Expiry)
    requires Wf(c) && x in Exec(c, cmd, remaining).queue
    ensures x in c.queue || AsksFor(cmd, x, c.now, remaining)
  {
    hide Sorted, Distinct;
    match cmd {
      case Add(id, ticks, hw) =>
        if ticks != K_TICKS_FOREVER && !Linked(c.queue, id) {
          var e := Expiry(id, Due(c.now, ticks, Elapsed(remaining, hw)));
          assert x in c.queue || x == e;
        }
      case Abort(id) =>
        RemoveAt(c.queue, id);
    }
  }

  lemma {:induction false} ExecAllRequested(c: Clock, cmds: seq<Command>, all: seq<Command>, remaining: int, x: Expiry)
    requires Wf(c) && x in ExecAll(c, cmds, remaining).queue
    requires forall cmd :: cmd in cmds ==> cmd in all
    ensures x in c.queue || Asked(x, all, c.now, remaining)
    decreases |cmds|
  {
    hide Sorted, Distinct, Slot, Exec, AsksFor;
    if cmds != [] {
      var d := Exec(c, cmds[0], remaining);
      ExecAllRequested(d, cmds[1..], all, remaining, x);
      if x in d.queue {
        ExecRequested(c, cmds[0], remaining, x);
      }
    }
  }

  /** No spurious handler call: whatever fires was pending with that very
      expiry at the start, or was requested for it by an earlier handler. */
  lemma {:induction false} EventLoopFiresOnlyRequested(
    c: Clock, until: int, h: Handler, log: seq<Fired>, start: seq<Expiry>, from: nat, i: nat)
    requires Wf(c) && c.now <= until && from <= |log|
    requires forall x :: x in c.queue ==> Requested(x, start, log, from, h, until)
    requires |log| <= i < |EventLoop(c, until, h, log).1|
    ensures var f := EventLoop(c, until, h, log).1[i];
            Requested(Expiry(f.id, f.at), start, EventLoop(c, until, h, log).1[..i], from, h, until)
    decreases until - c.now, Slot(c.queue, c.now)
  {
    hide Sorted, Distinct, ExecAll, Slot, Asked;
    if HasDue(c, until) {
      var t := Turn(c, until, h, log);
      EventLoopAdvances(t.0, until, h, t.1);
      var log' := EventLoop(c, until, h, log).1;
      if i == |log| {
        assert log'[..i] == log;
        assert log'[i] == t.1[i];
        assert c.queue[0] in c.queue;
      } else {
        forall x | x in t.0.queue
          ensures Requested(x, start, t.1, from, h, until)
        {
          ExecAllRequested(Pop(c), h(t.1), h(t.1), until - t.0.now, x);
          if x in Pop(c).queue {
            RequestedExtends(x, start, log, t.1, from, h, until);
          } else {
            assert t.1[..|t.1|] == t.1;
          }
        }
        EventLoopFiresOnlyRequested(t.0, until, h, t.1, start, from, i);
      }
    }
  }

  lemma {:induction false} RequestedExtends(
    x: Expiry, start: seq<Expiry>, log: seq<Fired>, log1: seq<Fired>, from: nat, h: Handler, until: int)
    requires log <= log1 && Requested(x, start, log, from, h, until)
    ensures Requested(x, start, log1, from, h, until)
  {
    if x !in start {
      var j :| from < j <= |log| && Asked(x, h(log[..j]), log[j - 1].at, until - log[j - 1].at);
      assert log1[..j] == log[..j];
      assert log1[j - 1] == log[j - 1];
    }
  }

  ghost predicate NeverAdds(h: Handler, id: TimeoutId) {
    forall l: seq<Fired>, cmd :: cmd in h(l) && cmd.Add? ==> cmd.id != id
  }

  /** An aborted timeout that no handler adds again does not fire, however far
      time is advanced. */
  lemma {:induction false} AbortedNeverFires(c: Clock, id: TimeoutId, until: int, h: Handler, i: nat)
    requires Wf(c) && c.now <= until && NeverAdds(h, id)
    requires i < |EventLoop(Exec(c, Abort(id), 0), until, h, []).1|
    ensures EventLoop(Exec(c, Abort(id), 0), until, h, []).1[i].id != id
  {
    var d := Exec(c, Abort(id), 0);
    AbortUnlinks(c, id, 0);
    hide Exec, EventLoop, Wf;
    EventLoopFiresOnlyRequested(d, until, h, [], d.queue, 0, i);
    var log := EventLoop(d, until, h, []).1;
    assert Requested(Expiry(log[i].id, log[i].at), d.queue, log[..i], 0, h, until);
  }

  /** Handlers see `hw` whenever they consult the timer driver. */
  ghost predicate SeesElapsed(h: Handler, hw: nat) {
    forall l: seq<Fired>, cmd :: cmd in h(l) && cmd.Add? ==> cmd.hw == hw
  }

  lemma {:induction false} ExecAllIgnoresRemaining(c: Clock, cmds: seq<Command>, r1: int, r2: int)
    requires Wf(c)
    requires forall cmd :: cmd in cmds && cmd.Add? ==> cmd.hw == 0
    ensures ExecAll(c, cmds, r1) == ExecAll(c, cmds, r2)
    decreases |cmds|
  {
    if cmds == [] {
    } else {
      assert cmds[0] in cmds;
      ExecAllIgnoresRemaining(Exec(c, cmds[0], r1), cmds[1..], r1, r2);
    }
  }

  /** Announcing `t1 - now` ticks and then the rest is the same as announcing
      them at once, for every set of handlers, provided no unannounced time
      is visible to them. */
  lemma {:induction false} EventLoopSplits(c: Clock, t1: int, t2: int, h: Handler, log: seq<Fired>)
    requires Wf(c) && c.now <= t1 <= t2 && SeesElapsed(h, 0)
    ensures var (c1, log1) := EventLoop(c, t1, h, log);
            && Wf(c1) && c1.now == t1
            && EventLoop(c1, t2, h, log1) == EventLoop(c, t2, h, log)
    decreases t1 - c.now, Slot(c.queue, c.now)
  {
    hide Sorted, Distinct, ExecAll, Slot;
    EventLoopAdvances(c, t1, h, log);
    if HasDue(c, t1) {
      var t := Turn(c, t1, h, log);
      ExecAllIgnoresRemaining(Pop(c), h(t.1), t1 - t.0.now, t2 - t.0.now);
      assert Turn(c, t2, h, log) == t;
      EventLoopSplits(t.0, t1, t2, h, t.1);
    }
  }

  ghost predicate Splits(c: Clock, t1: int, t2: int, h: Handler)
    requires Wf(c) && c.now <= t1 <= t2
  {
    EventLoopAdvances(c, t1, h, []);
    var (c1, log1) := EventLoop(c, t1, h, []);
    EventLoop(c1, t2, h, log1) == EventLoop(c, t2, h, [])
  }

  /** A handler that re-arms its timeout one tick ahead. */
  function Rearm(hw: nat): Handler {
    (l: seq<Fired>) => [Add(0, 0, hw)]
  }

  /** The split law is exactly as strong as that: when the driver reports
      unannounced ticks to the handlers, announcing in two goes can differ
      from announcing at once. */
  lemma {:induction false} SplitsIffNothingElapsed(hw: nat)
    ensures (forall c: Clock, t1: int, t2: int, h: Handler ::
               Wf(c) && c.now <= t1 <= t2 && SeesElapsed(h, hw) ==> Splits(c, t1, t2, h))
            <==> hw == 0
  {
    if hw == 0 {
      forall c: Clock, t1: int, t2: int, h: Handler | Wf(c) && c.now <= t1 <= t2 && SeesElapsed(h, hw)
        ensures Splits(c, t1, t2, h)
      {
        EventLoopSplits(c, t1, t2, h, []);
      }
    } else {
      RearmDoesNotSplit(hw);
    }
  }

  lemma {:induction false} RearmDoesNotSplit(hw: nat)
    requires hw > 0
    ensures var c := Clock(0, [Expiry(0, 1)]);
            Wf(c) && SeesElapsed(Rearm(hw), hw) && !Splits(c, 1, 2, Rearm(hw))
  {
    hide ExecAll, Slot;
    var h := Rearm(hw);
    var c := Clock(0, [Expiry(0, 1)]);
    var p := Clock(1, []);
    assert Pop(c) == p;
    // announced at once, the second firing is at tick 2
    RearmExec(1, hw, 1);
    var d := Clock(1, [Expiry(0, 2)]);
    assert Pop(d) == Clock(2, []);
    assert [] + [Fired(0, 1)] == [Fired(0, 1)];
    assert Turn(c, 2, h, []) == (d, [Fired(0, 1)]);
    RearmExec(2, hw, 0);
    assert Turn(d, 2, h, [Fired(0, 1)]).1 == [Fired(0, 1)] + [Fired(0, 2)];
    assert EventLoop(c, 2, h, []).1 == [Fired(0, 1)] + [Fired(0, 2)];
    // announced tick by tick, the timeout is still pending at tick 2
    RearmExec(1, hw, 0);
    var d' := Clock(1, [Expiry(0, 2 + hw)]);
    assert Turn(c, 1, h, []) == (d', [Fired(0, 1)]);
    assert EventLoop(c, 1, h, []) == (d', [Fired(0, 1)]);
    assert EventLoop(d', 2, h, [Fired(0, 1)]).1 == [Fired(0, 1)];
  }

  lemma {:induction false} RearmExec(now: int, hw: nat, remaining: int)
    ensures forall l: seq<Fired> ::
              ExecAll(Clock(now, []), Rearm(hw)(l), remaining)
              == Clock(now, [Expiry(0, now + 1 + Elapsed(remaining, hw))])
  {
    var c := Clock(now, []);
    var e := Expiry(0, now + 1 + Elapsed(remaining, hw));
    assert Insert([], e) == [e];
    assert Exec(c, Add(0, 0, hw), remaining) == Clock(now, [e]);
    forall l: seq<Fired>
      ensures ExecAll(c, Rearm(hw)(l), remaining) == Clock(now, [e])
    {
      assert Rearm(hw)(l) == [Add(0, 0, hw)];
      assert ExecAll(Clock(now, [e]), [], remaining) == Clock(now, [e]);
    }
  }
}
