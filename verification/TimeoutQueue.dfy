/**
 The timeout list as the kernel stores it (zephyr/kernel/timeout.c): each
 entry holds the number of ticks after its predecessor.
 */
module TimeoutDeltas {
  import opened TimeoutSpec

  const INT_MAX: int := 0x7fff_ffff

  datatype Entry = Entry(id: TimeoutId, dticks: int)

  /** The absolute expiries a delta list stands for. */
  function Absolute(base: int, l: seq<Entry>): (q: seq<Expiry>)
    ensures |q| == |l|
    ensures forall i :: 0 <= i < |l| ==> q[i].id == l[i].id
    decreases |l|
  {
    if l == [] then []
    else [Expiry(l[0].id, base + l[0].dticks)] + Absolute(base + l[0].dticks, l[1..])
  }

  /** The delta list of a queue of absolute expiries. */
  function Deltas(base: int, q: seq<Expiry>): (l: seq<Entry>)
    ensures |l| == |q|
    decreases |q|
  {
    if q == [] then []
    else [Entry(q[0].id, q[0].at - base)] + Deltas(q[0].at, q[1..])
  }

  /** The encoding loses nothing in either direction. */
  lemma {:induction false} DeltasRoundTrip(base: int, l: seq<Entry>)
    ensures Deltas(base, Absolute(base, l)) == l
    decreases |l|
  {
    if l == [] {
    } else {
      DeltasRoundTrip(base + l[0].dticks, l[1..]);
      assert Absolute(base, l)[1..] == Absolute(base + l[0].dticks, l[1..]);
    }
  }

  lemma {:induction false} AbsoluteRoundTrip(base: int, q: seq<Expiry>)
    ensures Absolute(base, Deltas(base, q)) == q
    decreases |q|
  {
    if q == [] {
    } else {
      AbsoluteRoundTrip(q[0].at, q[1..]);
      assert Deltas(base, q)[1..] == Deltas(q[0].at, q[1..]);
    }
  }

  /** The tick from which entry `i` counts. */
  function Before(base: int, q: seq<Expiry>, i: nat): int
    requires i <= |q|
  {
    if i == 0 then base else q[i - 1].at
  }

  /** Each entry is its delta after its predecessor. */
  predicate Encodes(base: int, l: seq<Entry>, q: seq<Expiry>) {
    && |q| == |l|
    && forall i :: 0 <= i < |l| ==> q[i] == Expiry(l[i].id, Before(base, q, i) + l[i].dticks)
  }

  lemma {:induction false} AbsoluteEncodes(base: int, l: seq<Entry>)
    ensures Encodes(base, l, Absolute(base, l))
    decreases |l|
  {
    if l == [] {
    } else {
      AbsoluteEncodes(base + l[0].dticks, l[1..]);
      var q, q1 := Absolute(base, l), Absolute(base + l[0].dticks, l[1..]);
      forall i | 0 <= i < |l|
        ensures q[i] == Expiry(l[i].id, Before(base, q, i) + l[i].dticks)
      {
        assert i > 0 ==> q[i] == q1[i - 1] && Before(base, q, i) == Before(base + l[0].dticks, q1, i - 1);
      }
    }
  }

  lemma {:induction false} EncodesOnlyAbsolute(base: int, l: seq<Entry>, q: seq<Expiry>)
    requires Encodes(base, l, q)
    ensures q == Absolute(base, l)
  {
    AbsoluteEncodes(base, l);
    hide Absolute;
    var q' := Absolute(base, l);
    var i := 0;
    while i < |l|
      invariant 0 <= i <= |l|
      invariant forall j :: 0 <= j < i ==> q[j] == q'[j]
    {
      i := i + 1;
    }
  }

  /** In a well-formed queue the deltas are never negative. */
  lemma {:induction false} DeltasNonNegative(base: int, l: seq<Entry>, i: nat)
    requires Wf(Clock(base, Absolute(base, l))) && i < |l|
    ensures l[i].dticks >= 0
  {
    AbsoluteEncodes(base, l);
  }

  /** Time passing up to the first entry: its delta shrinks, no expiry moves. */
  lemma {:induction false} AbsoluteRebased(base: int, l: seq<Entry>, d: int)
    requires l != []
    ensures Absolute(base, l)[0].at == base + l[0].dticks
    ensures Absolute(base + d, l[0 := l[0].(dticks := l[0].dticks - d)]) == Absolute(base, l)
  {
  }

  /** Taking entry `k` out and giving its ticks to its successor. */
  lemma {:induction false} UnlinkAbsolute(base: int, l: seq<Entry>, k: nat)
    requires k < |l|
    ensures Absolute(base, Unlink(l, k)) == Absolute(base, l)[..k] + Absolute(base, l)[k + 1..]
  {
    hide Absolute;
    AbsoluteEncodes(base, l);
    var q := Absolute(base, l);
    EncodesOnlyAbsolute(base, Unlink(l, k), q[..k] + q[k + 1..]);
  }

  function Unlink(l: seq<Entry>, k: nat): seq<Entry>
    requires k < |l|
  {
    var rest := l[..k] + l[k + 1..];
    if k + 1 < |l| then rest[k := l[k + 1].(dticks := l[k + 1].dticks + l[k].dticks)] else rest
  }

  /** Linking a timeout of `d` ticks in front of entry `k`, whose own delta
      shrinks by as much. */
  lemma {:induction false} LinkAbsolute(base: int, l: seq<Entry>, k: nat, e: Entry)
    requires k <= |l|
    ensures var q := Absolute(base, l);
            Absolute(base, Link(l, k, e)) == q[..k] + [Expiry(e.id, Before(base, q, k) + e.dticks)] + q[k..]
  {
    hide Absolute;
    AbsoluteEncodes(base, l);
    var q, l' := Absolute(base, l), Link(l, k, e);
    var q' := q[..k] + [Expiry(e.id, Before(base, q, k) + e.dticks)] + q[k..];
    forall i | 0 <= i < |l'|
      ensures q'[i] == Expiry(l'[i].id, Before(base, q', i) + l'[i].dticks)
    {
      var i' := if i < k then i else i - 1;
      assert i != k ==> q[i'] == Expiry(l[i'].id, Before(base, q, i') + l[i'].dticks);
    }
    EncodesOnlyAbsolute(base, l', q');
  }

  function Link(l: seq<Entry>, k: nat, e: Entry): seq<Entry>
    requires k <= |l|
  {
    var m := if k < |l| then l[k := l[k].(dticks := l[k].dticks - e.dticks)] else l;
    m[..k] + [e] + m[k..]
  }

  class TimeoutQueue {
    var currTick: int
    var list: seq<Entry>
    var announceRemaining: int

    ghost function View(): Clock
      reads this
    {
      Clock(currTick, Absolute(currTick, list))
    }

    ghost predicate Valid()
      reads this
    {
      Wf(View()) && announceRemaining >= 0
    }

    constructor ()
      ensures Valid() && View() == Clock(0, []) && announceRemaining == 0
    {
      currTick, list, announceRemaining := 0, [], 0;
    }

    /** Index of a linked timeout, or the length of the list. */
    function Locate(id: TimeoutId): (k: nat)
      reads this
      ensures k == Position(View().queue, id)
    {
      Position(Absolute(currTick, list), id)
    }

    /** remove_timeout() */
    method RemoveTimeout(k: nat)
      requires k < |list|
      modifies this`list
      ensures View() == old(View()).(queue := old(View().queue)[..k] + old(View().queue)[k + 1..])
    {
      UnlinkAbsolute(currTick, list, k);
      if k + 1 < |list| {
        list := list[k + 1 := list[k + 1].(dticks := list[k + 1].dticks + list[k].dticks)];
      }
      list := list[..k] + list[k + 1..];
      assert list == Unlink(old(list), k);
    }

    /** The walk of z_add_timeout() along the list: where the new entry goes, and
        the ticks left over from the entry in front of it. */
    method Walk(ticks: int) returns (i: nat, dticks: int)
      ensures i <= |list| && (i < |list| ==> list[i].dticks > dticks)
      ensures Before(currTick, View().queue, i) + dticks == currTick + ticks
      ensures forall j :: 0 <= j < i ==> View().queue[j].at <= currTick + ticks
    {
      hide Absolute, Slot;
      ghost var q, at := View().queue, currTick + ticks;
      AbsoluteEncodes(currTick, list);
      dticks := ticks;
      i := 0;
      while i < |list|
        invariant 0 <= i <= |list|
        invariant Before(currTick, q, i) + dticks == at
        invariant forall j :: 0 <= j < i ==> q[j].at <= at
      {
        if list[i].dticks > dticks {
          break;
        }
        dticks := dticks - list[i].dticks;
        i := i + 1;
      }
    }

    /** The walk of z_add_timeout(): turn a count from now into a delta. */
    method LinkTimeout(id: TimeoutId, ticks: int)
      modifies this`list
      ensures View() == old(View()).(queue := Insert(old(View().queue), Expiry(id, currTick + ticks)))
    {
      hide Absolute, Slot;
      ghost var q, at := View().queue, currTick + ticks;
      AbsoluteEncodes(currTick, list);
      var i, dticks := Walk(ticks);
      SlotUnique(q, at, i);
      LinkAbsolute(currTick, list, i, Entry(id, dticks));
      hide Encodes, Before;
      if i < |list| {
        list := list[i := list[i].(dticks := list[i].dticks - dticks)];
      }
      list := list[..i] + [Entry(id, dticks)] + list[i..];
      assert list == Link(old(list), i, Entry(id, dticks));
    }

    /** z_add_timeout() */
    method AddTimeout(id: TimeoutId, ticks: int, hw: nat)
      requires Valid()
      requires ticks != K_TICKS_FOREVER ==> !Linked(View().queue, id)
      modifies this`list
      ensures View() == Exec(old(View()), Add(id, ticks, hw), announceRemaining)
      ensures forall at :: ticks != K_TICKS_FOREVER ==>
                (Expiry(id, at) in View().queue
                 <==> AsksFor(Add(id, ticks, hw), Expiry(id, at), currTick, announceRemaining))
      ensures Valid()
    {
      hide Sorted, Distinct, Absolute, Insert;
      forall at {
        AddIsDue(View(), id, ticks, hw, announceRemaining, at);
      }
      hide AsksFor;
      if ticks == K_TICKS_FOREVER {
        return;
      }
      var dticks: int;
      if TickAbs(ticks) >= 0 {
        dticks := Max(1, TickAbs(ticks) - currTick);
      } else {
        dticks := ticks + 1 + Elapsed(announceRemaining, hw);
      }
      LinkTimeout(id, dticks);
    }

    /** z_abort_timeout(): true when the timeout was pending. */
    method AbortTimeout(id: TimeoutId) returns (ok: bool)
      requires Valid()
      modifies this`list
      ensures ok == Linked(old(View().queue), id)
      ensures View() == Exec(old(View()), Abort(id), announceRemaining)
      ensures Valid() && !Linked(View().queue, id)
    {
      hide Sorted, Distinct, Slot;
      AbortUnlinks(View(), id, announceRemaining);
      var k := Locate(id);
      ok := k < |list|;
      if ok {
        RemoveTimeout(k);
      }
    }

    /** z_timeout_remaining(): ticks left, counted from now. */
    method Remaining(id: TimeoutId, hw: nat) returns (ticks: int)
      requires Valid()
      ensures !Linked(View().queue, id) ==> ticks == 0
      ensures forall x :: x in View().queue && x.id == id ==> ticks == x.at - currTick - Elapsed(announceRemaining, hw)
    {
      hide Sorted, Absolute;
      var k := Locate(id);
      if k == |list| {
        return 0;
      }
      assert forall x :: x in View().queue && x.id == id ==> x == View().queue[k];
      hide Distinct;
      AbsoluteEncodes(currTick, list);
      ticks := 0;
      var i := 0;
      while true
        invariant 0 <= i <= k
        invariant ticks == Before(currTick, View().queue, i) - currTick
        decreases |list| - i
      {
        ticks := ticks + list[i].dticks;
        if list[i].id == id {
          break;
        }
        i := i + 1;
      }
      ticks := ticks - Elapsed(announceRemaining, hw);
    }

    /** next_timeout(): how long the timer may sleep, with `slice` ticks to the end
        of the time slice, if any. It never sleeps past a pending expiry or the end
        of the slice, and otherwise wakes for the first expiry in reach. */
    method NextTimeout(hw: nat, slice: nat) returns (ticks: int)
      requires Valid()
      ensures 0 <= ticks <= INT_MAX && (slice > 0 ==> ticks <= slice)
      ensures ticks > 0 ==> forall x :: x in View().queue ==> currTick + Elapsed(announceRemaining, hw) + ticks <= x.at
      ensures ticks < INT_MAX && !(slice > 0 && ticks == slice) ==>
                exists x :: x in View().queue && x.at <= currTick + Elapsed(announceRemaining, hw) + ticks
    {
      ticks := INT_MAX;
      if |list| > 0 {
        AbsoluteRebased(currTick, list, 0);
        assert View().queue[0] in View().queue;
        ticks := list[0].dticks - Elapsed(announceRemaining, hw);
        if ticks < 0 {
          ticks := 0;
        } else if ticks > INT_MAX {
          ticks := INT_MAX;
        }
      }
      if slice != 0 && slice < ticks {
        ticks := slice;
      }
    }

    /** What a handler does to the queue while it runs. */
    method RunHandler(cmds: seq<Command>)
      requires Valid()
      modifies this`list
      ensures Valid()
      ensures View() == ExecAll(old(View()), cmds, announceRemaining)
    {
      var i := 0;
      while i < |cmds|
        invariant 0 <= i <= |cmds|
        invariant Valid()
        invariant ExecAll(View(), cmds[i..], announceRemaining) == ExecAll(old(View()), cmds, announceRemaining)
      {
        assert cmds[i..][1..] == cmds[i + 1..];
        match cmds[i] {
          case Add(id, ticks, hw) =>
            if ticks == K_TICKS_FOREVER || Locate(id) == |list| {
              AddTimeout(id, ticks, hw);
            }
          case Abort(id) =>
            var _ := AbortTimeout(id);
        }
        i := i + 1;
      }
    }

    /** The first entry is due: time moves to its expiry, and it leaves the list. */
    method PopFirst() returns (id: TimeoutId)
      requires Valid() && list != [] && list[0].dticks <= announceRemaining
      modifies this
      ensures currTick + announceRemaining == old(currTick + announceRemaining) && announceRemaining >= 0
      ensures HasDue(old(View()), currTick + announceRemaining)
      ensures View() == Pop(old(View())) && id == old(View()).queue[0].id && currTick == View().now
      ensures Valid()
    {
      hide Sorted, Distinct, Slot, Absolute;
      var t := list[0];
      id := t.id;
      DeltasNonNegative(currTick, list, 0);
      AbsoluteRebased(currTick, list, t.dticks);
      currTick := currTick + t.dticks;
      announceRemaining := announceRemaining - t.dticks;
      list := list[0 := t.(dticks := 0)];
      RemoveTimeout(0);
    }

    /** One turn of the announcement loop: the first timeout comes off the list
        and its handler runs. */
    method FireFirst(h: Handler, log: seq<Fired>) returns (log': seq<Fired>)
      requires Valid() && list != [] && list[0].dticks <= announceRemaining
      modifies this
      ensures currTick + announceRemaining == old(currTick + announceRemaining) && announceRemaining >= 0
      ensures HasDue(old(View()), currTick + announceRemaining)
      ensures (View(), log') == Turn(old(View()), currTick + announceRemaining, h, log)
      ensures Valid()
    {
      hide Sorted, Distinct, ExecAll, Slot, Absolute;
      var id := PopFirst();
      log' := log + [Fired(id, currTick)];
      RunHandler(h(log'));
    }

    /** sys_clock_announce(), with the handlers it calls. */
    method Announce(ticks: nat, h: Handler) returns (log: seq<Fired>)
      requires Valid() && announceRemaining == 0
      modifies this
      ensures (View(), log) == EventLoop(old(View()), old(currTick) + ticks, h, [])
      ensures Valid() && announceRemaining == 0
      ensures |list| > 0 ==> list[0].dticks > 0
    {
      hide Sorted, Distinct, Turn, Slot, Absolute;
      ghost var until := currTick + ticks;
      announceRemaining := ticks;
      log := [];
      while |list| > 0 && list[0].dticks <= announceRemaining
        invariant Valid() && currTick + announceRemaining == until
        invariant EventLoop(View(), until, h, log) == EventLoop(old(View()), until, h, [])
        decreases announceRemaining, Slot(View().queue, currTick)
      {
        log := FireFirst(h, log);
      }
      if |list| > 0 {
        AbsoluteRebased(currTick, list, announceRemaining);
        assert !HasDue(View(), until);
        EventLoopAdvances(View(), until, h, log);
        list := list[0 := list[0].(dticks := list[0].dticks - announceRemaining)];
      }
      currTick := currTick + announceRemaining;
      announceRemaining := 0;
      assert list == [] ==> View().queue == [];
    }
  }
}
