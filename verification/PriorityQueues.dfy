/**
 The two thread queues of zephyr/kernel/sched.c that need no tree: the sorted
 list (z_priq_dumb_*) and one list per priority with a bitmask (z_priq_mq_*).
 They are the same queue.
 */
module PriorityQueues {
  import opened BitWords
  import opened IdList

  /** A priority, counted from K_HIGHEST_THREAD_PRIO: the multi-queue is built for
      at most 32 of them. */
  type Level = BitNo

  // ---- the bitmask --------------------------------------------------------------------

  function CtzStep(m: bv32, r: Level, w: Level): (bv32, Level) {
    if m & ((1 << w) - 1) == 0 then (m >> w, r + w) else (m, r)
  }

  /** __builtin_ctz(): the number of trailing zero bits, by halving. */
  function Ctz(m: bv32): Level {
    var (m1, r1) := CtzStep(m, 0, 16);
    var (m2, r2) := CtzStep(m1, r1, 8);
    var (m3, r3) := CtzStep(m2, r2, 4);
    var (m4, r4) := CtzStep(m3, r3, 2);
    var (m5, r5) := CtzStep(m4, r4, 1);
    r5
  }

  lemma {:induction false} CtzIsLowest(m: bv32, j: Level)
    requires m != 0
    ensures Bit(m, Ctz(m)) && (j < Ctz(m) ==> !Bit(m, j))
  {
  }

  lemma {:induction false} SomeBit(m: bv32, j: Level)
    requires Bit(m, j)
    ensures m != 0
  {
  }

  // ---- the queues -----------------------------------------------------------------------

  datatype Option = None | Some(value: Id)

  /** The priorities of the threads. */
  type Prios = map<Id, Level>

  function Prio(prio: Prios, t: Id): Level {
    if t in prio then prio[t] else 0
  }

  /** z_priq_dumb_add(): in front of the first thread of lower priority. */
  function DumbAdd(prio: Prios, l: seq<Id>, t: Id): seq<Id> {
    if l == [] || Prio(prio, t) < Prio(prio, l[0]) then [t] + l else [l[0]] + DumbAdd(prio, l[1..], t)
  }

  function DumbRemove(l: seq<Id>, t: Id): seq<Id> {
    if l == [] then [] else if l[0] == t then l[1..] else [l[0]] + DumbRemove(l[1..], t)
  }

  function DumbBest(l: seq<Id>): Option {
    if l == [] then None else Some(l[0])
  }

  datatype Mq = Mq(queues: seq<seq<Id>>, bitmask: bv32)

  const LEVELS := 32

  function Nth(m: seq<seq<Id>>, v: Level): seq<Id>
    requires |m| == LEVELS
  {
    m[v as int]
  }

  function SetNth(m: seq<seq<Id>>, v: Level, x: seq<Id>): (r: seq<seq<Id>>)
    requires |m| == LEVELS
    ensures |r| == LEVELS
  {
    m[v as int := x]
  }

  lemma {:induction false} NthSet(m: seq<seq<Id>>, p: Level, x: seq<Id>, v: Level)
    requires |m| == LEVELS
    ensures Nth(SetNth(m, p, x), v) == if v == p then x else Nth(m, v)
  {
  }

  function QueueOf(q: Mq, v: Level): seq<Id>
    requires |q.queues| == LEVELS
  {
    Nth(q.queues, v)
  }

  /** z_priq_mq_add() */
  function MqAdd(prio: Prios, q: Mq, t: Id): Mq
    requires |q.queues| == LEVELS
  {
    var v := Prio(prio, t);
    Mq(SetNth(q.queues, v, QueueOf(q, v) + [t]), WithBit(q.bitmask, v))
  }

  /** z_priq_mq_remove() */
  function MqRemove(prio: Prios, q: Mq, t: Id): Mq
    requires |q.queues| == LEVELS
  {
    var v := Prio(prio, t);
    var l := DumbRemove(QueueOf(q, v), t);
    Mq(SetNth(q.queues, v, l), if l == [] then WithoutBit(q.bitmask, v) else q.bitmask)
  }

  /** z_priq_mq_best() */
  function MqBest(q: Mq): Option
    requires |q.queues| == LEVELS
  {
    if q.bitmask == 0 then None else DumbBest(QueueOf(q, Ctz(q.bitmask)))
  }

  // ---- one abstract queue -------------------------------------------------------------------

  /** The threads of one priority, in order. */
  function OfLevel(prio: Prios, l: seq<Id>, v: Level): seq<Id> {
    if l == [] then []
    else if Prio(prio, l[0]) == v then [l[0]] + OfLevel(prio, l[1..], v)
    else OfLevel(prio, l[1..], v)
  }

  predicate Sorted(prio: Prios, l: seq<Id>) {
    forall i, j :: 0 <= i < j < |l| ==> Prio(prio, l[i]) <= Prio(prio, l[j])
  }

  /** The multi-queue holds what the sorted list holds, and bit v says that queue v
      is not empty. */
  ghost predicate Same(prio: Prios, l: seq<Id>, q: Mq) {
    Sorted(prio, l) && |q.queues| == LEVELS && forall v: Level :: LevelAgrees(prio, l, q, v)
  }

  predicate LevelAgrees(prio: Prios, l: seq<Id>, q: Mq, v: Level)
    requires |q.queues| == LEVELS
  {
    QueueOf(q, v) == OfLevel(prio, l, v) && (Bit(q.bitmask, v) <==> QueueOf(q, v) != [])
  }

  lemma {:induction false} AboveHead(prio: Prios, l: seq<Id>, v: Level)
    requires Sorted(prio, l) && (l == [] || v < Prio(prio, l[0]))
    ensures OfLevel(prio, l, v) == []
  {
    if l == [] {
    } else {
      assert |l| > 1 ==> l[1..][0] == l[1];
      AboveHead(prio, l[1..], v);
    }
  }

  /** Adding to the sorted list appends to the threads of that priority. */
  lemma {:induction false} DumbAddOfLevel(prio: Prios, l: seq<Id>, t: Id, v: Level)
    requires Sorted(prio, l)
    ensures OfLevel(prio, DumbAdd(prio, l, t), v)
            == if v == Prio(prio, t) then OfLevel(prio, l, v) + [t] else OfLevel(prio, l, v)
  {
    if l == [] || Prio(prio, t) < Prio(prio, l[0]) {
      assert ([t] + l)[1..] == l;
      if v == Prio(prio, t) {
        AboveHead(prio, l, v);
      }
    } else {
      var rest := DumbAdd(prio, l[1..], t);
      assert ([l[0]] + rest)[1..] == rest;
      DumbAddOfLevel(prio, l[1..], t, v);
    }
  }

  lemma {:induction false} DumbAddIn(prio: Prios, l: seq<Id>, t: Id, i: nat)
    requires i < |DumbAdd(prio, l, t)|
    ensures DumbAdd(prio, l, t)[i] == t || DumbAdd(prio, l, t)[i] in l
  {
    if !(l == [] || Prio(prio, t) < Prio(prio, l[0])) && i > 0 {
      DumbAddIn(prio, l[1..], t, i - 1);
    }
  }

  lemma {:induction false} DumbAddSorted(prio: Prios, l: seq<Id>, t: Id)
    requires Sorted(prio, l)
    ensures Sorted(prio, DumbAdd(prio, l, t))
  {
    if !(l == [] || Prio(prio, t) < Prio(prio, l[0])) {
      var rest := DumbAdd(prio, l[1..], t);
      DumbAddSorted(prio, l[1..], t);
      forall j | 0 <= j < |rest| ensures Prio(prio, l[0]) <= Prio(prio, rest[j]) {
        DumbAddIn(prio, l[1..], t, j);
      }
    }
  }

  lemma {:induction false} DumbRemoveOfLevel(prio: Prios, l: seq<Id>, t: Id, v: Level)
    ensures OfLevel(prio, DumbRemove(l, t), v)
            == if v == Prio(prio, t) then DumbRemove(OfLevel(prio, l, v), t) else OfLevel(prio, l, v)
  {
    if l != [] && l[0] != t {
      var rest := DumbRemove(l[1..], t);
      assert ([l[0]] + rest)[1..] == rest;
      DumbRemoveOfLevel(prio, l[1..], t, v);
      var o := OfLevel(prio, l[1..], v);
      assert ([l[0]] + o)[1..] == o;
    } else if l != [] {
      var o := OfLevel(prio, l[1..], v);
      assert ([l[0]] + o)[1..] == o;
    }
  }

  lemma {:induction false} DumbRemoveIn(l: seq<Id>, t: Id, i: nat)
    requires i < |DumbRemove(l, t)|
    ensures DumbRemove(l, t)[i] in l
  {
    if l[0] != t && i > 0 {
      DumbRemoveIn(l[1..], t, i - 1);
    }
  }

  lemma {:induction false} DumbRemoveSorted(prio: Prios, l: seq<Id>, t: Id)
    requires Sorted(prio, l)
    ensures Sorted(prio, DumbRemove(l, t))
  {
    if l != [] && l[0] != t {
      var rest := DumbRemove(l[1..], t);
      DumbRemoveSorted(prio, l[1..], t);
      forall j | 0 <= j < |rest| ensures Prio(prio, l[0]) <= Prio(prio, rest[j]) {
        DumbRemoveIn(l[1..], t, j);
      }
    }
  }

  lemma {:induction false} AddAgrees(prio: Prios, l: seq<Id>, q: Mq, t: Id)
    requires Same(prio, l, q)
    ensures Same(prio, DumbAdd(prio, l, t), MqAdd(prio, q, t))
  {
    DumbAddSorted(prio, l, t);
    assert |MqAdd(prio, q, t).queues| == LEVELS;
    hide OfLevel, DumbAdd, Sorted, Bit, MqAdd;
    forall v: Level ensures LevelAgrees(prio, DumbAdd(prio, l, t), MqAdd(prio, q, t), v) {
      AddLevel(prio, l, q, t, v);
    }
  }

  /** What each operation does to one queue and its bit. */
  lemma {:induction false} MqAddAt(prio: Prios, q: Mq, t: Id, v: Level)
    requires |q.queues| == LEVELS
    ensures var q1, p := MqAdd(prio, q, t), Prio(prio, t);
            && |q1.queues| == LEVELS
            && QueueOf(q1, v) == (if v == p then QueueOf(q, v) + [t] else QueueOf(q, v))
            && Bit(q1.bitmask, v) == (v == p || Bit(q.bitmask, v))
  {
    hide Bit, Nth, SetNth, WithBit;
    var p := Prio(prio, t);
    SetBit(q.bitmask, p, v);
    NthSet(q.queues, p, QueueOf(q, p) + [t], v);
  }

  lemma {:induction false} MqRemoveAt(prio: Prios, q: Mq, t: Id, v: Level)
    requires |q.queues| == LEVELS
    ensures var q1, p := MqRemove(prio, q, t), Prio(prio, t);
            && |q1.queues| == LEVELS
            && QueueOf(q1, v) == (if v == p then DumbRemove(QueueOf(q, v), t) else QueueOf(q, v))
            && Bit(q1.bitmask, v) == (Bit(q.bitmask, v) && !(v == p && DumbRemove(QueueOf(q, v), t) == []))
  {
    hide Bit, Nth, SetNth, DumbRemove, WithoutBit;
    var p := Prio(prio, t);
    ClearBit(q.bitmask, p, v);
    NthSet(q.queues, p, DumbRemove(QueueOf(q, p), t), v);
  }

  lemma {:induction false} AddLevel(prio: Prios, l: seq<Id>, q: Mq, t: Id, v: Level)
    requires Sorted(prio, l) && |q.queues| == LEVELS && LevelAgrees(prio, l, q, v)
    ensures |MqAdd(prio, q, t).queues| == LEVELS && LevelAgrees(prio, DumbAdd(prio, l, t), MqAdd(prio, q, t), v)
  {
    hide OfLevel, DumbAdd, Sorted, Bit, MqAdd, QueueOf;
    DumbAddOfLevel(prio, l, t, v);
    MqAddAt(prio, q, t, v);
  }

  lemma {:induction false} RemoveAgrees(prio: Prios, l: seq<Id>, q: Mq, t: Id)
    requires Same(prio, l, q)
    ensures Same(prio, DumbRemove(l, t), MqRemove(prio, q, t))
  {
    DumbRemoveSorted(prio, l, t);
    assert |MqRemove(prio, q, t).queues| == LEVELS;
    hide OfLevel, DumbRemove, Sorted, Bit, MqRemove;
    forall v: Level ensures LevelAgrees(prio, DumbRemove(l, t), MqRemove(prio, q, t), v) {
      RemoveLevel(prio, l, q, t, v);
    }
  }

  lemma {:induction false} RemoveLevel(prio: Prios, l: seq<Id>, q: Mq, t: Id, v: Level)
    requires |q.queues| == LEVELS && LevelAgrees(prio, l, q, v)
    ensures |MqRemove(prio, q, t).queues| == LEVELS && LevelAgrees(prio, DumbRemove(l, t), MqRemove(prio, q, t), v)
  {
    assert DumbRemove([], t) == [];
    hide OfLevel, DumbRemove, Bit, MqRemove, QueueOf;
    DumbRemoveOfLevel(prio, l, t, v);
    MqRemoveAt(prio, q, t, v);
  }

  /** The best thread of both is the first thread of the highest priority. */
  lemma {:induction false} BestAgrees(prio: Prios, l: seq<Id>, q: Mq)
    requires Same(prio, l, q)
    ensures MqBest(q) == DumbBest(l)
  {
    hide Ctz, Bit, QueueOf;
    var c := Ctz(q.bitmask);
    assert LevelAgrees(prio, l, q, c);
    if l == [] {
      if q.bitmask != 0 {
        CtzIsLowest(q.bitmask, c);
      }
    } else {
      var v := Prio(prio, l[0]);
      assert LevelAgrees(prio, l, q, v) && QueueOf(q, v)[0] == l[0];
      SomeBit(q.bitmask, v);
      CtzIsLowest(q.bitmask, v);
      if c < v {
        AboveHead(prio, l, c);
      }
    }
  }

  /** ... which is of the highest priority, and the longest queued one of it. */
  lemma {:induction false} BestIsFirst(prio: Prios, l: seq<Id>)
    requires Sorted(prio, l) && l != []
    ensures DumbBest(l) == Some(l[0])
    ensures forall x :: x in l ==> Prio(prio, l[0]) <= Prio(prio, x)
    ensures OfLevel(prio, l, Prio(prio, l[0]))[..1] == [l[0]]
  {
    forall x | x in l ensures Prio(prio, l[0]) <= Prio(prio, x) {
      var i :| 0 <= i < |l| && l[i] == x;
    }
  }

  // ---- runs -----------------------------------------------------------------------------------

  datatype Op = DoAdd(thread: Id) | DoRemove(thread: Id) | DoSetPrio(thread: Id, level: Level)

  datatype Pair = Pair(prio: Prios, list: seq<Id>, mq: Mq)

  /** Priorities change only while a thread is not queued. */
  predicate Enabled(s: Pair, op: Op) {
    op.DoSetPrio? ==> op.thread !in s.list
  }

  function Step(s: Pair, op: Op): Pair
    requires |s.mq.queues| == LEVELS
  {
    match op
    case DoAdd(t) => s.(list := DumbAdd(s.prio, s.list, t), mq := MqAdd(s.prio, s.mq, t))
    case DoRemove(t) => s.(list := DumbRemove(s.list, t), mq := MqRemove(s.prio, s.mq, t))
    case DoSetPrio(t, v) => s.(prio := s.prio[t := v])
  }

  function Empty(): Mq {
    Mq(seq(LEVELS, i => []), 0)
  }

  lemma {:induction false} EmptySame(prio: Prios)
    ensures Same(prio, [], Empty())
  {
    forall v: Level ensures LevelAgrees(prio, [], Empty(), v) {
      NoBit(v);
    }
  }

  ghost function Initial(prio: Prios): (s: Pair)
    ensures Same(s.prio, s.list, s.mq)
  {
    EmptySame(prio);
    Pair(prio, [], Empty())
  }

  lemma {:induction false} NoBit(v: Level)
    ensures !Bit(0, v)
  {
  }

  lemma {:induction false} OtherPrio(prio: Prios, t: Id, p: Level, l: seq<Id>, v: Level)
    requires t !in l
    ensures OfLevel(prio[t := p], l, v) == OfLevel(prio, l, v)
  {
    if l == [] {
    } else {
      assert l[0] in l && forall x :: x in l[1..] ==> x in l;
      OtherPrio(prio, t, p, l[1..], v);
    }
  }

  lemma {:induction false} SetPrioAgrees(prio: Prios, l: seq<Id>, q: Mq, t: Id, p: Level)
    requires Same(prio, l, q) && t !in l
    ensures Same(prio[t := p], l, q)
  {
    assert forall i :: 0 <= i < |l| ==> l[i] in l;
    var prio1 := prio[t := p];
    assert Sorted(prio1, l);
    hide OfLevel, Bit, Sorted, QueueOf;
    forall v: Level ensures LevelAgrees(prio1, l, q, v) {
      assert LevelAgrees(prio, l, q, v);
      OtherPrio(prio, t, p, l, v);
    }
  }

  lemma {:induction false} StepAgrees(s: Pair, op: Op)
    requires Same(s.prio, s.list, s.mq) && Enabled(s, op)
    ensures var r := Step(s, op); Same(r.prio, r.list, r.mq)
  {
    hide Same, MqAdd, MqRemove, DumbAdd, DumbRemove;
    match op
    case DoAdd(t) => AddAgrees(s.prio, s.list, s.mq, t);
    case DoRemove(t) => RemoveAgrees(s.prio, s.list, s.mq, t);
    case DoSetPrio(t, v) => SetPrioAgrees(s.prio, s.list, s.mq, t, v);
  }

  ghost predicate CanRun(s: Pair, ops: seq<Op>)
    requires Same(s.prio, s.list, s.mq)
    decreases |ops|
  {
    ops == [] || (Enabled(s, ops[0]) && (StepAgrees(s, ops[0]); CanRun(Step(s, ops[0]), ops[1..])))
  }

  ghost function Run(s: Pair, ops: seq<Op>): (r: Pair)
    requires Same(s.prio, s.list, s.mq) && CanRun(s, ops)
    ensures Same(r.prio, r.list, r.mq)
    decreases |ops|
  {
    if ops == [] then s else
      StepAgrees(s, ops[0]);
      Run(Step(s, ops[0]), ops[1..])
  }

  /** After every sequence of additions and removals the two queues give the same
      best thread, and bit v is set exactly when queue v is not empty. */
  lemma {:induction false} QueuesAgree(prio: Prios, ops: seq<Op>, v: Level)
    requires CanRun(Initial(prio), ops)
    ensures var r := Run(Initial(prio), ops);
            && |r.mq.queues| == LEVELS
            && MqBest(r.mq) == DumbBest(r.list)
            && (Bit(r.mq.bitmask, v) <==> r.mq.queues[v as int] != [])
            && r.mq.queues[v as int] == OfLevel(r.prio, r.list, v)
  {
    var r := Run(Initial(prio), ops);
    hide Run, CanRun, Bit, MqBest, DumbBest, OfLevel;
    assert LevelAgrees(r.prio, r.list, r.mq, v);
    BestAgrees(r.prio, r.list, r.mq);
  }

  // ---- the queues as the kernel keeps them -----------------------------------------------------

  lemma {:induction false} DumbAddStep(prio: Prios, l: seq<Id>, t: Id, i: nat)
    requires i < |l| && Prio(prio, l[i]) <= Prio(prio, t)
    ensures DumbAdd(prio, l[i..], t) == [l[i]] + DumbAdd(prio, l[i + 1..], t)
  {
    assert l[i..][1..] == l[i + 1..];
  }

  lemma {:induction false} DumbAddHere(prio: Prios, l: seq<Id>, t: Id, i: nat)
    requires i <= |l| && (i < |l| ==> Prio(prio, t) < Prio(prio, l[i]))
    ensures DumbAdd(prio, l[i..], t) == [t] + l[i..]
  {
  }

  class SortedQueue {
    var list: seq<Id>

    constructor ()
      ensures list == []
    {
      list := [];
    }

    /** z_priq_dumb_add() */
    method Add(prio: Prios, t: Id)
      modifies this
      ensures list == DumbAdd(prio, old(list), t)
    {
      hide DumbAdd, Prio;
      var i := 0;
      while i < |list| && !(Prio(prio, t) < Prio(prio, list[i]))
        invariant i <= |list| && list == old(list)
        invariant list[..i] + DumbAdd(prio, list[i..], t) == DumbAdd(prio, list, t)
      {
        DumbAddStep(prio, list, t, i);
        assert list[..i + 1] == list[..i] + [list[i]];
        i := i + 1;
      }
      DumbAddHere(prio, list, t, i);
      list := list[..i] + [t] + list[i..];
    }

    /** z_priq_dumb_remove() */
    method Remove(t: Id)
      modifies this
      ensures list == DumbRemove(old(list), t)
    {
      list := Unlink(list, t);
    }

    /** z_priq_dumb_best() */
    method Best() returns (r: Option)
      ensures r == DumbBest(list)
    {
      r := if list == [] then None else Some(list[0]);
    }
  }

  /** sys_dlist_remove() */
  method Unlink(l: seq<Id>, t: Id) returns (r: seq<Id>)
    ensures r == DumbRemove(l, t)
  {
    hide DumbRemove;
    var i := 0;
    while i < |l| && l[i] != t
      invariant i <= |l| && l[..i] + DumbRemove(l[i..], t) == DumbRemove(l, t)
    {
      DumbRemoveStep(l, t, i);
      assert l[..i + 1] == l[..i] + [l[i]];
      i := i + 1;
    }
    DumbRemoveHere(l, t, i);
    r := if i < |l| then l[..i] + l[i + 1..] else l;
  }

  lemma {:induction false} DumbRemoveHere(l: seq<Id>, t: Id, i: nat)
    requires i <= |l| && (i < |l| ==> l[i] == t)
    ensures DumbRemove(l[i..], t) == if i < |l| then l[i + 1..] else []
  {
    assert i < |l| ==> l[i..][1..] == l[i + 1..];
  }

  lemma {:induction false} DumbRemoveStep(l: seq<Id>, t: Id, i: nat)
    requires i < |l| && l[i] != t
    ensures DumbRemove(l[i..], t) == [l[i]] + DumbRemove(l[i + 1..], t)
  {
    assert l[i..][1..] == l[i + 1..];
  }

  class MultiQueue {
    const queues: array<seq<Id>>
    var bitmask: bv32

    ghost predicate Shaped() {
      queues.Length == LEVELS
    }

    ghost function View(): Mq
      requires Shaped()
      reads this, queues
    {
      Mq(queues[..], bitmask)
    }

    constructor ()
      ensures Shaped() && fresh(queues) && View() == Empty()
    {
      queues := new seq<Id>[LEVELS](i => []);
      bitmask := 0;
    }

    /** z_priq_mq_add() */
    method Add(prio: Prios, t: Id)
      requires Shaped()
      modifies this, queues
      ensures View() == MqAdd(prio, old(View()), t)
    {
      var v := Prio(prio, t);
      hide WithBit, Bit;
      queues[v as int] := queues[v as int] + [t];
      bitmask := WithBit(bitmask, v);
    }

    /** z_priq_mq_remove() */
    method Remove(prio: Prios, t: Id)
      requires Shaped()
      modifies this, queues
      ensures View() == MqRemove(prio, old(View()), t)
    {
      var v := Prio(prio, t);
      hide WithoutBit, Bit;
      var l := Unlink(queues[v as int], t);
      queues[v as int] := l;
      if l == [] {
        bitmask := WithoutBit(bitmask, v);
      }
    }

    /** z_priq_mq_best() */
    method Best() returns (r: Option)
      requires Shaped()
      ensures r == MqBest(View())
    {
      if bitmask == 0 {
        return None;
      }
      hide Ctz;
      var l := queues[Ctz(bitmask) as int];
      r := if l == [] then None else Some(l[0]);
    }
  }
}
