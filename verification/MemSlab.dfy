/**
 Memory slabs (zephyr/kernel/mem_slab.c): fixed-size blocks of one buffer, whose
 free list lives in the first word of each free block.
 */
module MemSlab {
  import opened WaitQueue

  const EINVAL := 22
  const ENOMEM := 12

  /** sizeof(void *) */
  const WORD := 4

  type Addr = nat
  type CallId = nat

  const NULL: Addr := 0

  /** The words of memory; unwritten ones read as anything, here zero. */
  type Memory = map<Addr, nat>

  function Load(m: Memory, a: Addr): nat {
    if a in m then m[a] else 0
  }

  /** The geometry of a slab. */
  datatype Shape = Shape(base: Addr, size: nat, num: nat)

  function Block(g: Shape, i: nat): Addr {
    g.base + i * g.size
  }

  predicate IsBlock(g: Shape, p: Addr) {
    exists i: nat :: i < g.num && p == Block(g, i)
  }

  /** The list that starts at `head` and whose links are in memory. */
  predicate Linked(m: Memory, head: Addr, l: seq<Addr>)
    decreases |l|
  {
    if l == [] then head == NULL
    else head != NULL && head == l[0] && Linked(m, Load(m, head), l[1..])
  }

  predicate NoDup(l: seq<Addr>) {
    forall i, j :: 0 <= i < j < |l| ==> l[i] != l[j]
  }

  // ---- blocks ---------------------------------------------------------------------------

  lemma {:induction false} BlocksApart(g: Shape, i: nat, j: nat)
    requires i < j && g.size > 0
    ensures Block(g, i) + g.size <= Block(g, j)
  {
    assert (i + 1) * g.size <= j * g.size;
  }

  /** Different blocks do not overlap. */
  lemma {:induction false} BlocksDisjoint(g: Shape, p: Addr, q: Addr, a: Addr)
    requires (g.size > 0 || g.num <= 1) && IsBlock(g, p) && IsBlock(g, q) && p <= a < p + g.size && a == q
    ensures p == q
  {
    var i: nat :| i < g.num && p == Block(g, i);
    var j: nat :| j < g.num && q == Block(g, j);
    if i < j {
      BlocksApart(g, i, j);
    } else if j < i {
      BlocksApart(g, j, i);
    }
  }

  // ---- the list in memory --------------------------------------------------------------------

  /** The list is what memory says it is. */
  lemma {:induction false} LinkedUnique(m: Memory, head: Addr, a: seq<Addr>, b: seq<Addr>)
    requires Linked(m, head, a) && Linked(m, head, b)
    ensures a == b
    decreases |a|
  {
    if a == [] {
    } else {
      LinkedUnique(m, Load(m, head), a[1..], b[1..]);
      assert a == [a[0]] + a[1..] && b == [b[0]] + b[1..];
    }
  }

  /** A write outside the blocks of the list does not change the list. */
  lemma {:induction false} LinkedElsewhere(m: Memory, a: Addr, v: nat, head: Addr, l: seq<Addr>)
    requires Linked(m, head, l) && a !in l
    ensures Linked(m[a := v], head, l)
    decreases |l|
  {
    if l == [] {
    } else {
      assert l[0] in l && forall x :: x in l[1..] ==> x in l;
      LinkedElsewhere(m, a, v, Load(m, head), l[1..]);
    }
  }

  /** A list in memory that comes back to itself never ends. */
  lemma {:induction false} LoopNeverEnds(m: Memory, head: Addr, l: seq<Addr>)
    requires head != NULL && Load(m, head) == head
    ensures !Linked(m, head, l)
  {
    if l == [] {
    } else {
      LoopNeverEnds(m, head, l[1..]);
    }
  }

  // ---- create_free_list() -----------------------------------------------------------------------

  /** The first `n` blocks, the last one first. */
  function Down(g: Shape, n: nat): seq<Addr> {
    if n == 0 then [] else [Block(g, n - 1)] + Down(g, n - 1)
  }

  lemma {:induction false} DownIn(g: Shape, n: nat, p: Addr)
    ensures p in Down(g, n) <==> exists i: nat :: i < n && p == Block(g, i)
  {
    if n == 0 {
    } else {
      DownIn(g, n - 1, p);
      assert p == Block(g, n - 1) || p in Down(g, n - 1) <==> p in Down(g, n);
    }
  }

  lemma {:induction false} DownLength(g: Shape, n: nat)
    ensures |Down(g, n)| == n
  {
    if n == 0 {
    } else {
      DownLength(g, n - 1);
    }
  }

  lemma {:induction false} DownNoDup(g: Shape, n: nat)
    requires g.size > 0 || n <= 1
    ensures NoDup(Down(g, n))
  {
    if n > 1 {
      DownNoDup(g, n - 1);
      DownIn(g, n - 1, Block(g, n - 1));
      forall i: nat | i < n - 1 ensures Block(g, i) != Block(g, n - 1) {
        BlocksApart(g, i, n - 1);
      }
    } else if n == 1 {
      assert Down(g, 1) == [Block(g, 0)];
    }
  }

  /** What the loop leaves in memory after `n` blocks: the memory, and the head. */
  function Built(m: Memory, g: Shape, n: nat): (Memory, Addr) {
    if n == 0 then (m, NULL) else
      var (m1, h) := Built(m, g, n - 1);
      var p := Block(g, n - 1);
      (m1[p := h], p)
  }

  lemma {:induction false} BuiltLinked(m: Memory, g: Shape, n: nat)
    requires g.base != NULL && (g.size > 0 || n <= 1)
    ensures Linked(Built(m, g, n).0, Built(m, g, n).1, Down(g, n))
  {
    if n == 0 {
    } else {
      BuiltLinked(m, g, n - 1);
      var (m1, h) := Built(m, g, n - 1);
      var p := Block(g, n - 1);
      DownIn(g, n - 1, p);
      forall i: nat | i < n - 1 ensures Block(g, i) != p {
        BlocksApart(g, i, n - 1);
      }
      LinkedElsewhere(m1, p, h, h, Down(g, n - 1));
      assert Down(g, n)[1..] == Down(g, n - 1);
    }
  }

  /** With blocks of no size and two of them, the list is a loop. */
  lemma {:induction false} BuiltLoops(m: Memory, g: Shape, n: nat)
    requires g.base != NULL && g.size == 0 && n >= 2
    ensures var (m1, h) := Built(m, g, n); h != NULL && Load(m1, h) == h
  {
    var (m1, h) := Built(m, g, n - 1);
    assert Block(g, n - 1) == g.base && Block(g, n - 2) == g.base;
    assert h == g.base;
  }

  /** The list at `head` ends. */
  ghost predicate Ends(m: Memory, head: Addr) {
    exists l :: Linked(m, head, l)
  }

  lemma {:induction false} EndsBy(m: Memory, head: Addr, l: seq<Addr>)
    requires Linked(m, head, l)
    ensures Ends(m, head)
  {
  }

  /** create_free_list() makes a list that ends exactly when blocks have a size or
      there is at most one; then it holds every block once. */
  lemma {:induction false} BuiltExactly(m: Memory, g: Shape)
    requires g.base != NULL
    ensures var (m1, h) := Built(m, g, g.num);
            && (Ends(m1, h) <==> g.size > 0 || g.num <= 1)
            && (Ends(m1, h) ==> Linked(m1, h, Down(g, g.num)) && NoDup(Down(g, g.num)))
  {
    var (m1, h) := Built(m, g, g.num);
    if g.size > 0 || g.num <= 1 {
      BuiltLinked(m, g, g.num);
      EndsBy(m1, h, Down(g, g.num));
      DownNoDup(g, g.num);
    } else {
      BuiltLoops(m, g, g.num);
      forall l ensures !Linked(m1, h, l) {
        LoopNeverEnds(m1, h, l);
      }
    }
  }

  // ---- the slab -----------------------------------------------------------------------------

  datatype Waiter = Waiter(call: CallId, prio: int)

  datatype State = State(
    shape: Shape,
    mem: Memory,
    head: Addr,                      // free_list
    used: nat,                       // num_used
    waiters: seq<Waiter>,
    held: map<CallId, Addr>,         // the block each successful call was given
    next: CallId)                    // allocation calls so far

  datatype Outcome = Returned(code: int, block: Addr) | Blocked

  function WaiterPrio(w: Waiter): int {
    w.prio
  }

  /** k_mem_slab_alloc() */
  function Alloc(s: State, prio: int, wait: bool): (State, Outcome) {
    var c, s0 := s.next, s.(next := s.next + 1);
    if s.head != NULL then
      (s0.(head := Load(s.mem, s.head), used := s.used + 1, held := s.held[c := s.head]), Returned(0, s.head))
    else if !wait then (s0, Returned(-ENOMEM, NULL))
    else (s0.(waiters := Insert(s.waiters, Waiter(c, prio), WaiterPrio)), Blocked)
  }

  /** k_mem_slab_free() of the block that call `c` was given */
  function Free(s: State, c: CallId): State
    requires c in s.held && s.used > 0
  {
    var p := s.held[c];
    if s.head == NULL && s.waiters != [] then
      s.(held := (s.held - {c})[s.waiters[0].call := p], waiters := s.waiters[1..])
    else
      s.(mem := s.mem[p := s.head], head := p, used := s.used - 1, held := s.held - {c})
  }

  function Expire(s: State, i: nat): State
    requires i < |s.waiters|
  {
    s.(waiters := s.waiters[..i] + s.waiters[i + 1..])
  }

  /** The holder of a block writes a word of it. */
  function Write(s: State, a: Addr, v: nat): State {
    s.(mem := s.mem[a := v])
  }

  // ---- the invariant ----------------------------------------------------------------------------

  predicate Holds(s: State, p: Addr) {
    exists c :: c in s.held && s.held[c] == p
  }

  /** The free list `free` is in memory and holds distinct blocks. */
  predicate ListOk(s: State, free: seq<Addr>) {
    && Linked(s.mem, s.head, free) && NoDup(free)
    && (forall p :: p in free ==> IsBlock(s.shape, p))
  }

  /** Every block is free or held, not both, and held by one call. */
  ghost predicate HeldOk(s: State, free: seq<Addr>) {
    && (forall c :: c in s.held ==> IsBlock(s.shape, s.held[c]) && s.held[c] !in free)
    && (forall c, d :: c in s.held && d in s.held && c != d ==> s.held[c] != s.held[d])
    && (forall p :: IsBlock(s.shape, p) ==> p in free || Holds(s, p))
  }

  predicate CountsOk(s: State, free: seq<Addr>) {
    && |free| + s.used == s.shape.num && s.used == |s.held|
    && (s.waiters != [] ==> free == [])
  }

  predicate CallsOk(s: State) {
    && (forall c :: c in s.held ==> c < s.next)
    && (forall i :: 0 <= i < |s.waiters| ==> s.waiters[i].call < s.next && s.waiters[i].call !in s.held)
    && (forall i, j :: 0 <= i < j < |s.waiters| ==> s.waiters[i].call != s.waiters[j].call)
    && Ordered(s.waiters, WaiterPrio)
  }

  ghost predicate InvWith(s: State, free: seq<Addr>) {
    && s.shape.base != NULL && (s.shape.size > 0 || s.shape.num <= 1)
    && ListOk(s, free) && HeldOk(s, free) && CountsOk(s, free) && CallsOk(s)
  }

  ghost predicate Inv(s: State) {
    exists free :: InvWith(s, free)
  }

  lemma {:induction false} TailNoDup(l: seq<Addr>)
    requires NoDup(l) && l != []
    ensures NoDup(l[1..]) && l[0] !in l[1..] && forall p :: p in l <==> p == l[0] || p in l[1..]
  {
    assert l == [l[0]] + l[1..];
  }

  lemma {:induction false} AllocTakes(s: State, prio: int, wait: bool, free: seq<Addr>)
    requires InvWith(s, free) && free != []
    ensures InvWith(Alloc(s, prio, wait).0, free[1..])
  {
    var s1, c, p := Alloc(s, prio, wait).0, s.next, s.head;
    TailNoDup(free);
    assert p == free[0] && s1.held == s.held[c := p] && c !in s.held;
    assert ListOk(s1, free[1..]);
    hide ListOk, Linked, IsBlock;
    forall q | IsBlock(s1.shape, q) ensures q in free[1..] || Holds(s1, q) {
      HoldsMore(s, s1, c, p, q);
    }
    assert HeldOk(s1, free[1..]);
  }

  lemma {:induction false} HoldsMore(s: State, s1: State, c: CallId, p: Addr, q: Addr)
    requires c !in s.held && s1.held == s.held[c := p]
    ensures Holds(s1, q) <==> Holds(s, q) || q == p
  {
    if Holds(s, q) {
      var d :| d in s.held && s.held[d] == q;
      assert d in s1.held && s1.held[d] == q;
    }
    if q == p {
      assert c in s1.held && s1.held[c] == q;
    }
  }

  lemma {:induction false} PendCalls(s: State, prio: int)
    requires CallsOk(s)
    ensures CallsOk(s.(next := s.next + 1, waiters := Insert(s.waiters, Waiter(s.next, prio), WaiterPrio)))
  {
    var k := InsertedAt(s.waiters, Waiter(s.next, prio), WaiterPrio);
    assert s.next !in s.held;
    hide Insert, Ordered;
  }

  lemma {:induction false} AllocWaits(s: State, prio: int, wait: bool, free: seq<Addr>)
    requires InvWith(s, free) && free == []
    ensures InvWith(Alloc(s, prio, wait).0, free)
  {
    var s1 := Alloc(s, prio, wait).0;
    FreeHead(s, free);
    PendCalls(s, prio);
    assert s1.held == s.held && s1.shape == s.shape && s1.mem == s.mem && s1.head == s.head && s1.used == s.used;
    assert CallsOk(s1);
    hide Alloc, CallsOk, ListOk, HeldOk;
    ListSame(s, s1, free);
    HeldSame(s, s1, free);
  }

  lemma {:induction false} HeldSame(s: State, s1: State, free: seq<Addr>)
    requires HeldOk(s, free) && s1.held == s.held && s1.shape == s.shape
    ensures HeldOk(s1, free)
  {
    HoldsSame(s, s1);
    hide Holds, IsBlock;
  }

  lemma {:induction false} HoldsSame(s: State, s1: State)
    requires s1.held == s.held
    ensures forall p :: Holds(s1, p) <==> Holds(s, p)
  {
  }

  /** Freeing without a waiter puts the block in front of the list. */
  lemma {:induction false} FreeReturns(s: State, c: CallId, free: seq<Addr>)
    requires InvWith(s, free) && c in s.held && !(s.head == NULL && s.waiters != [])
    ensures s.used > 0 && InvWith(Free(s, c), [s.held[c]] + free)
  {
    assert s.used > 0;
    var s1, p := Free(s, c), s.held[c];
    FreeHead(s, free);
    assert |s.held - {c}| == |s.held| - 1;
    assert IsBlock(s.shape, p) && p !in free;
    hide IsBlock, Linked, NoDup;
    ReturnedList(s, p, free);
    ListSame(s.(mem := s.mem[p := s.head], head := p), s1, [p] + free);
    ReturnedHeld(s, c, s1, free);
    hide ListOk, HeldOk;
  }

  lemma {:induction false} ReturnedList(s: State, p: Addr, free: seq<Addr>)
    requires s.shape.base != NULL && ListOk(s, free) && IsBlock(s.shape, p) && p !in free
    ensures ListOk(s.(mem := s.mem[p := s.head], head := p), [p] + free)
  {
    assert p != NULL by {
      var i: nat :| i < s.shape.num && p == Block(s.shape, i);
    }
    LinkedElsewhere(s.mem, p, s.head, s.head, free);
    assert ([p] + free)[1..] == free;
  }

  lemma {:induction false} ReturnedHeld(s: State, c: CallId, s1: State, free: seq<Addr>)
    requires HeldOk(s, free) && c in s.held && s1.held == s.held - {c} && s1.shape == s.shape
    ensures HeldOk(s1, [s.held[c]] + free)
  {
    hide IsBlock;
    forall q | IsBlock(s1.shape, q) ensures q in [s.held[c]] + free || Holds(s1, q) {
      HoldsLess(s, s1, c, q);
    }
  }

  lemma {:induction false} FreeHead(s: State, free: seq<Addr>)
    requires InvWith(s, free)
    ensures s.head == NULL <==> free == []
  {
  }

  lemma {:induction false} HoldsLess(s: State, s1: State, c: CallId, q: Addr)
    requires c in s.held && s1.held == s.held - {c}
    ensures Holds(s, q) ==> q == s.held[c] || Holds(s1, q)
  {
    if Holds(s, q) && q != s.held[c] {
      var d :| d in s.held && s.held[d] == q;
      assert d in s1.held && s1.held[d] == q;
    }
  }

  lemma {:induction false} HandedHeld(s: State, c: CallId, d: CallId, s1: State, free: seq<Addr>)
    requires HeldOk(s, free) && c in s.held && d !in s.held
    requires s1.held == (s.held - {c})[d := s.held[c]] && s1.shape == s.shape
    ensures HeldOk(s1, free)
  {
    hide IsBlock;
    assert forall x :: x in s1.held <==> x == d || (x in s.held && x != c);
    forall q | IsBlock(s1.shape, q) ensures q in free || Holds(s1, q) {
      if Holds(s, q) {
        var x :| x in s.held && s.held[x] == q;
        var y := if x == c then d else x;
        assert y in s1.held && s1.held[y] == q;
      }
    }
  }

  lemma {:induction false} HandedCalls(s: State, c: CallId, s1: State)
    requires CallsOk(s) && s.waiters != [] && c in s.held && s1.next == s.next
    requires s1.held == (s.held - {c})[s.waiters[0].call := s.held[c]] && s1.waiters == s.waiters[1..]
    ensures CallsOk(s1)
  {
    assert forall i :: 0 <= i < |s1.waiters| ==> s1.waiters[i] == s.waiters[i + 1];
  }

  /** Freeing with a waiter hands the block over; it never touches the list. */
  lemma {:induction false} FreeHandsOver(s: State, c: CallId, free: seq<Addr>)
    requires InvWith(s, free) && c in s.held && s.head == NULL && s.waiters != []
    ensures s.used > 0 && InvWith(Free(s, c), free)
  {
    assert s.used > 0;
    var s1, d := Free(s, c), s.waiters[0].call;
    FreeHead(s, free);
    assert d !in s.held;
    assert |s.held - {c}| == |s.held| - 1;
    assert |s1.held| == |s.held|;
    HandedHeld(s, c, d, s1, free);
    HandedCalls(s, c, s1);
    ListSame(s, s1, free);
    hide ListOk, HeldOk, CallsOk;
  }

  lemma {:induction false} ListSame(s: State, s1: State, free: seq<Addr>)
    requires ListOk(s, free) && s1.mem == s.mem && s1.head == s.head && s1.shape == s.shape
    ensures ListOk(s1, free)
  {
  }

  /** Whatever the holder of a block writes into it, the free list is untouched. */
  lemma {:induction false} WriteKeeps(s: State, c: CallId, a: Addr, v: nat, free: seq<Addr>)
    requires InvWith(s, free) && c in s.held && s.held[c] <= a < s.held[c] + s.shape.size
    ensures InvWith(Write(s, a, v), free)
  {
    var s1 := Write(s, a, v);
    if a in free {
      assert IsBlock(s.shape, a) && IsBlock(s.shape, s.held[c]);
      BlocksDisjoint(s.shape, s.held[c], a, a);
    }
    LinkedElsewhere(s.mem, a, v, s.head, free);
    HoldsSame(s, s1);
    hide IsBlock, Linked, Holds;
  }

  lemma {:induction false} ExpireKeeps(s: State, i: nat, free: seq<Addr>)
    requires InvWith(s, free) && i < |s.waiters|
    ensures InvWith(Expire(s, i), free)
  {
    var s1 := Expire(s, i);
    assert forall j :: 0 <= j < |s1.waiters| ==> s1.waiters[j] == s.waiters[if j < i then j else j + 1];
    assert CallsOk(s1);
    hide ListOk, HeldOk, CallsOk;
    ListSame(s, s1, free);
    HeldSame(s, s1, free);
  }

  // ---- runs ---------------------------------------------------------------------------------------

  datatype Op =
    | DoAlloc(prio: int, wait: bool)
    | DoFree(holder: CallId)
    | DoExpire(waiter: nat)
    | DoWrite(holder: CallId, at: Addr, word: nat)

  /** Callers free and write only blocks they hold. */
  predicate Enabled(s: State, op: Op) {
    match op
    case DoAlloc(prio, wait) => true
    case DoFree(c) => c in s.held && s.used > 0
    case DoExpire(i) => i < |s.waiters|
    case DoWrite(c, a, v) => c in s.held && s.held[c] <= a < s.held[c] + s.shape.size
  }

  function Step(s: State, op: Op): State
    requires Enabled(s, op)
  {
    match op
    case DoAlloc(prio, wait) => Alloc(s, prio, wait).0
    case DoFree(c) => Free(s, c)
    case DoExpire(i) => Expire(s, i)
    case DoWrite(c, a, v) => Write(s, a, v)
  }

  lemma {:induction false} InvBy(s: State, free: seq<Addr>)
    requires InvWith(s, free)
    ensures Inv(s)
  {
  }

  lemma {:induction false} AllocKeeps(s: State, prio: int, wait: bool, free: seq<Addr>)
    requires InvWith(s, free)
    ensures Inv(Alloc(s, prio, wait).0)
  {
    hide InvWith, Inv, Alloc;
    if free == [] {
      AllocWaits(s, prio, wait, free);
      InvBy(Alloc(s, prio, wait).0, free);
    } else {
      AllocTakes(s, prio, wait, free);
      InvBy(Alloc(s, prio, wait).0, free[1..]);
    }
  }

  lemma {:induction false} FreeKeeps(s: State, c: CallId, free: seq<Addr>)
    requires InvWith(s, free) && c in s.held && s.used > 0
    ensures Inv(Free(s, c))
  {
    hide InvWith, Inv, Free;
    if s.head == NULL && s.waiters != [] {
      FreeHandsOver(s, c, free);
      InvBy(Free(s, c), free);
    } else {
      FreeReturns(s, c, free);
      InvBy(Free(s, c), [s.held[c]] + free);
    }
  }

  lemma {:induction false} AllocInv(s: State, prio: int, wait: bool)
    requires Inv(s)
    ensures Inv(Alloc(s, prio, wait).0)
  {
    var free :| InvWith(s, free);
    AllocKeeps(s, prio, wait, free);
  }

  lemma {:induction false} FreeInv(s: State, c: CallId)
    requires Inv(s) && c in s.held && s.used > 0
    ensures Inv(Free(s, c))
  {
    var free :| InvWith(s, free);
    FreeKeeps(s, c, free);
  }

  lemma {:induction false} StepKeeps(s: State, op: Op)
    requires Inv(s) && Enabled(s, op)
    ensures Inv(Step(s, op)) && Step(s, op).shape == s.shape
  {
    var free :| InvWith(s, free);
    hide InvWith, Inv;
    match op
    case DoAlloc(prio, wait) => AllocInv(s, prio, wait);
    case DoFree(c) => FreeInv(s, c);
    case DoExpire(i) =>
      ExpireKeeps(s, i, free);
      InvBy(Expire(s, i), free);
    case DoWrite(c, a, v) =>
      WriteKeeps(s, c, a, v, free);
      InvBy(Write(s, a, v), free);
  }

  ghost predicate CanRun(s: State, ops: seq<Op>)
    decreases |ops|
  {
    ops == [] || (Enabled(s, ops[0]) && CanRun(Step(s, ops[0]), ops[1..]))
  }

  ghost function Run(s: State, ops: seq<Op>): State
    requires CanRun(s, ops)
    decreases |ops|
  {
    if ops == [] then s else Run(Step(s, ops[0]), ops[1..])
  }

  lemma {:induction false} RunKeeps(s: State, ops: seq<Op>)
    requires Inv(s) && CanRun(s, ops)
    ensures Inv(Run(s, ops)) && Run(s, ops).shape == s.shape
    decreases |ops|
  {
    hide Inv, Step, Enabled;
    if ops != [] {
      StepKeeps(s, ops[0]);
      RunKeeps(Step(s, ops[0]), ops[1..]);
    }
  }

  /** k_mem_slab_init() over any memory */
  function Created(m: Memory, g: Shape): State {
    var (m1, h) := Built(m, g, g.num);
    State(g, m1, h, 0, [], map[], 0)
  }

  lemma {:induction false} CreatedInv(m: Memory, g: Shape)
    requires g.base != NULL && (g.size > 0 || g.num <= 1)
    ensures InvWith(Created(m, g), Down(g, g.num)) && Inv(Created(m, g))
  {
    BuiltLinked(m, g, g.num);
    DownNoDup(g, g.num);
    DownLength(g, g.num);
    forall p ensures p in Down(g, g.num) <==> IsBlock(g, p) {
      DownIn(g, g.num, p);
    }
    hide Linked, NoDup, IsBlock, Down, Built;
    InvBy(Created(m, g), Down(g, g.num));
  }

  /** Over every run: the free list in memory ends and holds distinct blocks; every
      block is either on it or held by exactly one call; the counts add up; and
      nobody waits while a block is free. */
  lemma {:induction false} SlabLaw(m: Memory, g: Shape, ops: seq<Op>) returns (free: seq<Addr>)
    requires g.base != NULL && (g.size > 0 || g.num <= 1) && CanRun(Created(m, g), ops)
    ensures var s := Run(Created(m, g), ops);
            && Linked(s.mem, s.head, free) && NoDup(free)
            && (forall p :: IsBlock(g, p) <==> p in free || Holds(s, p))
            && (forall p :: p in free ==> !Holds(s, p))
            && (forall c, d :: c in s.held && d in s.held && c != d ==> s.held[c] != s.held[d])
            && |free| + s.used == g.num && s.used == |s.held|
            && (s.waiters != [] ==> free == [])
  {
    CreatedInv(m, g);
    RunKeeps(Created(m, g), ops);
    var s := Run(Created(m, g), ops);
    hide Run, CanRun, Created;
    free :| InvWith(s, free);
    forall p ensures IsBlock(g, p) <==> p in free || Holds(s, p)
             ensures p in free ==> !Holds(s, p) {
      if Holds(s, p) {
        var c :| c in s.held && s.held[c] == p;
      }
    }
  }

  /** An allocation that succeeds gives a block nobody held; a freed block goes to
      the waiter in front, if there is one. */
  lemma {:induction false} AllocFresh(s: State, prio: int, wait: bool)
    requires Inv(s)
    ensures var (s1, r) := Alloc(s, prio, wait);
            && (r.Returned? && r.code == 0 ==> IsBlock(s.shape, r.block) && !Holds(s, r.block) && s1.held == s.held[s.next := r.block])
            && (r == Returned(-12, NULL) <==> s.head == NULL && !wait)
            && (r == Returned(-12, NULL) ==> s1 == s.(next := s.next + 1))
            && (r == Blocked <==> s.head == NULL && wait)
            && (r == Blocked ==>
                  s1 == s.(next := s.next + 1, waiters := Insert(s.waiters, Waiter(s.next, prio), WaiterPrio)))
  {
    var free :| InvWith(s, free);
    hide Insert;
    if s.head != NULL {
      assert s.head == free[0] && s.head in free;
    }
  }

  lemma {:induction false} FreeServes(s: State, c: CallId)
    requires Inv(s) && c in s.held && s.used > 0 && s.waiters != []
    ensures var s1 := Free(s, c);
            && s1.held == (s.held - {c})[s.waiters[0].call := s.held[c]]
            && s1.waiters == s.waiters[1..] && s1.used == s.used && s1.mem == s.mem
  {
    var free :| InvWith(s, free);
    FreeHead(s, free);
  }

  /** A timeout takes one waiter off the queue; the others wait on, in order, and no
      block changes hands. */
  lemma {:induction false} ExpireLaw(s: State, i: nat, j: nat)
    requires Inv(s) && i < |s.waiters| && j < |s.waiters|
    ensures var s1 := Expire(s, i);
            && |s1.waiters| == |s.waiters| - 1 && s1 == s.(waiters := s1.waiters)
            && (j < i ==> s1.waiters[j] == s.waiters[j]) && (j > i ==> s1.waiters[j - 1] == s.waiters[j])
            && (j == i ==> s.waiters[i] !in s1.waiters)
  {
    var free :| InvWith(s, free);
  }

  /** Freeing a block and allocating again gives it back. */
  lemma {:induction false} FreeThenAlloc(s: State, c: CallId, prio: int)
    requires Inv(s) && c in s.held && s.used > 0 && s.waiters == []
    ensures Alloc(Free(s, c), prio, false).1 == Returned(0, s.held[c])
  {
    var free :| InvWith(s, free);
    assert IsBlock(s.shape, s.held[c]);
    var i: nat :| i < s.shape.num && s.held[c] == Block(s.shape, i);
  }

  // ---- struct k_mem_slab ----------------------------------------------------------------------------

  class KSlab {
    var shape: Shape
    var mem: Memory
    var freeList: Addr
    var numUsed: nat
    var waitq: seq<Waiter>
    var next: CallId
    ghost var held: map<CallId, Addr>

    ghost function View(): State
      reads this
    {
      State(shape, mem, freeList, numUsed, waitq, held, next)
    }

    constructor (m: Memory)
      ensures mem == m
    {
      mem, shape, freeList, numUsed, waitq, next := m, Shape(0, 0, 0), NULL, 0, [], 0;
      held := map[];
    }

    /** k_mem_slab_init() and create_free_list() */
    method Init(base: Addr, size: nat, num: nat) returns (rc: int)
      requires base != NULL
      modifies this
      ensures rc == if base % WORD == 0 && size % WORD == 0 then 0 else -EINVAL
      ensures View() == if rc == 0 then Created(old(mem), Shape(base, size, num))
                        else old(View()).(shape := Shape(base, size, num), used := 0)
    {
      shape, numUsed := Shape(base, size, num), 0;
      if base % WORD != 0 || size % WORD != 0 {
        return -EINVAL;
      }
      freeList := NULL;
      var p, j := base, 0;
      while j < num
        invariant j <= num && p == Block(shape, j) && shape == Shape(base, size, num) && numUsed == 0
        invariant (mem, freeList) == Built(old(mem), shape, j)
      {
        mem := mem[p := freeList];
        freeList := p;
        p := p + size;
        j := j + 1;
        assert j * size == (j - 1) * size + size;
      }
      waitq, next, held := [], 0, map[];
      rc := 0;
    }

    /** k_mem_slab_alloc() */
    method AllocBlock(prio: int, wait: bool) returns (r: Outcome)
      requires Inv(View())
      modifies this
      ensures Inv(View()) && (View(), r) == Alloc(old(View()), prio, wait)
    {
      hide Inv, Insert, Load;
      ghost var s1 := Alloc(View(), prio, wait).0;
      AllocInv(View(), prio, wait);
      var c := next;
      next := next + 1;
      if freeList != NULL {
        r := Returned(0, freeList);
        held := held[c := freeList];
        freeList := Load(mem, freeList);
        numUsed := numUsed + 1;
        assert View() == s1;
      } else if !wait {
        r := Returned(-ENOMEM, NULL);
        assert View() == s1;
      } else {
        waitq := PriqAdd(waitq, Waiter(c, prio), WaiterPrio);
        r := Blocked;
        assert View() == s1;
      }
    }

    /** k_mem_slab_free() of block `p`, which call `c` was given */
    method FreeBlock(p: Addr, ghost c: CallId)
      requires Inv(View()) && c in held && held[c] == p && numUsed > 0
      modifies this
      ensures Inv(View()) && View() == Free(old(View()), c)
    {
      hide Inv, Load;
      ghost var r := Free(View(), c);
      FreeInv(View(), c);
      if freeList == NULL && waitq != [] {
        held := (held - {c})[waitq[0].call := p];
        waitq := waitq[1..];
        assert View() == r;
        return;
      }
      mem := mem[p := freeList];
      freeList := p;
      numUsed := numUsed - 1;
      held := held - {c};
      assert View() == r;
    }
  }
}
