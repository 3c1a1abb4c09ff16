/**
 The words of struct _thread_base (zephyr/include/kernel/thread.h): the thread
 state bits, and priority and scheduler lock count end to end in one halfword.
 */
module ThreadWords {
  import opened BitWords
  import opened IdList
  import opened SchedSpec

  const PENDING: BitNo := 1
  const PRESTART: BitNo := 2
  const DEAD: BitNo := 3
  const SUSPENDED: BitNo := 4
  const QUEUED: BitNo := 7

  /** _THREAD_DUMMY and the four bits that keep a thread from running */
  const PREVENTED: Word := 0x1F
  const ONLY_SUSPENDED: Word := 0x10

  /** No other bit is ever set: there are no dummy threads here. */
  predicate Clean(f: Word) {
    f & !0x9E == 0
  }

  predicate StateBit(b: BitNo) {
    b == PENDING || b == PRESTART || b == DEAD || b == SUSPENDED || b == QUEUED
  }

  lemma {:induction false} CleanBits(f: Word, b: BitNo)
    requires Clean(f) && StateBit(b)
    ensures Clean(WithBit(f, b)) && Clean(WithoutBit(f, b))
  {
  }

  /** Setting or clearing one state bit leaves the others alone. */
  lemma {:induction false} StateBits(f: Word, b: BitNo)
    requires Clean(f) && StateBit(b)
    ensures Clean(WithBit(f, b)) && Clean(WithoutBit(f, b))
    ensures Bit(WithBit(f, b), b) && !Bit(WithoutBit(f, b), b)
    ensures b != 1 ==> Bit(WithBit(f, b), 1) == Bit(f, 1) == Bit(WithoutBit(f, b), 1)
    ensures b != 2 ==> Bit(WithBit(f, b), 2) == Bit(f, 2) == Bit(WithoutBit(f, b), 2)
    ensures b != 3 ==> Bit(WithBit(f, b), 3) == Bit(f, 3) == Bit(WithoutBit(f, b), 3)
    ensures b != 4 ==> Bit(WithBit(f, b), 4) == Bit(f, 4) == Bit(WithoutBit(f, b), 4)
    ensures b != 7 ==> Bit(WithBit(f, b), 7) == Bit(f, 7) == Bit(WithoutBit(f, b), 7)
  {
    CleanBits(f, b);
    hide Bit, WithBit, WithoutBit, Clean;
    forall j ensures Bit(WithBit(f, b), j) == (b == j || Bit(f, j)) && Bit(WithoutBit(f, b), j) == (b != j && Bit(f, j)) {
      SetBit(f, b, j);
      ClearBit(f, b, j);
    }
  }

  type Byte8 = n: nat | n < 256

  /** int8_t prio */
  function Signed(p: Byte8): int {
    if p < 128 then p else p - 256
  }

  predicate FitsByte(prio: int) {
    -128 <= prio < 128
  }

  function Unsigned(prio: int): Byte8
    requires FitsByte(prio)
  {
    if prio < 0 then prio + 256 else prio
  }

  lemma {:induction false} PrioRoundTrip(prio: int)
    requires FitsByte(prio)
    ensures Signed(Unsigned(prio)) == prio
  {
  }

  /** uint8_t sched_locked counts down from zero. */
  function Depth(locked: Byte8): nat {
    if locked == 0 then 0 else 256 - locked
  }

  function Decremented(b: Byte8): Byte8 {
    if b == 0 then 255 else b - 1
  }

  function Incremented(b: Byte8): Byte8 {
    if b == 255 then 0 else b + 1
  }

  /** k_sched_lock() and k_sched_unlock(), under the kernel's assertions */
  lemma {:induction false} LockCounts(locked: Byte8)
    ensures locked != 1 ==> Depth(Decremented(locked)) == Depth(locked) + 1
    ensures locked != 0 ==> Depth(locked) > 0 && Depth(Incremented(locked)) == Depth(locked) - 1
  {
  }

  /** struct _thread_base */
  datatype KThread = KThread(
    state: Word, prio: Byte8, locked: Byte8, timeout: bool, pendedOn: WaitQ, ret: int, since: nat)

  function ThreadOf(k: KThread): Thread {
    Thread(Signed(k.prio), Depth(k.locked), Bit(k.state, PENDING), Bit(k.state, PRESTART), Bit(k.state, DEAD),
           Bit(k.state, SUSPENDED), Bit(k.state, QUEUED), k.timeout, k.pendedOn, k.ret, k.since)
  }

  function ThreadsOf(m: map<Id, KThread>): map<Id, Thread> {
    map t | t in m :: ThreadOf(m[t])
  }

  /** base.preempt: the lock count above the priority in one halfword */
  function Preempt(k: KThread): nat {
    k.locked * 256 + k.prio
  }

  /** is_preempt() */
  predicate IsPreempt(k: KThread) {
    Preempt(k) <= 0x7F
  }

  /** One comparison of the halfword tells whether the priority is preemptible and
      the scheduler unlocked. */
  lemma {:induction false} PreemptWord(k: KThread)
    ensures IsPreempt(k) <==> Preemptible(ThreadOf(k))
  {
  }

  /** z_is_thread_prevented_from_running() */
  predicate IsPrevented(f: Word) {
    f & PREVENTED != 0
  }

  lemma {:induction false} PreventedWord(k: KThread)
    requires Clean(k.state)
    ensures IsPrevented(k.state) <==> Prevented(ThreadOf(k))
    ensures k.state == ONLY_SUSPENDED <==> OnlySuspended(ThreadOf(k))
  {
  }

  lemma {:induction false} ThreadAt(m: map<Id, KThread>, t: Id)
    ensures t in ThreadsOf(m) <==> t in m
    ensures t in m ==> ThreadsOf(m)[t] == ThreadOf(m[t])
  {
    hide ThreadOf;
  }
}
