/**
 The flag words of work items and work queues (zephyr/include/kernel.h), and how
 the kernel's structures are read as the records of WorkSpec.
 */
module WorkWords {
  import opened BitWords
  import opened WorkSpec
  import opened WorkRuns

  const RUNNING: BitNo := 0
  const CANCELING: BitNo := 1
  const QUEUED: BitNo := 2
  const DELAYED: BitNo := 3
  const WORK_MASK: Word := 0xF

  const STARTED: BitNo := 0
  const BUSY: BitNo := 1
  const DRAIN: BitNo := 2
  const PLUGGED: BitNo := 3

  /** Setting or clearing one flag leaves the other three alone. */
  lemma {:induction false} Flags(f: Word, b: BitNo)
    ensures Bit(WithBit(f, b), b) && !Bit(WithoutBit(f, b), b)
    ensures b != 0 ==> Bit(WithBit(f, b), 0) == Bit(f, 0) == Bit(WithoutBit(f, b), 0)
    ensures b != 1 ==> Bit(WithBit(f, b), 1) == Bit(f, 1) == Bit(WithoutBit(f, b), 1)
    ensures b != 2 ==> Bit(WithBit(f, b), 2) == Bit(f, 2) == Bit(WithoutBit(f, b), 2)
    ensures b != 3 ==> Bit(WithBit(f, b), 3) == Bit(f, 3) == Bit(WithoutBit(f, b), 3)
  {
    hide Bit, WithBit, WithoutBit;
    forall j ensures Bit(WithBit(f, b), j) == (b == j || Bit(f, j)) && Bit(WithoutBit(f, b), j) == (b != j && Bit(f, j)) {
      SetBit(f, b, j);
      ClearBit(f, b, j);
    }
  }

  /** struct k_work and k_work_delayable, with what happened to its submissions. */
  datatype KWork = KWork(
    flags: Word, queue: Option<QueueId>, timerQueue: Option<QueueId>, armed: bool,
    role: Role, fates: seq<Fate>, executing: nat)

  /** struct k_work_q */
  datatype KQueue = KQueue(flags: Word, pending: seq<WorkId>, worker: Worker, drainq: seq<ThreadId>)

  function WorkOf(k: KWork): Work {
    Work(k.role, Bit(k.flags, RUNNING), Bit(k.flags, CANCELING), Bit(k.flags, QUEUED), Bit(k.flags, DELAYED),
         k.queue, k.timerQueue, k.armed, k.fates, k.executing)
  }

  function QueueOf(k: KQueue): Queue {
    Queue(Bit(k.flags, STARTED), Bit(k.flags, BUSY), Bit(k.flags, DRAIN), Bit(k.flags, PLUGGED),
          k.pending, k.worker, k.drainq)
  }

  function WorksOf(m: map<WorkId, KWork>): map<WorkId, Work> {
    map w | w in m :: WorkOf(m[w])
  }

  function QueuesOf(m: map<QueueId, KQueue>): map<QueueId, Queue> {
    map q | q in m :: QueueOf(m[q])
  }

  lemma {:induction false} WorkAt(m: map<WorkId, KWork>, w: WorkId)
    ensures w in WorksOf(m) <==> w in m
    ensures w in m ==> WorksOf(m)[w] == WorkOf(m[w])
  {
    hide WorkOf;
  }

  lemma {:induction false} QueueAt(m: map<QueueId, KQueue>, q: QueueId)
    ensures q in QueuesOf(m) <==> q in m
    ensures q in m ==> QueuesOf(m)[q] == QueueOf(m[q])
  {
    hide QueueOf;
  }

  /** Changing one flag of the word changes one field of the record. */
  lemma {:induction false} WorkFlags(k: KWork)
    ensures WorkOf(k.(flags := WithBit(k.flags, RUNNING))) == WorkOf(k).(running := true)
    ensures WorkOf(k.(flags := WithoutBit(k.flags, RUNNING))) == WorkOf(k).(running := false)
    ensures WorkOf(k.(flags := WithBit(k.flags, CANCELING))) == WorkOf(k).(canceling := true)
    ensures WorkOf(k.(flags := WithoutBit(k.flags, CANCELING))) == WorkOf(k).(canceling := false)
    ensures WorkOf(k.(flags := WithBit(k.flags, QUEUED))) == WorkOf(k).(queued := true)
    ensures WorkOf(k.(flags := WithoutBit(k.flags, QUEUED))) == WorkOf(k).(queued := false)
    ensures WorkOf(k.(flags := WithBit(k.flags, DELAYED))) == WorkOf(k).(delayed := true)
    ensures WorkOf(k.(flags := WithoutBit(k.flags, DELAYED))) == WorkOf(k).(delayed := false)
  {
    hide Bit, WithBit, WithoutBit;
    Flags(k.flags, RUNNING);
    Flags(k.flags, CANCELING);
    Flags(k.flags, QUEUED);
    Flags(k.flags, DELAYED);
  }

  lemma {:induction false} QueueFlags(k: KQueue)
    ensures QueueOf(k.(flags := WithBit(k.flags, BUSY))) == QueueOf(k).(busy := true)
    ensures QueueOf(k.(flags := WithoutBit(k.flags, BUSY))) == QueueOf(k).(busy := false)
    ensures QueueOf(k.(flags := WithBit(k.flags, DRAIN))) == QueueOf(k).(draining := true)
    ensures QueueOf(k.(flags := WithoutBit(k.flags, DRAIN))) == QueueOf(k).(draining := false)
    ensures QueueOf(k.(flags := WithBit(k.flags, PLUGGED))) == QueueOf(k).(plugged := true)
    ensures QueueOf(k.(flags := WithoutBit(k.flags, PLUGGED))) == QueueOf(k).(plugged := false)
  {
    hide Bit, WithBit, WithoutBit;
    Flags(k.flags, BUSY);
    Flags(k.flags, DRAIN);
    Flags(k.flags, PLUGGED);
  }

  /** work_busy_get_locked() */
  function BusyGet(f: Word): nat {
    (f & WORK_MASK) as nat
  }

  /** It reads the four flags as a number. */
  lemma {:induction false} BusyWord(k: KWork)
    ensures BusyGet(k.flags) == BusyCode(WorkOf(k))
    ensures BusyGet(k.flags) != 0 <==> IsBusy(WorkOf(k))
  {
    var f := k.flags;
    var r: Word := if Bit(f, 0) then 1 else 0;
    var c: Word := if Bit(f, 1) then 2 else 0;
    var q: Word := if Bit(f, 2) then 4 else 0;
    var d: Word := if Bit(f, 3) then 8 else 0;
    assert f & 0xF == r + c + q + d;
  }

  const FLUSH_MASK: Word := (1 << QUEUED) | (1 << RUNNING)
  const DRAIN_MASK: Word := (1 << BUSY) | (1 << DRAIN)

  predicate AnyOf(f: Word, mask: Word) {
    f & mask != 0
  }

  /** A mask tests two flags at once. */
  lemma {:induction false} TwoFlags(f: Word)
    ensures AnyOf(f, FLUSH_MASK) <==> Bit(f, QUEUED) || Bit(f, RUNNING)
    ensures AnyOf(f, DRAIN_MASK) <==> Bit(f, BUSY) || Bit(f, DRAIN)
  {
  }

  /** k_work_queue_start() sets the whole word. */
  lemma {:induction false} StartWord()
    ensures var f: Word := 1 << STARTED;
            Bit(f, STARTED) && !Bit(f, BUSY) && !Bit(f, DRAIN) && !Bit(f, PLUGGED)
  {
  }

  /** k_work_init() clears it. */
  lemma {:induction false} ClearWord(role: Role)
    ensures WorkOf(KWork(0, None, None, false, role, [], 0)) == NewWork(role)
  {
  }
}
