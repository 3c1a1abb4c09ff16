/**
 What each call on a mailbox answers and does, and whose messages meet whose
 receives over a whole run.
 */
module MailboxOutcomes {
  import opened MailboxSpec
  import opened MailboxTheorems
  import opened WaitQueue

  /** What the two parties of a match hold: each knows the other and has the other's
      information word, and the receiver is told the smaller of the two sizes. */
  predicate Joins(m: Match, tx: Tx, rx: Rx) {
    && m.tx == tx.(target := Only(rx.receiver), info := rx.info)
    && m.rx == rx.(source := Only(tx.source), info := tx.info, size := m.rx.size)
    && m.rx.size <= rx.size && m.rx.size <= tx.size && (m.rx.size == rx.size || m.rx.size == tx.size)
  }

  /** A send meets the first waiting receiver that it fits and that fits it. With none
      it fails at once, or waits. A synchronous sender is held either way; an
      asynchronous one goes on. */
  lemma {:induction false} PutLaw(s: State, tx: Tx, wait: bool, k: nat)
    requires k <= |s.rxq| && forall i :: 0 <= i < k ==> Refuses(tx, s.rxq[i])
    requires k < |s.rxq| ==> (tx.target == Any || tx.target == Only(s.rxq[k].receiver))
                             && (s.rxq[k].source == Any || s.rxq[k].source == Only(tx.source))
    ensures var (s1, r) := Put(s, tx, wait);
            var s0 := s.(nextTx := s.nextTx + 1);
            && (k < |s.rxq| ==>
                  && r == (if tx.sync then Blocked else Returned(0)) && |s1.matches| == |s.matches| + 1
                  && Joins(s1.matches[|s.matches|], tx, s.rxq[k])
                  && s1 == s0.(rxq := s.rxq[..k] + s.rxq[k + 1..], open := s.open + [s1.matches[|s.matches|]],
                               matches := s.matches + [s1.matches[|s.matches|]]))
            && (k == |s.rxq| && !wait ==> r == Returned(-35) && s1 == s0.(failedTx := s.failedTx + [tx.id]))
            && (k == |s.rxq| && wait ==>
                  r == (if tx.sync then Blocked else Returned(0)) && s1 == s0.(txq := Insert(s.txq, tx, TxPrio)))
  {
    assert FindRx(s.rxq, tx) == k;
    hide FindRx, Insert;
  }

  /** A receive meets the first waiting sender that it fits and that fits it. */
  lemma {:induction false} GetLaw(s: State, rx: Rx, wait: bool, k: nat)
    requires k <= |s.txq| && forall i :: 0 <= i < k ==> Refuses(s.txq[i], rx)
    requires k < |s.txq| ==> (s.txq[k].target == Any || s.txq[k].target == Only(rx.receiver))
                             && (rx.source == Any || rx.source == Only(s.txq[k].source))
    ensures var (s1, r) := Get(s, rx, wait);
            var s0 := s.(nextRx := s.nextRx + 1);
            && (k < |s.txq| ==>
                  && r == Returned(0) && |s1.matches| == |s.matches| + 1
                  && Joins(s1.matches[|s.matches|], s.txq[k], rx)
                  && s1 == s0.(txq := s.txq[..k] + s.txq[k + 1..], open := s.open + [s1.matches[|s.matches|]],
                               matches := s.matches + [s1.matches[|s.matches|]]))
            && (k == |s.txq| && !wait ==> r == Returned(-35) && s1 == s0.(failedRx := s.failedRx + [rx.id]))
            && (k == |s.txq| && wait ==> r == Blocked && s1 == s0.(rxq := Insert(s.rxq, rx, RxPrio)))
  {
    assert FindTx(s.txq, rx) == k;
    hide FindTx, Insert;
  }

  /** A timeout takes one waiter off its queue, as failed. */
  lemma {:induction false} ExpireLaw(s: State, i: nat)
    ensures i < |s.txq| ==>
              ExpireTx(s, i) == s.(txq := s.txq[..i] + s.txq[i + 1..], failedTx := s.failedTx + [s.txq[i].id])
    ensures i < |s.rxq| ==>
              ExpireRx(s, i) == s.(rxq := s.rxq[..i] + s.rxq[i + 1..], failedRx := s.failedRx + [s.rxq[i].id])
  {
  }

  /** Discarding a message tells its sender that nothing was received; keeping it for
      later leaves it open, unless there is nothing to keep; and a receive that holds
      no message does nothing. */
  lemma {:induction false} DiscardLaw(s: State, k: nat)
    requires Inv(s) && k < |s.open|
    ensures var m := s.open[k];
            var gone := s.(open := s.open[..k] + s.open[k + 1..], finished := s.finished + [Finished(m.tx.id, m.tx.sync, 0)]);
            && Consume(s, m.rx.id, Discard) == (gone, [])
            && Consume(s, m.rx.id, Keep) == (if m.rx.size == 0 then gone else s, [])
  {
    OpenUnique(s, k);
    hide FindOpen, Inv;
  }

  lemma {:induction false} NothingHeld(s: State, id: MsgId, way: Way)
    requires forall i :: 0 <= i < |s.open| ==> s.open[i].rx.id != id
    ensures Consume(s, id, way) == (s, [])
  {
  }

  // ---- over a run ------------------------------------------------------------------------

  predicate Sent(tx: Tx, ops: seq<Op>) {
    DoPut(tx, true) in ops || DoPut(tx, false) in ops
  }

  predicate Asked(rx: Rx, ops: seq<Op>) {
    DoGet(rx, true) in ops || DoGet(rx, false) in ops
  }

  /** The match joins a send and a receive of the run, as they were given; the sender
      named that receiver or nobody, and the receiver that sender or nobody. */
  ghost predicate Met(m: Match, ops: seq<Op>) {
    exists tx, rx :: Sent(tx, ops) && Asked(rx, ops) && Fits(m, tx, rx)
  }

  predicate Fits(m: Match, tx: Tx, rx: Rx) {
    && Joins(m, tx, rx)
    && (tx.target == Any || tx.target == Only(rx.receiver))
    && (rx.source == Any || rx.source == Only(tx.source))
  }

  ghost predicate Given(s: State, ops: seq<Op>) {
    && (forall t :: t in s.txq ==> Sent(t, ops))
    && (forall r :: r in s.rxq ==> Asked(r, ops))
    && (forall m :: m in s.matches ==> Met(m, ops))
  }

  lemma {:induction false} Inserted<T>(l: seq<T>, x: T, prio: T -> int, y: T)
    requires y in Insert(l, x, prio)
    ensures y in l || y == x
  {
    if l != [] && !(prio(x) < prio(l[0])) && y != l[0] {
      Inserted(l[1..], x, prio, y);
    }
  }

  lemma {:induction false} MetBy(m: Match, tx: Tx, rx: Rx, ops: seq<Op>)
    requires Sent(tx, ops) && Asked(rx, ops) && Fits(m, tx, rx)
    ensures Met(m, ops)
  {
  }

  lemma {:induction false} PutGiven(s: State, ops: seq<Op>, tx: Tx, wait: bool)
    requires Given(s, ops) && DoPut(tx, wait) in ops
    ensures Given(Put(s, tx, wait).0, ops)
  {
    var k, s1 := FindRx(s.rxq, tx), Put(s, tx, wait).0;
    PutLaw(s, tx, wait, k);
    hide FindRx, Insert, Put, Met;
    if k < |s.rxq| {
      assert s.rxq[k] in s.rxq;
      MetBy(s1.matches[|s.matches|], tx, s.rxq[k], ops);
      hide Joins, Refuses;
    } else if wait {
      forall t | t in s1.txq ensures Sent(t, ops) {
        Inserted(s.txq, tx, TxPrio, t);
      }
    }
  }

  lemma {:induction false} GetGiven(s: State, ops: seq<Op>, rx: Rx, wait: bool)
    requires Given(s, ops) && DoGet(rx, wait) in ops
    ensures Given(Get(s, rx, wait).0, ops)
  {
    var k, s1 := FindTx(s.txq, rx), Get(s, rx, wait).0;
    GetLaw(s, rx, wait, k);
    hide FindTx, Insert, Get, Met;
    if k < |s.txq| {
      assert s.txq[k] in s.txq;
      MetBy(s1.matches[|s.matches|], s.txq[k], rx, ops);
      hide Joins, Refuses;
    } else if wait {
      forall r | r in s1.rxq ensures Asked(r, ops) {
        Inserted(s.rxq, rx, RxPrio, r);
      }
    }
  }

  lemma {:induction false} StepGiven(s: State, ops: seq<Op>, op: Op)
    requires Given(s, ops) && Enabled(s, op) && op in ops
    ensures Given(Step(s, op), ops)
  {
    hide Put, Get, Met, Sent, Asked;
    match op
    case DoPut(tx, wait) => PutGiven(s, ops, tx, wait);
    case DoGet(rx, wait) => GetGiven(s, ops, rx, wait);
    case DoExpireTx(i) =>
    case DoExpireRx(i) =>
    case DoConsume(id, way) =>
  }

  lemma {:induction false} RunGiven(s: State, ops: seq<Op>, all: seq<Op>)
    requires Given(s, all) && CanRun(s, ops) && forall op :: op in ops ==> op in all
    ensures Given(Run(s, ops), all)
    decreases |ops|
  {
    hide Given, Step, Enabled;
    if ops == [] {
    } else {
      assert ops[0] in ops && forall op :: op in ops[1..] ==> op in ops;
      StepGiven(s, all, ops[0]);
      RunGiven(Step(s, ops[0]), ops[1..], all);
    }
  }

  /** Over every run: every match ever made joins one send and one receive that were
      made, whose descriptors as given name each other, or anybody. */
  lemma {:induction false} MatchLaw(ops: seq<Op>, m: Match) returns (tx: Tx, rx: Rx)
    requires CanRun(Initial(), ops) && m in Run(Initial(), ops).matches
    ensures Sent(tx, ops) && Asked(rx, ops) && Joins(m, tx, rx)
    ensures tx.target == Any || tx.target == Only(rx.receiver)
    ensures rx.source == Any || rx.source == Only(tx.source)
  {
    RunGiven(Initial(), ops, ops);
    hide Run, CanRun, Joins;
    assert Met(m, ops);
    tx, rx :| Sent(tx, ops) && Asked(rx, ops) && Fits(m, tx, rx);
  }
}
