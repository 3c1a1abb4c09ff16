/**
 struct k_mbox and the searches of zephyr/kernel/mailbox.c through its two wait
 queues, proved equal to the steps of MailboxSpec.
 */
module Mailbox {
  import opened MailboxSpec
  import opened MailboxTheorems
  import opened WaitQueue

  /** The search through the receiving queue in mbox_message_put() */
  method SearchRx(q: seq<Rx>, tx: Tx) returns (i: nat)
    ensures i == FindRx(q, tx)
  {
    i := 0;
    while i < |q| && !Compatible(tx, q[i])
      invariant i <= |q| && i + FindRx(q[i..], tx) == FindRx(q, tx)
    {
      assert q[i..][1..] == q[i + 1..];
      i := i + 1;
    }
  }

  /** The search through the sending queue in k_mbox_get() */
  method SearchTx(q: seq<Tx>, rx: Rx) returns (i: nat)
    ensures i == FindTx(q, rx)
  {
    i := 0;
    while i < |q| && !Compatible(q[i], rx)
      invariant i <= |q| && i + FindTx(q[i..], rx) == FindTx(q, rx)
    {
      assert q[i..][1..] == q[i + 1..];
      i := i + 1;
    }
  }

  class KMailbox {
    var txq: seq<Tx>
    var rxq: seq<Rx>
    var open: seq<Match>           // the descriptors whose _syncing_thread is set
    var nextTx: nat
    var nextRx: nat
    ghost var matches: seq<Match>
    ghost var finished: seq<Finished>
    ghost var failedTx: seq<MsgId>
    ghost var failedRx: seq<MsgId>

    ghost function View(): State
      reads this
    {
      State(nextTx, nextRx, txq, rxq, open, matches, finished, failedTx, failedRx)
    }

    ghost predicate Valid()
      reads this
    {
      Inv(View())
    }

    /** k_mbox_init() */
    constructor ()
      ensures Valid() && View() == Initial()
    {
      txq, rxq, open, nextTx, nextRx := [], [], [], 0, 0;
      matches, finished, failedTx, failedRx := [], [], [], [];
    }

    /** mbox_message_put() */
    method MessagePut(tx: Tx, wait: bool) returns (r: Outcome)
      requires Valid() && tx.id == nextTx && |tx.data| == tx.size
      modifies this
      ensures Valid() && (View(), r) == Put(old(View()), tx, wait)
    {
      hide Inv, FindRx, Insert;
      StepKeeps(View(), DoPut(tx, wait));
      nextTx := nextTx + 1;
      var i := SearchRx(rxq, tx);
      if i < |rxq| {
        var rx := rxq[i];
        var m := Match(tx.(target := Only(rx.receiver), info := rx.info),
                       rx.(source := Only(tx.source), info := tx.info,
                           size := if rx.size > tx.size then tx.size else rx.size));
        assert m == MatchOf(tx, rx);
        hide MatchOf, Refuses;
        rxq := rxq[..i] + rxq[i + 1..];
        open, matches := open + [m], matches + [m];
        r := if tx.sync then Blocked else Returned(0);
      } else if !wait {
        failedTx := failedTx + [tx.id];
        r := Returned(-ENOMSG);
      } else {
        txq := PriqAdd(txq, tx, TxPrio);
        r := if tx.sync then Blocked else Returned(0);
      }
    }

    /** k_mbox_get() */
    method MessageGet(rx: Rx, wait: bool) returns (r: Outcome)
      requires Valid() && rx.id == nextRx
      modifies this
      ensures Valid() && (View(), r) == Get(old(View()), rx, wait)
    {
      hide Inv, FindTx, Insert;
      StepKeeps(View(), DoGet(rx, wait));
      nextRx := nextRx + 1;
      var i := SearchTx(txq, rx);
      if i < |txq| {
        var tx := txq[i];
        var m := Match(tx.(target := Only(rx.receiver), info := rx.info),
                       rx.(source := Only(tx.source), info := tx.info,
                           size := if rx.size > tx.size then tx.size else rx.size));
        assert m == MatchOf(tx, rx);
        hide MatchOf, Refuses;
        txq := txq[..i] + txq[i + 1..];
        open, matches := open + [m], matches + [m];
        r := Returned(0);
      } else if !wait {
        failedRx := failedRx + [rx.id];
        r := Returned(-ENOMSG);
      } else {
        rxq := PriqAdd(rxq, rx, RxPrio);
        r := Blocked;
      }
    }

    method Lookup(id: MsgId) returns (k: nat)
      ensures k == FindOpen(open, id)
    {
      k := 0;
      while k < |open| && open[k].rx.id != id
        invariant k <= |open| && k + FindOpen(open[k..], id) == FindOpen(open, id)
      {
        assert open[k..][1..] == open[k + 1..];
        k := k + 1;
      }
    }

    /** mbox_message_dispose() */
    method MessageDispose(id: MsgId, size: nat)
      requires Valid()
      modifies this
      ensures Valid() && View() == Dispose(old(View()), id, size)
    {
      DisposeCounts(View(), id, size);
      DisposeQueues(View(), id, size);
      var k := Lookup(id);
      hide FindOpen;
      if k < |open| {
        finished := finished + [Finished(open[k].tx.id, open[k].tx.sync, size)];
        open := open[..k] + open[k + 1..];
      }
    }

    /** k_mbox_data_get() and mbox_message_data_check() */
    method DataGet(id: MsgId, way: Way) returns (bytes: seq<Byte>)
      requires Valid()
      modifies this
      ensures Valid() && (View(), bytes) == Consume(old(View()), id, way)
    {
      bytes := [];
      var k := Lookup(id);
      hide FindOpen, Inv, Dispose;
      if k < |open| {
        var m := open[k];
        match way
        case IntoBuffer =>
          bytes := m.tx.data[..if m.rx.size < |m.tx.data| then m.rx.size else |m.tx.data|];
          MessageDispose(id, m.rx.size);
        case Discard =>
          MessageDispose(id, 0);
        case Keep =>
          if m.rx.size == 0 {
            MessageDispose(id, 0);
          }
      }
    }
  }
}
