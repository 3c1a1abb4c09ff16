/**
 struct k_mutex and the calls of zephyr/kernel/mutex.c on it, proved equal to the
 steps of MutexSpec.
 */
module KMutex {
  import opened IdList
  import opened MutexSpec

  lemma {:induction false} MutexKnown(s: State, t: Id)
    requires Inv(s)
    ensures t in s.base ==> t in s.prio
    ensures s.count != 0 <==> s.owner.Some?
    ensures s.owner.Some? ==> s.owner.value in s.prio
    ensures forall x :: x in s.waiters ==> x in s.prio
    ensures forall x :: x in s.expired ==> x in s.prio
  {
  }

  lemma {:induction false} EnqueueStep(s: State, l: seq<Id>, t: Id, i: nat)
    requires i < |l| && PrioOf(s, l[i]) <= PrioOf(s, t)
    ensures Enqueue(s, l[i..], t) == [l[i]] + Enqueue(s, l[i + 1..], t)
  {
    assert l[i..][1..] == l[i + 1..];
  }

  lemma {:induction false} EnqueueHere(s: State, l: seq<Id>, t: Id, i: nat)
    requires i <= |l| && (i < |l| ==> PrioOf(s, t) < PrioOf(s, l[i]))
    ensures Enqueue(s, l[i..], t) == [t] + l[i..]
  {
  }

  lemma {:induction false} WithoutHere(l: seq<Id>, t: Id, i: nat)
    requires i <= IndexOf(l, t) && i < |l| && l[i] == t
    ensures Without(l, t) == l[..i] + l[i + 1..]
  {
    assert i == IndexOf(l, t);
  }

  class Mutex {
    const ceiling: int
    ghost const base: map<Id, int>
    var prio: map<Id, int>         // the threads' base.prio
    var owner: Option
    var lockCount: nat
    var ownerOrigPrio: int
    var waitq: seq<Id>
    ghost var expired: set<Id>
    ghost var stale: seq<Id>
    ghost var slipped: bool

    ghost function View(): State
      reads this
    {
      State(ceiling, base, prio, owner, lockCount, ownerOrigPrio, waitq, expired, stale, slipped)
    }

    ghost predicate Valid()
      reads this
    {
      Inv(View())
    }

    /** z_impl_k_mutex_init() */
    constructor (limit: int, prios: map<Id, int>)
      ensures Valid() && View() == Initial(limit, prios)
    {
      ceiling, base, prio := limit, prios, prios;
      owner, lockCount, ownerOrigPrio, waitq := None, 0, 0, [];
      expired, stale, slipped := {}, [], false;
      new;
      assert View() == Initial(limit, prios);
    }

    /** adjust_owner_prio() */
    method AdjustOwner(newPrio: int)
      requires owner.Some? && owner.value in prio
      modifies this`prio
      ensures prio == old(prio)[owner.value := newPrio]
    {
      if prio[owner.value] != newPrio {
        prio := prio[owner.value := newPrio];
      }
    }

    /** z_priq_dumb_add() on the wait queue */
    method Pend(t: Id)
      requires t in prio && forall x :: x in waitq ==> x in prio
      modifies this`waitq
      ensures waitq == Enqueue(old(View()), old(waitq), t)
    {
      hide Enqueue;
      var l := waitq;
      ghost var s := View();
      var i := 0;
      while i < |l| && !(prio[t] < prio[l[i]])
        invariant i <= |l| && l[..i] + Enqueue(s, l[i..], t) == Enqueue(s, l, t)
      {
        EnqueueStep(s, l, t, i);
        assert l[..i + 1] == l[..i] + [l[i]];
        i := i + 1;
      }
      EnqueueHere(s, l, t, i);
      waitq := l[..i] + [t] + l[i..];
    }

    /** z_impl_k_mutex_lock() by thread `t`, until it returns or pends */
    method LockBy(t: Id, wait: bool) returns (r: Result)
      requires Valid() && Runs(View(), t)
      modifies this
      ensures Valid() && (View(), r) == Lock(old(View()), t, wait)
    {
      hide Inv, Enqueue;
      ghost var s := View();
      LockKeeps(s, t, wait);
      MutexKnown(s, t);
      if lockCount == 0 || owner == Some(t) {
        if lockCount == 0 {
          ownerOrigPrio := prio[t];
        }
        lockCount, owner := lockCount + 1, Some(t);
        return Returned(0);
      }
      if !wait {
        return Returned(-EBUSY);
      }
      var o := owner.value;
      var best := if prio[t] < prio[o] then prio[t] else prio[o];
      var newPrio := if best >= ceiling then best else ceiling;
      if newPrio < prio[o] {
        AdjustOwner(newPrio);
      }
      Pend(t);
      r := Pending;
    }

    /** The timeout of waiter `t` runs out: z_thread_timeout() takes it off the wait
        queue. */
    method Expires(t: Id)
      requires Valid() && t in waitq
      modifies this
      ensures Valid() && View() == Expire(old(View()), t)
    {
      hide Inv, Without;
      ExpireKeeps(View(), t);
      var l := waitq;
      var i := 0;
      while l[i] != t
        invariant i < |l| && i <= IndexOf(l, t) < |l|
        decreases |l| - i
      {
        i := i + 1;
      }
      assert l[..i] + l[i + 1..] == Without(l, t) by {
        WithoutHere(l, t, i);
      }
      waitq := l[..i] + l[i + 1..];
      expired, stale := expired + {t}, stale + [t];
    }

    /** The end of z_impl_k_mutex_lock() by `t` after its timeout; false when there is
        no owner whose priority could be read, and otherwise what the call returns. */
    method TimedOut(t: Id) returns (found: bool, r: Result)
      requires Valid() && t in expired
      modifies this
      ensures Valid() && found == !Faults(old(View()), DoAdjust(t)) && (found ==> r == Returned(-EAGAIN))
      ensures if found then old(owner).Some? && View() == Adjust(old(View()), t) else View() == old(View())
    {
      hide Inv;
      MutexKnown(View(), t);
      found, r := owner != None, Returned(-EAGAIN);
      if found {
        AdjustKeeps(View(), t);
        var newPrio := ownerOrigPrio;
        if waitq != [] {
          assert waitq[0] in waitq;
          var waiter := prio[waitq[0]];
          var best := if waiter < ownerOrigPrio then waiter else ownerOrigPrio;
          newPrio := if best >= ceiling then best else ceiling;
        }
        AdjustOwner(newPrio);
        expired, stale, slipped := expired - {t}, [], waitq != [] && ownerOrigPrio < ceiling;
      }
    }

    /** z_impl_k_mutex_unlock() by thread `t` */
    method UnlockBy(t: Id) returns (r: Result)
      requires Valid() && Runs(View(), t)
      modifies this
      ensures Valid() && (View(), r) == Unlock(old(View()), t)
    {
      hide Inv;
      UnlockKeeps(View(), t);
      MutexKnown(View(), t);
      if owner == None {
        return Returned(-EINVAL);
      }
      if owner != Some(t) {
        return Returned(-EPERM);
      }
      if lockCount - 1 != 0 {
        lockCount := lockCount - 1;
        return Returned(0);
      }
      AdjustOwner(ownerOrigPrio);
      stale, slipped := [], false;
      if waitq != [] {
        assert waitq[0] in waitq;
        owner, ownerOrigPrio, waitq := Some(waitq[0]), prio[waitq[0]], waitq[1..];
      } else {
        owner, lockCount := None, 0;
      }
      r := Returned(0);
    }
  }
}
