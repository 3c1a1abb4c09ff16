/**
 What holds of every run of the mutex, and exactly where priority inheritance
 goes wrong.
 */
module MutexTheorems {
  import opened IdList
  import opened MutexSpec

  /** Priority inheritance, over every run: who owns the mutex, and at which
      priority. The owner's own priority may be above the ceiling; if it is not,
      the owner never runs below itself or a waiter, and exactly at the best of
      them once nobody who has timed out is still to run. */
  lemma {:induction false} InheritanceLaw(ceiling: int, base: map<Id, int>, ops: seq<Op>)
    requires CanRun(Initial(ceiling, base), ops)
    ensures var s := Run(Initial(ceiling, base), ops);
            && (s.owner == None <==> s.count == 0)
            && (s.waiters != [] ==> s.owner.Some?)
            && (forall t :: t in s.base && s.owner != Some(t) ==> PrioOf(s, t) == s.base[t])
            && (s.owner.Some? ==>
                  var o := s.owner.value;
                  && o in s.base && s.orig == s.base[o] && PrioOf(s, o) == Actual(s)
                  && (s.orig >= s.ceiling ==>
                        && PrioOf(s, o) <= s.orig
                        && (forall w :: w in s.waiters ==> PrioOf(s, o) <= PrioOf(s, w) || PrioOf(s, o) <= s.ceiling)
                        && (s.expired == {} ==>
                              && (PrioOf(s, o) == s.orig || exists w :: w in s.waiters && PrioOf(s, o) >= PrioOf(s, w))
                              && (PrioOf(s, o) == s.orig || PrioOf(s, o) >= s.ceiling)
                              && PrioOf(s, o) == Target(s)))
                  && (s.orig < s.ceiling ==> PrioOf(s, o) == if s.slipped then s.ceiling else s.orig))
  {
    var s := Run(Initial(ceiling, base), ops);
    hide Run, CanRun;
    if s.owner.Some? {
      BestIs(s, s.stale, Target(s));
      hide Best;
      forall w | w in s.waiters ensures Target(s) <= Cap(s, PrioOf(s, w)) {
        var i :| 0 <= i < |s.waiters| && s.waiters[i] == w;
        assert i > 0 ==> PrioOf(s, s.waiters[0]) <= PrioOf(s, s.waiters[i]);
      }
      if s.orig < s.ceiling {
        AboveCeiling(s, s.stale, Target(s));
      }
    }
  }

  lemma {:induction false} AboveCeiling(s: State, l: seq<Id>, p: int)
    requires p <= s.ceiling
    ensures Best(s, l, p) == p
  {
    if l == [] {
    } else {
      AboveCeiling(s, l[1..], p);
    }
  }

  /** The owner has the priority it should have exactly when the last recomputation
      has not put it below its own, and nobody who has timed out since would lift
      it higher. */
  lemma {:induction false} ExactlyTarget(ceiling: int, base: map<Id, int>, ops: seq<Op>)
    requires CanRun(Initial(ceiling, base), ops)
    ensures var s := Run(Initial(ceiling, base), ops);
            s.owner.Some? ==>
              (PrioOf(s, s.owner.value) == Target(s) <==>
                 !s.slipped && forall x :: x in s.stale ==> Target(s) <= Cap(s, PrioOf(s, x)))
  {
    var s := Run(Initial(ceiling, base), ops);
    hide Run, CanRun;
    BestIs(s, s.stale, Target(s));
  }

  /** Who waits goes behind everybody of its own or a higher priority, and in front of
      everybody of a lower one. */
  lemma {:induction false} EnqueueBehind(s: State, l: seq<Id>, t: Id) returns (k: nat)
    requires Sorted(s, l)
    ensures k <= |l| && Enqueue(s, l, t) == l[..k] + [t] + l[k..]
    ensures forall i :: 0 <= i < k ==> PrioOf(s, l[i]) <= PrioOf(s, t)
    ensures forall i :: k <= i < |l| ==> PrioOf(s, t) < PrioOf(s, l[i])
  {
    if l == [] || PrioOf(s, t) < PrioOf(s, l[0]) {
      k := 0;
    } else {
      var j := EnqueueBehind(s, l[1..], t);
      k := j + 1;
      assert l == [l[0]] + l[1..] && l[..k] == [l[0]] + l[1..][..j];
    }
  }

  /** Locking: a free mutex is taken; somebody else's is refused at once, or waited
      for. */
  lemma {:induction false} LockLaw(s: State, t: Id, wait: bool)
    requires Inv(s) && Runs(s, t) && s.owner != Some(t)
    ensures var (r, code) := Lock(s, t, wait);
            && (s.owner == None ==> code == Returned(0) && r == s.(owner := Some(t), count := 1, orig := s.base[t]))
            && (s.owner.Some? && !wait ==> (r, code) == (s, Returned(-16)))
            && (s.owner.Some? && wait ==>
                  && code == Pending && r == s.(prio := r.prio, waiters := Enqueue(s, s.waiters, t)))
  {
    if s.owner.Some? && wait {
      PendPrios(s, t);
    }
    hide Enqueue, ListsOk, Best;
  }

  /** Unlocking: only the owner can, and until it has unlocked as often as it has locked
      only the count changes. */
  lemma {:induction false} UnlockLaw(s: State, t: Id)
    requires Inv(s) && Runs(s, t)
    ensures var (r, code) := Unlock(s, t);
            && (code == Returned(-22) <==> s.owner == None)
            && (code == Returned(-1) <==> s.owner.Some? && s.owner != Some(t))
            && (code == Returned(0) <==> s.owner == Some(t))
            && (s.owner != Some(t) ==> r == s)
            && (s.owner == Some(t) && s.count > 1 ==> r == s.(count := s.count - 1))
  {
    hide ListsOk, PriosOk;
  }

  lemma {:induction false} OwnerStays(s: State, op: Op, o: Id)
    requires Inv(s) && Enabled(s, op) && !Faults(s, op) && s.owner == Some(o) && op != DoUnlock(o)
    ensures Step(s, op).owner == Some(o) && Step(s, op).count >= s.count
  {
    hide Enqueue, Without, ListsOk, PriosOk;
  }

  /** Mutual exclusion, over every run: until it unlocks, the owner stays the owner,
      whoever else locks, unlocks or times out. */
  lemma {:induction false} OwnerKeeps(s: State, ops: seq<Op>, o: Id)
    requires Inv(s) && CanRun(s, ops) && s.owner == Some(o) && DoUnlock(o) !in ops
    ensures var r := Run(s, ops); r.owner == Some(o) && r.count >= s.count
    decreases |ops|
  {
    if ops == [] {
    } else {
      StepKeeps(s, ops[0]);
      OwnerStays(s, ops[0], o);
      assert ops[0] in ops && forall op :: op in ops[1..] ==> op in ops;
      hide Inv, Step, Enabled, Faults;
      OwnerKeeps(Step(s, ops[0]), ops[1..], o);
    }
  }

  /** The final unlock gives the owner its own priority back, and the mutex to the
      waiter in front, if any. */
  lemma {:induction false} FinalUnlock(s: State, t: Id)
    requires Inv(s) && Runs(s, t) && s.owner == Some(t) && s.count == 1
    ensures var (r, code) := Unlock(s, t);
            && code == Returned(0) && PrioOf(r, t) == s.base[t]
            && (forall x :: x != t ==> PrioOf(r, x) == PrioOf(s, x)) && r.expired == s.expired
            && (if s.waiters == [] then r.owner == None && r.count == 0
                else && r.owner == Some(s.waiters[0]) && r.count == 1 && r.waiters == s.waiters[1..]
                     && PrioOf(r, s.waiters[0]) == s.base[s.waiters[0]] == r.orig)
  {
    UnlockKeeps(s, t);
    assert s.waiters != [] ==> s.waiters[0] in s.waiters;
  }

  /** A recursive lock and its unlock cancel out. */
  lemma {:induction false} RecursiveLock(s: State, t: Id, wait: bool)
    requires Inv(s) && Runs(s, t) && s.owner == Some(t)
    ensures var (s1, code) := Lock(s, t, wait);
            && code == Returned(0) && s1.count == s.count + 1
            && Unlock(s1, t) == (s, Returned(0))
  {
  }

  // ---- a timed out waiter that finds no owner ----------------------------------------------

  /** The step is an unlock that leaves the mutex without an owner. */
  predicate Frees(s: State, op: Op) {
    op.DoUnlock? && s.owner == Some(op.thread) && s.count == 1 && s.waiters == []
  }

  predicate NoLock(ops: seq<Op>) {
    forall i :: 0 <= i < |ops| ==> !ops[i].DoLock?
  }

  /** Some step of the run frees the mutex, and no lock follows it. */
  ghost predicate LeftFree(s: State, ops: seq<Op>)
    requires Inv(s) && CanRun(s, ops)
    decreases |ops|
  {
    ops != [] &&
    ((Frees(s, ops[0]) && NoLock(ops[1..])) || (StepKeeps(s, ops[0]); LeftFree(Step(s, ops[0]), ops[1..])))
  }

  lemma {:induction false} OwnerStep(s: State, op: Op)
    requires Inv(s) && Enabled(s, op) && !Faults(s, op)
    ensures Step(s, op).owner == None <==> Frees(s, op) || (s.owner == None && !op.DoLock?)
    ensures forall t :: t in s.expired && op != DoAdjust(t) ==> t in Step(s, op).expired
  {
    hide Enqueue, Without, ListsOk, PriosOk;
  }

  /** The mutex has no owner exactly when it was left free. */
  lemma {:induction false} FreeExactly(s: State, ops: seq<Op>)
    requires Inv(s) && CanRun(s, ops)
    ensures Run(s, ops).owner == None <==> LeftFree(s, ops) || (s.owner == None && NoLock(ops))
    decreases |ops|
  {
    if ops == [] {
    } else {
      StepKeeps(s, ops[0]);
      OwnerStep(s, ops[0]);
      hide Inv, Step, Frees, Enabled, Faults;
      FreeExactly(Step(s, ops[0]), ops[1..]);
      assert NoLock(ops) <==> !ops[0].DoLock? && NoLock(ops[1..]) by {
        assert forall i :: 0 < i < |ops| ==> ops[i] == ops[1..][i - 1];
        assert forall i :: 0 <= i < |ops[1..]| ==> ops[1..][i] == ops[i + 1];
      }
    }
  }

  lemma {:induction false} StaysExpired(s: State, ops: seq<Op>, t: Id)
    requires Inv(s) && CanRun(s, ops) && t in s.expired && DoAdjust(t) !in ops
    ensures t in Run(s, ops).expired
    decreases |ops|
  {
    if ops == [] {
    } else {
      StepKeeps(s, ops[0]);
      OwnerStep(s, ops[0]);
      assert ops[0] in ops && forall op :: op in ops[1..] ==> op in ops;
      hide Inv, Step, Enabled, Faults;
      StaysExpired(Step(s, ops[0]), ops[1..], t);
    }
  }

  /** After its timeout a waiter finds no owner to adjust exactly when an unlock has
      left the mutex free in the meantime and nobody has locked it since. */
  lemma {:induction false} FaultsExactly(s: State, ops: seq<Op>, t: Id)
    requires Inv(s) && CanRun(s, ops) && ops != [] && ops[0] == DoExpire(t) && DoAdjust(t) !in ops
    ensures var r := Run(s, ops);
            Enabled(r, DoAdjust(t)) && (Faults(r, DoAdjust(t)) <==> LeftFree(s, ops))
  {
    FreeExactly(s, ops);
    assert s.owner.Some?;
    StepKeeps(s, ops[0]);
    assert t in Step(s, ops[0]).expired && forall op :: op in ops[1..] ==> op in ops;
    hide Inv, Step, LeftFree;
    StaysExpired(Step(s, ops[0]), ops[1..], t);
  }

  // ---- timeouts that are acted on at once -----------------------------------------------------

  /** Every step up to the first fault is enabled. */
  ghost predicate Tried(s: State, ops: seq<Op>)
    requires Inv(s)
    decreases |ops|
  {
    ops == []
    || (Enabled(s, ops[0]) && (!Faults(s, ops[0]) ==> (StepKeeps(s, ops[0]); Tried(Step(s, ops[0]), ops[1..]))))
  }

  /** Whoever times out adjusts the owner's priority before anything else happens. */
  predicate Prompt(ops: seq<Op>) {
    ops == []
    || (!ops[0].DoExpire? && !ops[0].DoAdjust? && Prompt(ops[1..]))
    || (|ops| > 1 && ops[0].DoExpire? && ops[1] == DoAdjust(ops[0].thread) && Prompt(ops[2..]))
  }

  lemma {:induction false} QuietStep(s: State, op: Op)
    requires Inv(s) && s.expired == {} && Enabled(s, op) && !op.DoExpire?
    ensures !Faults(s, op) && Step(s, op).expired == {}
  {
    hide Enqueue, Without, ListsOk, PriosOk;
  }

  lemma {:induction false} PromptPair(s: State, t: Id)
    requires Inv(s) && s.expired == {} && t in s.waiters
    ensures var s1 := Expire(s, t);
            && Inv(s1) && s1.owner.Some? && t in s1.expired && Inv(Adjust(s1, t)) && Adjust(s1, t).expired == {}
  {
    ExpireKeeps(s, t);
    hide Inv;
    AdjustKeeps(Expire(s, t), t);
  }

  /** A run in which every timeout is acted on at once never finds the owner gone,
      and leaves the owner with the priority it should have, unless its own is
      above the ceiling. */
  lemma {:induction false} PromptLaw(s: State, ops: seq<Op>)
    requires Inv(s) && s.expired == {} && Tried(s, ops) && Prompt(ops)
    ensures CanRun(s, ops)
    ensures var r := Run(s, ops);
            && r.expired == {}
            && (r.owner.Some? && r.orig >= r.ceiling ==> PrioOf(r, r.owner.value) == Target(r))
    decreases |ops|
  {
    if ops == [] {
      BestIs(s, s.stale, Target(s));
    } else if ops[0].DoExpire? {
      var t := ops[0].thread;
      PromptPair(s, t);
      assert ops[1..][1..] == ops[2..] && ops[1..][0] == ops[1];
      var s1 := Expire(s, t);
      assert Step(s, ops[0]) == s1 && Step(s1, ops[1]) == Adjust(s1, t) && !Faults(s1, ops[1]);
      hide Inv, Step, Expire, Adjust, Faults;
      PromptLaw(Adjust(s1, t), ops[2..]);
    } else {
      QuietStep(s, ops[0]);
      StepKeeps(s, ops[0]);
      hide Inv, Step, Enabled, Faults;
      PromptLaw(Step(s, ops[0]), ops[1..]);
    }
  }

  // ---- runs in which things go wrong ------------------------------------------------------------

  /** Step by step through a list of states. */
  lemma {:induction false} Trace(states: seq<State>, ops: seq<Op>)
    requires |states| == |ops| + 1 && Inv(states[0])
    requires forall i :: 0 <= i < |ops| ==> OwnerOk(states[i]) && Leads(states[i], ops[i], states[i + 1])
    ensures CanRun(states[0], ops) && Run(states[0], ops) == states[|ops|]
    decreases |ops|
  {
    hide Inv, OwnerOk, Leads;
    if ops == [] {
    } else {
      assert OwnerOk(states[0]) && Leads(states[0], ops[0], states[1]);
      LeadsOn(states[0], ops[0], states[1]);
      assert forall i :: 0 <= i < |ops[1..]| ==> ops[1..][i] == ops[i + 1];
      assert forall i :: 0 <= i < |states[1..]| ==> states[1..][i] == states[i + 1];
      forall i | 0 <= i < |ops[1..]| ensures OwnerOk(states[1..][i]) && Leads(states[1..][i], ops[1..][i], states[1..][i + 1]) {
        assert OwnerOk(states[i + 1]) && Leads(states[i + 1], ops[i + 1], states[i + 2]);
      }
      Trace(states[1..], ops[1..]);
    }
  }

  predicate Leads(s: State, op: Op, s1: State)
    requires OwnerOk(s)
  {
    Enabled(s, op) && !Faults(s, op) && Step(s, op) == s1
  }

  lemma {:induction false} LeadsOn(s: State, op: Op, s1: State)
    requires Inv(s) && Leads(s, op, s1)
    ensures Enabled(s, op) && !Faults(s, op) && Step(s, op) == s1 && Inv(s1)
  {
    hide Inv;
    StepKeeps(s, op);
  }

  const FREED: seq<Op> := [DoLock(0, true), DoLock(1, true), DoExpire(1), DoUnlock(0)]

  function FreedState(i: nat): State {
    var s0 := Initial(-127, map[0 := 5, 1 := 3]);
    var s1 := s0.(orig := 5, count := 1, owner := Some(0));
    var s2 := s1.(prio := map[0 := 3, 1 := 3], waiters := [1]);
    var s3 := s2.(waiters := [], expired := {1}, stale := [1]);
    if i == 0 then s0 else if i == 1 then s1 else if i == 2 then s2 else if i == 3 then s3
    else s3.(prio := map[0 := 5, 1 := 3], owner := None, count := 0, stale := [])
  }

  lemma {:induction false} FreedStep(i: nat)
    requires i < 4
    ensures OwnerOk(FreedState(i)) && Leads(FreedState(i), FREED[i], FreedState(i + 1))
  {
    hide Inv, Best;
  }

  /** The owner unlocks after the only waiter's timeout and before that waiter runs. */
  lemma {:induction false} FaultReachable()
    ensures CanRun(Initial(-127, map[0 := 5, 1 := 3]), FREED)
    ensures var s := Run(Initial(-127, map[0 := 5, 1 := 3]), FREED);
            Enabled(s, DoAdjust(1)) && Faults(s, DoAdjust(1))
  {
    var states := seq(5, i requires 0 <= i < 5 => FreedState(i));
    assert states[0] == Initial(-127, map[0 := 5, 1 := 3]) && Faults(states[4], DoAdjust(1));
    hide Inv, Leads, CanRun, Run, FreedState, OwnerOk;
    forall i | 0 <= i < 4 ensures OwnerOk(states[i]) && Leads(states[i], FREED[i], states[i + 1]) {
      FreedStep(i);
    }
    Trace(states, FREED);
  }

  const SLIP: seq<Op> := [DoLock(0, true), DoLock(1, true), DoLock(2, true), DoExpire(2), DoAdjust(2)]

  function SlipState(i: nat): State {
    var s0 := Initial(0, map[0 := -2, 1 := 4, 2 := 4]);
    var s1 := s0.(orig := -2, count := 1, owner := Some(0));
    var s2 := s1.(waiters := [1]);
    if i == 0 then s0 else if i == 1 then s1 else if i == 2 then s2
    else if i == 3 then s1.(waiters := [1, 2])
    else if i == 4 then s1.(waiters := [1], expired := {2}, stale := [2])
    else s2.(prio := map[0 := 0, 1 := 4, 2 := 4], slipped := true)
  }

  lemma {:induction false} SlipStep(i: nat)
    requires i < 5
    ensures OwnerOk(SlipState(i)) && Leads(SlipState(i), SLIP[i], SlipState(i + 1))
  {
    hide Inv, Best;
  }

  /** Ceiling 0, and an owner of priority -2: the timeout of one of two waiters puts
      it down to the ceiling, below its own priority. */
  lemma {:induction false} CeilingLowersOwner()
    ensures CanRun(Initial(0, map[0 := -2, 1 := 4, 2 := 4]), SLIP)
    ensures var s := Run(Initial(0, map[0 := -2, 1 := 4, 2 := 4]), SLIP);
            s.owner == Some(0) && s.expired == {} && Target(s) == -2 && PrioOf(s, 0) == 0
  {
    var states := seq(6, i requires 0 <= i < 6 => SlipState(i));
    assert states[0] == Initial(0, map[0 := -2, 1 := 4, 2 := 4]) && Target(states[5]) == -2 && PrioOf(states[5], 0) == 0;
    assert states[5].owner == Some(0) && states[5].expired == {};
    hide Inv, Leads, CanRun, Run, SlipState, OwnerOk;
    forall i | 0 <= i < 5 ensures OwnerOk(states[i]) && Leads(states[i], SLIP[i], states[i + 1]) {
      SlipStep(i);
    }
    Trace(states, SLIP);
  }

  const STALE: seq<Op> := [DoLock(0, true), DoLock(1, true), DoLock(2, true), DoExpire(1)]

  function StaleState(i: nat): State {
    var s0 := Initial(-127, map[0 := 5, 1 := 3, 2 := 4]);
    var s1 := s0.(orig := 5, count := 1, owner := Some(0));
    var s2 := s1.(prio := map[0 := 3, 1 := 3, 2 := 4], waiters := [1]);
    if i == 0 then s0 else if i == 1 then s1 else if i == 2 then s2
    else if i == 3 then s2.(waiters := [1, 2])
    else s2.(waiters := [2], expired := {1}, stale := [1])
  }

  lemma {:induction false} StaleStep(i: nat)
    requires i < 4
    ensures OwnerOk(StaleState(i)) && Leads(StaleState(i), STALE[i], StaleState(i + 1))
  {
    hide Inv, Best;
  }

  /** The better of two waiters has timed out and not run yet: the owner still has
      its priority. */
  lemma {:induction false} StaleLiftsOwner()
    ensures CanRun(Initial(-127, map[0 := 5, 1 := 3, 2 := 4]), STALE)
    ensures var s := Run(Initial(-127, map[0 := 5, 1 := 3, 2 := 4]), STALE);
            s.owner == Some(0) && s.expired == {1} && Target(s) == 4 && PrioOf(s, 0) == 3
  {
    var states := seq(5, i requires 0 <= i < 5 => StaleState(i));
    assert states[0] == Initial(-127, map[0 := 5, 1 := 3, 2 := 4]) && Target(states[4]) == 4 && PrioOf(states[4], 0) == 3;
    assert states[4].owner == Some(0) && states[4].expired == {1};
    hide Inv, Leads, CanRun, Run, StaleState, OwnerOk;
    forall i | 0 <= i < 4 ensures OwnerOk(states[i]) && Leads(states[i], STALE[i], states[i + 1]) {
      StaleStep(i);
    }
    Trace(states, STALE);
  }
}
