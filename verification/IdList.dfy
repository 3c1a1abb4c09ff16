/**
 Lists of distinct identifiers, as the kernel's linked lists hold them.
 */
module IdList {

  type Id = nat

  predicate NoDup(l: seq<Id>) {
    forall i, j :: 0 <= i < j < |l| ==> l[i] != l[j]
  }

  /** Position of `x`, or the length of the list when it is absent. */
  function IndexOf(l: seq<Id>, x: Id): (k: nat)
    ensures k <= |l|
    ensures k < |l| ==> l[k] == x
    ensures forall i :: 0 <= i < k ==> l[i] != x
    ensures k < |l| <==> x in l
  {
    if l == [] || l[0] == x then 0 else 1 + IndexOf(l[1..], x)
  }

  /** `a` is on the list, in front of `b`. */
  predicate Ahead(l: seq<Id>, a: Id, b: Id) {
    IndexOf(l, a) < IndexOf(l, b) < |l|
  }

  /** sys_slist_find_and_remove() */
  function Without(l: seq<Id>, x: Id): seq<Id> {
    var k := IndexOf(l, x);
    if k < |l| then l[..k] + l[k + 1..] else l
  }

  /** Put `y` at position `k`. */
  function InsertAt(l: seq<Id>, k: nat, y: Id): seq<Id>
    requires k <= |l|
  {
    l[..k] + [y] + l[k..]
  }

  lemma {:induction false} IndexUnique(l: seq<Id>, k: nat)
    requires NoDup(l) && k < |l|
    ensures IndexOf(l, l[k]) == k
  {
  }

  lemma {:induction false} AheadAt(l: seq<Id>, i: nat, j: nat)
    requires NoDup(l) && i < j < |l|
    ensures Ahead(l, l[i], l[j])
  {
    IndexUnique(l, i);
    IndexUnique(l, j);
  }

  lemma {:induction false} WithoutAt(l: seq<Id>, x: Id)
    requires NoDup(l)
    ensures NoDup(Without(l, x))
    ensures forall y :: y in Without(l, x) <==> y in l && y != x
  {
    hide IndexOf;
    var k, r := IndexOf(l, x), Without(l, x);
    if k < |l| {
      forall y | y in l && y != x
        ensures y in r
      {
        var i := IndexOf(l, y);
        assert r[if i < k then i else i - 1] == y;
      }
    }
  }

  lemma {:induction false} WithoutKeepsOrder(l: seq<Id>, x: Id, a: Id, b: Id)
    requires NoDup(l) && Ahead(l, a, b) && a != x && b != x
    ensures Ahead(Without(l, x), a, b)
  {
    hide IndexOf;
    WithoutAt(l, x);
    var k, r := IndexOf(l, x), Without(l, x);
    if k < |l| {
      var i, j := IndexOf(l, a), IndexOf(l, b);
      var i', j' := if i < k then i else i - 1, if j < k then j else j - 1;
      assert r[i'] == a && r[j'] == b;
      AheadAt(r, i', j');
    }
  }

  lemma {:induction false} InsertAtAt(l: seq<Id>, k: nat, y: Id)
    requires NoDup(l) && k <= |l| && y !in l
    ensures NoDup(InsertAt(l, k, y))
    ensures forall x :: x in InsertAt(l, k, y) <==> x in l || x == y
    ensures forall i :: 0 <= i < k ==> Ahead(InsertAt(l, k, y), l[i], y)
  {
    hide IndexOf;
    var r := InsertAt(l, k, y);
    assert forall i :: 0 <= i < |r| ==> r[i] == if i < k then l[i] else if i == k then y else l[i - 1];
    forall x | x in l
      ensures x in r
    {
      var i := IndexOf(l, x);
      assert r[if i < k then i else i + 1] == x;
    }
    forall i | 0 <= i < k
      ensures Ahead(r, l[i], y)
    {
      AheadAt(r, i, k);
    }
  }

  lemma {:induction false} InsertAtKeepsOrder(l: seq<Id>, k: nat, y: Id, a: Id, b: Id)
    requires NoDup(l) && k <= |l| && y !in l && Ahead(l, a, b)
    ensures Ahead(InsertAt(l, k, y), a, b)
  {
    hide IndexOf;
    InsertAtAt(l, k, y);
    var r, i, j := InsertAt(l, k, y), IndexOf(l, a), IndexOf(l, b);
    var i', j' := if i < k then i else i + 1, if j < k then j else j + 1;
    assert r[i'] == a && r[j'] == b;
    AheadAt(r, i', j');
  }

  lemma {:induction false} TailAt(l: seq<Id>)
    requires NoDup(l) && l != []
    ensures NoDup(l[1..])
    ensures forall x :: x in l[1..] <==> x in l && x != l[0]
  {
    IndexUnique(l, 0);
    assert Without(l, l[0]) == l[1..];
    WithoutAt(l, l[0]);
  }

  lemma {:induction false} TailKeepsOrder(l: seq<Id>, a: Id, b: Id)
    requires NoDup(l) && Ahead(l, a, b)
    ensures b != l[0]
    ensures a != l[0] ==> Ahead(l[1..], a, b)
  {
    IndexUnique(l, 0);
    if a != l[0] {
      assert Without(l, l[0]) == l[1..];
      WithoutKeepsOrder(l, l[0], a, b);
    }
  }
}
