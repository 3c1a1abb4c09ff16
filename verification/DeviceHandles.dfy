/**
 Device dependencies: gen_handles.py restricts the devicetree's dependency graph
 to the nodes that have a device and writes one array of handles per device,
 which device_required_handles_get() reads back.
 */
module DeviceHandles {

  /** A node is its dependency ordinal; what it depends on has lower ordinals, so
      the graph has no cycles. Node 0 is the root. */
  type Graph = seq<set<nat>>

  const ROOT: nat := 0

  predicate Acyclic(g: Graph) {
    forall n, d :: 0 <= n < |g| && d in g[n] ==> d < n
  }

  // ---- what the compaction should find --------------------------------------------------

  /** A path in the full graph from a dependency of a node to `u`, whose inner nodes
      have no device and are not the root. */
  predicate Path(g: Graph, used: set<nat>, p: seq<nat>, u: nat) {
    && p != [] && p[|p| - 1] == u && u in used
    && (forall i :: 0 <= i < |p| ==> p[i] < |g|)
    && (forall i :: 0 <= i < |p| - 1 ==> p[i] !in used && p[i] != ROOT && p[i + 1] in g[p[i]])
  }

  /** The device of `u` is required by the device of `n`. */
  ghost predicate Requires(g: Graph, used: set<nat>, n: nat, u: nat)
    requires n < |g|
  {
    exists p :: Path(g, used, p, u) && p[0] in g[n]
  }

  /** `u` is found by forwarding from node `n`. */
  predicate Leads(g: Graph, used: set<nat>, n: nat, u: nat)
    requires Acyclic(g)
    decreases n
  {
    n < |g|
    && if n in used then u == n
       else n != ROOT && exists d :: d in g[n] && Leads(g, used, d, u)
  }

  /** `u` is found by forwarding from one of a set of nodes. */
  ghost predicate Finds(g: Graph, used: set<nat>, s: set<nat>, u: nat)
    requires Acyclic(g)
  {
    exists d :: d in s && Leads(g, used, d, u)
  }

  lemma {:induction false} PathLeads(g: Graph, used: set<nat>, p: seq<nat>, u: nat)
    requires Acyclic(g) && Path(g, used, p, u)
    ensures Leads(g, used, p[0], u)
    decreases |p|
  {
    if |p| > 1 {
      PathLeads(g, used, p[1..], u);
      assert p[1] in g[p[0]];
    }
  }

  lemma {:induction false} LeadsPath(g: Graph, used: set<nat>, n: nat, u: nat) returns (p: seq<nat>)
    requires Acyclic(g) && Leads(g, used, n, u)
    ensures Path(g, used, p, u) && p[0] == n
    decreases n
  {
    if n in used {
      p := [n];
    } else {
      var d :| d in g[n] && Leads(g, used, d, u);
      var q := LeadsPath(g, used, d, u);
      p := [n] + q;
      assert forall i :: 0 <= i < |q| ==> p[i + 1] == q[i];
    }
  }

  /** Forwarding finds exactly the used nodes reachable through unused ones. */
  lemma {:induction false} RequiresLeads(g: Graph, used: set<nat>, n: nat, u: nat)
    requires Acyclic(g) && n < |g|
    ensures Requires(g, used, n, u) <==> Finds(g, used, g[n], u)
  {
    if Requires(g, used, n, u) {
      var p :| Path(g, used, p, u) && p[0] in g[n];
      PathLeads(g, used, p, u);
    }
    if Finds(g, used, g[n], u) {
      var d :| d in g[n] && Leads(g, used, d, u);
      var p := LeadsPath(g, used, d, u);
      assert Path(g, used, p, u) && p[0] in g[n];
    }
  }

  // ---- the termination measure -------------------------------------------------------------

  function Pow2(n: nat): (r: nat)
    ensures r > 0
  {
    if n == 0 then 1 else 2 * Pow2(n - 1)
  }

  /** The sum of 2^i over the elements of a set below `n`. */
  function Weight(s: set<nat>, n: nat): nat {
    if n == 0 then 0 else Weight(s, n - 1) + if n - 1 in s then Pow2(n - 1) else 0
  }

  lemma {:induction false} WeightBounded(s: set<nat>, n: nat)
    ensures Weight(s, n) < Pow2(n)
  {
    if n == 0 {
    } else {
      WeightBounded(s, n - 1);
    }
  }

  lemma {:induction false} WeightUnion(s: set<nat>, t: set<nat>, n: nat)
    ensures Weight(s + t, n) <= Weight(s, n) + Weight(t, n)
  {
    if n == 0 {
    } else {
      WeightUnion(s, t, n - 1);
    }
  }

  lemma {:induction false} WeightRemove(s: set<nat>, x: nat, n: nat)
    ensures Weight(s, n) == Weight(s - {x}, n) + if x in s && x < n then Pow2(x) else 0
  {
    if n == 0 {
    } else {
      WeightRemove(s, x, n - 1);
    }
  }

  lemma {:induction false} WeightBelow(s: set<nat>, k: nat, n: nat)
    requires k <= n && forall x :: x in s ==> x < k
    ensures Weight(s, n) == Weight(s, k)
  {
    if k == n {
    } else {
      WeightBelow(s, k, n - 1);
    }
  }

  /** Replacing a node by nodes below it makes the set lighter. */
  lemma {:induction false} ForwardLighter(s: set<nat>, x: nat, below: set<nat>, n: nat)
    requires x in s && x < n && forall y :: y in below ==> y < x
    ensures Weight((s - {x}) + below, n) < Weight(s, n)
  {
    WeightRemove(s, x, n);
    WeightUnion(s - {x}, below, n);
    WeightBelow(below, x, n);
    WeightBounded(below, x);
  }

  // ---- the worklist --------------------------------------------------------------------------

  /** What one turn of the loop leaves on the worklist. */
  function Popped(g: Graph, used: set<nat>, deps: set<nat>, dn: nat): set<nat>
    requires dn < |g|
  {
    if dn !in used && dn != ROOT then (deps - {dn}) + g[dn] else deps - {dn}
  }

  lemma {:induction false} PoppedLighter(g: Graph, used: set<nat>, deps: set<nat>, dn: nat)
    requires Acyclic(g) && dn in deps && dn < |g|
    ensures Weight(Popped(g, used, deps, dn), |g|) < Weight(deps, |g|)
  {
    WeightRemove(deps, dn, |g|);
    ForwardLighter(deps, dn, g[dn], |g|);
  }

  /** What taking one node off the worklist does to what can still be found. */
  lemma {:induction false} PoppedFinds(g: Graph, used: set<nat>, deps: set<nat>, dn: nat, u: nat)
    requires Acyclic(g) && dn in deps && dn < |g|
    ensures Finds(g, used, deps, u) <==> Finds(g, used, Popped(g, used, deps, dn), u) || (dn in used && u == dn)
  {
    var rest := Popped(g, used, deps, dn);
    if Finds(g, used, deps, u) {
      var d :| d in deps && Leads(g, used, d, u);
      if d == dn {
        if dn !in used {
          var e :| e in g[dn] && Leads(g, used, e, u);
          assert e in rest;
        }
      } else {
        assert d in rest;
      }
    }
    if Finds(g, used, rest, u) {
      var d :| d in rest && Leads(g, used, d, u);
      if d !in deps {
        assert d in g[dn] && Leads(g, used, dn, u);
      }
    }
    if dn in used && u == dn {
      assert Leads(g, used, dn, u);
    }
  }

  /** The loop of main() for one used node: it ends, and it finds exactly the
      required devices. */
  method Compact(g: Graph, used: set<nat>, sn: nat) returns (found: set<nat>)
    requires Acyclic(g) && sn < |g| && ROOT !in used
    ensures forall u :: u in found <==> Requires(g, used, sn, u)
  {
    found := {};
    var deps: set<nat> := g[sn];
    while deps != {}
      invariant forall d :: d in deps ==> d < |g|
      invariant forall u :: Finds(g, used, g[sn], u) <==> u in found || Finds(g, used, deps, u)
      decreases Weight(deps, |g|)
    {
      var dn :| dn in deps;
      hide Leads, Weight, Finds;
      PoppedLighter(g, used, deps, dn);
      forall u ensures Finds(g, used, deps, u)
                       <==> Finds(g, used, Popped(g, used, deps, dn), u) || (dn in used && u == dn) {
        PoppedFinds(g, used, deps, dn, u);
      }
      deps := deps - {dn};
      if dn in used {
        found := found + {dn};
      } else if dn != ROOT {
        deps := deps + g[dn];
      }
    }
    forall u ensures u in found <==> Requires(g, used, sn, u) {
      RequiresLeads(g, used, sn, u);
    }
  }

  // ---- the arrays of handles --------------------------------------------------------------------

  const SEP := -32768     // INT16_MIN
  const ENDS := 32767     // INT16_MAX

  predicate Special(h: int) {
    h == SEP || h == ENDS
  }

  predicate Plain(hs: seq<int>) {
    forall i :: 0 <= i < |hs| ==> !Special(hs[i])
  }

  // The first pass: ordinal, dependencies, SEP, extra dependencies, ENDS.

  datatype Parsed = Parsed(dev: seq<int>, ext: seq<int>)

  /** What main() collects from position `i` of a first-pass array on. */
  function ParseFrom(hv: seq<int>, i: nat, inExt: bool): Parsed
    decreases |hv| - i
  {
    if i >= |hv| || hv[i] == ENDS then Parsed([], [])
    else if hv[i] == SEP then ParseFrom(hv, i + 1, true)
    else
      var r := ParseFrom(hv, i + 1, inExt);
      if inExt then r.(ext := [hv[i]] + r.ext) else r.(dev := [hv[i]] + r.dev)
  }

  /** The loop of main() over one array */
  method ParseHandles(hv: seq<int>) returns (r: Parsed)
    requires exists k :: 1 <= k < |hv| && hv[k] == ENDS
    ensures r == ParseFrom(hv, 1, false)
  {
    ghost var k :| 1 <= k < |hv| && hv[k] == ENDS;
    var hvi, dev, ext, inExt := 1, [], [], false;
    while hv[hvi] != ENDS
      invariant 1 <= hvi <= k
      invariant var p := ParseFrom(hv, hvi, inExt);
                ParseFrom(hv, 1, false) == Parsed(dev + p.dev, ext + p.ext)
      invariant !inExt ==> ext == []
      decreases k - hvi
    {
      ParseNone(hv, hvi, inExt);
      if hv[hvi] == SEP {
        inExt := true;
      } else if inExt {
        ext := ext + [hv[hvi]];
      } else {
        dev := dev + [hv[hvi]];
      }
      hvi := hvi + 1;
    }
    r := Parsed(dev, ext);
  }

  /** Once past the separator, nothing is a devicetree dependency. */
  lemma {:induction false} ParseNone(hv: seq<int>, i: nat, inExt: bool)
    ensures inExt ==> ParseFrom(hv, i, inExt).dev == []
    decreases |hv| - i
  {
    if i < |hv| && hv[i] != ENDS {
      ParseNone(hv, i + 1, inExt || hv[i] == SEP);
    }
  }

  lemma {:induction false} ParseRun(hv: seq<int>, i: nat, hs: seq<int>, inExt: bool)
    requires i + |hs| <= |hv| && hv[i..i + |hs|] == hs && Plain(hs)
    ensures var p, q := ParseFrom(hv, i, inExt), ParseFrom(hv, i + |hs|, inExt);
            p == if inExt then Parsed(q.dev, hs + q.ext) else Parsed(hs + q.dev, q.ext)
    decreases |hs|
  {
    if hs == [] {
    } else {
      assert hv[i] == hv[i..i + |hs|][0] == hs[0];
      assert hv[i + 1..i + 1 + |hs[1..]|] == hs[1..];
      var p := ParseFrom(hv, i + 1, inExt);
      assert ParseFrom(hv, i, inExt) == if inExt then p.(ext := [hs[0]] + p.ext) else p.(dev := [hs[0]] + p.dev);
      hide ParseFrom;
      ParseRun(hv, i + 1, hs[1..], inExt);
      assert hs == [hs[0]] + hs[1..];
    }
  }

  /** Reading back a first-pass array gives both lists of dependencies. */
  lemma {:induction false} ParseRoundTrip(ordinal: int, dev: seq<int>, ext: seq<int>)
    requires Plain(dev) && Plain(ext)
    ensures ParseFrom([ordinal] + dev + [SEP] + ext + [ENDS], 1, false) == Parsed(dev, ext)
  {
    var hv := [ordinal] + dev + [SEP] + ext + [ENDS];
    var m := 1 + |dev|;
    assert hv[1..m] == dev && hv[m] == SEP && hv[m + 1..m + 1 + |ext|] == ext && hv[m + 1 + |ext|] == ENDS;
    ParseRun(hv, 1, dev, false);
    ParseRun(hv, m + 1, ext, true);
    assert ParseFrom(hv, m + 1 + |ext|, true) == Parsed([], []);
    assert ext + [] == ext && dev + [] == dev;
  }

  // The second pass: required handles, SEP and extra handles if any, ENDS up to
  // the old length.

  function Body(deps: seq<int>, ext: seq<int>): seq<int> {
    if ext == [] then deps else deps + [SEP] + ext
  }

  function Ends(n: nat): seq<int> {
    if n == 0 then [] else Ends(n - 1) + [ENDS]
  }

  datatype Emitted = Overflow | Handles(entries: seq<int>)

  function Emission(deps: seq<int>, ext: seq<int>, length: nat): Emitted {
    var b := Body(deps, ext);
    if |b| > length then Overflow else Handles(b + Ends(length - |b|))
  }

  /** The padding loop of main() and its assertion */
  method Emit(deps: seq<int>, ext: seq<int>, length: nat) returns (r: Emitted)
    ensures r == Emission(deps, ext, length)
  {
    var hdls := deps;
    if |ext| > 0 {
      hdls := hdls + [SEP];
      hdls := hdls + ext;
    }
    ghost var b := hdls;
    assert b == Body(deps, ext);
    while |hdls| < length
      invariant |b| <= |hdls| && (|hdls| <= length || hdls == b)
      invariant hdls == b + Ends(|hdls| - |b|)
    {
      hdls := hdls + [ENDS];
    }
    if |hdls| != length {
      return Overflow;
    }
    r := Handles(hdls);
  }

  /** The number of handles before the first ENDS or SEP. */
  function Required(rv: seq<int>): (k: nat)
    ensures k <= |rv|
    ensures Plain(rv[..k]) && (k < |rv| ==> Special(rv[k]))
  {
    if rv == [] || Special(rv[0]) then 0 else
      var k := Required(rv[1..]);
      assert rv[..k + 1] == [rv[0]] + rv[1..][..k];
      k + 1
  }

  /** device_required_handles_get(), on an array where it stops */
  method RequiredHandlesGet(rv: seq<int>) returns (count: nat)
    requires exists i :: 0 <= i < |rv| && Special(rv[i])
    ensures count == Required(rv) && count < |rv|
  {
    ghost var k :| 0 <= k < |rv| && Special(rv[k]);
    count := 0;
    while rv[count] != ENDS && rv[count] != SEP
      invariant count <= k && count + Required(rv[count..]) == Required(rv)
      decreases k - count
    {
      assert rv[count..][1..] == rv[count + 1..];
      count := count + 1;
    }
    assert rv[count..][0] == rv[count];
  }

  lemma {:induction false} EndsAll(n: nat, i: nat)
    requires i < n
    ensures |Ends(n)| == n && Ends(n)[i] == ENDS
  {
    if n > 1 {
      EndsAll(n - 1, if i < n - 1 then i else 0);
    } else {
      assert Ends(0) == [];
    }
  }

  lemma {:induction false} RequiredPrefix(deps: seq<int>, rest: seq<int>)
    requires Plain(deps) && (rest == [] || Special(rest[0]))
    ensures Required(deps + rest) == |deps|
  {
    if deps == [] {
      assert deps + rest == rest;
    } else {
      assert (deps + rest)[1..] == deps[1..] + rest;
      RequiredPrefix(deps[1..], rest);
    }
  }

  /** Reading an emitted array gives exactly the required handles, and the reader
      stops inside the array exactly when there are extra handles or the array is
      longer than the required ones. */
  lemma {:induction false} ReadBack(deps: seq<int>, ext: seq<int>, length: nat)
    requires Plain(deps) && Plain(ext) && Emission(deps, ext, length).Handles?
    ensures var rv := Emission(deps, ext, length).entries;
            && |rv| == length
            && Required(rv) == |deps| && rv[..Required(rv)] == deps
            && (Required(rv) < |rv| <==> ext != [] || |deps| < length)
            && ParseFrom(rv, 0, false) == Parsed(deps, ext)
  {
    var b := Body(deps, ext);
    var pad := Ends(length - |b|);
    if length > |b| {
      EndsAll(length - |b|, 0);
    }
    var rest := if ext == [] then pad else [SEP] + ext + pad;
    assert b + pad == deps + rest;
    RequiredPrefix(deps, rest);
    hide Required;
    assert (deps + rest)[..|deps|] == deps;
    BothLists(deps, ext, length - |b|);
  }

  /** The list parser finds both lists in front of the padding. */
  lemma {:induction false} BothLists(deps: seq<int>, ext: seq<int>, n: nat)
    requires Plain(deps) && Plain(ext)
    ensures ParseFrom(Body(deps, ext) + Ends(n), 0, false) == Parsed(deps, ext)
  {
    var hv := Body(deps, ext) + Ends(n);
    if n > 0 {
      EndsAll(n, 0);
    }
    var m := |Body(deps, ext)|;
    assert m < |hv| ==> hv[m] == ENDS;
    hide Ends;
    assert hv[0..|deps|] == deps;
    ParseRun(hv, 0, deps, false);
    assert deps + [] == deps;
    if ext != [] {
      var k := |deps| + 1;
      assert hv[|deps|] == SEP && hv[k..k + |ext|] == ext && k + |ext| == m;
      ParseRun(hv, k, ext, true);
      assert ParseFrom(hv, m, true) == Parsed([], []);
      assert ext + [] == ext;
    } else {
      assert ParseFrom(hv, m, false) == Parsed([], []);
    }
  }

  // ---- from the graph to the reader ---------------------------------------------------------------

  ghost function RequiredSet(g: Graph, used: set<nat>, n: nat): set<nat>
    requires n < |g|
  {
    set u | u in used && Requires(g, used, n, u)
  }

  /** The array the first pass made for a node. */
  function FirstPass(ordinal: int, deps: seq<int>, ext: seq<int>): seq<int> {
    [ordinal] + deps + [SEP] + ext + [ENDS]
  }

  /** Every device has a handle of its own. */
  ghost predicate GoodHandles(used: set<nat>, handle: map<nat, int>) {
    && (forall u :: u in used ==> u in handle && !Special(handle[u]))
    && (forall u, v :: u in used && v in used && handle[u] == handle[v] ==> u == v)
  }

  /** The handles of a set of nodes, in the order the set gives them. */
  method HandlesOf(found: set<nat>, used: set<nat>, handle: map<nat, int>) returns (hs: seq<int>)
    requires GoodHandles(used, handle) && found <= used
    ensures |hs| == |found| && Plain(hs)
    ensures forall u :: u in used ==> (u in found <==> handle[u] in hs)
    ensures forall h :: h in hs ==> exists u :: u in found && h == handle[u]
  {
    hs := [];
    var rest := found;
    while rest != {}
      invariant rest <= found && |hs| + |rest| == |found| && Plain(hs)
      invariant forall u :: u in used ==> (u in found - rest <==> handle[u] in hs)
      invariant forall h :: h in hs ==> exists u :: u in found && h == handle[u]
      decreases |rest|
    {
      var u :| u in rest;
      rest, hs := rest - {u}, hs + [handle[u]];
    }
  }

  /** From the graph and a first-pass array to what the reader finds. Of a node with
      `deps` direct and `ext` extra dependencies, the assertion fails exactly when
      more than three devices more than that are required (two more, if there are
      extra ones). Otherwise the handles in front of the first ENDS or SEP are those
      of exactly the required devices, once each, and there is an ENDS or SEP unless
      exactly three more are required and there are no extra ones; the extra
      dependencies follow the SEP. */
  method SecondPass(g: Graph, used: set<nat>, sn: nat, handle: map<nat, int>, ordinal: int, deps: seq<int>, ext: seq<int>)
    returns (r: Emitted)
    requires Acyclic(g) && sn < |g| && ROOT !in used && GoodHandles(used, handle) && Plain(deps) && Plain(ext)
    ensures var n := |RequiredSet(g, used, sn)|;
            match r
            case Overflow => n > |deps| + if ext == [] then 3 else 2
            case Handles(rv) =>
              && n <= |deps| + (if ext == [] then 3 else 2)
              && Required(rv) == n
              && (forall u :: u in used ==> (Requires(g, used, sn, u) <==> handle[u] in rv[..n]))
              && (forall h :: h in rv[..n] ==> exists u :: u in used && h == handle[u])
              && (n < |rv| <==> ext != [] || n != |deps| + 3)
              && ParseFrom(rv, 0, false).ext == ext
  {
    var hv := FirstPass(ordinal, deps, ext);
    assert hv[|hv| - 1] == ENDS;
    var p := ParseHandles(hv);
    ParseRoundTrip(ordinal, deps, ext);
    var found := Compact(g, used, sn);
    assert found == RequiredSet(g, used, sn) by {
      RequiredUsed(g, used, sn);
    }
    hide Requires, ParseFrom;
    var hs := HandlesOf(found, used, handle);
    r := Emit(hs, p.ext, |hv|);
    if r.Handles? {
      ReadBack(hs, ext, |hv|);
    }
  }

  lemma {:induction false} RequiredUsed(g: Graph, used: set<nat>, n: nat)
    requires n < |g|
    ensures forall u :: Requires(g, used, n, u) ==> u in used
  {
  }

  /** The array without a terminator occurs: one dependency without a device can
      stand for four devices. */
  lemma {:induction false} NoTerminator()
    ensures var g: Graph := [{}, {0}, {0}, {0}, {0}, {1, 2, 3, 4}, {5}];
            var used := {1, 2, 3, 4, 6};
            && Acyclic(g)
            && RequiredSet(g, used, 6) == {1, 2, 3, 4}
            && |RequiredSet(g, used, 6)| == |g[6]| + 3
  {
    var g: Graph := [{}, {0}, {0}, {0}, {0}, {1, 2, 3, 4}, {5}];
    var used := {1, 2, 3, 4, 6};
    assert Acyclic(g);
    forall u ensures Requires(g, used, 6, u) <==> u in {1, 2, 3, 4} {
      RequiresLeads(g, used, 6, u);
      if u in {1, 2, 3, 4} {
        assert Path(g, used, [5, u], u) && [5, u][0] in g[6];
      }
      if Finds(g, used, g[6], u) {
        assert Leads(g, used, 5, u);
        var d :| d in g[5] && Leads(g, used, d, u);
        assert d in used;
      }
    }
    hide Requires;
    assert RequiredSet(g, used, 6) == {1, 2, 3, 4};
  }
}
