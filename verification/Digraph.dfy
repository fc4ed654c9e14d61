/** Finite dependency graphs: `e[u]` lists the nodes that `u` depends on.

    Both cycle detectors of the repository (the depth-first search of the work
    graph and the in-degree queue of the engineer-job workflow) are judged
    against the definitions of this module.
 */
module Digraph {
  import opened Sequences

  /** `u` lists `v` among its dependencies. */
  predicate Edge<T(==)>(e: map<T, seq<T>>, u: T, v: T) {
    u in e && v in e[u]
  }

  /** Every dependency is itself a node. */
  ghost predicate Closed<T(!new)>(e: map<T, seq<T>>) {
    forall u, v :: Edge(e, u, v) ==> v in e
  }

  ghost predicate Walk<T(!new)>(e: map<T, seq<T>>, p: seq<T>) {
    && |p| > 0
    && forall i :: 0 < i < |p| ==> Edge(e, p[i - 1], p[i])
  }

  ghost predicate Cycle<T(!new)>(e: map<T, seq<T>>, p: seq<T>) {
    Walk(e, p) && |p| > 1 && p[0] == p[|p| - 1]
  }

  ghost predicate Acyclic<T(!new)>(e: map<T, seq<T>>) {
    forall p: seq<T> :: !Cycle(e, p)
  }

  /** `o` lists nodes without repetition, each one after all of its dependencies. */
  ghost predicate TopoOrder<T(!new)>(e: map<T, seq<T>>, o: seq<T>) {
    o == [] ||
    var u, earlier := o[|o| - 1], o[..|o| - 1];
    && TopoOrder(e, earlier)
    && u !in earlier
    && forall v :: Edge(e, u, v) ==> v in earlier
  }

  /** The same, position by position. */
  lemma {:induction false} TopoOrderAt<T(!new)>(e: map<T, seq<T>>, o: seq<T>)
    ensures TopoOrder(e, o) <==>
            Distinct(o) && forall i, v :: 0 <= i < |o| && Edge(e, o[i], v) ==> v in o[..i]
  {
    if o != [] {
      var n := |o| - 1;
      var u, earlier := o[n], o[..n];
      TopoOrderAt(e, earlier);
      assert forall i :: 0 <= i < n ==> o[i] == earlier[i] && o[..i] == earlier[..i];
      assert Distinct(o) <==> Distinct(earlier) && u !in earlier;
    }
  }

  /** A walk that starts inside a topological order stays inside it, and moves to
      strictly earlier positions. */
  lemma {:induction false} WalkDescends<T(!new)>(e: map<T, seq<T>>, o: seq<T>, p: seq<T>, k: nat)
    requires TopoOrder(e, o) && Walk(e, p) && |p| > 1
    requires k < |o| && o[k] == p[0]
    ensures p[|p| - 1] in o[..k]
    decreases |p|
  {
    TopoOrderAt(e, o);
    assert Edge(e, p[0], p[1]);
    var j :| 0 <= j < k && o[j] == p[1];
    if |p| > 2 {
      forall i | 0 < i < |p[1..]| ensures Edge(e, p[1..][i - 1], p[1..][i]) {
        assert Edge(e, p[i], p[i + 1]);
      }
      WalkDescends(e, o, p[1..], j);
      assert o[..j] <= o[..k];
    }
  }

  /** A graph all of whose nodes can be listed in topological order has no cycle. */
  lemma {:induction false} TopoOrderMeansAcyclic<T(!new)>(e: map<T, seq<T>>, o: seq<T>)
    requires TopoOrder(e, o)
    requires forall u :: u in e ==> u in o
    ensures Acyclic(e)
  {
    forall p: seq<T> | Cycle(e, p) ensures false {
      assert Edge(e, p[0], p[1]);
      var k :| 0 <= k < |o| && o[k] == p[0];
      TopoOrderAt(e, o);
      WalkDescends(e, o, p, k);
    }
  }

  ghost predicate DependsInto<T(!new)>(e: map<T, seq<T>>, u: T, r: set<T>) {
    exists v :: v in r && Edge(e, u, v)
  }

  lemma {:induction false} WalkSuffixCloses<T(!new)>(e: map<T, seq<T>>, p: seq<T>, i: nat)
    requires Walk(e, p) && i < |p| && Edge(e, p[|p| - 1], p[i])
    ensures Cycle(e, p[i..] + [p[i]])
  {
    var c := p[i..] + [p[i]];
    forall k | 0 < k < |c| ensures Edge(e, c[k - 1], c[k]) {
      if k < |c| - 1 {
        assert Edge(e, p[i + k - 1], p[i + k]);
      }
    }
  }

  lemma {:induction false} WalkGrows<T(!new)>(e: map<T, seq<T>>, p: seq<T>, v: T)
    requires Walk(e, p) && Edge(e, p[|p| - 1], v)
    ensures Walk(e, p + [v])
  {
    var longer := p + [v];
    forall i | 0 < i < |longer| ensures Edge(e, longer[i - 1], longer[i]) {
      if i < |p| {
        assert Edge(e, p[i - 1], p[i]);
      }
    }
  }

  /** A walk without repetition inside `r` can always be prolonged when no node of `r`
      is a sink, so it ends by closing a cycle. */
  lemma {:induction false} ProlongToCycle<T(!new)>(e: map<T, seq<T>>, r: set<T>, p: seq<T>) returns (c: seq<T>)
    requires Walk(e, p) && Distinct(p) && forall x :: x in p ==> x in r
    requires forall u :: u in r ==> DependsInto(e, u, r)
    ensures Cycle(e, c)
    decreases |r| - |p|
  {
    var last := p[|p| - 1];
    assert DependsInto(e, last, r);
    var v :| v in r && Edge(e, last, v);
    if v in p {
      var i :| 0 <= i < |p| && p[i] == v;
      WalkSuffixCloses(e, p, i);
      c := p[i..] + [v];
    } else {
      var longer := p + [v];
      WalkGrows(e, p, v);
      forall x | x in longer ensures x in r {
      }
      DistinctFits(longer, r);
      c := ProlongToCycle(e, r, longer);
    }
  }

  /** The pigeonhole half of both detectors: a non-empty set of nodes, each with a
      dependency inside the set, contains a cycle. */
  lemma {:induction false} NoSinkMeansCycle<T(!new)>(e: map<T, seq<T>>, r: set<T>)
    requires r != {}
    requires forall u :: u in r ==> DependsInto(e, u, r)
    ensures !Acyclic(e)
  {
    var u :| u in r;
    var c := ProlongToCycle(e, r, [u]);
  }

  /** Removing edges cannot create a cycle. */
  lemma {:induction false} FewerEdgesStayAcyclic<T(!new)>(e: map<T, seq<T>>, f: map<T, seq<T>>)
    requires forall u, v :: Edge(f, u, v) ==> Edge(e, u, v)
    ensures Acyclic(e) ==> Acyclic(f)
  {
    forall p: seq<T> | Cycle(f, p) ensures Cycle(e, p) {
      forall i | 0 < i < |p| ensures Edge(e, p[i - 1], p[i]) {
        assert Edge(f, p[i - 1], p[i]);
      }
    }
  }
}
