/** `topoSort` of `skills/engineer-job/run.wf.js`: Kahn's algorithm on in-degree counters. */
module TopoSort {
  import opened Digraph
  import opened Sequences

  datatype Item<T> = Item(id: T, deps: seq<T>)

  datatype Sorted<T> = Order(order: seq<T>) | UnknownDep | CycleDetected

  ghost predicate DistinctIds<T(!new)>(items: seq<Item<T>>) {
    forall i, j :: 0 <= i < j < |items| ==> items[i].id != items[j].id
  }

  ghost predicate IsId<T(!new)>(items: seq<Item<T>>, d: T) {
    exists j :: 0 <= j < |items| && items[j].id == d
  }

  /** All ids in the order listed, an id listed twice twice. */
  function Ids<T>(items: seq<Item<T>>): (r: seq<T>)
    ensures |r| == |items| && forall i :: 0 <= i < |items| ==> r[i] == items[i].id
  {
    seq(|items|, i requires 0 <= i < |items| => items[i].id)
  }

  /** The dependencies of `id`; the code keeps one counter for all items with that id. */
  ghost function DepsOf<T(!new)>(items: seq<Item<T>>, id: T): seq<T> {
    if items == [] then []
    else
      var n := |items| - 1;
      DepsOf(items[..n], id) + if items[n].id == id then items[n].deps else []
  }

  /** `e` is the dependency relation of the list. */
  ghost predicate Represents<T(!new)>(e: map<T, seq<T>>, items: seq<Item<T>>) {
    && (forall id :: id in e <==> IsId(items, id))
    && forall id :: id in e ==> e[id] == DepsOf(items, id)
  }

  ghost function Deps<T(!new)>(items: seq<Item<T>>): map<T, seq<T>> {
    map id | id in Ids(items) :: DepsOf(items, id)
  }

  lemma {:induction false} DepsRepresent<T(!new)>(items: seq<Item<T>>)
    ensures Represents(Deps(items), items)
  {
    forall id ensures id in Ids(items) <==> IsId(items, id) {
      if IsId(items, id) {
        var j :| 0 <= j < |items| && items[j].id == id;
        assert Ids(items)[j] == id;
      }
    }
  }

  lemma {:induction false} EachIsNode<T(!new)>(items: seq<Item<T>>)
    ensures forall k :: 0 <= k < |items| ==> items[k].id in Deps(items)
  {
    assert forall k :: 0 <= k < |items| ==> Ids(items)[k] == items[k].id;
  }

  lemma {:induction false} DepsOfHas<T(!new)>(items: seq<Item<T>>, id: T, d: T)
    ensures d in DepsOf(items, id) <==> exists k :: 0 <= k < |items| && items[k].id == id && d in items[k].deps
  {
    if items != [] {
      var n := |items| - 1;
      DepsOfHas(items[..n], id, d);
      if k :| 0 <= k < |items| && items[k].id == id && d in items[k].deps {
        if k < n {
          assert items[..n][k] == items[k];
        }
      }
    }
  }

  lemma {:induction false} DepsOfOne<T(!new)>(items: seq<Item<T>>, k: nat)
    requires DistinctIds(items) && k < |items|
    ensures DepsOf(items, items[k].id) == items[k].deps
  {
    var n := |items| - 1;
    if k < n {
      DepsOfOne(items[..n], k);
    } else {
      DepsOfNone(items[..n], items[n].id);
    }
  }

  lemma {:induction false} DepsOfNone<T(!new)>(items: seq<Item<T>>, id: T)
    requires forall i :: 0 <= i < |items| ==> items[i].id != id
    ensures DepsOf(items, id) == []
  {
    if items != [] {
      DepsOfNone(items[..|items| - 1], id);
    }
  }

  // ---------------------------------------------------------------- counting

  function Count<T(==,!new)>(s: seq<T>, x: T): nat {
    if s == [] then 0 else Count(s[..|s| - 1], x) + if s[|s| - 1] == x then 1 else 0
  }

  /** How often the entries of `deps` occur in `order`, all told. */
  ghost function Received<T(!new)>(deps: seq<T>, order: seq<T>): nat {
    if deps == [] then 0 else Received(deps[..|deps| - 1], order) + multiset(order)[deps[|deps| - 1]]
  }

  lemma {:induction false} NothingReceived<T(!new)>(deps: seq<T>)
    ensures Received(deps, []) == 0
  {
    if deps != [] {
      NothingReceived(deps[..|deps| - 1]);
    }
  }

  lemma {:induction false} ReceivedNext<T(!new)>(deps: seq<T>, order: seq<T>, u: T)
    ensures Received(deps, order + [u]) == Received(deps, order) + Count(deps, u)
  {
    if deps != [] {
      ReceivedNext(deps[..|deps| - 1], order, u);
    }
  }

  lemma {:induction false} CountNext<T(!new)>(s: seq<T>, k: nat, x: T)
    requires k < |s|
    ensures Count(s[..k + 1], x) == Count(s[..k], x) + if s[k] == x then 1 else 0
  {
    assert s[..k + 1][..k] == s[..k];
  }

  lemma {:induction false} CountMember<T(!new)>(s: seq<T>, x: T)
    ensures Count(s, x) > 0 <==> x in s
  {
    if s != [] {
      var n := |s| - 1;
      CountMember(s[..n], x);
      assert s == s[..n] + [s[n]];
    }
  }

  // ---------------------------------------------------------------- building the counters

  /** `adj[d]` lists the dependents of `d`, once per mention. */
  ghost predicate Adjacency<T(!new)>(e: map<T, seq<T>>, adj: map<T, seq<T>>) {
    && (forall d :: d in e ==> d in adj)
    && forall d, x :: d in e ==> Count(adj[d], x) == if x in e then Count(e[x], d) else 0
  }

  ghost predicate DependentsOf<T(!new)>(e: map<T, seq<T>>, u: T, next: seq<T>) {
    && (forall x :: x in next ==> x in e)
    && forall x :: x in e ==> Count(next, x) == Count(e[x], u)
  }

  lemma {:induction false} AdjacentDependents<T(!new)>(e: map<T, seq<T>>, indeg: map<T, int>, adj: map<T, seq<T>>, u: T)
    requires OverNodes(e, indeg, adj) && Adjacency(e, adj) && u in e
    ensures u in adj && DependentsOf(e, u, adj[u])
  {
  }

  ghost predicate BuiltUpTo<T(!new)>(items: seq<Item<T>>, i: nat, j: nat, indeg: map<T, int>, adj: map<T, seq<T>>) {
    && i <= |items| && (i < |items| ==> j <= |items[i].deps|)
    && (forall x :: x in indeg ==> indeg[x] == |Mentioned(items, i, j, x)|)
    && forall x, d :: x in indeg && d in adj ==> Count(adj[d], x) == Count(Mentioned(items, i, j, x), d)
  }

  /** The dependencies of `x` that the two nested loops have seen at `(i, j)`. */
  ghost function Mentioned<T(!new)>(items: seq<Item<T>>, i: nat, j: nat, x: T): seq<T>
    requires i <= |items| && (i < |items| ==> j <= |items[i].deps|)
  {
    DepsOf(items[..i], x) + if i < |items| && items[i].id == x then items[i].deps[..j] else []
  }

  lemma {:induction false} MentionStep<T(!new)>(items: seq<Item<T>>, i: nat, j: nat, x: T)
    requires i < |items| && j < |items[i].deps|
    ensures Mentioned(items, i, j + 1, x) ==
            if x == items[i].id then Mentioned(items, i, j, x) + [items[i].deps[j]] else Mentioned(items, i, j, x)
  {
  }

  lemma {:induction false} PushKeepsBuilt<T(!new)>(items: seq<Item<T>>, i: nat, j: nat,
                                                   indeg: map<T, int>, adj: map<T, seq<T>>)
    requires BuiltUpTo(items, i, j, indeg, adj)
    requires i < |items| && j < |items[i].deps| && items[i].id in indeg && items[i].deps[j] in adj
    ensures var id, d := items[i].id, items[i].deps[j];
      BuiltUpTo(items, i, j + 1, indeg[id := indeg[id] + 1], adj[d := adj[d] + [id]])
  {
    hide Mentioned;
    var id, d := items[i].id, items[i].deps[j];
    forall x ensures Mentioned(items, i, j + 1, x) ==
                     if x == id then Mentioned(items, i, j, x) + [d] else Mentioned(items, i, j, x) {
      MentionStep(items, i, j, x);
    }
  }

  /** The counters speak of the nodes of `e` and of nothing else. */
  ghost predicate OverNodes<T(!new)>(e: map<T, seq<T>>, indeg: map<T, int>, adj: map<T, seq<T>>) {
    && (forall id :: id in e <==> id in indeg)
    && (forall id :: id in e <==> id in adj)
    && (forall d, x :: d in adj && x in adj[d] ==> x in e)
  }

  lemma {:induction false} PushKeepsOverNodes<T(!new)>(e: map<T, seq<T>>, indeg: map<T, int>, adj: map<T, seq<T>>,
          id: T, d: T)
    requires OverNodes(e, indeg, adj) && id in e && d in e
    ensures id in indeg && d in adj
    ensures OverNodes(e, indeg[id := indeg[id] + 1], adj[d := adj[d] + [id]])
  {
  }

  method InitCounters<T(==,!new)>(items: seq<Item<T>>, ghost e: map<T, seq<T>>)
    returns (indeg: map<T, int>, adj: map<T, seq<T>>)
    requires Represents(e, items)
    ensures OverNodes(e, indeg, adj) && BuiltUpTo(items, 0, 0, indeg, adj)
  {
    hide OverNodes, BuiltUpTo;
    indeg, adj := map[], map[];
    for i := 0 to |items|
      invariant forall k :: 0 <= k < i ==> items[k].id in indeg && items[k].id in adj
      invariant forall id :: id in indeg ==> IsId(items, id) && indeg[id] == 0
      invariant forall id :: id in adj ==> IsId(items, id) && adj[id] == []
    {
      indeg, adj := indeg[items[i].id := 0], adj[items[i].id := []];
    }
    InitialIsBuilt(items, e, indeg, adj);
  }

  lemma {:induction false} InitialIsBuilt<T(!new)>(items: seq<Item<T>>, e: map<T, seq<T>>,
                                                   indeg: map<T, int>, adj: map<T, seq<T>>)
    requires Represents(e, items)
    requires forall k :: 0 <= k < |items| ==> items[k].id in indeg && items[k].id in adj
    requires forall id :: id in indeg ==> IsId(items, id) && indeg[id] == 0
    requires forall id :: id in adj ==> IsId(items, id) && adj[id] == []
    ensures OverNodes(e, indeg, adj) && BuiltUpTo(items, 0, 0, indeg, adj)
  {
    assert items[..0] == [];
    forall x ensures Mentioned(items, 0, 0, x) == [] {
    }
  }

  /** The nested loops over items and dependencies: in-degrees are dependency counts, and
      `adj` is the reverse graph. */
  method BuildCounters<T(==,!new)>(items: seq<Item<T>>, ghost e: map<T, seq<T>>)
    returns (indeg: map<T, int>, adj: map<T, seq<T>>)
    requires Represents(e, items) && Closed(e)
    ensures OverNodes(e, indeg, adj) && Adjacency(e, adj)
    ensures forall id :: id in e ==> indeg[id] == |e[id]|
  {
    hide BuiltUpTo, OverNodes, Represents, DepsOf;
    indeg, adj := InitCounters(items, e);
    for i := 0 to |items|
      invariant BuiltUpTo(items, i, 0, indeg, adj)
      invariant OverNodes(e, indeg, adj)
    {
      var id, deps := items[i].id, items[i].deps;
      for j := 0 to |deps|
        invariant BuiltUpTo(items, i, j, indeg, adj)
        invariant OverNodes(e, indeg, adj)
      {
        EdgeOfItem(items, e, i, j);
        PushKeepsOverNodes(e, indeg, adj, id, deps[j]);
        PushKeepsBuilt(items, i, j, indeg, adj);
        indeg, adj := indeg[id := indeg[id] + 1], adj[deps[j] := adj[deps[j]] + [id]];
      }
      NextItemKeepsBuilt(items, i, indeg, adj);
    }
    BuiltMeansAdjacency(items, e, indeg, adj);
  }

  lemma {:induction false} EdgeOfItem<T(!new)>(items: seq<Item<T>>, e: map<T, seq<T>>, i: nat, j: nat)
    requires Represents(e, items) && Closed(e) && i < |items| && j < |items[i].deps|
    ensures items[i].id in e && items[i].deps[j] in e
  {
    var id, d := items[i].id, items[i].deps[j];
    DepsOfHas(items, id, d);
    assert IsId(items, id) && d in items[i].deps && Edge(e, id, d);
  }

  lemma {:induction false} NextItemKeepsBuilt<T(!new)>(items: seq<Item<T>>, i: nat,
                                                       indeg: map<T, int>, adj: map<T, seq<T>>)
    requires i < |items| && BuiltUpTo(items, i, |items[i].deps|, indeg, adj)
    ensures BuiltUpTo(items, i + 1, 0, indeg, adj)
  {
    assert items[..i + 1][..i] == items[..i];
    forall x ensures Mentioned(items, i + 1, 0, x) == Mentioned(items, i, |items[i].deps|, x) {
    }
  }

  lemma {:induction false} BuiltMeansAdjacency<T(!new)>(items: seq<Item<T>>, e: map<T, seq<T>>,
                                                        indeg: map<T, int>, adj: map<T, seq<T>>)
    requires Represents(e, items) && BuiltUpTo(items, |items|, 0, indeg, adj) && OverNodes(e, indeg, adj)
    ensures Adjacency(e, adj)
    ensures forall id :: id in e ==> indeg[id] == |e[id]|
  {
    assert items[..|items|] == items;
    forall x | x in e ensures Mentioned(items, |items|, 0, x) == e[x] {
    }
    forall d, x | d in e && x !in e ensures Count(adj[d], x) == 0 {
      CountMember(adj[d], x);
    }
  }

  // ---------------------------------------------------------------- what the queue puts out

  /** How often `x` is put out, if ever: a node without dependencies as often as it is listed,
      any other node once. */
  ghost function Times<T(!new)>(e: map<T, seq<T>>, ids: seq<T>, x: T): nat {
    if x !in e then 0 else if e[x] == [] then multiset(ids)[x] else 1
  }

  /** Each node is put out when as many dependencies of it have been put out as it has. */
  ghost predicate Released<T(!new)>(e: map<T, seq<T>>, order: seq<T>) {
    order == [] ||
    var u, earlier := order[|order| - 1], order[..|order| - 1];
    Released(e, earlier) && u in e && Received(e[u], earlier) >= |e[u]|
  }

  ghost predicate Within<T(!new)>(e: map<T, seq<T>>, ids: seq<T>, order: seq<T>) {
    forall x :: multiset(order)[x] <= Times(e, ids, x)
  }

  /** What `deps` can receive from outside `s`. */
  ghost function Supply<T(!new)>(e: map<T, seq<T>>, ids: seq<T>, deps: seq<T>, s: set<T>): nat {
    if deps == [] then 0
    else
      var n := |deps| - 1;
      Supply(e, ids, deps[..n], s) + if deps[n] in s then 0 else Times(e, ids, deps[n])
  }

  /** Nodes that wait for each other: from outside none receives as much as it has dependencies. */
  ghost predicate Starved<T(!new)>(e: map<T, seq<T>>, ids: seq<T>, s: set<T>) {
    s != {} && forall x :: x in s ==> x in e && Supply(e, ids, e[x], s) < |e[x]|
  }

  ghost predicate Starving<T(!new)>(e: map<T, seq<T>>, ids: seq<T>) {
    exists s: set<T> :: Starved(e, ids, s)
  }

  lemma {:induction false} ReceivedIsSupplied<T(!new)>(e: map<T, seq<T>>, ids: seq<T>, deps: seq<T>, s: set<T>,
          order: seq<T>)
    requires Within(e, ids, order) && forall x :: x in order ==> x !in s
    ensures Received(deps, order) <= Supply(e, ids, deps, s)
  {
    if deps != [] {
      var n := |deps| - 1;
      ReceivedIsSupplied(e, ids, deps[..n], s, order);
      if deps[n] in s {
        assert deps[n] !in multiset(order);
      }
    }
  }

  /** No starved node is ever put out. */
  lemma {:induction false} StarvedStays<T(!new)>(e: map<T, seq<T>>, ids: seq<T>, s: set<T>, order: seq<T>)
    requires Released(e, order) && Within(e, ids, order) && Starved(e, ids, s)
    ensures forall x :: x in order ==> x !in s
  {
    if order != [] {
      var n := |order| - 1;
      var u, earlier := order[n], order[..n];
      assert order == earlier + [u];
      StarvedStays(e, ids, s, earlier);
      ReceivedIsSupplied(e, ids, e[u], s, earlier);
    }
  }

  /** What is put out in full supplies the rest. */
  lemma {:induction false} SupplyIsReceived<T(!new)>(e: map<T, seq<T>>, ids: seq<T>, deps: seq<T>, s: set<T>,
          order: seq<T>)
    requires forall d :: d in deps ==> d in s || multiset(order)[d] == Times(e, ids, d)
    ensures Supply(e, ids, deps, s) <= Received(deps, order)
  {
    if deps != [] {
      SupplyIsReceived(e, ids, deps[..|deps| - 1], s, order);
    }
  }

  lemma {:induction false} SupplyWithoutNeed<T(!new)>(e: map<T, seq<T>>, ids: seq<T>, deps: seq<T>, s: set<T>)
    requires forall d :: d in deps ==> d !in s && Times(e, ids, d) >= 1
    ensures Supply(e, ids, deps, s) >= |deps|
  {
    if deps != [] {
      SupplyWithoutNeed(e, ids, deps[..|deps| - 1], s);
    }
  }

  lemma {:induction false} SupplyOfSingles<T(!new)>(e: map<T, seq<T>>, ids: seq<T>, deps: seq<T>, s: set<T>)
    requires forall d :: d in deps ==> Times(e, ids, d) == 1
    ensures Supply(e, ids, deps, s) <= |deps|
    ensures (exists d :: d in deps && d in s) ==> Supply(e, ids, deps, s) < |deps|
  {
    if deps != [] {
      var n := |deps| - 1;
      SupplyOfSingles(e, ids, deps[..n], s);
      assert deps == deps[..n] + [deps[n]];
    }
  }

  /** Starving takes a cycle: so an acyclic list is put out completely. */
  lemma {:induction false} StarvedMeansCycle<T(!new)>(e: map<T, seq<T>>, ids: seq<T>)
    requires Closed(e) && Starving(e, ids) && forall x :: x in e ==> x in ids
    ensures !Acyclic(e)
  {
    var s :| Starved(e, ids, s);
    forall x | x in s ensures DependsInto(e, x, s) {
      if !DependsInto(e, x, s) {
        forall d | d in e[x] ensures d !in s && Times(e, ids, d) >= 1 {
          assert Edge(e, x, d);
        }
        SupplyWithoutNeed(e, ids, e[x], s);
      }
    }
    NoSinkMeansCycle(e, s);
  }

  /** A cycle starves, if nothing listed twice is a dependency. */
  lemma {:induction false} CycleStarves<T(!new)>(e: map<T, seq<T>>, ids: seq<T>)
    requires !Acyclic(e) && forall x, d :: Edge(e, x, d) ==> Times(e, ids, d) == 1
    ensures Starving(e, ids)
  {
    var p :| Cycle(e, p);
    var s := set x | x in p[1..];
    forall x | x in s ensures x in e && Supply(e, ids, e[x], s) < |e[x]| {
      var i :| 0 < i < |p| && p[i] == x;
      var next := if i + 1 < |p| then i + 1 else 1;
      assert Edge(e, p[next - 1], p[next]) && p[next] in p[1..];
      forall d | d in e[x] ensures Times(e, ids, d) == 1 {
        assert Edge(e, x, d);
      }
      SupplyOfSingles(e, ids, e[x], s);
    }
    assert p[1] in p[1..];
    assert Starved(e, ids, s);
  }

  lemma {:induction false} ReceivedFromSingles<T(!new)>(e: map<T, seq<T>>, ids: seq<T>, deps: seq<T>, order: seq<T>)
    requires Within(e, ids, order) && forall d :: d in deps ==> Times(e, ids, d) == 1
    ensures Received(deps, order) <= |deps|
    ensures Received(deps, order) == |deps| ==> forall d :: d in deps ==> d in order
  {
    if deps != [] {
      var n := |deps| - 1;
      ReceivedFromSingles(e, ids, deps[..n], order);
      assert deps == deps[..n] + [deps[n]];
    }
  }

  /** If nothing listed twice is a dependency, every dependency is put out before its dependents. */
  lemma {:induction false} ReleasedIsOrdered<T(!new)>(e: map<T, seq<T>>, ids: seq<T>, order: seq<T>, i: nat, d: T)
    requires Released(e, order) && Within(e, ids, order) && i < |order|
    requires forall x, y :: Edge(e, x, y) ==> Times(e, ids, y) == 1
    requires Edge(e, order[i], d)
    ensures d in order[..i]
  {
    var n := |order| - 1;
    var earlier := order[..n];
    assert order == earlier + [order[n]];
    if i < n {
      ReleasedIsOrdered(e, ids, earlier, i, d);
      assert earlier[..i] == order[..i];
    } else {
      forall y | y in e[order[n]] ensures Times(e, ids, y) == 1 {
        assert Edge(e, order[n], y);
      }
      ReceivedFromSingles(e, ids, e[order[n]], earlier);
    }
  }

  // ---------------------------------------------------------------- the queue

  /** At the head of the outer loop: a counter is what is still to be received, and the nodes
      with nothing to receive are those put out or queued. */
  ghost predicate Kahn<T(!new)>(e: map<T, seq<T>>, ids: seq<T>, indeg: map<T, int>, order: seq<T>, queue: seq<T>) {
    && indeg.Keys == e.Keys
    && (forall x :: x in e ==> indeg[x] == |e[x]| - Received(e[x], order))
    && Listed(e, ids, indeg, order + queue)
    && Released(e, order)
  }

  /** `found` lists the nodes whose counter has reached zero, each as often as it is put out. */
  ghost predicate Listed<T(!new)>(e: map<T, seq<T>>, ids: seq<T>, indeg: map<T, int>, found: seq<T>) {
    forall x :: multiset(found)[x] == if x in e && x in indeg && indeg[x] <= 0 then Times(e, ids, x) else 0
  }

  /** The inner loop after `k` of the dependents `next` of the node just put out. */
  ghost predicate Relaxed<T(!new)>(e: map<T, seq<T>>, indeg: map<T, int>, order: seq<T>, next: seq<T>, k: nat) {
    && k <= |next|
    && indeg.Keys == e.Keys
    && forall x :: x in e ==> indeg[x] == |e[x]| - Received(e[x], order) - Count(next[..k], x)
  }

  lemma {:induction false} RelaxStep<T(!new)>(e: map<T, seq<T>>, indeg: map<T, int>, order: seq<T>, next: seq<T>,
          k: nat)
    requires Relaxed(e, indeg, order, next, k) && k < |next| && next[k] in e
    ensures next[k] in indeg
    ensures Relaxed(e, indeg[next[k] := indeg[next[k]] - 1], order, next, k + 1)
  {
    forall x ensures Count(next[..k + 1], x) == Count(next[..k], x) + if next[k] == x then 1 else 0 {
      CountNext(next, k, x);
    }
  }

  lemma {:induction false} PushFound<T(!new)>(e: map<T, seq<T>>, ids: seq<T>, indeg: map<T, int>, found: seq<T>, x: T)
    requires Listed(e, ids, indeg, found) && x in e && x in indeg && e[x] != []
    ensures var indeg' := indeg[x := indeg[x] - 1];
      Listed(e, ids, indeg', if indeg'[x] == 0 then found + [x] else found)
  {
    var indeg' := indeg[x := indeg[x] - 1];
    forall y ensures multiset(found + [x])[y] == multiset(found)[y] + if y == x then 1 else 0 {
    }
  }

  lemma {:induction false} PopFacts<T(!new)>(e: map<T, seq<T>>, ids: seq<T>, indeg: map<T, int>, order: seq<T>,
          queue: seq<T>)
    requires Kahn(e, ids, indeg, order, queue) && queue != []
    ensures queue[0] in e && Received(e[queue[0]], order) >= |e[queue[0]]|
    ensures Listed(e, ids, indeg, order + [queue[0]] + queue[1..])
    ensures Released(e, order) && forall next :: Relaxed(e, indeg, order, next, 0)
  {
    hide Released, Received;
    var u, found := queue[0], order + queue;
    assert order + [u] + queue[1..] == found;
    assert found[|order|] == u && u in multiset(found);
    forall next ensures Relaxed(e, indeg, order, next, 0) {
      assert next[..0] == [];
    }
  }

  lemma {:induction false} RoomLeft<T(!new)>(e: map<T, seq<T>>, ids: seq<T>, indeg: map<T, int>, found: seq<T>)
    requires Listed(e, ids, indeg, found) && forall x :: x in e ==> x in ids
    ensures |found| <= |ids| && Within(e, ids, found)
  {
    var rest := multiset(ids) - multiset(found);
    assert multiset(found) <= multiset(ids);
    assert |multiset(ids)| == |multiset(found) + rest|;
  }

  lemma {:induction false} OutputKeepsKahn<T(!new)>(e: map<T, seq<T>>, ids: seq<T>, indeg: map<T, int>,
                        order: seq<T>, u: T, next: seq<T>, queue: seq<T>)
    requires u in e && Released(e, order) && Received(e[u], order) >= |e[u]|
    requires Relaxed(e, indeg, order, next, |next|)
    requires DependentsOf(e, u, next)
    requires Listed(e, ids, indeg, order + [u] + queue)
    ensures Kahn(e, ids, indeg, order + [u], queue)
  {
    assert next[..|next|] == next;
    forall x | x in e ensures indeg[x] == |e[x]| - Received(e[x], order + [u]) {
      ReceivedNext(e[x], order, u);
    }
    assert (order + [u])[..|order|] == order;
  }

  /** When the queue runs dry before all nodes are put out, the others starve. */
  lemma {:induction false} StuckMeansStarved<T(!new)>(e: map<T, seq<T>>, ids: seq<T>, indeg: map<T, int>, order: seq<T>)
    requires Kahn(e, ids, indeg, order, []) && Closed(e) && exists x :: x in e && indeg[x] > 0
    ensures Starving(e, ids)
  {
    hide Released, Times;
    assert order + [] == order;
    var rest := set x | x in e && indeg[x] > 0;
    var left :| left in e && indeg[left] > 0;
    assert left in rest;
    forall x | x in rest ensures Supply(e, ids, e[x], rest) < |e[x]| {
      forall d | d in e[x] && d !in rest ensures multiset(order)[d] == Times(e, ids, d) {
        assert Edge(e, x, d);
      }
      SupplyIsReceived(e, ids, e[x], rest, order);
    }
    assert Starved(e, ids, rest);
  }

  // ---------------------------------------------------------------- the algorithm

  ghost predicate DepsKnown<T(!new)>(items: seq<Item<T>>) {
    forall i, d :: 0 <= i < |items| && d in items[i].deps ==> IsId(items, d)
  }

  lemma {:induction false} DepsKnownMeansClosed<T(!new)>(items: seq<Item<T>>, e: map<T, seq<T>>)
    requires Represents(e, items) && DepsKnown(items)
    ensures Closed(e)
  {
    forall u, v | Edge(e, u, v) ensures v in e {
      DepsOfHas(items, u, v);
    }
  }

  method CheckDeps<T(==,!new)>(items: seq<Item<T>>) returns (ok: bool)
    ensures ok <==> DepsKnown(items)
  {
    var ids := set i | 0 <= i < |items| :: items[i].id;
    assert forall d :: d in ids <==> IsId(items, d);
    for i := 0 to |items|
      invariant forall k, d :: 0 <= k < i && d in items[k].deps ==> d in ids
    {
      for j := 0 to |items[i].deps|
        invariant forall k :: 0 <= k < j ==> items[i].deps[k] in ids
      {
        if items[i].deps[j] !in ids {
          assert items[i].deps[j] in items[i].deps;
          return false;
        }
      }
    }
    ok := true;
  }

  method InitialQueue<T(==,!new)>(items: seq<Item<T>>, ghost e: map<T, seq<T>>, indeg: map<T, int>)
    returns (queue: seq<T>)
    requires Represents(e, items) && indeg.Keys == e.Keys
    requires forall x :: x in e ==> indeg[x] == |e[x]|
    ensures Listed(e, Ids(items), indeg, queue)
  {
    hide DepsOf;
    queue := [];
    ghost var ids := Ids(items);
    for i := 0 to |items|
      invariant forall x :: multiset(queue)[x] == if x in e && indeg[x] == 0 then multiset(ids[..i])[x] else 0
    {
      assert ids[..i + 1] == ids[..i] + [items[i].id];
      assert IsId(items, items[i].id);
      if indeg[items[i].id] == 0 {
        queue := queue + [items[i].id];
      }
    }
    assert ids[..|items|] == ids;
  }

  ghost predicate Repeated<T(!new)>(items: seq<Item<T>>, id: T) {
    multiset(Ids(items))[id] > 1
  }

  ghost predicate RepeatsHaveNoDeps<T(!new)>(items: seq<Item<T>>) {
    forall id :: Repeated(items, id) ==> DepsOf(items, id) == []
  }

  ghost predicate RepeatsAreNoDeps<T(!new)>(items: seq<Item<T>>) {
    forall i, d :: 0 <= i < |items| && d in items[i].deps ==> !Repeated(items, d)
  }

  lemma {:induction false} DistinctMeansNoRepeats<T(!new)>(items: seq<Item<T>>)
    requires DistinctIds(items)
    ensures Distinct(Ids(items)) && RepeatsHaveNoDeps(items) && RepeatsAreNoDeps(items)
  {
    forall id ensures !Repeated(items, id) {
      OnceAtMost(Ids(items), id);
    }
  }

  lemma {:induction false} OnceAtMost<T(!new)>(s: seq<T>, x: T)
    requires Distinct(s)
    ensures multiset(s)[x] <= 1
  {
    if s != [] {
      var n := |s| - 1;
      OnceAtMost(s[..n], x);
      assert s == s[..n] + [s[n]];
    }
  }

  lemma {:induction false} IdsAreNodes<T(!new)>(items: seq<Item<T>>)
    ensures forall x :: x in Deps(items) <==> x in Ids(items)
    ensures forall x :: x in Deps(items) <==> multiset(Ids(items))[x] > 0
  {
  }

  /** When the queue is empty: everything has been put out, as often as listed, exactly when
      repeated ids have no dependencies and nothing starves. */
  lemma {:induction false} Outcome<T(!new)>(items: seq<Item<T>>, indeg: map<T, int>, order: seq<T>)
    requires Closed(Deps(items)) && Kahn(Deps(items), Ids(items), indeg, order, [])
    ensures |order| == |items| <==> RepeatsHaveNoDeps(items) && !Starving(Deps(items), Ids(items))
    ensures |order| == |items| ==> multiset(order) == multiset(Ids(items))
    ensures Within(Deps(items), Ids(items), order) && Released(Deps(items), order)
  {
    hide Released, Received, DepsOf, Starving, Closed, RepeatsHaveNoDeps, Within;
    var e, ids := Deps(items), Ids(items);
    IdsAreNodes(items);
    assert order + [] == order;
    RoomLeft(e, ids, indeg, order);
    if |order| == |items| {
      SameSize(order, ids);
      FullOrder(items, order);
    }
    if RepeatsHaveNoDeps(items) && !Starving(e, ids) {
      NothingLeft(items, indeg, order);
      assert |multiset(order)| == |order| && |multiset(ids)| == |ids|;
    }
  }

  lemma {:induction false} FullOrder<T(!new)>(items: seq<Item<T>>, order: seq<T>)
    requires Released(Deps(items), order) && Within(Deps(items), Ids(items), order)
    requires multiset(order) == multiset(Ids(items))
    ensures RepeatsHaveNoDeps(items) && !Starving(Deps(items), Ids(items))
  {
    hide Released, Starved, DepsOf;
    var e, ids := Deps(items), Ids(items);
    IdsAreNodes(items);
    if Starving(e, ids) {
      var s :| Starved(e, ids, s);
      NobodyStarved(e, ids, s, order);
    }
  }

  lemma {:induction false} NothingLeft<T(!new)>(items: seq<Item<T>>, indeg: map<T, int>, order: seq<T>)
    requires Closed(Deps(items)) && Kahn(Deps(items), Ids(items), indeg, order, [])
    requires RepeatsHaveNoDeps(items) && !Starving(Deps(items), Ids(items))
    ensures multiset(order) == multiset(Ids(items))
  {
    hide Released, Received, DepsOf, Starving, Closed;
    var e, ids := Deps(items), Ids(items);
    IdsAreNodes(items);
    assert order + [] == order;
    if x :| x in e && indeg[x] > 0 {
      StuckMeansStarved(e, ids, indeg, order);
    }
    forall x ensures multiset(order)[x] == multiset(ids)[x] {
      assert Repeated(items, x) <==> multiset(ids)[x] > 1;
    }
  }

  lemma {:induction false} SameSize<T(!new)>(part: seq<T>, all: seq<T>)
    requires |part| == |all| && multiset(part) <= multiset(all)
    ensures multiset(part) == multiset(all)
  {
    var rest := multiset(all) - multiset(part);
    assert multiset(all) == multiset(part) + rest;
    assert |rest| == 0;
  }

  lemma {:induction false} NobodyStarved<T(!new)>(e: map<T, seq<T>>, ids: seq<T>, s: set<T>, order: seq<T>)
    requires Starved(e, ids, s) && Released(e, order) && Within(e, ids, order)
    ensures exists x :: x in e && x !in order
  {
    StarvedStays(e, ids, s, order);
    var x :| x in s;
    assert x in e && x !in order;
  }

  /** Starving is having a cycle, unless a repeated id is a dependency. */
  lemma {:induction false} StarvingIffCyclic<T(!new)>(items: seq<Item<T>>)
    requires DepsKnown(items)
    ensures Starving(Deps(items), Ids(items)) ==> !Acyclic(Deps(items))
    ensures RepeatsAreNoDeps(items) && !Acyclic(Deps(items)) ==> Starving(Deps(items), Ids(items))
  {
    hide Starving, Acyclic, Represents;
    DepsRepresent(items);
    DepsKnownMeansClosed(items, Deps(items));
    IdsAreNodes(items);
    if Starving(Deps(items), Ids(items)) {
      StarvedMeansCycle(Deps(items), Ids(items));
    }
    if RepeatsAreNoDeps(items) && !Acyclic(Deps(items)) {
      DepsAreSingle(items);
      CycleStarves(Deps(items), Ids(items));
    }
  }

  lemma {:induction false} DepsAreSingle<T(!new)>(items: seq<Item<T>>)
    requires RepeatsAreNoDeps(items) && DepsKnown(items)
    ensures forall x, d :: Edge(Deps(items), x, d) ==> Times(Deps(items), Ids(items), d) == 1
  {
    IdsAreNodes(items);
    DepsRepresent(items);
    DepsKnownMeansClosed(items, Deps(items));
    forall x, d | Edge(Deps(items), x, d) ensures Times(Deps(items), Ids(items), d) == 1 {
      DepsOfHas(items, x, d);
      assert !Repeated(items, d);
    }
  }

  /** Every dependency stands before its dependents. */
  ghost predicate DepsFirst<T(!new)>(e: map<T, seq<T>>, order: seq<T>) {
    forall i, d :: 0 <= i < |order| && Edge(e, order[i], d) ==> d in order[..i]
  }

  /** `topoSort`. It returns an order exactly when all dependencies are known, no repeated id
      has dependencies and nothing starves; then the ids come as often as they are listed. If no
      repeated id is a dependency, starving is having a cycle, and dependencies come first. */
  method TopoSort<T(==,!new)>(items: seq<Item<T>>) returns (r: Sorted<T>)
    ensures r.UnknownDep? <==> !DepsKnown(items)
    ensures r.Order? <==> DepsKnown(items) && RepeatsHaveNoDeps(items) && !Starving(Deps(items), Ids(items))
    ensures r.Order? ==> multiset(r.order) == multiset(Ids(items))
    ensures DepsKnown(items) && Acyclic(Deps(items)) ==> (r.Order? <==> RepeatsHaveNoDeps(items))
    ensures r.Order? && RepeatsAreNoDeps(items) ==> Acyclic(Deps(items)) && DepsFirst(Deps(items), r.order)
    ensures r.Order? && DistinctIds(items) ==> TopoOrder(Deps(items), r.order)
  {
    hide TopoOrder, Represents, DistinctIds, Adjacency, Kahn, Listed, Closed, DepsKnown, Deps, Acyclic, Starving,
      RepeatsHaveNoDeps, RepeatsAreNoDeps, DepsFirst, OverNodes, Released, Within;
    var known := CheckDeps(items);
    if !known {
      return UnknownDep;
    }
    ghost var e, ids := Deps(items), Ids(items);
    DepsRepresent(items);
    DepsKnownMeansClosed(items, e);
    StarvingIffCyclic(items);
    var indeg, adj := BuildCounters(items, e);
    SameKeys(e, indeg, adj);
    var queue := InitialQueue(items, e, indeg);
    StartKahn(e, ids, indeg, queue);
    IdsAreNodes(items);
    ghost var end: map<T, int>;
    var order;
    order, end := Drain(e, ids, indeg, adj, queue);
    Outcome(items, end, order);
    if |order| != |items| {
      return CycleDetected;
    }
    OrderIsRight(items, order);
    r := Order(order);
  }

  lemma {:induction false} SameKeys<T(!new)>(e: map<T, seq<T>>, indeg: map<T, int>, adj: map<T, seq<T>>)
    requires OverNodes(e, indeg, adj)
    ensures indeg.Keys == e.Keys
  {
  }

  lemma {:induction false} OrderIsRight<T(!new)>(items: seq<Item<T>>, order: seq<T>)
    requires DepsKnown(items) && Released(Deps(items), order) && Within(Deps(items), Ids(items), order)
    requires multiset(order) == multiset(Ids(items))
    ensures RepeatsAreNoDeps(items) ==> DepsFirst(Deps(items), order)
    ensures DistinctIds(items) ==> TopoOrder(Deps(items), order)
  {
    hide Released, Within, DepsKnown, Times, TopoOrder, Deps;
    if RepeatsAreNoDeps(items) {
      DepsAreSingle(items);
      forall i, d | 0 <= i < |order| && Edge(Deps(items), order[i], d) ensures d in order[..i] {
        ReleasedIsOrdered(Deps(items), Ids(items), order, i, d);
      }
    }
    if DistinctIds(items) {
      DistinctMeansNoRepeats(items);
      SameMultisetDistinct(Ids(items), order);
      TopoOrderAt(Deps(items), order);
    }
  }

  lemma {:induction false} SameMultisetDistinct<T(!new)>(s: seq<T>, t: seq<T>)
    requires Distinct(s) && multiset(s) == multiset(t)
    ensures Distinct(t)
  {
    forall i, j | 0 <= i < j < |t| ensures t[i] != t[j] {
      OnceAtMost(s, t[i]);
      assert t == t[..i] + [t[i]] + t[i + 1..j] + [t[j]] + t[j + 1..];
    }
  }

  /** The queue loop. */
  method Drain<T(==,!new)>(ghost e: map<T, seq<T>>, ghost ids: seq<T>, indeg0: map<T, int>, adj: map<T, seq<T>>,
          queue0: seq<T>)
    returns (order: seq<T>, ghost indeg: map<T, int>)
    requires OverNodes(e, indeg0, adj) && Adjacency(e, adj) && Kahn(e, ids, indeg0, [], queue0)
    requires forall x :: x in e ==> x in ids
    ensures Kahn(e, ids, indeg, order, [])
  {
    hide Released, OverNodes, Adjacency, Received, Kahn, Listed, Relaxed;
    var counters, queue := indeg0, queue0;
    order := [];
    while queue != []
      invariant Kahn(e, ids, counters, order, queue)
      decreases |ids| - |order|
    {
      PopFacts(e, ids, counters, order, queue);
      var u := queue[0];
      AdjacentDependents(e, indeg0, adj, u);
      counters, queue := Relax(e, ids, counters, order, u, adj[u], queue[1..]);
      order := order + [u];
    }
    indeg := counters;
  }

  /** One round of the queue loop: decrement the counters of the dependents of `u`, queueing
      those that reach zero. */
  method Relax<T(==,!new)>(ghost e: map<T, seq<T>>, ghost ids: seq<T>, indeg0: map<T, int>, ghost order: seq<T>,
          ghost u: T, next: seq<T>, queue0: seq<T>)
    returns (indeg: map<T, int>, queue: seq<T>)
    requires u in e && Received(e[u], order) >= |e[u]| && Released(e, order)
    requires Relaxed(e, indeg0, order, next, 0) && Listed(e, ids, indeg0, order + [u] + queue0)
    requires DependentsOf(e, u, next) && forall x :: x in e ==> x in ids
    ensures Kahn(e, ids, indeg, order + [u], queue)
    ensures |order| < |ids|
  {
    hide Relaxed, Listed, Released, Received, Kahn;
    indeg, queue := indeg0, queue0;
    for k := 0 to |next|
      invariant Relaxed(e, indeg, order, next, k)
      invariant Listed(e, ids, indeg, order + [u] + queue)
    {
      var x := next[k];
      RelaxStep(e, indeg, order, next, k);
      CountMember(next, x);
      assert e[x] != [];
      PushFound(e, ids, indeg, order + [u] + queue, x);
      assert order + [u] + (queue + [x]) == order + [u] + queue + [x];
      indeg := indeg[x := indeg[x] - 1];
      if indeg[x] == 0 {
        queue := queue + [x];
      }
    }
    OutputKeepsKahn(e, ids, indeg, order, u, next, queue);
    RoomLeft(e, ids, indeg, order + [u] + queue);
  }

  lemma {:induction false} StartKahn<T(!new)>(e: map<T, seq<T>>, ids: seq<T>, indeg: map<T, int>, queue: seq<T>)
    requires indeg.Keys == e.Keys && Listed(e, ids, indeg, queue)
    requires forall id :: id in e ==> indeg[id] == |e[id]|
    ensures Kahn(e, ids, indeg, [], queue)
  {
    hide Listed;
    assert [] + queue == queue;
    forall x | x in e ensures indeg[x] == |e[x]| - Received(e[x], []) {
      NothingReceived(e[x]);
    }
  }

  // ---------------------------------------------------------------- lists that repeat an id

  /** Acyclic, but refused. */
  const REFUSED := [Item("M1", ["M2"]), Item("M1", ["M2"]), Item("M2", [])]

  /** `B` depends on itself, but `A` is put out twice and pays for it. */
  const ACCEPTED := [Item("A", []), Item("A", []), Item("B", ["A", "B"])]

  lemma {:induction false} DepsOfThree<T(!new)>(a: Item<T>, b: Item<T>, c: Item<T>, id: T)
    ensures DepsOf([a, b, c], id) == (if a.id == id then a.deps else []) + (if b.id == id then b.deps else [])
                                     + if c.id == id then c.deps else []
  {
    assert [a, b, c][..2] == [a, b] && [a, b][..1] == [a] && [a][..0] == [];
    assert DepsOf([], id) == [];
    assert DepsOf([a], id) == if a.id == id then a.deps else [];
  }

  lemma {:induction false} RefusedGraph()
    ensures Ids(REFUSED) == ["M1", "M1", "M2"] && DepsKnown(REFUSED)
    ensures Deps(REFUSED) == map["M1" := ["M2", "M2"], "M2" := []] && DepsOf(REFUSED, "M1") == ["M2", "M2"]
  {
    hide DepsOf;
    DepsOfThree(REFUSED[0], REFUSED[1], REFUSED[2], "M1");
    DepsOfThree(REFUSED[0], REFUSED[1], REFUSED[2], "M2");
    assert IsId(REFUSED, "M2") by { assert REFUSED[2].id == "M2"; }
    assert REFUSED == [REFUSED[0], REFUSED[1], REFUSED[2]];
    assert Deps(REFUSED).Keys == {"M1", "M2"} by { assert Ids(REFUSED) == ["M1", "M1", "M2"]; }
    assert Deps(REFUSED)["M1"] == ["M2", "M2"];
    assert Deps(REFUSED)["M2"] == [];
  }

  lemma {:induction false} AcceptedGraph()
    ensures Ids(ACCEPTED) == ["A", "A", "B"] && DepsKnown(ACCEPTED)
    ensures Deps(ACCEPTED) == map["A" := [], "B" := ["A", "B"]] && DepsOf(ACCEPTED, "A") == []
  {
    hide DepsOf;
    DepsOfThree(ACCEPTED[0], ACCEPTED[1], ACCEPTED[2], "A");
    DepsOfThree(ACCEPTED[0], ACCEPTED[1], ACCEPTED[2], "B");
    assert IsId(ACCEPTED, "A") && IsId(ACCEPTED, "B") by { assert ACCEPTED[0].id == "A" && ACCEPTED[2].id == "B"; }
    assert ACCEPTED == [ACCEPTED[0], ACCEPTED[1], ACCEPTED[2]];
    assert Deps(ACCEPTED).Keys == {"A", "B"} by { assert Ids(ACCEPTED) == ["A", "A", "B"]; }
    assert Deps(ACCEPTED)["A"] == [];
    assert Deps(ACCEPTED)["B"] == ["A", "B"];
  }

  /** An acyclic list is refused, and a cyclic one accepted. */
  lemma {:induction false} RepeatsMislead()
    ensures DepsKnown(REFUSED) && Acyclic(Deps(REFUSED)) && !RepeatsHaveNoDeps(REFUSED)
    ensures DepsKnown(ACCEPTED) && !Acyclic(Deps(ACCEPTED)) && RepeatsHaveNoDeps(ACCEPTED)
    ensures !Starving(Deps(ACCEPTED), Ids(ACCEPTED))
  {
    hide Deps, DepsOf, Ids, DepsKnown, Acyclic, Starving;
    RefusedGraph();
    AcceptedGraph();
    assert Repeated(REFUSED, "M1");
    ChainIsAcyclic("M1", "M2");
    LoopIsCyclic("A", "B");
    LoopIsFed("A", "B");
  }

  lemma {:induction false} ChainIsAcyclic<T(!new)>(u: T, v: T)
    requires u != v
    ensures Acyclic(map[u := [v, v], v := []])
  {
    var e := map[u := [v, v], v := []];
    assert [v, u][..1] == [v] && TopoOrder(e, []) && TopoOrder(e, [v]);
    TopoOrderMeansAcyclic(e, [v, u]);
  }

  lemma {:induction false} LoopIsCyclic<T(!new)>(a: T, b: T)
    requires a != b
    ensures !Acyclic(map[a := [], b := [a, b]])
  {
    var e := map[a := [], b := [a, b]];
    assert Cycle(e, [b, b]) by { assert Edge(e, b, b); }
  }

  lemma {:induction false} LoopIsFed<T(!new)>(a: T, b: T)
    requires a != b
    ensures !Starving(map[a := [], b := [a, b]], [a, a, b])
  {
    var e, ids := map[a := [], b := [a, b]], [a, a, b];
    if Starving(e, ids) {
      var s :| Starved(e, ids, s);
      assert a !in s && b in s by { var x :| x in s; }
      TwoSupply(e, ids, a, b, s);
    }
  }

  lemma {:induction false} TwoSupply<T(!new)>(e: map<T, seq<T>>, ids: seq<T>, a: T, b: T, s: set<T>)
    requires a !in s && b in s
    ensures Supply(e, ids, [a, b], s) == Times(e, ids, a)
  {
    assert [a, b][..1] == [a] && [a][..0] == [];
    assert Supply(e, ids, [], s) == 0 && Supply(e, ids, [a], s) == Times(e, ids, a);
  }
}
