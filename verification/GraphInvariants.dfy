/** What every action keeps, and why a well-formed graph always has a milestone to work on. */
module GraphInvariants {
  import opened Wrappers
  import opened Digraph
  import opened Sequences
  import opened Strings
  import opened Milestones

  /** What validation accepts, with ids as `add` hands them out; derived statuses may be out of
      date, as in a file just migrated or reset. */
  ghost predicate Consistent(nodes: Nodes) {
    WellFormed(nodes) && UniqueIds(nodes)
  }

  /** The same with derived statuses up to date: the invariant of a graph built through the actions. */
  ghost predicate GraphOk(nodes: Nodes) {
    Consistent(nodes) && Derived(nodes)
  }

  /** Ids ascend in storage and every dependency is older than its dependent. */
  ghost predicate Ascending(nodes: Nodes) {
    && (forall i, j :: 0 <= i < j < |nodes| ==> nodes[i].id < nodes[j].id)
    && (forall n, d :: n in nodes && d in n.deps ==> d < n.id)
  }

  lemma {:induction false} EmptyConsistent()
    ensures Consistent([])
  {
    assert forall u, v :: !Edge(Edges([]), u, v);
    forall p: seq<nat> ensures !Cycle(Edges([]), p) {
      assert |p| > 1 ==> !Edge(Edges([]), p[0], p[1]);
    }
  }

  // ---------------------------------------------------------------- add

  lemma {:induction false} FindAfterPush(nodes: Nodes, n: Milestone, id: nat)
    ensures Find(nodes + [n], id) == if Known(nodes, id) then Find(nodes, id)
                                     else if n.id == id then Some(n) else None
  {
    if nodes == [] {
      assert nodes + [n] == [n];
      assert Find([n], id) == if n.id == id then Some(n) else Find([n][1..], id);
    } else {
      assert (nodes + [n])[1..] == nodes[1..] + [n];
      FindAfterPush(nodes[1..], n, id);
    }
  }

  /** Every node on a cycle is a dependency of some node. */
  lemma {:induction false} OnCycleMeansDependedOn(e: map<nat, seq<nat>>, p: seq<nat>, i: nat) returns (u: nat)
    requires Cycle(e, p) && i < |p|
    ensures Edge(e, u, p[i])
  {
    u := if i == 0 then p[|p| - 2] else p[i - 1];
  }

  /** A brand-new node cannot close a cycle: nothing depends on it yet. */
  lemma {:induction false} NewNodeClosesNoCycle(nodes: Nodes, n: Milestone)
    requires WellFormed(nodes) && !Known(nodes, n.id)
    requires forall d :: d in n.deps ==> Known(nodes, d)
    ensures WellFormed(nodes + [n])
  {
    var grown := nodes + [n];
    forall id ensures Find(grown, id) == if Known(nodes, id) then Find(nodes, id)
                                         else if n.id == id then Some(n) else None {
      FindAfterPush(nodes, n, id);
    }
    var e, f := Edges(nodes), Edges(grown);
    EdgesRepresent(nodes);
    EdgesRepresent(grown);
    forall u, v | Edge(f, u, v) ensures Known(nodes, v) {
      assert Find(grown, u).value in grown;
    }
    forall p: seq<nat> | Cycle(f, p) ensures Cycle(e, p) {
      forall i | 0 < i < |p| ensures Edge(e, p[i - 1], p[i]) {
        var u := OnCycleMeansDependedOn(f, p, i - 1);
        assert Edge(f, p[i - 1], p[i]);
      }
    }
  }

  lemma {:induction false} SettledKeepsOk(nodes: Nodes)
    requires Consistent(nodes)
    ensures GraphOk(Recompute(nodes))
  {
    RecomputeKeepsShape(nodes);
    SameShapeWellFormed(nodes, Recompute(nodes));
    RecomputeDerives(nodes);
  }

  ghost predicate CanAdd(nodes: Nodes, title: string, deps: seq<nat>) {
    Trim(title) != "" && forall d :: d in deps ==> Known(nodes, d)
  }

  /** On a consistent graph, `add` refuses exactly the blank titles and the unknown dependencies,
      and the new graph is sound. */
  lemma {:induction false} AddOnSoundGraph(nodes: Nodes, title: string, deps: seq<nat>)
    requires Consistent(nodes)
    ensures AddTo(nodes, title, deps).Added? <==> CanAdd(nodes, title, deps)
    ensures AddTo(nodes, title, deps).Added? ==>
              GraphOk(AddTo(nodes, title, deps).nodes) && AddTo(nodes, title, deps).id == NextId(nodes)
  {
    if CanAdd(nodes, title, deps) {
      var n := NewNode(nodes, title, deps);
      NewNodeClosesNoCycle(nodes, n);
      SettledKeepsOk(nodes + [n]);
    }
  }

  /** The added node has a fresh id; the ids, dependencies and doneness of the others stay. */
  lemma {:induction false} AddEffect(nodes: Nodes, title: string, deps: seq<nat>)
    requires AddTo(nodes, title, deps).Added?
    ensures var r := AddTo(nodes, title, deps);
      && !Known(nodes, r.id) && Known(r.nodes, r.id) && Find(r.nodes, r.id).value.deps == deps
      && (forall x :: Known(nodes, x) ==> Known(r.nodes, x) && Find(r.nodes, x).value.deps == Find(nodes, x).value.deps)
      && (forall x :: Known(r.nodes, x) ==> Known(nodes, x) || x == r.id)
      && (forall x :: IsDone(r.nodes, x) <==> IsDone(nodes, x))
  {
    var n := NewNode(nodes, title, deps);
    var grown := nodes + [n];
    var r := Recompute(grown);
    RecomputeKeepsShape(grown);
    forall x
      ensures Known(r, x) <==> Known(nodes, x) || x == n.id
      ensures Known(nodes, x) ==> Find(r, x).value.deps == Find(nodes, x).value.deps
      ensures x == n.id ==> Find(r, x).value.deps == deps
      ensures IsDone(r, x) <==> IsDone(nodes, x)
    {
      RecomputeKeepsDone(grown, x);
      FindAfterPush(nodes, n, x);
      var i := SameShapeFind(grown, r, x);
    }
  }

  /** Graphs built by `add` alone list their nodes by age, dependencies before dependents. */
  lemma {:induction false} AddKeepsAscending(nodes: Nodes, title: string, deps: seq<nat>)
    requires Ascending(nodes) && AddTo(nodes, title, deps).Added?
    ensures Ascending(AddTo(nodes, title, deps).nodes)
  {
    var grown := nodes + [NewNode(nodes, title, deps)];
    forall n, d | n in grown && d in n.deps ensures d < n.id {
      if n !in nodes {
        assert Find(nodes, d).value in nodes;
      }
    }
    RecomputeKeepsShape(grown);
    SameShapeAscending(grown, Recompute(grown));
  }

  lemma {:induction false} SameShapeAscending(a: Nodes, b: Nodes)
    requires SameShape(a, b) && Ascending(a)
    ensures Ascending(b)
  {
    assert |Shape(a)| == |Shape(b)|;
    forall i | 0 <= i < |a| ensures a[i].id == b[i].id && a[i].deps == b[i].deps {
      ShapeAt(a, i);
      ShapeAt(b, i);
    }
    forall n, d | n in b && d in n.deps ensures d < n.id {
      var i :| 0 <= i < |b| && b[i] == n;
      assert a[i] in a;
    }
  }

  // ---------------------------------------------------------------- set_status, remove

  lemma {:induction false} WithStatusFind(nodes: Nodes, id: nat, status: NodeStatus, x: nat)
    ensures Find(WithStatus(nodes, id, status), x) ==
            if x == id && Known(nodes, id) then Some(Find(nodes, id).value.(status := status)) else Find(nodes, x)
  {
    if nodes != [] {
      WithStatusFind(nodes[1..], id, status, x);
      var r := WithStatus(nodes, id, status);
      assert r[1..] == if nodes[0].id == id then nodes[1..] else WithStatus(nodes[1..], id, status);
    }
  }

  /** `set_status` makes `id` done or undone as asked and changes no other node's doneness. */
  lemma {:induction false} SetStatusOnSoundGraph(nodes: Nodes, id: nat, status: NodeStatus)
    requires Consistent(nodes) && Known(nodes, id)
    ensures var r := SetStatusOf(nodes, id, status).value;
      && GraphOk(r) && SameShape(nodes, r)
      && (forall x :: IsDone(r, x) <==> if x == id then status == Done else IsDone(nodes, x))
  {
    var changed := WithStatus(nodes, id, status);
    SameShapeWellFormed(nodes, changed);
    RecomputeKeepsShape(changed);
    SettledKeepsOk(changed);
    forall x ensures IsDone(Recompute(changed), x) <==> if x == id then status == Done else IsDone(nodes, x) {
      RecomputeKeepsDone(changed, x);
      WithStatusFind(nodes, id, status, x);
    }
  }

  /** The reset turns what is in progress into pending and changes nothing else, so neither ids nor
      dependencies nor doneness. */
  lemma {:induction false} ResetEffect(nodes: Nodes)
    ensures var r := ResetInProgress(nodes);
      forall i :: 0 <= i < |nodes| ==>
        && (nodes[i].status != InProgress ==> r[i] == nodes[i])
        && (nodes[i].status == InProgress ==> r[i] == nodes[i].(status := Pending))
    ensures SameShape(nodes, ResetInProgress(nodes))
    ensures forall x :: IsDone(ResetInProgress(nodes), x) <==> IsDone(nodes, x)
  {
    var r := ResetInProgress(nodes);
    SameShapeAt(nodes, r);
    forall x ensures IsDone(r, x) <==> IsDone(nodes, x) {
      var i := SameShapeFind(nodes, r, x);
    }
  }

  lemma {:induction false} WithoutFind(nodes: Nodes, id: nat, x: nat)
    ensures Find(Without(nodes, id), x) == if x == id then None else Find(nodes, x)
  {
    if nodes != [] {
      WithoutFind(nodes[1..], id, x);
      if nodes[0].id != id {
        assert Without(nodes, id)[1..] == Without(nodes[1..], id);
      }
    }
  }

  lemma {:induction false} WithoutUnique(nodes: Nodes, id: nat)
    requires UniqueIds(nodes)
    ensures UniqueIds(Without(nodes, id))
  {
    if nodes != [] {
      WithoutUnique(nodes[1..], id);
      forall n | n in Without(nodes[1..], id) ensures n.id != nodes[0].id {
        var j :| 0 <= j < |nodes[1..]| && nodes[1..][j] == n;
        assert nodes[j + 1].id != nodes[0].id;
      }
    }
  }

  lemma {:induction false} WithoutKeepsWellFormed(nodes: Nodes, id: nat)
    requires WellFormed(nodes) && forall n :: n in nodes ==> id !in n.deps
    ensures WellFormed(Without(nodes, id))
  {
    var rest := Without(nodes, id);
    forall x ensures Find(rest, x) == if x == id then None else Find(nodes, x) {
      WithoutFind(nodes, id, x);
    }
    EdgesRepresent(nodes);
    EdgesRepresent(rest);
    FewerEdgesStayAcyclic(Edges(nodes), Edges(rest));
  }

  /** `remove` succeeds exactly on a known node without dependents, and leaves a sound graph. */
  lemma {:induction false} RemoveOnSoundGraph(nodes: Nodes, id: nat)
    requires Consistent(nodes)
    ensures RemoveFrom(nodes, id).Removed? <==> Known(nodes, id) && forall n :: n in nodes ==> id !in n.deps
    ensures RemoveFrom(nodes, id).Removed? ==> GraphOk(RemoveFrom(nodes, id).nodes)
  {
    if RemoveFrom(nodes, id).Removed? {
      WithoutKeepsWellFormed(nodes, id);
      WithoutUnique(nodes, id);
      SettledKeepsOk(Without(nodes, id));
    }
  }

  /** Only the removed node disappears. */
  lemma {:induction false} RemoveEffect(nodes: Nodes, id: nat)
    requires RemoveFrom(nodes, id).Removed?
    ensures var r := RemoveFrom(nodes, id).nodes;
      && (forall x :: Known(r, x) <==> x != id && Known(nodes, x))
      && (forall x :: Known(r, x) ==> Find(r, x).value.deps == Find(nodes, x).value.deps)
      && (forall x :: IsDone(r, x) <==> x != id && IsDone(nodes, x))
  {
    var rest := Without(nodes, id);
    var r := Recompute(rest);
    RecomputeKeepsShape(rest);
    forall x
      ensures IsDone(r, x) <==> x != id && IsDone(nodes, x)
      ensures Known(r, x) <==> x != id && Known(nodes, x)
      ensures Known(r, x) ==> Find(r, x).value.deps == Find(nodes, x).value.deps
    {
      WithoutFind(nodes, id, x);
      RecomputeKeepsDone(rest, x);
      var i := SameShapeFind(rest, r, x);
    }
  }

  // ---------------------------------------------------------------- what every action leaves

  /** `b` is `a` after recomputing: an explicit status stays, and one of the other two follows from
      whether all dependencies are done. Nothing else of the node changes. */
  ghost predicate Rederived(a: Milestone, ready: bool, b: Milestone) {
    && (a.status != Pending && a.status != Blocked ==> b == a)
    && (a.status == Pending || a.status == Blocked ==> b == a.(status := if ready then Pending else Blocked))
  }

  lemma {:induction false} RecomputeIs(nodes: Nodes)
    ensures var r := Recompute(nodes);
      forall i :: 0 <= i < |nodes| ==> Rederived(nodes[i], DepsDone(nodes, nodes[i].deps), r[i])
  {
  }

  /** `add` puts the new node last, with the trimmed title and the given dependencies, and rederives
      the statuses of the others. */
  lemma {:induction false} AddIs(nodes: Nodes, title: string, deps: seq<nat>)
    requires AddTo(nodes, title, deps).Added?
    ensures var r := AddTo(nodes, title, deps).nodes;
      && |r| == |nodes| + 1
      && r[|nodes|] == Milestone(AddTo(nodes, title, deps).id, Trim(title), deps,
                                 if DepsDone(nodes, deps) then Pending else Blocked, [])
      && forall i :: 0 <= i < |nodes| ==> Rederived(nodes[i], DepsDone(nodes, nodes[i].deps), r[i])
  {
    hide Trim, WellFormed;
    var n := NewNode(nodes, title, deps);
    var grown := nodes + [n];
    forall x ensures IsDone(grown, x) <==> IsDone(nodes, x) {
      FindAfterPush(nodes, n, x);
    }
    forall ds: seq<nat> ensures DepsDone(grown, ds) <==> DepsDone(nodes, ds) {
    }
    RecomputeIs(grown);
  }

  lemma {:induction false} WithStatusIs(nodes: Nodes, id: nat, status: NodeStatus) returns (i: nat)
    requires Known(nodes, id)
    ensures i < |nodes| && nodes[i].id == id && forall k :: 0 <= k < i ==> nodes[k].id != id
    ensures WithStatus(nodes, id, status) == nodes[i := nodes[i].(status := status)]
  {
    i := 0;
    if nodes[0].id == id {
      assert nodes == [nodes[0]] + nodes[1..];
    } else {
      var k := WithStatusIs(nodes[1..], id, status);
      i := k + 1;
      assert nodes[1..][k := nodes[i].(status := status)] == nodes[i := nodes[i].(status := status)][1..];
    }
  }

  /** Whether all these are done once `id` has the status. */
  ghost predicate DoneOnce(nodes: Nodes, deps: seq<nat>, id: nat, status: NodeStatus) {
    forall d :: d in deps ==> if d == id then status == Done else IsDone(nodes, d)
  }

  /** `set_status` knows exactly the ids in use, gives the first node with the id the status asked for,
      unless this is one that the dependencies decide, and rederives the statuses of the others. */
  lemma {:induction false} SetStatusIs(nodes: Nodes, id: nat, status: NodeStatus) returns (i: nat)
    ensures SetStatusOf(nodes, id, status).None? <==> forall n :: n in nodes ==> n.id != id
    ensures SetStatusOf(nodes, id, status).Some? ==>
              && i < |nodes| && nodes[i].id == id && (forall k :: 0 <= k < i ==> nodes[k].id != id)
              && var r := SetStatusOf(nodes, id, status).value;
              && |r| == |nodes|
              && forall k :: 0 <= k < |nodes| ==>
                   Rederived(if k == i then nodes[k].(status := status) else nodes[k],
                             DoneOnce(nodes, nodes[k].deps, id, status), r[k])
  {
    i := 0;
    if Known(nodes, id) {
      i := SetStatusAt(nodes, id, status);
    }
  }

  lemma {:induction false} SetStatusAt(nodes: Nodes, id: nat, status: NodeStatus) returns (i: nat)
    requires Known(nodes, id)
    ensures i < |nodes| && nodes[i].id == id && forall k :: 0 <= k < i ==> nodes[k].id != id
    ensures var r := SetStatusOf(nodes, id, status).GetOr([]);
      && |r| == |nodes|
      && forall k :: 0 <= k < |nodes| ==>
           Rederived(if k == i then nodes[k].(status := status) else nodes[k],
                     DoneOnce(nodes, nodes[k].deps, id, status), r[k])
  {
    i := WithStatusIs(nodes, id, status);
    var changed := WithStatus(nodes, id, status);
    forall x ensures IsDone(changed, x) <==> if x == id then status == Done else IsDone(nodes, x) {
      WithStatusFind(nodes, id, status, x);
    }
    forall ds: seq<nat> ensures DepsDone(changed, ds) <==> DoneOnce(nodes, ds, id, status) {
    }
    RecomputeIs(changed);
  }

  ghost function Other(id: nat): Milestone -> bool { (n: Milestone) => n.id != id }

  lemma {:induction false} WithoutPush(nodes: Nodes, n: Milestone, id: nat)
    ensures Without(nodes + [n], id) == Without(nodes, id) + if n.id == id then [] else [n]
  {
    if nodes == [] {
      assert nodes + [n] == [n] && Without([n][1..], id) == [];
    } else {
      assert (nodes + [n])[1..] == nodes[1..] + [n];
      WithoutPush(nodes[1..], n, id);
    }
  }

  lemma {:induction false} NothingWithout(id: nat)
    ensures Without([], id) == []
  {
  }

  lemma {:induction false} WithoutIs(nodes: Nodes, id: nat)
    ensures Filtered(nodes, Other(id), Itself(), Without(nodes, id))
  {
    hide Filtered, Without;
    if nodes == [] {
      FilteredNothing(Other(id), Itself<Milestone>());
      NothingWithout(id);
    } else {
      var n := |nodes| - 1;
      WithoutIs(nodes[..n], id);
      WithoutPush(nodes[..n], nodes[n], id);
      FilteredNext(nodes[..n], Other(id), Itself(), Without(nodes[..n], id), nodes[n]);
      assert nodes == nodes[..n] + [nodes[n]];
    }
  }

  /** `remove` takes the nodes with that id out, keeps the order of the others, and rederives their
      statuses. */
  lemma {:induction false} RemoveIs(nodes: Nodes, id: nat) returns (rest: Nodes)
    requires RemoveFrom(nodes, id).Removed?
    ensures Filtered(nodes, Other(id), Itself(), rest)
    ensures var r := RemoveFrom(nodes, id).nodes;
      && |r| == |rest|
      && forall i :: 0 <= i < |rest| ==> Rederived(rest[i], DepsDone(nodes, rest[i].deps), r[i])
  {
    rest := Without(nodes, id);
    WithoutIs(nodes, id);
    forall x ensures Find(rest, x) == if x == id then None else Find(nodes, x) {
      WithoutFind(nodes, id, x);
    }
    RecomputeIs(rest);
    forall i | 0 <= i < |rest| ensures DepsDone(rest, rest[i].deps) <==> DepsDone(nodes, rest[i].deps) {
      assert rest[i] in nodes;
    }
  }
}
