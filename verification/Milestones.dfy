/** The durable milestone graph (`src/workgraph.rs`): node records, lookups by id, the
    derived `Blocked` status, and what each action does to the node list.
 */
module Milestones {
  import opened Wrappers
  import opened Digraph
  import opened Strings

  datatype NodeStatus = Pending | InProgress | Blocked | Done | Hypothesis | Locked

  datatype Milestone = Milestone(id: nat, title: string, deps: seq<nat>, status: NodeStatus, touched: seq<string>)

  type Nodes = seq<Milestone>

  // ---------------------------------------------------------------- lookups

  /** `get`: the first node with that id. */
  function Find(nodes: Nodes, id: nat): (r: Option<Milestone>)
    ensures r.Some? ==> r.value in nodes && r.value.id == id
    ensures r.None? ==> forall n :: n in nodes ==> n.id != id
  {
    if nodes == [] then None
    else if nodes[0].id == id then Some(nodes[0])
    else Find(nodes[1..], id)
  }

  predicate Known(nodes: Nodes, id: nat) {
    Find(nodes, id).Some?
  }

  function Ids(nodes: Nodes): set<nat> {
    set n | n in nodes :: n.id
  }

  /** The dependency relation that lookups by id give. */
  function Edges(nodes: Nodes): map<nat, seq<nat>> {
    map id | id in Ids(nodes) :: Find(nodes, id).value.deps
  }

  ghost predicate UniqueIds(nodes: Nodes) {
    forall i, j :: 0 <= i < j < |nodes| ==> nodes[i].id != nodes[j].id
  }

  ghost predicate DepsKnown(nodes: Nodes) {
    forall n, d :: n in nodes && d in n.deps ==> Known(nodes, d)
  }

  /** What `validate` is for: referential integrity and no dependency cycle. */
  ghost predicate WellFormed(nodes: Nodes) {
    DepsKnown(nodes) && Acyclic(Edges(nodes))
  }

  /** `e` is the dependency relation of `nodes`, said without a comprehension. */
  ghost predicate Represents(e: map<nat, seq<nat>>, nodes: Nodes) {
    forall id :: (id in e <==> Known(nodes, id)) && (id in e ==> e[id] == Find(nodes, id).value.deps)
  }

  lemma {:induction false} EdgesRepresent(nodes: Nodes)
    ensures Represents(Edges(nodes), nodes)
  {
  }

  lemma {:induction false} FindUnique(nodes: Nodes, i: nat)
    requires UniqueIds(nodes) && i < |nodes|
    ensures Find(nodes, nodes[i].id) == Some(nodes[i])
  {
    if i > 0 {
      FindUnique(nodes[1..], i - 1);
    }
  }

  // ---------------------------------------------------------------- derived status

  predicate IsDone(nodes: Nodes, id: nat) {
    var n := Find(nodes, id);
    n.Some? && n.value.status == Done
  }

  predicate DepsDone(nodes: Nodes, deps: seq<nat>) {
    forall d :: d in deps ==> IsDone(nodes, d)
  }

  /** Only `Pending` and `Blocked` follow from the dependencies; the rest is explicit intent. */
  function Settled(status: NodeStatus, blocked: bool): NodeStatus {
    match status
    case Pending => if blocked then Blocked else Pending
    case Blocked => if blocked then Blocked else Pending
    case _ => status
  }

  function Settle(nodes: Nodes, n: Milestone): Milestone {
    n.(status := Settled(n.status, !DepsDone(nodes, n.deps)))
  }

  /** What `recompute_blocked` leaves: every node settled against the statuses before the call. */
  function Recompute(nodes: Nodes): (r: Nodes)
    ensures |r| == |nodes|
  {
    seq(|nodes|, i requires 0 <= i < |nodes| => Settle(nodes, nodes[i]))
  }

  /** A `Pending` node is exactly an inactive node whose dependencies are all done. */
  ghost predicate Derived(nodes: Nodes) {
    forall n :: n in nodes ==>
      && (n.status == Pending ==> DepsDone(nodes, n.deps))
      && (n.status == Blocked ==> !DepsDone(nodes, n.deps))
  }

  /** The part of a graph that validation looks at. */
  ghost function Shape(nodes: Nodes): (r: seq<(nat, seq<nat>)>)
    ensures |r| == |nodes|
  {
    if nodes == [] then [] else [(nodes[0].id, nodes[0].deps)] + Shape(nodes[1..])
  }

  /** Two node lists with the same ids and dependencies, in the same places. */
  ghost predicate SameShape(a: Nodes, b: Nodes) {
    Shape(a) == Shape(b)
  }

  lemma {:induction false} ShapeAt(nodes: Nodes, i: nat)
    requires i < |nodes|
    ensures Shape(nodes)[i] == (nodes[i].id, nodes[i].deps)
  {
    if i > 0 {
      ShapeAt(nodes[1..], i - 1);
    }
  }

  lemma {:induction false} SameShapeAt(a: Nodes, b: Nodes)
    requires |a| == |b| && forall i :: 0 <= i < |a| ==> a[i].id == b[i].id && a[i].deps == b[i].deps
    ensures SameShape(a, b)
  {
    forall i | 0 <= i < |a| ensures Shape(a)[i] == Shape(b)[i] {
      ShapeAt(a, i);
      ShapeAt(b, i);
    }
    assert Shape(a) == Shape(b);
  }

  lemma {:induction false} SameShapeFind(a: Nodes, b: Nodes, id: nat) returns (i: nat)
    requires SameShape(a, b)
    ensures |a| == |b|
    ensures Known(a, id) <==> Known(b, id)
    ensures Known(a, id) ==> i < |a| && Find(a, id) == Some(a[i]) && Find(b, id) == Some(b[i]) && a[i].deps == b[i].deps
  {
    assert |Shape(a)| == |Shape(b)|;
    i := 0;
    if a != [] {
      ShapeAt(a, 0);
      ShapeAt(b, 0);
      if a[0].id != id {
        assert Shape(a)[1..] == Shape(b)[1..];
        var k := SameShapeFind(a[1..], b[1..], id);
        i := k + 1;
      }
    }
  }

  lemma {:induction false} SameShapeEdges(a: Nodes, b: Nodes)
    requires SameShape(a, b)
    ensures Edges(a) == Edges(b)
    ensures forall id :: Known(a, id) <==> Known(b, id)
  {
    forall id ensures Known(a, id) <==> Known(b, id)
      ensures Known(a, id) ==> Find(a, id).value.deps == Find(b, id).value.deps
    {
      var i := SameShapeFind(a, b, id);
    }
    EdgesRepresent(a);
    EdgesRepresent(b);
  }

  /** Validation looks at ids and dependencies only. */
  lemma {:induction false} SameShapeWellFormed(a: Nodes, b: Nodes)
    requires SameShape(a, b)
    ensures WellFormed(a) ==> WellFormed(b)
    ensures UniqueIds(a) ==> UniqueIds(b)
  {
    SameShapeEdges(a, b);
    assert |Shape(a)| == |Shape(b)|;
    forall i | 0 <= i < |a| ensures a[i].id == b[i].id && a[i].deps == b[i].deps {
      ShapeAt(a, i);
      ShapeAt(b, i);
    }
    if DepsKnown(a) {
      forall n, d | n in b && d in n.deps ensures Known(b, d) {
        var i :| 0 <= i < |b| && b[i] == n;
        assert a[i] in a && d in a[i].deps;
      }
    }
  }

  lemma {:induction false} RecomputeKeepsShape(nodes: Nodes)
    ensures SameShape(nodes, Recompute(nodes))
  {
    SameShapeAt(nodes, Recompute(nodes));
  }

  /** Settling never makes a node done or undone. */
  lemma {:induction false} RecomputeKeepsDone(nodes: Nodes, id: nat)
    ensures IsDone(Recompute(nodes), id) <==> IsDone(nodes, id)
  {
    RecomputeKeepsShape(nodes);
    var i := SameShapeFind(nodes, Recompute(nodes), id);
  }

  /** One pass is enough: afterwards every derived status is right. */
  lemma {:induction false} RecomputeDerives(nodes: Nodes)
    ensures Derived(Recompute(nodes))
  {
    var r := Recompute(nodes);
    forall n | n in r
      ensures n.status == Pending ==> DepsDone(r, n.deps)
      ensures n.status == Blocked ==> !DepsDone(r, n.deps)
    {
      var i :| 0 <= i < |r| && r[i] == n;
      assert DepsDone(r, n.deps) <==> DepsDone(nodes, n.deps) by {
        forall d | d in n.deps ensures IsDone(r, d) <==> IsDone(nodes, d) {
          RecomputeKeepsDone(nodes, d);
        }
      }
    }
  }

  // ---------------------------------------------------------------- actions

  /** `next_id`: one above the highest id, 1 for the empty graph. */
  function NextId(nodes: Nodes): (r: nat)
    ensures forall n :: n in nodes ==> n.id < r
    ensures nodes != [] ==> exists n :: n in nodes && n.id + 1 == r
    ensures nodes == [] ==> r == 1
  {
    if nodes == [] then 1
    else
      var rest := NextId(nodes[1..]);
      if |nodes| > 1 && nodes[0].id < rest then rest else nodes[0].id + 1
  }

  datatype AddResult = Added(nodes: Nodes, id: nat) | BlankTitle | UnknownDependency | Invalid

  function NewNode(nodes: Nodes, title: string, deps: seq<nat>): Milestone {
    Milestone(NextId(nodes), Trim(title), deps, Pending, [])
  }

  ghost function AddTo(nodes: Nodes, title: string, deps: seq<nat>): AddResult {
    if Trim(title) == "" then BlankTitle
    else if exists d :: d in deps && !Known(nodes, d) then UnknownDependency
    else
      var grown := nodes + [NewNode(nodes, title, deps)];
      if WellFormed(grown) then Added(Recompute(grown), NextId(nodes)) else Invalid
  }

  function WithStatus(nodes: Nodes, id: nat, status: NodeStatus): (r: Nodes)
    ensures SameShape(nodes, r)
  {
    if nodes == [] then []
    else if nodes[0].id == id then [nodes[0].(status := status)] + nodes[1..]
    else [nodes[0]] + WithStatus(nodes[1..], id, status)
  }

  function SetStatusOf(nodes: Nodes, id: nat, status: NodeStatus): Option<Nodes> {
    if Known(nodes, id) then Some(Recompute(WithStatus(nodes, id, status))) else None
  }

  function Without(nodes: Nodes, id: nat): (r: Nodes)
    ensures forall n :: n in r <==> n in nodes && n.id != id
    ensures |r| <= |nodes| && (|r| == |nodes| <==> !Known(nodes, id)) && (|r| == |nodes| ==> r == nodes)
  {
    if nodes == [] then []
    else if nodes[0].id == id then Without(nodes[1..], id)
    else [nodes[0]] + Without(nodes[1..], id)
  }

  datatype RemoveResult = Removed(nodes: Nodes) | HasDependent | UnknownMilestone

  function RemoveFrom(nodes: Nodes, id: nat): RemoveResult {
    if exists n :: n in nodes && id in n.deps then HasDependent
    else if !Known(nodes, id) then UnknownMilestone
    else Removed(Recompute(Without(nodes, id)))
  }

  /** The reset of `run_background_cfg`: milestones left in progress become pending again, without
      recomputing. */
  function ResetInProgress(nodes: Nodes): (r: Nodes)
    ensures |r| == |nodes|
  {
    seq(|nodes|, i requires 0 <= i < |nodes| =>
      if nodes[i].status == InProgress then nodes[i].(status := Pending) else nodes[i])
  }
}
