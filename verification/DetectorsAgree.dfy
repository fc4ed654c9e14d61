/** The depth-first search of the work graph and the queue algorithm of the engineer-job
    workflow accept exactly the same graphs.
 */
module DetectorsAgree {
  import opened Digraph
  import opened Milestones
  import Validation
  import TopoSort

  /** A milestone list as the workflow sees it. */
  function Items(nodes: Nodes): (r: seq<TopoSort.Item<nat>>)
    ensures |r| == |nodes| && forall i :: 0 <= i < |nodes| ==> r[i] == TopoSort.Item(nodes[i].id, nodes[i].deps)
  {
    seq(|nodes|, i requires 0 <= i < |nodes| => TopoSort.Item(nodes[i].id, nodes[i].deps))
  }

  lemma {:induction false} SameEntry(nodes: Nodes, e: map<nat, seq<nat>>, f: map<nat, seq<nat>>, id: nat)
    requires UniqueIds(nodes) && Represents(e, nodes) && TopoSort.Represents(f, Items(nodes))
    ensures id in f <==> id in e
    ensures id in e ==> f[id] == e[id]
  {
    SameIds(nodes, id);
    if Known(nodes, id) {
      var i :| 0 <= i < |nodes| && nodes[i] == Find(nodes, id).value;
      assert Items(nodes)[i].id == id;
      TopoSort.DepsOfOne(Items(nodes), i);
    }
  }

  lemma {:induction false} SameIds(nodes: Nodes, id: nat)
    ensures TopoSort.IsId(Items(nodes), id) <==> Known(nodes, id)
  {
    if TopoSort.IsId(Items(nodes), id) {
      var i :| 0 <= i < |Items(nodes)| && Items(nodes)[i].id == id;
      assert nodes[i] in nodes;
    }
    if Known(nodes, id) {
      var i :| 0 <= i < |nodes| && nodes[i] == Find(nodes, id).value;
      assert Items(nodes)[i].id == id;
    }
  }

  lemma {:induction false} SameEdges(nodes: Nodes)
    requires UniqueIds(nodes)
    ensures TopoSort.DistinctIds(Items(nodes)) && TopoSort.Deps(Items(nodes)) == Edges(nodes)
  {
    hide Edges, TopoSort.Represents, Represents;
    var e, f := Edges(nodes), TopoSort.Deps(Items(nodes));
    EdgesRepresent(nodes);
    TopoSort.DepsRepresent(Items(nodes));
    forall id ensures (id in f <==> id in e) && (id in e ==> f[id] == e[id]) {
      SameEntry(nodes, e, f, id);
    }
  }

  lemma {:induction false} SameVerdict(nodes: Nodes)
    requires UniqueIds(nodes)
    ensures DepsKnown(nodes) <==> TopoSort.DepsKnown(Items(nodes))
    ensures WellFormed(nodes) <==> TopoSort.DepsKnown(Items(nodes)) && Acyclic(TopoSort.Deps(Items(nodes)))
  {
    SameEdges(nodes);
    var items := Items(nodes);
    forall d ensures TopoSort.IsId(items, d) <==> Known(nodes, d) {
      SameIds(nodes, d);
    }
    assert forall i :: 0 <= i < |nodes| ==> nodes[i] in nodes && items[i].deps == nodes[i].deps;
  }

  /** Run side by side on any graph with unique ids, both accept or both refuse. */
  method BothDetectors(nodes: Nodes) returns (search: Validation.Validation, sorted: TopoSort.Sorted<nat>)
    requires UniqueIds(nodes)
    ensures search.Valid? <==> sorted.Order?
    ensures search.UnknownDep? <==> sorted.UnknownDep?
  {
    SameEdges(nodes);
    SameVerdict(nodes);
    TopoSort.DistinctMeansNoRepeats(Items(nodes));
    ghost var order;
    search, order := Validation.Validate(nodes);
    sorted := TopoSort.TopoSort(Items(nodes));
  }
}
