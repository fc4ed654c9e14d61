/** The mutable work graph of `src/workgraph.rs` and the driver loop that drains it. */
module WorkGraphs {
  import opened Wrappers
  import opened Strings
  import opened Milestones
  import opened Validation
  import opened Scheduler

  class WorkGraph {
    var nodes: Nodes

    constructor ()
      ensures nodes == []
    {
      nodes := [];
    }

    method RecomputeBlocked()
      modifies this
      ensures nodes == Recompute(old(nodes))
    {
      var unmet: seq<bool> := [];
      for i := 0 to |nodes|
        invariant nodes == old(nodes) && |unmet| == i
        invariant forall k :: 0 <= k < i ==> unmet[k] == !DepsDone(nodes, nodes[k].deps)
      {
        unmet := unmet + [!DepsDone(nodes, nodes[i].deps)];
      }
      for i := 0 to |nodes|
        invariant |nodes| == |old(nodes)|
        invariant forall k :: 0 <= k < i ==> nodes[k] == Settle(old(nodes), old(nodes)[k])
        invariant forall k :: i <= k < |nodes| ==> nodes[k] == old(nodes)[k]
      {
        var n := nodes[i];
        match n.status {
          case Pending => if unmet[i] { nodes := nodes[i := n.(status := Blocked)]; }
          case Blocked => if !unmet[i] { nodes := nodes[i := n.(status := Pending)]; }
          case _ =>
        }
      }
    }

    /** Pushes the node, validates, and takes it back when validation fails. */
    method Add(title: string, deps: seq<nat>) returns (id: Option<nat>)
      modifies this
      ensures var r := AddTo(old(nodes), title, deps);
        if r.Added? then id == Some(r.id) && nodes == r.nodes else id == None && nodes == old(nodes)
    {
      if Trim(title) == "" {
        return None;
      }
      for i := 0 to |deps|
        invariant forall k :: 0 <= k < i ==> Known(nodes, deps[k])
        invariant nodes == old(nodes)
      {
        if !Known(nodes, deps[i]) {
          assert deps[i] in deps;
          return None;
        }
      }
      var newId := NextId(nodes);
      nodes := nodes + [NewNode(nodes, title, deps)];
      ghost var order;
      var verdict;
      verdict, order := Validate(nodes);
      if !verdict.Valid? {
        nodes := nodes[..|nodes| - 1];
        return None;
      }
      RecomputeBlocked();
      id := Some(newId);
    }

    method SetStatus(id: nat, status: NodeStatus) returns (found: bool)
      modifies this
      ensures var r := SetStatusOf(old(nodes), id, status);
        found == r.Some? && nodes == r.GetOr(old(nodes))
    {
      if !Known(nodes, id) {
        return false;
      }
      nodes := WithStatus(nodes, id, status);
      RecomputeBlocked();
      found := true;
    }

    method Remove(id: nat) returns (ok: bool)
      modifies this
      ensures var r := RemoveFrom(old(nodes), id);
        ok == r.Removed? && nodes == if r.Removed? then r.nodes else old(nodes)
    {
      if exists n :: n in nodes && id in n.deps {
        return false;
      }
      var before := |nodes|;
      nodes := Without(nodes, id);
      if |nodes| == before {
        return false;
      }
      RecomputeBlocked();
      ok := true;
    }

    /** The advance loop: one turn for each ready milestone, at most as many as there are turns.
        What a turn does to the graph is arbitrary. */
    method DriveWorkgraph(turns: seq<Nodes -> Nodes>) returns (finished: seq<nat>)
      modifies this
      ensures Drained(finished, nodes) == DrainAround(old(nodes), turns)
    {
      hide SetStatusOf, NextReady, DrainAround;
      finished := [];
      var rounds := 0;
      assert turns[0..] == turns;
      while rounds < |turns|
        invariant rounds <= |turns|
        invariant var rest := DrainAround(nodes, turns[rounds..]);
          DrainAround(old(nodes), turns) == Drained(finished + rest.order, rest.nodes)
      {
        var next := NextReady(nodes);
        DrainNext(nodes, turns[rounds..]);
        if next.None? {
          assert finished + [] == finished;
          return;
        }
        ghost var rest := DrainAround(nodes, turns[rounds..]).order;
        assert turns[rounds..][1..] == turns[rounds + 1..];
        nodes := turns[rounds](nodes);
        var marked := SetStatus(next.value.id, Done);
        finished := finished + [next.value.id];
        assert rest == [next.value.id] + DrainAround(nodes, turns[rounds + 1..]).order;
        rounds := rounds + 1;
      }
      DrainNext(nodes, turns[rounds..]);
      assert finished + [] == finished;
    }
  }

  lemma {:induction false} DrainNext(nodes: Nodes, turns: seq<Nodes -> Nodes>)
    ensures turns == [] || NextReady(nodes).None? ==> DrainAround(nodes, turns) == Drained([], nodes)
    ensures turns != [] && NextReady(nodes).Some? ==>
              var id := NextReady(nodes).value.id;
              var rest := DrainAround(MarkDone(turns[0](nodes), id), turns[1..]);
              DrainAround(nodes, turns) == Drained([id] + rest.order, rest.nodes)
  {
  }
}
