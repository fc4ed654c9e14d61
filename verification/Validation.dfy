/** `WorkGraph::validate` (`src/workgraph.rs`): a three-colour depth-first search whose
    colour map is shared by the searches from all roots.
 */
module Validation {
  import opened Wrappers
  import opened Digraph
  import opened Milestones

  datatype Colour = OnStack | Finished

  datatype Validation = Valid | UnknownDep(node: nat, dep: nat) | CycleAt(node: nat)

  /** The state map of the search, read as a current path and the nodes finished so far,
      the latter in an order that lists dependencies first. */
  ghost predicate Search(e: map<nat, seq<nat>>, state: map<nat, Colour>, path: seq<nat>, finished: seq<nat>) {
    && state.Keys <= e.Keys
    && (forall id :: id in path <==> id in state && state[id] == OnStack)
    && (forall id :: id in finished <==> id in state && state[id] == Finished)
    && (path != [] ==> Walk(e, path))
    && TopoOrder(e, finished)
  }

  predicate IsFinished(state: map<nat, Colour>, id: nat) {
    id in state && state[id] == Finished
  }

  /** Colours only deepen: what was entered stays entered, what was finished stays finished. */
  ghost predicate Deepens(state: map<nat, Colour>, later: map<nat, Colour>) {
    forall id :: id in state ==> id in later && (state[id] == Finished ==> later[id] == Finished)
  }

  predicate AllFinished(state: map<nat, Colour>, ids: seq<nat>) {
    forall k :: 0 <= k < |ids| ==> IsFinished(state, ids[k])
  }

  lemma {:induction false} OneMoreFinished(before: map<nat, Colour>, after: map<nat, Colour>, ids: seq<nat>, j: nat)
    requires j < |ids| && AllFinished(before, ids[..j]) && Deepens(before, after) && IsFinished(after, ids[j])
    ensures AllFinished(after, ids[..j + 1])
  {
    forall k | 0 <= k < j ensures IsFinished(after, ids[k]) {
      assert IsFinished(before, ids[..j][k]);
    }
  }

  lemma {:induction false} DeepensTransitively(s0: map<nat, Colour>, s1: map<nat, Colour>, s2: map<nat, Colour>)
    requires Deepens(s0, s1) && Deepens(s1, s2)
    ensures Deepens(s0, s2)
  {
  }

  lemma {:induction false} EnterKeepsSearch(e: map<nat, seq<nat>>, state: map<nat, Colour>, path: seq<nat>,
          finished: seq<nat>, id: nat)
    requires Search(e, state, path, finished)
    requires id in e && id !in state
    requires path != [] ==> Edge(e, path[|path| - 1], id)
    ensures Search(e, state[id := OnStack], path + [id], finished)
  {
  }

  lemma {:induction false} LeaveKeepsSearch(e: map<nat, seq<nat>>, state: map<nat, Colour>, path: seq<nat>,
          finished: seq<nat>, id: nat)
    requires Search(e, state, path + [id], finished)
    requires id !in path && id in e && AllFinished(state, e[id])
    ensures Search(e, state[id := Finished], path, finished + [id])
  {
    assert id in path + [id];
    assert (finished + [id])[..|finished|] == finished;
    assert forall x :: x in path + [id] <==> x in path || x == id;
    if path != [] {
      forall i | 0 < i < |path| ensures Edge(e, path[i - 1], path[i]) {
        assert Edge(e, (path + [id])[i - 1], (path + [id])[i]);
      }
    }
  }

  /** Following dependencies from `u` can lead round a cycle. */
  ghost predicate LeadsIntoCycle(e: map<nat, seq<nat>>, u: nat) {
    exists p :: IntoCycle(e, p) && p[0] == u
  }

  /** A walk that comes back to a node it has visited. */
  ghost predicate IntoCycle(e: map<nat, seq<nat>>, p: seq<nat>) {
    Walk(e, p) && exists i :: 0 <= i < |p| - 1 && p[i] == p[|p| - 1]
  }

  lemma {:induction false} LeadsMeansCycle(e: map<nat, seq<nat>>, u: nat)
    requires LeadsIntoCycle(e, u)
    ensures !Acyclic(e)
  {
    var p :| IntoCycle(e, p) && p[0] == u;
    var i :| 0 <= i < |p| - 1 && p[i] == p[|p| - 1];
    assert Cycle(e, p[i..]) by {
      forall k | 0 < k < |p[i..]| ensures Edge(e, p[i..][k - 1], p[i..][k]) {
        assert Edge(e, p[i + k - 1], p[i + k]);
      }
    }
  }

  /** Where the search that is at `path` and about to look at `id` began. */
  ghost function Root(path: seq<nat>, id: nat): nat {
    (path + [id])[0]
  }

  /** Meeting a node of the current path closes a real cycle. */
  lemma {:induction false} OnStackMeansCycle(e: map<nat, seq<nat>>, state: map<nat, Colour>, path: seq<nat>,
          finished: seq<nat>, id: nat)
    requires Search(e, state, path, finished)
    requires id in state && state[id] == OnStack
    requires path != [] ==> Edge(e, path[|path| - 1], id)
    ensures LeadsIntoCycle(e, Root(path, id))
  {
    hide TopoOrder;
    var i :| 0 <= i < |path| && path[i] == id;
    var p := path + [id];
    forall k | 0 < k < |p| ensures Edge(e, p[k - 1], p[k]) {
      if k < |path| {
        assert Edge(e, path[k - 1], path[k]);
      }
    }
    assert p[i] == p[|p| - 1];
    assert IntoCycle(e, p);
  }

  /** Every node outside `unseen` has been entered; `unseen` shrinks as the search goes down. */
  ghost predicate Covers(e: map<nat, seq<nat>>, state: map<nat, Colour>, unseen: set<nat>) {
    forall id :: id in e && id !in unseen ==> id in state
  }

  lemma {:induction false} EnteringDeepens(state: map<nat, Colour>, id: nat, later: map<nat, Colour>)
    requires id !in state && Deepens(state[id := OnStack], later)
    ensures Deepens(state, later[id := Finished])
  {
    forall x | x in state ensures x in later && (state[x] == Finished ==> later[x] == Finished) {
      assert x in state[id := OnStack];
    }
  }

  /** `has_cycle_from`: an on-stack hit exhibits a real cycle; otherwise `id` and all it
      reaches are appended to a topological order. */
  method HasCycleFrom(nodes: Nodes, ghost e: map<nat, seq<nat>>, id: nat, state: map<nat, Colour>,
                      ghost path: seq<nat>, ghost finished: seq<nat>, ghost unseen: set<nat>)
    returns (found: bool, state': map<nat, Colour>, ghost finished': seq<nat>)
    requires Represents(e, nodes) && Closed(e) && id in e
    requires Search(e, state, path, finished)
    requires path != [] ==> Edge(e, path[|path| - 1], id)
    requires Covers(e, state, unseen)
    ensures found ==> LeadsIntoCycle(e, Root(path, id))
    ensures !found ==> Search(e, state', path, finished') && IsFinished(state', id) && Deepens(state, state')
    decreases unseen
  {
    state', finished' := state, finished;
    if id in state {
      if state[id] == OnStack {
        OnStackMeansCycle(e, state, path, finished, id);
        return true, state, finished;
      }
      return false, state, finished;
    }
    state' := state[id := OnStack];
    EnterKeepsSearch(e, state, path, finished, id);
    ghost var path', entered := path + [id], state';
    assert path'[|path'| - 1] == id;
    var deps := Find(nodes, id).value.deps;
    for j := 0 to |deps|
      invariant Search(e, state', path', finished')
      invariant Deepens(entered, state')
      invariant Covers(e, state', unseen - {id})
      invariant AllFinished(state', deps[..j])
    {
      assert Edge(e, id, deps[j]);
      ghost var before := state';
      found, state', finished' := HasCycleFrom(nodes, e, deps[j], state', path', finished', unseen - {id});
      if found {
        return;
      }
      DeepensTransitively(entered, before, state');
      OneMoreFinished(before, state', deps, j);
    }
    assert deps[..|deps|] == deps;
    EnteringDeepens(state, id, state');
    LeaveKeepsSearch(e, state', path, finished', id);
    state', finished' := state'[id := Finished], finished' + [id];
    found := false;
  }

  lemma {:induction false} DepsKnownMeansClosed(nodes: Nodes)
    requires DepsKnown(nodes)
    ensures Closed(Edges(nodes))
  {
    forall u, v | Edge(Edges(nodes), u, v) ensures v in Edges(nodes) {
      assert Find(nodes, u).value in nodes;
      assert Known(nodes, v);
    }
  }

  /** Dependency `j` of node `i` is dangling, and none before it is. */
  ghost predicate FirstUnknown(nodes: Nodes, i: int, j: int) {
    && 0 <= i < |nodes| && 0 <= j < |nodes[i].deps| && !Known(nodes, nodes[i].deps[j])
    && (forall k :: 0 <= k < j ==> Known(nodes, nodes[i].deps[k]))
    && (forall k, d :: 0 <= k < i && d in nodes[k].deps ==> Known(nodes, d))
  }

  /** The first half of `validate`: the first dangling dependency, if any. */
  method FindUnknownDep(nodes: Nodes) returns (r: Option<(nat, nat)>)
    ensures r.None? <==> DepsKnown(nodes)
    ensures r.Some? ==> exists i, j :: FirstUnknown(nodes, i, j) && r.value == (nodes[i].id, nodes[i].deps[j])
  {
    for i := 0 to |nodes|
      invariant forall k, d :: 0 <= k < i && d in nodes[k].deps ==> Known(nodes, d)
    {
      var n := nodes[i];
      for j := 0 to |n.deps|
        invariant forall k :: 0 <= k < j ==> Known(nodes, n.deps[k])
      {
        if !Known(nodes, n.deps[j]) {
          assert n in nodes && n.deps[j] in n.deps;
          assert FirstUnknown(nodes, i, j);
          return Some((n.id, n.deps[j]));
        }
      }
    }
    r := None;
  }

  lemma {:induction false} NothingSearched(e: map<nat, seq<nat>>)
    ensures Search(e, map[], [], [])
  {
  }

  /** Once the search from every root is finished, all nodes are in the order. */
  lemma {:induction false} RootsCoverAll(nodes: Nodes, e: map<nat, seq<nat>>, state: map<nat, Colour>, order: seq<nat>)
    requires Represents(e, nodes) && Search(e, state, [], order) && RootsFinished(nodes, state, |nodes|)
    ensures forall id :: id in order <==> id in e
  {
    hide TopoOrder;
    forall id | id in e ensures id in order {
      var k :| 0 <= k < |nodes| && nodes[k] == Find(nodes, id).value;
      assert IsFinished(state, nodes[k].id);
    }
  }

  ghost predicate RootsFinished(nodes: Nodes, state: map<nat, Colour>, n: nat)
    requires n <= |nodes|
  {
    forall k :: 0 <= k < n ==> IsFinished(state, nodes[k].id)
  }

  lemma {:induction false} OneMoreRoot(nodes: Nodes, before: map<nat, Colour>, after: map<nat, Colour>, i: nat)
    requires i < |nodes| && RootsFinished(nodes, before, i) && Deepens(before, after) && IsFinished(after, nodes[i].id)
    ensures RootsFinished(nodes, after, i + 1)
  {
    forall k | 0 <= k < i ensures IsFinished(after, nodes[k].id) {
      assert IsFinished(before, nodes[k].id);
    }
  }

  lemma {:induction false} RootIsNode(nodes: Nodes, e: map<nat, seq<nat>>, i: nat)
    requires Represents(e, nodes) && i < |nodes|
    ensures nodes[i].id in e
  {
    assert Known(nodes, nodes[i].id);
  }

  /** The second half of `validate`: one state map is shared by the searches from all roots. */
  method FindCycle(nodes: Nodes, ghost e: map<nat, seq<nat>>) returns (r: Option<nat>, ghost order: seq<nat>)
    requires Represents(e, nodes) && Closed(e)
    ensures r.Some? ==> LeadsIntoCycle(e, r.value)
    ensures r.None? ==> TopoOrder(e, order) && forall id :: id in order <==> id in e
  {
    hide Represents, Closed, TopoOrder, Find, Deepens, RootsFinished, IsFinished;
    order := [];
    var state: map<nat, Colour> := map[];
    NothingSearched(e);
    NoRootYet(nodes);
    for i := 0 to |nodes|
      invariant Search(e, state, [], order)
      invariant RootsFinished(nodes, state, i)
    {
      RootIsNode(nodes, e, i);
      var found;
      ghost var before := state;
      found, state, order := HasCycleFrom(nodes, e, nodes[i].id, state, [], order, e.Keys);
      if found {
        return Some(nodes[i].id), order;
      }
      OneMoreRoot(nodes, before, state, i);
    }
    RootsCoverAll(nodes, e, state, order);
    r := None;
  }

  lemma {:induction false} NoRootYet(nodes: Nodes)
    ensures RootsFinished(nodes, map[], 0)
  {
  }

  /** `validate`: accepts exactly the well-formed graphs, and on acceptance the search has
      produced a topological order of all nodes. */
  method Validate(nodes: Nodes) returns (r: Validation, ghost order: seq<nat>)
    ensures r.Valid? <==> WellFormed(nodes)
    ensures r.Valid? ==> TopoOrder(Edges(nodes), order) && forall id :: id in order <==> id in Ids(nodes)
    ensures r.UnknownDep? <==> !DepsKnown(nodes)
    ensures r.UnknownDep? ==>
              exists i, j :: FirstUnknown(nodes, i, j) && r.node == nodes[i].id && r.dep == nodes[i].deps[j]
    ensures r.CycleAt? ==> DepsKnown(nodes) && LeadsIntoCycle(Edges(nodes), r.node)
  {
    order := [];
    var dangling := FindUnknownDep(nodes);
    if dangling.Some? {
      return UnknownDep(dangling.value.0, dangling.value.1), order;
    }
    ghost var e := Edges(nodes);
    DepsKnownMeansClosed(nodes);
    EdgesRepresent(nodes);
    var at;
    at, order := FindCycle(nodes, e);
    if at.Some? {
      LeadsMeansCycle(e, at.value);
      return CycleAt(at.value), order;
    }
    TopoOrderMeansAcyclic(e, order);
    r := Valid;
  }
}
