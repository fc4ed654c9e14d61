/** Choosing the next milestone (`next_ready` in `src/workgraph.rs`) and draining the graph
    (the advance loops of `src/background.rs` and `src/agent.rs`).
 */
module Scheduler {
  import opened Wrappers
  import opened Digraph
  import opened Sequences
  import opened Milestones
  import opened GraphInvariants

  predicate IsReady(nodes: Nodes, n: Milestone) {
    n.status == Pending && DepsDone(nodes, n.deps)
  }

  function LowestReady(nodes: Nodes, candidates: Nodes): (r: Option<Milestone>)
    ensures r.None? ==> forall n :: n in candidates ==> !IsReady(nodes, n)
    ensures r.Some? ==> r.value in candidates && IsReady(nodes, r.value)
    ensures r.Some? ==> forall n :: n in candidates && IsReady(nodes, n) ==> r.value.id <= n.id
  {
    if candidates == [] then None
    else
      var first, rest := candidates[0], LowestReady(nodes, candidates[1..]);
      if IsReady(nodes, first) && (rest.None? || first.id <= rest.value.id) then Some(first) else rest
  }

  /** `next_ready`: the lowest-id `Pending` node whose dependencies are all done. */
  function NextReady(nodes: Nodes): (r: Option<Milestone>) {
    LowestReady(nodes, nodes)
  }

  /** No cause-tree statuses and nothing in progress. */
  ghost predicate Plain(nodes: Nodes) {
    forall n :: n in nodes ==> n.status == Pending || n.status == Blocked || n.status == Done
  }

  ghost predicate AllDone(nodes: Nodes) {
    forall n :: n in nodes ==> n.status == Done
  }

  /** No node waits as `Blocked` although its dependencies are done. `load` does not
      recompute, so a file can violate this until the first action. */
  ghost predicate NoStaleBlock(nodes: Nodes) {
    forall n :: n in nodes && n.status == Blocked ==> !DepsDone(nodes, n.deps)
  }

  /** What a drain needs of the file it starts from. Nothing is asked of the derived statuses. */
  ghost predicate Sane(nodes: Nodes) {
    WellFormed(nodes) && UniqueIds(nodes) && Plain(nodes)
  }

  /** There is work to begin with, or none left. */
  ghost predicate Startable(nodes: Nodes) {
    AllDone(nodes) || NextReady(nodes).Some?
  }

  /** Ids whose first node is not done. */
  function Undone(nodes: Nodes): set<nat> {
    set n | n in nodes && !IsDone(nodes, n.id) :: n.id
  }

  /** In an acyclic closed graph some undone node depends on done nodes only. */
  lemma {:induction false} SomeUndoneHasDoneDeps(nodes: Nodes) returns (n: Milestone)
    requires WellFormed(nodes) && Undone(nodes) != {}
    ensures n in nodes && n.status != Done && DepsDone(nodes, n.deps)
  {
    var e, r := Edges(nodes), Undone(nodes);
    if forall u :: u in r ==> DependsInto(e, u, r) {
      NoSinkMeansCycle(e, r);
    }
    var u :| u in r && !DependsInto(e, u, r);
    UndoneMeans(nodes, u);
    n := Find(nodes, u).value;
    forall d | d in n.deps ensures IsDone(nodes, d) {
      assert Edge(e, u, d);
      UndoneMeans(nodes, d);
    }
  }

  /** Liveness: in a closed acyclic graph without stale blocks, a milestone is ready unless
      all are done. Duplicated ids do not matter here. */
  lemma {:induction false} ReadyUnlessAllDone(nodes: Nodes)
    requires WellFormed(nodes) && Plain(nodes) && NoStaleBlock(nodes)
    ensures NextReady(nodes).None? <==> AllDone(nodes)
  {
    if Undone(nodes) != {} {
      var n := SomeUndoneHasDoneDeps(nodes);
      assert IsReady(nodes, n);
    } else if !AllDone(nodes) {
      var n :| n in nodes && n.status != Done;
      forall d | d in n.deps ensures IsDone(nodes, d) {
        UndoneMeans(nodes, d);
      }
      assert IsReady(nodes, n);
    }
  }

  // ---------------------------------------------------------------- draining

  function MarkDone(nodes: Nodes, id: nat): Nodes {
    SetStatusOf(nodes, id, Done).GetOr(nodes)
  }

  datatype Drained = Drained(order: seq<nat>, nodes: Nodes)

  /** Up to `budget` rounds of: take the next ready milestone, work on it, mark it done. */
  function Drain(nodes: Nodes, budget: nat): Drained
    decreases budget
  {
    var next := NextReady(nodes);
    if budget == 0 || next.None? then Drained([], nodes)
    else
      var rest := Drain(MarkDone(nodes, next.value.id), budget - 1);
      Drained([next.value.id] + rest.order, rest.nodes)
  }

  /** The advance loop around turns that may change the graph themselves, one per round. */
  function DrainAround(nodes: Nodes, turns: seq<Nodes -> Nodes>): Drained
    decreases |turns|
  {
    var next := NextReady(nodes);
    if turns == [] || next.None? then Drained([], nodes)
    else
      var rest := DrainAround(MarkDone(turns[0](nodes), next.value.id), turns[1..]);
      Drained([next.value.id] + rest.order, rest.nodes)
  }

  /** With turns that leave the graph alone it is the plain drain. */
  lemma {:induction false} QuietTurnsDrain(nodes: Nodes, turns: seq<Nodes -> Nodes>)
    requires forall i, g :: 0 <= i < |turns| ==> turns[i](g) == g
    ensures DrainAround(nodes, turns) == Drain(nodes, |turns|)
    decreases |turns|
  {
    hide NextReady, MarkDone;
    if turns != [] && NextReady(nodes).Some? {
      assert turns[0](nodes) == nodes;
      forall i, g | 0 <= i < |turns[1..]| ensures turns[1..][i](g) == g {
        assert turns[1..][i] == turns[i + 1];
      }
      QuietTurnsDrain(MarkDone(nodes, NextReady(nodes).value.id), turns[1..]);
    }
  }

  /** Whatever the turns do: the graph in which a round chooses is what the rounds before it left,
      the milestone was ready there, and its status is set to done after the turn, so that it is done
      if the turn has not removed it, while nothing else has changed since the turn but derived
      statuses. */
  lemma {:induction false} RoundFinishesReady(nodes: Nodes, turns: seq<Nodes -> Nodes>, i: nat)
    requires i < |DrainAround(nodes, turns).order|
    ensures |DrainAround(nodes, turns).order| <= |turns|
    ensures DrainAround(nodes, turns).order[..i] == DrainAround(nodes, turns[..i]).order
    ensures var id := DrainAround(nodes, turns).order[i];
      var before, after := DrainAround(nodes, turns[..i]).nodes, DrainAround(nodes, turns[..i + 1]).nodes;
      && NextReady(before).Some? && NextReady(before).value.id == id
      && after == SetStatusOf(turns[i](before), id, Done).GetOr(turns[i](before))
      && SameShape(turns[i](before), after)
      && forall x :: IsDone(after, x) <==> IsDone(turns[i](before), x) || (x == id && Known(after, id))
    decreases |turns|
  {
    hide NextReady, MarkDone;
    OneRound(nodes, turns);
    var id := NextReady(nodes).value.id;
    var next := MarkDone(turns[0](nodes), id);
    OrderFits(next, turns[1..]);
    if i == 0 {
      MarkDoneAnywhere(turns[0](nodes), id);
      OneRound(nodes, turns[..1]);
      assert turns[..1][1..] == [];
    } else {
      RoundFinishesReady(next, turns[1..], i - 1);
      OneRound(nodes, turns[..i]);
      OneRound(nodes, turns[..i + 1]);
      assert turns[..i][1..] == turns[1..][..i - 1] && turns[..i + 1][1..] == turns[1..][..i];
    }
  }

  /** The loop goes on as long as there are turns left and something is ready, and it is the rounds that
      were made, and nothing else, that leave the graph as it is at the end. */
  lemma {:induction false} DrainStops(nodes: Nodes, turns: seq<Nodes -> Nodes>)
    ensures var r := DrainAround(nodes, turns);
      && |r.order| <= |turns|
      && (|r.order| < |turns| ==> NextReady(r.nodes).None?)
      && r == DrainAround(nodes, turns[..|r.order|])
      && (r.order == [] ==> r.nodes == nodes)
    decreases |turns|
  {
    hide NextReady, MarkDone;
    if turns != [] && NextReady(nodes).Some? {
      var next := MarkDone(turns[0](nodes), NextReady(nodes).value.id);
      var n := |DrainAround(next, turns[1..]).order|;
      OneRound(nodes, turns);
      DrainStops(next, turns[1..]);
      assert turns[..n + 1][1..] == turns[1..][..n];
      OneRound(nodes, turns[..n + 1]);
    }
  }

  lemma {:induction false} OneRound(nodes: Nodes, turns: seq<Nodes -> Nodes>)
    requires turns != []
    ensures NextReady(nodes).None? ==> DrainAround(nodes, turns) == Drained([], nodes)
    ensures NextReady(nodes).Some? ==>
              var id := NextReady(nodes).value.id;
              var rest := DrainAround(MarkDone(turns[0](nodes), id), turns[1..]);
              DrainAround(nodes, turns) == Drained([id] + rest.order, rest.nodes)
    ensures forall g: Nodes :: DrainAround(g, []) == Drained([], g)
  {
  }

  lemma {:induction false} OrderFits(nodes: Nodes, turns: seq<Nodes -> Nodes>)
    ensures |DrainAround(nodes, turns).order| <= |turns|
    decreases |turns|
  {
    hide NextReady, MarkDone;
    if turns != [] && NextReady(nodes).Some? {
      OrderFits(MarkDone(turns[0](nodes), NextReady(nodes).value.id), turns[1..]);
    }
  }

  lemma {:induction false} MarkDoneAnywhere(nodes: Nodes, id: nat)
    ensures MarkDone(nodes, id) == SetStatusOf(nodes, id, Done).GetOr(nodes)
    ensures SameShape(nodes, MarkDone(nodes, id))
    ensures forall x :: IsDone(MarkDone(nodes, id), x) <==>
                        IsDone(nodes, x) || (x == id && Known(MarkDone(nodes, id), id))
  {
    var changed := WithStatus(nodes, id, Done);
    var r := MarkDone(nodes, id);
    RecomputeKeepsShape(changed);
    forall x ensures IsDone(r, x) <==> IsDone(nodes, x) || (x == id && Known(r, id)) {
      RecomputeKeepsDone(changed, x);
      WithStatusFind(nodes, id, Done, x);
      var i := SameShapeFind(nodes, r, id);
    }
  }

  lemma {:induction false} ReadyFacts(nodes: Nodes, n: Milestone)
    requires UniqueIds(nodes) && n in nodes
    ensures Find(nodes, n.id) == Some(n)
  {
    var i :| 0 <= i < |nodes| && nodes[i] == n;
    FindUnique(nodes, i);
  }

  lemma {:induction false} MarkDoneStep(nodes: Nodes, n: Milestone)
    requires Sane(nodes) && NextReady(nodes) == Some(n)
    ensures var r := MarkDone(nodes, n.id);
      && GraphOk(r) && Plain(r) && SameShape(nodes, r)
      && !IsDone(nodes, n.id)
      && (forall x :: IsDone(r, x) <==> x == n.id || IsDone(nodes, x))
      && Undone(r) == Undone(nodes) - {n.id} && n.id in Undone(nodes) && |Undone(nodes)| == |Undone(r)| + 1
      && Edges(r) == Edges(nodes)
  {
    ReadyFacts(nodes, n);
    SetStatusOnSoundGraph(nodes, n.id, Done);
    SameShapeEdges(nodes, MarkDone(nodes, n.id));
    var r := MarkDone(nodes, n.id);
    WithStatusPlain(nodes, n.id);
    forall x ensures x in Undone(r) <==> x in Undone(nodes) && x != n.id {
      UndoneMeans(nodes, x);
      UndoneMeans(r, x);
      var i := SameShapeFind(nodes, r, x);
    }
  }

  lemma {:induction false} UndoneMeans(nodes: Nodes, x: nat)
    ensures x in Undone(nodes) <==> Known(nodes, x) && !IsDone(nodes, x)
  {
    if Known(nodes, x) {
      assert Find(nodes, x).value in nodes;
    }
  }

  lemma {:induction false} WithStatusPlain(nodes: Nodes, id: nat)
    requires Plain(nodes)
    ensures Plain(Recompute(WithStatus(nodes, id, Done)))
  {
    var changed := WithStatus(nodes, id, Done);
    WithStatusMembers(nodes, id);
    forall n | n in Recompute(changed) ensures n.status == Pending || n.status == Blocked || n.status == Done {
      var i :| 0 <= i < |changed| && Recompute(changed)[i] == n;
      assert changed[i] in changed;
    }
  }

  lemma {:induction false} WithStatusMembers(nodes: Nodes, id: nat)
    ensures forall n :: n in WithStatus(nodes, id, Done) ==> n in nodes || n.status == Done
  {
    if nodes != [] {
      WithStatusMembers(nodes[1..], id);
    }
  }

  lemma {:induction false} SoundIsStartable(nodes: Nodes)
    requires GraphOk(nodes) && Plain(nodes)
    ensures Sane(nodes) && NoStaleBlock(nodes) && Startable(nodes)
  {
    ReadyUnlessAllDone(nodes);
  }

  /** A drain keeps a graph sane, and leaves it sound as soon as it has finished one milestone. */
  lemma {:induction false} DrainKeepsSound(nodes: Nodes, budget: nat)
    requires Sane(nodes)
    ensures Sane(Drain(nodes, budget).nodes) && SameShape(nodes, Drain(nodes, budget).nodes)
    ensures Drain(nodes, budget).order != [] || GraphOk(nodes) ==> GraphOk(Drain(nodes, budget).nodes)
    decreases budget
  {
    hide GraphOk, Plain, WellFormed, UniqueIds, MarkDone, NextReady, Edges, IsDone, Undone;
    var next := NextReady(nodes);
    if budget > 0 && next.Some? {
      MarkDoneStep(nodes, next.value);
      SoundIsStartable(MarkDone(nodes, next.value.id));
      DrainKeepsSound(MarkDone(nodes, next.value.id), budget - 1);
    }
  }

  /** Once something is ready, `budget` rounds finish `budget` milestones, or all that are left. */
  lemma {:induction false} DrainCount(nodes: Nodes, budget: nat)
    requires Sane(nodes) && Startable(nodes)
    ensures |Drain(nodes, budget).order| == if budget < |Undone(nodes)| then budget else |Undone(nodes)|
    ensures budget >= |Undone(nodes)| ==> AllDone(Drain(nodes, budget).nodes)
    decreases budget
  {
    hide GraphOk, Plain, WellFormed, UniqueIds, AllDone, MarkDone, NextReady, SameShape, Edges, IsDone, Undone;
    AllDoneMeansNoneUndone(nodes);
    var next := NextReady(nodes);
    if AllDone(nodes) {
      AllDoneNoneReady(nodes);
    } else {
      MarkDoneStep(nodes, next.value);
      var r := MarkDone(nodes, next.value.id);
      if budget > 0 {
        SoundIsStartable(r);
        DrainCount(r, budget - 1);
      }
    }
  }

  lemma {:induction false} AllDoneNoneReady(nodes: Nodes)
    requires AllDone(nodes)
    ensures NextReady(nodes).None?
  {
  }

  lemma {:induction false} AllDoneMeansNoneUndone(nodes: Nodes)
    requires Sane(nodes)
    ensures AllDone(nodes) <==> Undone(nodes) == {}
  {
    forall n | n in nodes ensures n.status == Done <==> n.id !in Undone(nodes) {
      ReadyFacts(nodes, n);
    }
  }

  /** Draining finishes everything, given enough rounds, if and only if something is ready to begin
      with or nothing is left to do. */
  lemma {:induction false} DrainCompletesIff(nodes: Nodes)
    requires Sane(nodes)
    ensures (exists budget: nat :: AllDone(Drain(nodes, budget).nodes)) <==> Startable(nodes)
  {
    hide Sane, AllDone, NextReady, MarkDone;
    if Startable(nodes) {
      DrainCount(nodes, |Undone(nodes)|);
    } else {
      forall budget: nat ensures Drain(nodes, budget).nodes == nodes {
      }
    }
  }

  /** A file without stale blocks starts unless all is done. Not conversely: a stale block next to
      a ready milestone is cleared by the first recompute. */
  lemma {:induction false} NoStaleBlockIsStartable(nodes: Nodes)
    requires Sane(nodes) && NoStaleBlock(nodes)
    ensures Startable(nodes)
  {
    ReadyUnlessAllDone(nodes);
  }

  /** A sound graph without cause-tree statuses can be drained after that reset, although the reset
      leaves pending milestones with undone dependencies. */
  lemma {:induction false} ResetIsStartable(nodes: Nodes)
    requires GraphOk(nodes) && forall n :: n in nodes ==> n.status != Hypothesis && n.status != Locked
    ensures Sane(ResetInProgress(nodes)) && Startable(ResetInProgress(nodes))
    ensures Undone(ResetInProgress(nodes)) == Undone(nodes)
  {
    hide WellFormed, UniqueIds, Undone;
    var r := ResetInProgress(nodes);
    ResetEffect(nodes);
    SameShapeWellFormed(nodes, r);
    forall x ensures x in Undone(r) <==> x in Undone(nodes) {
      UndoneMeans(nodes, x);
      UndoneMeans(r, x);
      var i := SameShapeFind(nodes, r, x);
    }
    forall n | n in r
      ensures n.status == Pending || n.status == Blocked || n.status == Done
      ensures n.status == Blocked ==> !DepsDone(r, n.deps)
    {
      var i :| 0 <= i < |r| && r[i] == n;
      assert nodes[i] in nodes;
    }
    NoStaleBlockIsStartable(r);
  }

  /** A drain finishes undone milestones only, each once, and changes no other doneness. */
  lemma {:induction false} DrainFinishesOnce(nodes: Nodes, budget: nat)
    requires Sane(nodes)
    ensures var r := Drain(nodes, budget);
      && Distinct(r.order)
      && (forall x :: x in r.order ==> x in Undone(nodes))
      && (forall x :: IsDone(r.nodes, x) <==> IsDone(nodes, x) || x in r.order)
    decreases budget
  {
    hide GraphOk, Plain, WellFormed, UniqueIds, MarkDone, NextReady, SameShape, Edges, IsDone, Undone;
    var next := NextReady(nodes);
    if budget > 0 && next.Some? {
      MarkDoneStep(nodes, next.value);
      SoundIsStartable(MarkDone(nodes, next.value.id));
      DrainFinishesOnce(MarkDone(nodes, next.value.id), budget - 1);
    }
  }

  lemma {:induction false} ReadyDepsDone(nodes: Nodes, n: Milestone, d: nat)
    requires Sane(nodes) && NextReady(nodes) == Some(n) && Edge(Edges(nodes), n.id, d)
    ensures IsDone(nodes, d)
  {
    ReadyFacts(nodes, n);
  }

  /** Every milestone is finished after its dependencies. */
  lemma {:induction false} DrainFollowsDependencies(nodes: Nodes, budget: nat, i: nat, d: nat)
    requires Sane(nodes) && i < |Drain(nodes, budget).order|
    requires Edge(Edges(nodes), Drain(nodes, budget).order[i], d)
    ensures IsDone(nodes, d) || d in Drain(nodes, budget).order[..i]
    decreases budget
  {
    hide GraphOk, Plain, WellFormed, UniqueIds, MarkDone, NextReady, SameShape, Edges, IsDone, Undone, Edge;
    var n := NextReady(nodes).value;
    if i == 0 {
      ReadyDepsDone(nodes, n, d);
    } else {
      var r := MarkDone(nodes, n.id);
      var rest := Drain(r, budget - 1).order;
      MarkDoneStep(nodes, n);
      SoundIsStartable(r);
      DrainFollowsDependencies(r, budget - 1, i - 1, d);
      assert ([n.id] + rest)[..i] == [n.id] + rest[..i - 1];
    }
  }

  /** On graphs built by `add`, the order of work is the order of creation. */
  lemma {:induction false} DrainAscends(nodes: Nodes, budget: nat, i: nat, x: nat)
    requires Sane(nodes) && NoStaleBlock(nodes) && Ascending(nodes)
    requires i < |Drain(nodes, budget).order|
    requires x in Undone(nodes) && x !in Drain(nodes, budget).order[..i]
    ensures Drain(nodes, budget).order[i] <= x
    decreases budget
  {
    hide GraphOk, Plain, WellFormed, UniqueIds, MarkDone, NextReady, SameShape, Edges, IsDone, Undone, Ascending,
      NoStaleBlock;
    var n := NextReady(nodes).value;
    if i == 0 {
      UndoneBelow(nodes, n, x);
    } else {
      var r := MarkDone(nodes, n.id);
      var rest := Drain(r, budget - 1).order;
      MarkDoneStep(nodes, n);
      SameShapeAscending(nodes, r);
      SoundIsStartable(r);
      assert ([n.id] + rest)[..i] == [n.id] + rest[..i - 1];
      DrainAscends(r, budget - 1, i - 1, x);
    }
  }

  lemma {:induction false} UndoneBelow(nodes: Nodes, n: Milestone, x: nat)
    requires Sane(nodes) && NoStaleBlock(nodes) && Ascending(nodes) && NextReady(nodes) == Some(n)
    requires x in Undone(nodes)
    ensures n.id <= x
    decreases x
  {
    UndoneMeans(nodes, x);
    var m := Find(nodes, x).value;
    if d :| d in m.deps && !IsDone(nodes, d) {
      assert m in nodes && Known(nodes, d);
      UndoneMeans(nodes, d);
      UndoneBelow(nodes, n, d);
    } else {
      assert IsReady(nodes, m);
    }
  }

  /** A loaded file with one `Blocked` node and no dependency stalls for ever. */
  lemma {:induction false} StaleBlockStalls(title: string)
    ensures var nodes := [Milestone(1, title, [], Blocked, [])];
      WellFormed(nodes) && Plain(nodes) && NextReady(nodes).None? && !AllDone(nodes)
      && NextReady(Recompute(nodes)).Some?
  {
    var n := Milestone(1, title, [], Blocked, []);
    var nodes := [n];
    assert n in nodes && Recompute(nodes)[0] in Recompute(nodes);
    assert forall u, v :: !Edge(Edges(nodes), u, v);
    forall p: seq<nat> ensures !Cycle(Edges(nodes), p) {
      assert |p| > 1 ==> !Edge(Edges(nodes), p[0], p[1]);
    }
  }
}
