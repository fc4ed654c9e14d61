/** Concurrent advancing (`advance_one_milestone` in `src/background.rs`): choosing a ready
    milestone and marking it done are two separate critical sections, with a whole model turn
    and any number of other writers in between.
 */
module AdvanceRuns {
  import opened Wrappers
  import opened Digraph
  import opened Milestones
  import opened GraphInvariants
  import opened Scheduler

  /** The graph file and, for every worker in the middle of an advance, the milestone it chose. */
  datatype World = World(nodes: Nodes, chosen: map<nat, nat>)

  datatype Step =
    | Adding(title: string, deps: seq<nat>)
    | Choosing(worker: nat)
    | Finishing(worker: nat)
    | PlanFailing(worker: nat)
    | Setting(id: nat, status: NodeStatus)  // the milestone tool
    | Removing(id: nat)
    | Resetting  // the reset with which the background runner starts

  ghost function Next(w: World, s: Step): World {
    match s
    case Adding(title, deps) =>
      var r := AddTo(w.nodes, title, deps);
      if r.Added? then w.(nodes := r.nodes) else w
    case Choosing(worker) =>
      var n := NextReady(w.nodes);
      w.(chosen := if n.Some? then w.chosen[worker := n.value.id] else w.chosen - {worker})
    case Finishing(worker) => Mark(w, worker, Done)
    case PlanFailing(worker) => Mark(w, worker, Blocked)
    case Setting(id, status) => w.(nodes := StatusSet(w.nodes, id, status))
    case Removing(id) =>
      var r := RemoveFrom(w.nodes, id);
      if r.Removed? then w.(nodes := r.nodes) else w
    case Resetting => w.(nodes := ResetInProgress(w.nodes))
  }

  /** `set_status` whose answer is ignored: an unknown id changes nothing. */
  function StatusSet(nodes: Nodes, id: nat, status: NodeStatus): Nodes {
    SetStatusOf(nodes, id, status).GetOr(nodes)
  }

  function Mark(w: World, worker: nat, status: NodeStatus): World {
    if worker in w.chosen then World(StatusSet(w.nodes, w.chosen[worker], status), w.chosen - {worker}) else w
  }

  ghost function Run(w: World, steps: seq<Step>): World {
    if steps == [] then w else Next(Run(w, steps[..|steps| - 1]), steps[|steps| - 1])
  }

  const EMPTY := World([], map[])

  /** Everything `id` depends on is done. */
  ghost predicate Supported(nodes: Nodes, id: nat) {
    Known(nodes, id) && DepsDone(nodes, Find(nodes, id).value.deps)
  }

  /** The safety property: nothing is done before its dependencies. */
  ghost predicate DoneClosed(nodes: Nodes) {
    forall id :: IsDone(nodes, id) ==> Supported(nodes, id)
  }

  ghost predicate ChosenSupported(w: World) {
    forall worker :: worker in w.chosen ==> Supported(w.nodes, w.chosen[worker])
  }

  ghost predicate Inv(w: World) {
    Consistent(w.nodes) && DoneClosed(w.nodes) && ChosenSupported(w)
  }

  ghost predicate DependsOn(nodes: Nodes, id: nat, d: nat) {
    Known(nodes, id) && d in Find(nodes, id).value.deps
  }

  // ---------------------------------------------------------------- advancing alone is safe

  lemma {:induction false} AddingKeepsInv(w: World, title: string, deps: seq<nat>)
    requires Inv(w)
    ensures Inv(Next(w, Adding(title, deps)))
  {
    AddOnSoundGraph(w.nodes, title, deps);
    if AddTo(w.nodes, title, deps).Added? {
      AddEffect(w.nodes, title, deps);
    }
  }

  lemma {:induction false} ChoosingKeepsInv(w: World, worker: nat)
    requires Inv(w)
    ensures Inv(Next(w, Choosing(worker)))
  {
    var n := NextReady(w.nodes);
    if n.Some? {
      ReadyFacts(w.nodes, n.value);
    }
  }

  lemma {:induction false} StatusEffect(nodes: Nodes, id: nat, status: NodeStatus)
    requires Consistent(nodes) && Known(nodes, id)
    ensures var r := StatusSet(nodes, id, status);
      && Consistent(r)
      && (forall x :: Known(r, x) <==> Known(nodes, x))
      && (forall x :: Known(r, x) ==> Find(r, x).value.deps == Find(nodes, x).value.deps)
      && (forall x :: IsDone(r, x) <==> if x == id then status == Done else IsDone(nodes, x))
  {
    SetStatusOnSoundGraph(nodes, id, status);
    var r := SetStatusOf(nodes, id, status).value;
    forall x ensures Known(r, x) <==> Known(nodes, x)
      ensures Known(r, x) ==> Find(r, x).value.deps == Find(nodes, x).value.deps
    {
      var i := SameShapeFind(nodes, r, x);
    }
  }

  lemma {:induction false} FinishingKeepsInv(w: World, worker: nat)
    requires Inv(w)
    ensures Inv(Next(w, Finishing(worker)))
  {
    hide Consistent, SetStatusOf, Find;
    if worker in w.chosen {
      StatusEffect(w.nodes, w.chosen[worker], Done);
    }
  }

  lemma {:induction false} EmptyInv()
    ensures Inv(EMPTY)
  {
    EmptyConsistent();
  }

  lemma {:induction false} ResettingKeepsInv(w: World)
    requires Inv(w)
    ensures Inv(Next(w, Resetting))
  {
    ResetEffect(w.nodes);
    var r := ResetInProgress(w.nodes);
    SameShapeWellFormed(w.nodes, r);
    forall x
      ensures Known(r, x) <==> Known(w.nodes, x)
      ensures Known(r, x) ==> Find(r, x).value.deps == Find(w.nodes, x).value.deps
    {
      var i := SameShapeFind(w.nodes, r, x);
    }
  }

  ghost predicate Advancing(s: Step) {
    s.Adding? || s.Choosing? || s.Finishing? || s.Resetting?
  }

  lemma {:induction false} AdvancesKeepInv(w: World, steps: seq<Step>)
    requires Inv(w) && forall s :: s in steps ==> Advancing(s)
    ensures Inv(Run(w, steps))
  {
    hide Inv;
    if steps != [] {
      var n := |steps| - 1;
      assert steps == steps[..n] + [steps[n]];
      AdvancesKeepInv(w, steps[..n]);
      assert Advancing(steps[n]);
      var before := Run(w, steps[..n]);
      match steps[n]
      case Adding(title, deps) => AddingKeepsInv(before, title, deps);
      case Choosing(worker) => ChoosingKeepsInv(before, worker);
      case Finishing(worker) => FinishingKeepsInv(before, worker);
      case Resetting => ResettingKeepsInv(before);
      case _ =>
    }
  }

  /** Safety of every interleaving of adds, choices, completions and resets by any number of
      workers, from any file in which nothing is done before its dependencies. */
  lemma {:induction false} AdvancesKeepDoneClosed(file: Nodes, steps: seq<Step>)
    requires Consistent(file) && DoneClosed(file) && forall s :: s in steps ==> Advancing(s)
    ensures DoneClosed(Run(World(file, map[]), steps).nodes)
  {
    AdvancesKeepInv(World(file, map[]), steps);
  }

  // ---------------------------------------------------------------- exactly when runs are safe

  /** Writing `status` is safe: `Done` only above done dependencies, anything else only below
      no done dependent. An unknown id is never written. */
  ghost predicate StatusSafe(nodes: Nodes, id: nat, status: NodeStatus) {
    Known(nodes, id) ==>
      if status == Done then Supported(nodes, id)
      else forall x :: IsDone(nodes, x) ==> !DependsOn(nodes, x, id)
  }

  /** What to check in the graph at hand before a step. */
  ghost predicate StepSafe(w: World, s: Step) {
    match s
    case Finishing(worker) => worker in w.chosen ==> StatusSafe(w.nodes, w.chosen[worker], Done)
    case PlanFailing(worker) => worker in w.chosen ==> StatusSafe(w.nodes, w.chosen[worker], Blocked)
    case Setting(id, status) => StatusSafe(w.nodes, id, status)
    case _ => true
  }

  lemma {:induction false} DoneSafe(nodes: Nodes, id: nat)
    requires Consistent(nodes) && DoneClosed(nodes) && Known(nodes, id)
    ensures DoneClosed(StatusSet(nodes, id, Done)) <==> Supported(nodes, id)
  {
    hide Consistent, StatusSet;
    StatusEffect(nodes, id, Done);
    NoSelfDependency(nodes, id);
    var r := StatusSet(nodes, id, Done);
    assert IsDone(r, id);
    assert Supported(r, id) <==> Supported(nodes, id);
  }

  lemma {:induction false} UndoneSafe(nodes: Nodes, id: nat, status: NodeStatus)
    requires Consistent(nodes) && DoneClosed(nodes) && Known(nodes, id) && status != Done
    ensures DoneClosed(StatusSet(nodes, id, status)) <==> forall x :: IsDone(nodes, x) ==> !DependsOn(nodes, x, id)
  {
    hide Consistent, StatusSet;
    StatusEffect(nodes, id, status);
    NoSelfDependency(nodes, id);
    var r := StatusSet(nodes, id, status);
    forall x | IsDone(nodes, x) && x != id ensures Supported(r, x) <==> !DependsOn(nodes, x, id) {
      assert Supported(nodes, x);
    }
    forall x | IsDone(nodes, x) && DependsOn(nodes, x, id) ensures x != id && IsDone(r, x) {
    }
  }

  lemma {:induction false} NoSelfDependency(nodes: Nodes, id: nat)
    requires Consistent(nodes)
    ensures !DependsOn(nodes, id, id)
  {
    EdgesRepresent(nodes);
    if DependsOn(nodes, id, id) {
      assert Edge(Edges(nodes), id, id);
      assert Cycle(Edges(nodes), [id, id]);
    }
  }

  lemma {:induction false} StatusClosedIff(nodes: Nodes, id: nat, status: NodeStatus)
    requires Consistent(nodes) && DoneClosed(nodes)
    ensures DoneClosed(StatusSet(nodes, id, status)) <==> StatusSafe(nodes, id, status)
  {
    hide Consistent, DoneClosed, Supported;
    if Known(nodes, id) {
      if status == Done {
        DoneSafe(nodes, id);
      } else {
        UndoneSafe(nodes, id, status);
      }
    }
  }

  lemma {:induction false} AddingStaysClosed(w: World, title: string, deps: seq<nat>)
    requires Consistent(w.nodes) && DoneClosed(w.nodes)
    ensures DoneClosed(Next(w, Adding(title, deps)).nodes)
  {
    if AddTo(w.nodes, title, deps).Added? {
      AddEffect(w.nodes, title, deps);
    }
  }

  lemma {:induction false} ResettingStaysClosed(w: World)
    requires DoneClosed(w.nodes)
    ensures DoneClosed(Next(w, Resetting).nodes)
  {
    ResetEffect(w.nodes);
    var r := ResetInProgress(w.nodes);
    forall x | Supported(w.nodes, x) ensures Supported(r, x) {
      var i := SameShapeFind(w.nodes, r, x);
    }
  }

  lemma {:induction false} RemovingStaysClosed(w: World, id: nat)
    requires DoneClosed(w.nodes)
    ensures DoneClosed(Next(w, Removing(id)).nodes)
  {
    hide Recompute, Without;
    if RemoveFrom(w.nodes, id).Removed? {
      RemoveEffect(w.nodes, id);
      var r := RemoveFrom(w.nodes, id).nodes;
      forall x | Supported(w.nodes, x) && x != id ensures Supported(r, x) {
        assert Find(w.nodes, x).value in w.nodes;
      }
    }
  }

  /** One step, of any kind, keeps the property exactly when it passes its check. */
  lemma {:induction false} StepKeepsClosedIff(w: World, s: Step)
    requires Consistent(w.nodes) && DoneClosed(w.nodes)
    ensures DoneClosed(Next(w, s).nodes) <==> StepSafe(w, s)
  {
    hide Consistent, DoneClosed, StatusSet, StatusSafe;
    match s
    case Adding(title, deps) => AddingStaysClosed(w, title, deps);
    case Choosing(worker) =>
    case Finishing(worker) => if worker in w.chosen { StatusClosedIff(w.nodes, w.chosen[worker], Done); }
    case PlanFailing(worker) => if worker in w.chosen { StatusClosedIff(w.nodes, w.chosen[worker], Blocked); }
    case Setting(id, status) => StatusClosedIff(w.nodes, id, status);
    case Removing(id) => RemovingStaysClosed(w, id);
    case Resetting => ResettingStaysClosed(w);
  }

  lemma {:induction false} StatusKeepsOk(nodes: Nodes, id: nat, status: NodeStatus)
    requires Consistent(nodes)
    ensures Consistent(StatusSet(nodes, id, status))
  {
    if Known(nodes, id) {
      StatusEffect(nodes, id, status);
    }
  }

  lemma {:induction false} ResettingKeepsOk(nodes: Nodes)
    requires Consistent(nodes)
    ensures Consistent(ResetInProgress(nodes))
  {
    ResetEffect(nodes);
    SameShapeWellFormed(nodes, ResetInProgress(nodes));
  }

  lemma {:induction false} StepKeepsOk(w: World, s: Step)
    requires Consistent(w.nodes)
    ensures Consistent(Next(w, s).nodes)
  {
    hide Consistent, StatusSet;
    match s
    case Adding(title, deps) => AddOnSoundGraph(w.nodes, title, deps);
    case Choosing(worker) =>
    case Finishing(worker) => if worker in w.chosen { StatusKeepsOk(w.nodes, w.chosen[worker], Done); }
    case PlanFailing(worker) => if worker in w.chosen { StatusKeepsOk(w.nodes, w.chosen[worker], Blocked); }
    case Setting(id, status) => StatusKeepsOk(w.nodes, id, status);
    case Removing(id) => RemoveOnSoundGraph(w.nodes, id);
    case Resetting => ResettingKeepsOk(w.nodes);
  }

  lemma {:induction false} RunKeepsOk(w: World, steps: seq<Step>)
    requires Consistent(w.nodes)
    ensures Consistent(Run(w, steps).nodes)
  {
    hide Consistent, Next;
    if steps != [] {
      RunKeepsOk(w, steps[..|steps| - 1]);
      StepKeepsOk(Run(w, steps[..|steps| - 1]), steps[|steps| - 1]);
    }
  }

  /** The property holds all through a run. */
  ghost predicate AlwaysClosed(w: World, steps: seq<Step>) {
    forall k :: 0 <= k <= |steps| ==> DoneClosed(Run(w, steps[..k]).nodes)
  }

  ghost predicate EveryStepSafe(w: World, steps: seq<Step>) {
    forall k :: 0 <= k < |steps| ==> StepSafe(Run(w, steps[..k]), steps[k])
  }

  /** Over every run of adds, choices, completions, plan failures, status changes, removals and
      resets, by any number of workers: nothing is ever done before its dependencies if and only if every
      step passes its check in the graph it meets. */
  lemma {:induction false} RunIsClosedIff(w: World, steps: seq<Step>)
    requires Consistent(w.nodes) && DoneClosed(w.nodes)
    ensures AlwaysClosed(w, steps) <==> EveryStepSafe(w, steps)
  {
    hide Consistent, DoneClosed, StepSafe, Next;
    if steps == [] {
      assert steps[..0] == [];
    } else {
      var n := |steps| - 1;
      RunIsClosedIff(w, steps[..n]);
      RunKeepsOk(w, steps[..n]);
      OneStepMore(w, steps);
      if AlwaysClosed(w, steps[..n]) {
        assert steps[..n][..n] == steps[..n];
        assert DoneClosed(Run(w, steps[..n]).nodes);
        StepKeepsClosedIff(Run(w, steps[..n]), steps[n]);
      }
    }
  }

  lemma {:induction false} OneStepMore(w: World, steps: seq<Step>)
    requires Consistent(w.nodes) && steps != []
    ensures var n := |steps| - 1;
      && (AlwaysClosed(w, steps) <==> AlwaysClosed(w, steps[..n]) && DoneClosed(Run(w, steps).nodes))
      && (EveryStepSafe(w, steps) <==> EveryStepSafe(w, steps[..n]) && StepSafe(Run(w, steps[..n]), steps[n]))
  {
    hide Consistent, DoneClosed, StepSafe, Run;
    var n := |steps| - 1;
    assert steps[..n + 1] == steps;
    assert forall k :: 0 <= k <= n ==> steps[..n][..k] == steps[..k];
    assert forall k :: 0 <= k < n ==> steps[..n][k] == steps[k];
  }

  // ---------------------------------------------------------------- runs that break it

  function First(status: NodeStatus): Milestone { Milestone(1, "a", [], status, []) }

  function Second(status: NodeStatus): Milestone { Milestone(2, "b", [1], status, []) }

  function Two(first: NodeStatus, second: NodeStatus): Nodes {
    [First(first), Second(second)]
  }

  lemma {:induction false} TwoFacts(a: NodeStatus, b: NodeStatus)
    ensures Find(Two(a, b), 1) == Some(First(a)) && Find(Two(a, b), 2) == Some(Second(b))
    ensures Recompute(Two(a, b)) == Two(Settled(a, false), Settled(b, a != Done))
    ensures NextReady(Two(a, b)) == if a == Pending then Some(First(a))
                                    else if b == Pending && a == Done then Some(Second(b)) else None
  {
    var nodes := Two(a, b);
    assert nodes[1..] == [Second(b)] && [Second(b)][1..] == [];
    assert Find([Second(b)], 2) == Some(Second(b));
    assert DepsDone(nodes, []) && (DepsDone(nodes, [1]) <==> IsDone(nodes, 1));
    assert LowestReady(nodes, [Second(b)]) == if b == Pending && a == Done then Some(Second(b)) else None;
  }

  lemma {:induction false} TwoStatus(a: NodeStatus, b: NodeStatus, s: NodeStatus)
    ensures WithStatus(Two(a, b), 1, s) == Two(s, b) && WithStatus(Two(a, b), 2, s) == Two(a, s)
  {
    assert Two(a, b)[1..] == [Second(b)];
    assert WithStatus([Second(b)], 2, s) == [Second(s)];
  }

  lemma {:induction false} ChooseTwo(a: NodeStatus, b: NodeStatus, chosen: map<nat, nat>, worker: nat)
    ensures Next(World(Two(a, b), chosen), Choosing(worker)) ==
            World(Two(a, b), if a == Pending then chosen[worker := 1]
                             else if b == Pending && a == Done then chosen[worker := 2] else chosen - {worker})
  {
    TwoFacts(a, b);
  }

  lemma {:induction false} MarkTwo(a: NodeStatus, b: NodeStatus, chosen: map<nat, nat>, worker: nat, s: NodeStatus)
    requires worker in chosen && 1 <= chosen[worker] <= 2
    ensures Mark(World(Two(a, b), chosen), worker, s) ==
            World(if chosen[worker] == 1 then Two(Settled(s, false), Settled(b, s != Done))
                  else Two(Settled(a, false), Settled(s, a != Done)), chosen - {worker})
  {
    TwoFacts(a, b);
    TwoStatus(a, b, s);
    TwoFacts(s, b);
    TwoFacts(a, s);
  }

  lemma {:induction false} DoneBeforeFirst(a: NodeStatus)
    requires a != Done
    ensures !DoneClosed(Two(a, Done))
  {
    TwoFacts(a, Done);
    assert 1 in Second(Done).deps && !IsDone(Two(a, Done), 1);
    assert IsDone(Two(a, Done), 2) && !Supported(Two(a, Done), 2);
  }

  /** Two plain adds on the empty graph. */
  lemma {:induction false} TwoAdds(chosen: map<nat, nat>)
    ensures Next(Next(World([], chosen), ADD_FIRST), ADD_SECOND) == World(Two(Pending, Blocked), chosen)
  {
    EmptyInv();
    AddOnSoundGraph([], "a", []);
    AddingKeepsInv(EMPTY, "a", []);
    var w1 := Next(EMPTY, ADD_FIRST);
    assert w1.nodes == [First(Pending)];
    AddOnSoundGraph(w1.nodes, "b", [1]);
    assert Known(w1.nodes, 1);
    assert w1.nodes + [NewNode(w1.nodes, "b", [1])] == Two(Pending, Pending);
    TwoFacts(Pending, Pending);
  }

  const ADD_FIRST := Adding("a", [])
  const ADD_SECOND := Adding("b", [1])

  lemma {:induction false} RunNext(w: World, steps: seq<Step>, s: Step)
    ensures Run(w, steps + [s]) == Next(Run(w, steps), s)
  {
    assert (steps + [s])[..|steps|] == steps;
  }

  /** Two milestones are added, worker 1 finishes the first and chooses the second, while worker 2
      may still be at the first. */
  function Prelude(second: bool): seq<Step> {
    [ADD_FIRST, ADD_SECOND, Choosing(1)] + (if second then [Choosing(2)] else []) + [Finishing(1), Choosing(1)]
  }

  lemma {:induction false} PreludeLeads(second: bool)
    ensures Run(EMPTY, Prelude(second)) ==
            World(Two(Done, Pending), if second then map[1 := 2, 2 := 1] else map[1 := 2])
  {
    hide Next, Two;
    var s2 := [ADD_FIRST, ADD_SECOND];
    RunNext(EMPTY, [], ADD_FIRST);
    assert [] + [ADD_FIRST] == [ADD_FIRST];
    RunNext(EMPTY, [ADD_FIRST], ADD_SECOND);
    assert [ADD_FIRST] + [ADD_SECOND] == s2;
    TwoAdds(map[]);
    RunNext(EMPTY, s2, Choosing(1));
    ChooseTwo(Pending, Blocked, map[], 1);
    var s3 := s2 + [Choosing(1)];
    var chosen := if second then map[1 := 1, 2 := 1] else map[1 := 1];
    var s4 := s3 + if second then [Choosing(2)] else [];
    if second {
      RunNext(EMPTY, s3, Choosing(2));
      ChooseTwo(Pending, Blocked, map[1 := 1], 2);
    } else {
      assert s3 + [] == s3;
    }
    assert Run(EMPTY, s4) == World(Two(Pending, Blocked), chosen);
    RunNext(EMPTY, s4, Finishing(1));
    FinishTwo(Pending, Blocked, chosen, 1);
    RunNext(EMPTY, s4 + [Finishing(1)], Choosing(1));
    ChooseTwo(Done, Pending, chosen - {1}, 1);
    assert Prelude(second) == s4 + [Finishing(1)] + [Choosing(1)];
  }

  lemma {:induction false} FinishTwo(a: NodeStatus, b: NodeStatus, chosen: map<nat, nat>, worker: nat)
    requires worker in chosen && 1 <= chosen[worker] <= 2
    ensures Next(World(Two(a, b), chosen), Finishing(worker)) ==
            World(if chosen[worker] == 1 then Two(Done, Settled(b, false)) else Two(Settled(a, false), Done),
                  chosen - {worker})
  {
    hide Two;
    MarkTwo(a, b, chosen, worker, Done);
  }

  /** Workers 1 and 2 both choose milestone 1; worker 1 finishes it and then milestone 2; the
      late plan failure of worker 2 resets milestone 1 under the finished milestone 2. */
  lemma {:induction false} LatePlanFailureBreaks()
    ensures !DoneClosed(Run(EMPTY, Prelude(true) + [Finishing(1)] + [PlanFailing(2)]).nodes)
  {
    hide Next, Two;
    PreludeLeads(true);
    RunNext(EMPTY, Prelude(true), Finishing(1));
    FinishTwo(Done, Pending, map[1 := 2, 2 := 1], 1);
    RunNext(EMPTY, Prelude(true) + [Finishing(1)], PlanFailing(2));
    FailTwo(Done, map[1 := 2, 2 := 1] - {1}, 2);
    DoneBeforeFirst(Pending);
  }

  /** The same with the last two steps swapped: the plan failure comes first and is harmless by
      itself, but the completion of milestone 2 is no longer safe. */
  lemma {:induction false} LateCompletionBreaks()
    ensures DoneClosed(Run(EMPTY, Prelude(true) + [PlanFailing(2)]).nodes)
    ensures !DoneClosed(Run(EMPTY, Prelude(true) + [PlanFailing(2)] + [Finishing(1)]).nodes)
  {
    hide Next, Two;
    PreludeLeads(true);
    RunNext(EMPTY, Prelude(true), PlanFailing(2));
    FailTwo(Pending, map[1 := 2, 2 := 1], 2);
    NothingDone();
    RunNext(EMPTY, Prelude(true) + [PlanFailing(2)], Finishing(1));
    FinishTwo(Pending, Blocked, map[1 := 2, 2 := 1] - {2}, 1);
    DoneBeforeFirst(Pending);
  }

  lemma {:induction false} FailTwo(b: NodeStatus, chosen: map<nat, nat>, worker: nat)
    requires worker in chosen && chosen[worker] == 1
    ensures Next(World(Two(Done, b), chosen), PlanFailing(worker)) ==
            World(Two(Pending, Settled(b, true)), chosen - {worker})
  {
    hide Two;
    MarkTwo(Done, b, chosen, worker, Blocked);
  }

  lemma {:induction false} NothingDone()
    ensures DoneClosed(Two(Pending, Blocked))
  {
    forall id ensures !IsDone(Two(Pending, Blocked), id) {
      assert Find(Two(Pending, Blocked), id).Some? ==> Find(Two(Pending, Blocked), id).value in Two(Pending, Blocked);
    }
  }

  /** Worker 1 has chosen milestone 2 when both milestones are removed; the next two adds hand
      out ids 1 and 2 again, and the late completion marks the new milestone 2 done. */
  lemma {:induction false} ReusedIdBreaks()
    ensures !DoneClosed(Run(EMPTY, Prelude(false) + [Removing(2)] + [Removing(1)] + [ADD_FIRST] + [ADD_SECOND] +
                                   [Finishing(1)]).nodes)
  {
    hide Next, Two;
    var s := Prelude(false);
    PreludeLeads(false);
    RunNext(EMPTY, s, Removing(2));
    RunNext(EMPTY, s + [Removing(2)], Removing(1));
    RemoveTwo();
    RunNext(EMPTY, s + [Removing(2)] + [Removing(1)], ADD_FIRST);
    RunNext(EMPTY, s + [Removing(2)] + [Removing(1)] + [ADD_FIRST], ADD_SECOND);
    TwoAdds(map[1 := 2]);
    RunNext(EMPTY, s + [Removing(2)] + [Removing(1)] + [ADD_FIRST] + [ADD_SECOND], Finishing(1));
    FinishTwo(Pending, Blocked, map[1 := 2], 1);
    DoneBeforeFirst(Pending);
  }

  lemma {:induction false} RemoveTwo()
    ensures Next(Next(World(Two(Done, Pending), map[1 := 2]), Removing(2)), Removing(1)) == World([], map[1 := 2])
  {
    var nodes := Two(Done, Pending);
    TwoFacts(Done, Pending);
    assert nodes[1..] == [Second(Pending)];
    assert Without(nodes, 2) == [First(Done)];
    assert Recompute([First(Done)]) == [First(Done)];
    assert First(Done) in [First(Done)];
  }
}
