/** What the closures given to `with_lock` make of the graph, node by node. */
module FileClosures {
  import opened Wrappers
  import opened Sequences
  import opened Strings
  import opened Milestones
  import opened GraphInvariants
  import opened GraphFile

  /** Listing saves what it has read; a status for an unknown id changes nothing; an action of the
      milestone tool that fails saves what it found. */
  lemma {:induction false} OthersLeaveAlone(g: Nodes, id: nat, status: NodeStatus, action: Op)
    ensures Perform(ListOp, g) == Some(g)
    ensures !Known(g, id) ==> Perform(StatusOp(id, status), g) == Some(g)
    ensures Perform(action, g).None? ==> Perform(TryOp(action), g) == Some(g)
    ensures Perform(action, g).Some? ==> Perform(TryOp(action), g) == Perform(action, g)
  {
    hide AddTo, RemoveFrom, Seeded, ResetInProgress, Recompute, WithStatus;
  }

  /** The quick reset leaves a finished or unknown milestone alone; any other becomes pending, unless
      its dependencies block it. */
  lemma {:induction false} ReopenIs(g: Nodes, id: nat) returns (i: nat)
    ensures var r := Perform(ReopenOp(id), g);
      && r.Some?
      && (IsDone(g, id) || !Known(g, id) ==> r.value == g)
      && (!IsDone(g, id) && Known(g, id) ==>
            && i < |g| && Find(g, id) == Some(g[i]) && |r.value| == |g|
            && forall k :: 0 <= k < |g| ==>
                 Rederived(if k == i then g[k].(status := Pending) else g[k],
                           DoneOnce(g, g[k].deps, id, Pending), r.value[k]))
  {
    hide AddTo, RemoveFrom, Seeded, ResetInProgress, SetStatusOf, IsDone, DoneOnce, Rederived;
    i := SetStatusIs(g, id, Pending);
    if Known(g, id) {
      FirstFound(g, i);
    }
  }

  lemma {:induction false} FirstFound(g: Nodes, i: nat)
    requires i < |g| && forall k :: 0 <= k < i ==> g[k].id != g[i].id
    ensures Find(g, g[i].id) == Some(g[i])
  {
    if i > 0 {
      FirstFound(g[1..], i - 1);
    }
  }

  ghost function Titled(): string -> bool { (title: string) => Trim(title) != "" }

  ghost function Trimmed(): string -> string { (title: string) => Trim(title) }

  /** Seeding adds a pending milestone without dependencies for each title that is not blank, in
      order and with consecutive ids. */
  lemma {:induction false} SeedIs(g: Nodes, titles: seq<string>) returns (names: seq<string>)
    requires Consistent(g)
    ensures Filtered(titles, Titled(), Trimmed(), names) && |names| == Accepted(titles)
    ensures forall x :: IsDone(Seeded(g, titles), x) <==> IsDone(g, x)
    ensures var r := Perform(SeedOp(titles), g);
      && r.Some? && |r.value| == |g| + |names|
      && (names == [] ==> r.value == g)
      && (forall k :: 0 <= k < |names| ==>
            r.value[|g| + k] == Milestone(NextId(g) + k, names[k], [], Pending, []))
      && (forall k :: 0 <= k < |g| && names != [] ==> Rederived(g[k], DepsDone(g, g[k].deps), r.value[k]))
  {
    hide Consistent, AddTo, NextId, Filtered, Rederived, Trim, RemoveFrom, ResetInProgress, SetStatusOf, IsDone;
    if titles == [] {
      names := [];
      FilteredNothing(Titled(), Trimmed());
    } else {
      var n := |titles| - 1;
      var before, title := Seeded(g, titles[..n]), titles[n];
      names := SeedIs(g, titles[..n]);
      SeededIds(g, titles[..n]);
      FilteredNext(titles[..n], Titled(), Trimmed(), names, title);
      assert titles == titles[..n] + [title];
      AddOnSoundGraph(before, title, []);
      if Trim(title) == "" {
        assert names + [] == names;
      } else {
        SeedNext(g, before, names, title);
        AddEffect(before, title, []);
        names := names + [Trim(title)];
      }
    }
  }

  /** Whether before or after some milestones were added, the same are done. */
  lemma {:induction false} SameReady(g: Nodes, before: Nodes, deps: seq<nat>)
    requires forall x :: IsDone(before, x) <==> IsDone(g, x)
    ensures DepsDone(before, deps) <==> DepsDone(g, deps)
  {
    hide IsDone;
  }

  lemma {:induction false} SeedNext(g: Nodes, before: Nodes, names: seq<string>, title: string)
    requires |before| == |g| + |names| && (names == [] ==> before == g)
    requires forall k :: 0 <= k < |names| ==>
               before[|g| + k] == Milestone(NextId(g) + k, names[k], [], Pending, [])
    requires forall k :: 0 <= k < |g| && names != [] ==> Rederived(g[k], DepsDone(g, g[k].deps), before[k])
    requires AddTo(before, title, []).Added? && AddTo(before, title, []).id == NextId(g) + |names|
    requires forall x :: IsDone(before, x) <==> IsDone(g, x)
    ensures var r, names' := AddTo(before, title, []).nodes, names + [Trim(title)];
      && |r| == |g| + |names'|
      && (forall k :: 0 <= k < |names'| ==> r[|g| + k] == Milestone(NextId(g) + k, names'[k], [], Pending, []))
      && (forall k :: 0 <= k < |g| ==> Rederived(g[k], DepsDone(g, g[k].deps), r[k]))
  {
    hide AddTo, NextId, Trim;
    AddIs(before, title, []);
    var r := AddTo(before, title, []).nodes;
    forall k | 0 <= k < |g| ensures Rederived(g[k], DepsDone(g, g[k].deps), r[k]) {
      SameReady(g, before, before[k].deps);
    }
  }
}
