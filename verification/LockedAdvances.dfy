/** The graph file as workers really change it: each chooses by reading without the lock, and marks
    under it, after a turn in which anything may have happened. What `AdvanceRuns` says of a graph
    in memory holds of the file, through every interleaving of lock, read, write, rename and crash.
 */
module LockedAdvances {
  import opened Milestones
  import opened GraphInvariants
  import opened Scheduler
  import opened GraphFile
  import A = AdvanceRuns

  // ---------------------------------------------------------------- what commits keep

  /** What to check in the graph that a closure was given. */
  ghost predicate OpSafe(op: Op, g: Nodes) {
    match op
    case StatusOp(id, status) => A.StatusSafe(g, id, status)
    case TryOp(action) => Perform(action, g).Some? ==> OpSafe(action, g)
    case _ => true
  }

  lemma {:induction false} SeedingStaysClosed(g: Nodes, titles: seq<string>)
    requires Consistent(g) && A.DoneClosed(g)
    ensures Consistent(Seeded(g, titles)) && A.DoneClosed(Seeded(g, titles))
    ensures forall x :: A.Supported(g, x) ==> A.Supported(Seeded(g, titles), x)
  {
    hide Consistent, AddTo, A.DoneClosed, A.Supported;
    if titles != [] {
      var n := |titles| - 1;
      SeedingStaysClosed(g, titles[..n]);
      AddingKeeps(Seeded(g, titles[..n]), titles[n], []);
    }
  }

  lemma {:induction false} AddingKeeps(g: Nodes, title: string, deps: seq<nat>)
    requires Consistent(g) && A.DoneClosed(g)
    ensures var r := if AddTo(g, title, deps).Added? then AddTo(g, title, deps).nodes else g;
      && Consistent(r) && A.DoneClosed(r)
      && forall x :: A.Supported(g, x) ==> A.Supported(r, x)
  {
    AddOnSoundGraph(g, title, deps);
    if AddTo(g, title, deps).Added? {
      AddEffect(g, title, deps);
    }
  }

  /** A closure leaves nothing done before its dependencies exactly when it passes its check. */
  lemma {:induction false} OpKeepsClosedIff(op: Op, g: Nodes)
    requires Consistent(g) && A.DoneClosed(g) && Named(op) && Perform(op, g).Some?
    ensures Consistent(Perform(op, g).value)
    ensures A.DoneClosed(Perform(op, g).value) <==> OpSafe(op, g)
  {
    hide Consistent, A.DoneClosed, A.StatusSafe;
    ActionMovesIds(g, op);
    match op
    case AddOp(title, deps) => A.AddingStaysClosed(A.World(g, map[]), title, deps);
    case StatusOp(id, status) => A.StatusClosedIff(g, id, status);
    case RemoveOp(id) => A.RemovingStaysClosed(A.World(g, map[]), id);
    case ReopenOp(id) => ReopeningIsSafe(g, id);
    case ResetOp => A.ResettingStaysClosed(A.World(g, map[]));
    case SeedOp(titles) => SeedingStaysClosed(g, titles);
    case ListOp =>
    case TryOp(action) => if Perform(action, g).Some? { OpKeepsClosedIff(action, g); }
    case OtherOp(_) =>
  }

  /** A milestone that is not done has no done dependent to begin with. */
  lemma {:induction false} ReopeningIsSafe(g: Nodes, id: nat)
    requires Consistent(g) && A.DoneClosed(g)
    ensures A.DoneClosed(Perform(ReopenOp(id), g).value)
  {
    hide Consistent;
    if !IsDone(g, id) {
      A.StatusClosedIff(g, id, Pending);
      forall x | IsDone(g, x) ensures !A.DependsOn(g, x, id) {
        assert A.Supported(g, x);
      }
    }
  }

  ghost predicate Closed(origin: Origin) {
    Sound(origin) && A.DoneClosed(Initial(origin)) && A.DoneClosed(origin.todos)
  }

  ghost predicate AllNamed(commits: seq<Commit>) {
    forall c :: c in commits ==> Named(c.op)
  }

  ghost predicate ClosedUpto(origin: Origin, commits: seq<Commit>, n: nat)
    requires n <= |commits|
  {
    forall k :: 0 <= k <= n ==> A.DoneClosed(Fold(origin, commits[..k]))
  }

  ghost predicate SafeUpto(origin: Origin, commits: seq<Commit>, n: nat)
    requires n <= |commits|
  {
    forall k :: 0 <= k < n ==> OpSafe(commits[k].op, Seen(origin, commits, k))
  }

  /** Whatever the closures were run on: after no commit is anything done before its dependencies, if
      and only if every closure passed its check in what it was run on. */
  lemma {:induction false} CommitsKeepClosedIff(origin: Origin, commits: seq<Commit>, n: nat)
    requires Closed(origin) && Succeeded(origin, commits) && AllNamed(commits) && n <= |commits|
    ensures Consistent(Fold(origin, commits[..n]))
    ensures ClosedUpto(origin, commits, n) <==> SafeUpto(origin, commits, n)
  {
    hide Consistent, A.DoneClosed, OpSafe, Succeeded, Perform, Named, Fold;
    if n == 0 {
      NoCommits(origin, commits);
    } else {
      CommitsKeepClosedIff(origin, commits, n - 1);
      FoldNext(origin, commits, n - 1);
      EmptyConsistent();
      NothingDone();
      assert commits[n - 1] in commits;
      if ClosedUpto(origin, commits, n - 1) {
        OpKeepsClosedIff(commits[n - 1].op, Seen(origin, commits, n - 1));
      } else {
        SucceededPrefix(origin, commits, n);
        FileHoldsPresent(origin, commits[..n]);
      }
    }
  }

  lemma {:induction false} NoCommits(origin: Origin, commits: seq<Commit>)
    requires Closed(origin)
    ensures Fold(origin, commits[..0]) == Initial(origin)
    ensures ClosedUpto(origin, commits, 0)
  {
  }

  lemma {:induction false} NothingDone()
    ensures A.DoneClosed([])
  {
  }

  // ---------------------------------------------------------------- workers

  /** The file with its processes, and the milestone that each worker has chosen. */
  datatype Site = Site(file: World, chosen: map<nat, nat>)

  datatype Move =
    | Choose(p: nat)
    | Mark(p: nat)
    | Do(step: Step)

  /** Choosing reads the file at any moment, marking calls `with_lock`; every other step of a process
      is one of the file protocol. */
  ghost function After(origin: Origin, s: Site, m: Move): Site {
    match m
    case Choose(p) =>
      var n := NextReady(Contents(origin, s.file));
      s.(chosen := if n.Some? then s.chosen[p := n.value.id] else s.chosen - {p})
    case Mark(p) =>
      if p in s.chosen && PhaseOf(s.file, p).Idle?
      then Site(Next(origin, s.file, Call(p, StatusOp(s.chosen[p], Done))), s.chosen - {p}) else s
    case Do(step) => s.(file := Next(origin, s.file, step))
  }

  ghost function AfterAll(origin: Origin, s: Site, ms: seq<Move>): Site {
    if ms == [] then s else After(origin, AfterAll(origin, s, ms[..|ms| - 1]), ms[|ms| - 1])
  }

  /** Closures that make nothing undone. */
  ghost predicate Grows(op: Op) {
    match op
    case AddOp(_, _) => true
    case SeedOp(_) => true
    case ResetOp => true
    case ListOp => true
    case TryOp(action) => Grows(action)
    case _ => false
  }

  /** Besides choosing and marking, processes add, seed, reset and list, and can read the file; they
      may fail and crash anywhere. */
  ghost predicate Allowed(m: Move) {
    match m
    case Do(Call(_, op)) => Grows(op)
    case Do(Load(_, source)) => source == FromFile
    case _ => true
  }

  /** A closure on its way to the file does no harm to the file as it is. */
  ghost predicate Harmless(op: Op, g: Nodes) {
    Grows(op) || (op.StatusOp? && op.status == Done && A.Supported(g, op.id))
  }

  ghost predicate PhaseHarmless(phase: Phase, g: Nodes) {
    match phase
    case Idle => true
    case Renamed => true
    case Failed => true
    case Waiting(op) => Harmless(op, g)
    case Holding(op) => Harmless(op, g)
    case Loaded(op, source, _) => Harmless(op, g) && source == FromFile
    case Mutated(op, source, _) => Harmless(op, g) && source == FromFile
    case Writing(op, source, _) => Harmless(op, g) && source == FromFile
    case Written(op, source, _) => Harmless(op, g) && source == FromFile
  }

  ghost predicate SiteOk(origin: Origin, s: Site) {
    var g := Contents(origin, s.file);
    && Inv(origin, s.file) && Consistent(g) && A.DoneClosed(g)
    && (forall p :: p in s.chosen ==> A.Supported(g, s.chosen[p]))
    && (forall p :: PhaseHarmless(PhaseOf(s.file, p), g))
  }

  /** What a harmless closure does: everything supported stays supported. */
  lemma {:induction false} HarmlessEffect(op: Op, g: Nodes)
    requires Consistent(g) && A.DoneClosed(g) && Harmless(op, g) && Perform(op, g).Some?
    ensures var r := Perform(op, g).value;
      && Consistent(r) && A.DoneClosed(r)
      && forall x :: A.Supported(g, x) ==> A.Supported(r, x)
  {
    match op
    case AddOp(title, deps) => AddingKeeps(g, title, deps);
    case StatusOp(id, status) => DoneKeeps(g, id);
    case ResetOp => ResettingKeeps(g);
    case SeedOp(titles) => SeedingStaysClosed(g, titles);
    case ListOp =>
    case TryOp(action) => if Perform(action, g).Some? { HarmlessEffect(action, g); }
    case _ =>
  }

  lemma {:induction false} DoneKeeps(g: Nodes, id: nat)
    requires Consistent(g) && A.DoneClosed(g) && A.Supported(g, id)
    ensures var r := SetStatusOf(g, id, Done).GetOr(g);
      && Consistent(r) && A.DoneClosed(r)
      && forall x :: A.Supported(g, x) ==> A.Supported(r, x)
  {
    hide Consistent;
    A.StatusEffect(g, id, Done);
  }

  lemma {:induction false} ResettingKeeps(g: Nodes)
    requires Consistent(g) && A.DoneClosed(g)
    ensures var r := ResetInProgress(g);
      && Consistent(r) && A.DoneClosed(r)
      && forall x :: A.Supported(g, x) ==> A.Supported(r, x)
  {
    hide Consistent;
    A.ResettingStaysClosed(A.World(g, map[]));
    A.ResettingKeepsOk(g);
    ResetEffect(g);
    forall x | A.Supported(g, x) ensures A.Supported(ResetInProgress(g), x) {
      var i := SameShapeFind(g, ResetInProgress(g), x);
    }
  }

  lemma {:induction false} StillHarmless(phase: Phase, g: Nodes, r: Nodes)
    requires PhaseHarmless(phase, g) && forall x :: A.Supported(g, x) ==> A.Supported(r, x)
    ensures PhaseHarmless(phase, r)
  {
    hide A.Supported, Grows;
  }

  /** The rename of a harmless closure. */
  lemma {:induction false} RenameKeepsOk(origin: Origin, s: Site, p: nat)
    requires SiteOk(origin, s) && PhaseOf(s.file, p).Written?
    ensures SiteOk(origin, s.(file := Next(origin, s.file, Rename(p))))
  {
    hide Consistent, A.DoneClosed, A.Supported, Perform, Fold, Succeeded, Grows, LockOrder, ConfirmedCommitted;
    var g, file := Contents(origin, s.file), Next(origin, s.file, Rename(p));
    StepKeepsInv(origin, s.file, Rename(p));
    assert PhaseOk(origin, s.file, p) && PhaseHarmless(PhaseOf(s.file, p), g);
    HarmlessEffect(PhaseOf(s.file, p).op, g);
    var r := Contents(origin, file);
    forall q ensures PhaseHarmless(PhaseOf(file, q), r) {
      assert PhaseHarmless(PhaseOf(s.file, q), g);
      StillHarmless(PhaseOf(s.file, q), g, r);
    }
  }

  /** What a step may bring in. */
  ghost predicate Brings(step: Step, g: Nodes) {
    match step
    case Call(_, op) => Harmless(op, g)
    case Load(_, source) => source == FromFile
    case _ => true
  }

  lemma {:induction false} FileStepKeepsOk(origin: Origin, s: Site, step: Step)
    requires SiteOk(origin, s) && Brings(step, Contents(origin, s.file))
    ensures SiteOk(origin, s.(file := Next(origin, s.file, step)))
  {
    hide Consistent, A.DoneClosed, A.Supported, Perform, Inv, Harmless;
    if step.Rename? && PhaseOf(s.file, step.p).Written? {
      RenameKeepsOk(origin, s, step.p);
    } else {
      var g, file := Contents(origin, s.file), Next(origin, s.file, step);
      StepKeepsInv(origin, s.file, step);
      assert file.data == s.file.data;
      forall q ensures PhaseHarmless(PhaseOf(file, q), g) {
        assert PhaseHarmless(PhaseOf(s.file, q), g) && PhaseHarmless(PhaseOf(s.file, step.p), g);
      }
    }
  }

  lemma {:induction false} ChoosingKeepsOk(origin: Origin, s: Site, p: nat)
    requires SiteOk(origin, s)
    ensures SiteOk(origin, After(origin, s, Choose(p)))
  {
    hide Inv, PhaseHarmless;
    var n := NextReady(Contents(origin, s.file));
    if n.Some? {
      ReadyFacts(Contents(origin, s.file), n.value);
    }
  }

  lemma {:induction false} MoveKeepsOk(origin: Origin, s: Site, m: Move)
    requires SiteOk(origin, s) && Allowed(m)
    ensures SiteOk(origin, After(origin, s, m))
  {
    hide Inv, PhaseHarmless, Consistent, A.DoneClosed, A.Supported, Next;
    match m
    case Choose(p) => ChoosingKeepsOk(origin, s, p);
    case Mark(p) =>
      if p in s.chosen && PhaseOf(s.file, p).Idle? {
        FileStepKeepsOk(origin, s, Call(p, StatusOp(s.chosen[p], Done)));
      }
    case Do(step) => FileStepKeepsOk(origin, s, step);
  }

  lemma {:induction false} MovesKeepOk(origin: Origin, s: Site, ms: seq<Move>)
    requires SiteOk(origin, s) && forall m :: m in ms ==> Allowed(m)
    ensures SiteOk(origin, AfterAll(origin, s, ms))
  {
    hide SiteOk, After, Allowed;
    if ms != [] {
      var n := |ms| - 1;
      assert ms == ms[..n] + [ms[n]];
      MovesKeepOk(origin, s, ms[..n]);
      MoveKeepsOk(origin, AfterAll(origin, s, ms[..n]), ms[n]);
    }
  }

  lemma {:induction false} BeginOk(origin: Origin)
    requires Consistent(Initial(origin)) && A.DoneClosed(Initial(origin))
    ensures SiteOk(origin, Site(Start(origin), map[]))
  {
    hide Consistent, A.DoneClosed;
    StartInv(origin);
  }

  /** Safety of the whole protocol: workers choose by reading the file at any moment and mark under
      the lock, others add, seed, reset and list, any call fails or crashes anywhere; in the file
      nothing is ever done before its dependencies. */
  lemma {:induction false} FileStaysClosed(origin: Origin, ms: seq<Move>)
    requires Consistent(Initial(origin)) && A.DoneClosed(Initial(origin))
    requires forall m :: m in ms ==> Allowed(m)
    ensures A.DoneClosed(Contents(origin, AfterAll(origin, Site(Start(origin), map[]), ms).file))
  {
    hide Consistent, A.DoneClosed, Allowed, AfterAll;
    BeginOk(origin);
    MovesKeepOk(origin, Site(Start(origin), map[]), ms);
  }

  // ---------------------------------------------------------------- every run, exactly

  lemma {:induction false} CommitsGrow(origin: Origin, w: World, steps: seq<Step>, n: nat)
    requires n <= |steps|
    ensures Run(origin, w, steps) == Run(origin, Run(origin, w, steps[..n]), steps[n..])
    ensures Run(origin, w, steps[..n]).commits <= Run(origin, w, steps).commits
  {
    hide Next;
    assert steps == steps[..n] + steps[n..];
    RunJoin(origin, w, steps[..n], steps[n..]);
    CommitsStay(origin, Run(origin, w, steps[..n]), steps[n..]);
  }

  lemma {:induction false} CommitsStay(origin: Origin, w: World, steps: seq<Step>)
    ensures w.commits <= Run(origin, w, steps).commits
    decreases |steps|
  {
    hide Next;
    if steps != [] {
      CommitsOnce(origin, w, steps[0]);
      CommitsStay(origin, Next(origin, w, steps[0]), steps[1..]);
    }
  }

  lemma {:induction false} CommitsOnce(origin: Origin, w: World, s: Step)
    ensures w.commits <= Next(origin, w, s).commits && |Next(origin, w, s).commits| <= |w.commits| + 1
  {
    hide Perform;
  }

  /** Every number of commits is reached at some moment. */
  lemma {:induction false} ReachedAt(origin: Origin, steps: seq<Step>, k: nat) returns (n: nat)
    requires k <= |Run(origin, Start(origin), steps).commits|
    ensures n <= |steps| && |Run(origin, Start(origin), steps[..n]).commits| == k
  {
    hide Next;
    n := |steps|;
    assert steps[..n] == steps;
    if k < |Run(origin, Start(origin), steps).commits| {
      NothingRun(origin, Start(origin));
      assert steps != [];
      var m := |steps| - 1;
      CommitsGrow(origin, Start(origin), steps, m);
      LastStep(origin, Start(origin), steps);
      CommitsOnce(origin, Run(origin, Start(origin), steps[..m]), steps[m]);
      n := ReachedAt(origin, steps[..m], k);
      assert steps[..m][..n] == steps[..n];
    }
  }

  lemma {:induction false} NothingRun(origin: Origin, w: World)
    ensures Run(origin, w, []) == w
  {
  }

  lemma {:induction false} LastStep(origin: Origin, w: World, steps: seq<Step>)
    requires steps != []
    ensures var m := |steps| - 1;
      Run(origin, w, steps) == Next(origin, Run(origin, w, steps[..m]), steps[m])
  {
    hide Next;
    var m := |steps| - 1;
    assert steps == steps[..m] + [steps[m]];
    RunJoin(origin, w, steps[..m], [steps[m]]);
    RunNext(origin, Run(origin, w, steps[..m]), steps[m], []);
    assert [steps[m]] + [] == [steps[m]];
    NothingRun(origin, Next(origin, Run(origin, w, steps[..m]), steps[m]));
  }

  ghost predicate AlwaysClosed(origin: Origin, steps: seq<Step>) {
    forall n :: 0 <= n <= |steps| ==> A.DoneClosed(Contents(origin, Run(origin, Start(origin), steps[..n])))
  }

  /** Every run of the file protocol with any of the repository's closures, on files read or unread:
      at every moment nothing in the file is done before its dependencies, if and only if every
      committed closure passed its check in the graph it was run on. */
  lemma {:induction false} RunStaysClosedIff(origin: Origin, steps: seq<Step>)
    requires Closed(origin) && AllNamed(Run(origin, Start(origin), steps).commits)
    ensures var commits := Run(origin, Start(origin), steps).commits;
      AlwaysClosed(origin, steps) <==> SafeUpto(origin, commits, |commits|)
  {
    hide Sound, A.DoneClosed, OpSafe, Succeeded, Named, Run, Fold, Contents, LockOrder, ConfirmedCommitted, Closed,
      AllNamed;
    var commits := Run(origin, Start(origin), steps).commits;
    FileIsFoldOfCommits(origin, steps);
    CommitsKeepClosedIff(origin, commits, |commits|);
    if AlwaysClosed(origin, steps) {
      forall k | 0 <= k <= |commits| ensures A.DoneClosed(Fold(origin, commits[..k])) {
        var n := ReachedAt(origin, steps, k);
        ContentsAt(origin, steps, n);
      }
    }
    if ClosedUpto(origin, commits, |commits|) {
      forall n | 0 <= n <= |steps| ensures A.DoneClosed(Contents(origin, Run(origin, Start(origin), steps[..n]))) {
        ContentsAt(origin, steps, n);
      }
    }
  }

  lemma {:induction false} ContentsAt(origin: Origin, steps: seq<Step>, n: nat)
    requires n <= |steps|
    ensures var w, end := Run(origin, Start(origin), steps[..n]), Run(origin, Start(origin), steps);
      |w.commits| <= |end.commits| && Contents(origin, w) == Fold(origin, end.commits[..|w.commits|])
  {
    hide Run, Fold, Contents, Succeeded, LockOrder, ConfirmedCommitted;
    FileIsFoldOfCommits(origin, steps[..n]);
    CommitsGrow(origin, Start(origin), steps, n);
    var w, end := Run(origin, Start(origin), steps[..n]), Run(origin, Start(origin), steps);
    assert end.commits[..|w.commits|] == w.commits;
  }
}
