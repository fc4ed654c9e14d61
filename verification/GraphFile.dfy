/** `WorkGraph::with_lock` and `save` (`src/workgraph.rs`): read, mutate and save under an
    advisory lock on a separate file, with an atomic rename of a temporary file. Any number
    of processes run it; each may crash between any two of its steps, even half-way through
    writing the temporary file.
 */
module GraphFile {
  import opened Wrappers
  import opened Milestones
  import opened GraphInvariants
  import opened Strings

  /** The closure given to `with_lock`. All closures of the repository are instances; `OtherOp`
      stands for any other. */
  datatype Op =
    | AddOp(title: string, deps: seq<nat>)
    | StatusOp(id: nat, status: NodeStatus)
    | RemoveOp(id: nat)
    | ReopenOp(id: nat)  // the quick reset of one milestone
    | ResetOp  // the reset with which the background runner starts
    | SeedOp(titles: seq<string>)  // one milestone for each title, as far as accepted
    | ListOp  // reads only, but saves what it has read
    | TryOp(action: Op)  // an action of the milestone tool, which saves although the action fails
    | OtherOp(change: Nodes -> Option<Nodes>)

  /** What the closure leaves in memory; None when it fails. An unknown id in `set_status` is
      no failure: the closures of the drivers ignore the returned flag. */
  ghost function Perform(op: Op, g: Nodes): Option<Nodes> {
    match op
    case AddOp(title, deps) =>
      var r := AddTo(g, title, deps);
      if r.Added? then Some(r.nodes) else None
    case StatusOp(id, status) => Some(SetStatusOf(g, id, status).GetOr(g))
    case RemoveOp(id) =>
      var r := RemoveFrom(g, id);
      if r.Removed? then Some(r.nodes) else None
    case ReopenOp(id) => Some(if IsDone(g, id) then g else SetStatusOf(g, id, Pending).GetOr(g))
    case ResetOp => Some(ResetInProgress(g))
    case SeedOp(titles) => Some(Seeded(g, titles))
    case ListOp => Some(g)
    case TryOp(action) => Some(Perform(action, g).GetOr(g))
    case OtherOp(change) => change(g)
  }

  ghost function Seeded(g: Nodes, titles: seq<string>): Nodes {
    if titles == [] then g
    else
      var before := Seeded(g, titles[..|titles| - 1]);
      var r := AddTo(before, titles[|titles| - 1], []);
      if r.Added? then r.nodes else before
  }

  /** The disk before the first call: the data file, if there is one, and the todo list migrated in
      its absence, empty if there is none either. */
  datatype Origin = Origin(file: Option<Nodes>, todos: Nodes)

  ghost function Initial(origin: Origin): Nodes {
    origin.file.GetOr(origin.todos)
  }

  /** What `WorkGraph::read` finds: the data file; or, when that is missing or cannot be parsed, the
      migrated todo list; or, when that fails too, nothing. */
  datatype Source = FromFile | FromTodos | FromNothing

  datatype TempFile = Partial | Full(nodes: Nodes)

  /** Where a process is inside `with_lock`. Phases from `Holding` on hold the lock. */
  datatype Phase =
    | Idle
    | Waiting(op: Op)
    | Holding(op: Op)
    | Loaded(op: Op, source: Source, seen: Nodes)
    | Mutated(op: Op, source: Source, result: Nodes)
    | Writing(op: Op, source: Source, result: Nodes)
    | Written(op: Op, source: Source, result: Nodes)
    | Renamed
    | Failed

  /** `turn` counts lock acquisitions; `commits` records, for every rename, the closure, what it
      was run on and the acquisition it ran under; `confirmed` holds the acquisitions whose caller
      saw success. */
  datatype Commit = Commit(op: Op, source: Source, turn: nat)

  datatype World = World(
    data: Option<Nodes>, temp: Option<TempFile>, holder: Option<nat>, phases: map<nat, Phase>,
    turn: nat, commits: seq<Commit>, confirmed: set<nat>)

  datatype Step =
    | Call(p: nat, op: Op)
    | Acquire(p: nat)
    | Load(p: nat, source: Source)
    | Mutate(p: nat)
    | BeginWrite(p: nat)
    | EndWrite(p: nat)
    | Rename(p: nat)
    | Release(p: nat)
    | Fail(p: nat)  // a directory, write or rename fails
    | Crash(p: nat)

  ghost function PhaseOf(w: World, p: nat): Phase {
    if p in w.phases then w.phases[p] else Idle
  }

  ghost predicate Holds(phase: Phase) {
    !phase.Idle? && !phase.Waiting?
  }

  /** What a reader gets: the data file, or the migrated todo list when there is none yet. */
  ghost function Contents(origin: Origin, w: World): Nodes {
    w.data.GetOr(origin.todos)
  }

  /** What a source yields, given what the file holds. */
  ghost function Read(origin: Origin, source: Source, file: Nodes): Nodes {
    match source
    case FromFile => file
    case FromTodos => origin.todos
    case FromNothing => []
  }

  ghost function Move(w: World, p: nat, phase: Phase): World {
    w.(phases := w.phases[p := phase])
  }

  /** One step of one process; a step that is not enabled changes nothing. */
  ghost function Next(origin: Origin, w: World, s: Step): World {
    var phase := PhaseOf(w, s.p);
    match s
    case Call(p, op) => if phase.Idle? then Move(w, p, Waiting(op)) else w
    case Acquire(p) =>
      if phase.Waiting? && w.holder.None?
      then Move(w.(holder := Some(p), turn := w.turn + 1), p, Holding(phase.op)) else w
    case Load(p, source) =>
      if phase.Holding? then Move(w, p, Loaded(phase.op, source, Read(origin, source, Contents(origin, w)))) else w
    case Mutate(p) =>
      if !phase.Loaded? then w
      else
        var r := Perform(phase.op, phase.seen);
        Move(w, p, if r.Some? then Mutated(phase.op, phase.source, r.value) else Failed)
    case BeginWrite(p) =>
      if !phase.Mutated? then w
      else Move(w.(temp := Some(Partial)), p, Writing(phase.op, phase.source, phase.result))
    case EndWrite(p) =>
      if !phase.Writing? then w
      else Move(w.(temp := Some(Full(phase.result))), p, Written(phase.op, phase.source, phase.result))
    case Rename(p) =>
      if phase.Written? && w.temp.Some? && w.temp.value.Full?
      then Move(w.(data := Some(w.temp.value.nodes), temp := None,
                   commits := w.commits + [Commit(phase.op, phase.source, w.turn)]), p, Renamed)
      else w
    case Release(p) =>
      if phase.Renamed? then Move(w.(holder := None, confirmed := w.confirmed + {w.turn}), p, Idle)
      else if phase.Failed? then Move(w.(holder := None), p, Idle) else w
    case Fail(p) => if Holds(phase) && !phase.Renamed? then Move(w, p, Failed) else w
    case Crash(p) => Move(if w.holder == Some(p) then w.(holder := None) else w, p, Idle)
  }

  ghost function Run(origin: Origin, w: World, steps: seq<Step>): World
    decreases |steps|
  {
    if steps == [] then w else Run(origin, Next(origin, w, steps[0]), steps[1..])
  }

  function Start(origin: Origin): World {
    World(origin.file, None, None, map[], 0, [], {})
  }

  /** The committed closures applied one after another, each to what it read; a failing one would
      change nothing. */
  ghost function Fold(origin: Origin, commits: seq<Commit>): Nodes {
    if commits == [] then Initial(origin)
    else
      var before := Fold(origin, commits[..|commits| - 1]);
      Perform(commits[|commits| - 1].op, Read(origin, commits[|commits| - 1].source, before)).GetOr(before)
  }

  /** What the `i`-th commit was made on. */
  ghost function Seen(origin: Origin, commits: seq<Commit>, i: nat): Nodes
    requires i < |commits|
  {
    Read(origin, commits[i].source, Fold(origin, commits[..i]))
  }

  // ---------------------------------------------------------------- the invariant

  /** What each phase of a process knows about the shared files. */
  ghost predicate PhaseOk(origin: Origin, w: World, p: nat) {
    var phase := PhaseOf(w, p);
    && (w.holder == Some(p) <==> Holds(phase))
    && (phase.Loaded? ==> phase.seen == Read(origin, phase.source, Contents(origin, w)))
    && (phase.Mutated? || phase.Writing? || phase.Written? ==>
          Perform(phase.op, Read(origin, phase.source, Contents(origin, w))) == Some(phase.result))
    && (phase.Written? ==> w.temp == Some(Full(phase.result)))
    && (phase.Renamed? ==> w.commits != [] && w.commits[|w.commits| - 1].turn == w.turn)
    && (Holds(phase) && !phase.Renamed? ==> TurnUnused(w))
  }

  ghost predicate TurnUnused(w: World) {
    forall c :: c in w.commits ==> c.turn < w.turn
  }

  /** Commits happened in the order in which the lock was taken. */
  ghost predicate LockOrder(w: World) {
    && (forall i, j :: 0 <= i < j < |w.commits| ==> w.commits[i].turn < w.commits[j].turn)
    && (forall c :: c in w.commits ==> c.turn <= w.turn)
  }

  ghost predicate Succeeded(origin: Origin, commits: seq<Commit>) {
    forall i :: 0 <= i < |commits| ==> Perform(commits[i].op, Seen(origin, commits, i)).Some?
  }

  ghost predicate ConfirmedCommitted(w: World) {
    forall t :: t in w.confirmed ==> exists c :: c in w.commits && c.turn == t
  }

  ghost predicate Inv(origin: Origin, w: World) {
    && (forall p :: PhaseOk(origin, w, p))
    && Contents(origin, w) == Fold(origin, w.commits)
    && Succeeded(origin, w.commits)
    && LockOrder(w)
    && ConfirmedCommitted(w)
  }

  lemma {:induction false} FoldGrows(origin: Origin, commits: seq<Commit>, c: Commit)
    requires Succeeded(origin, commits)
    requires Perform(c.op, Read(origin, c.source, Fold(origin, commits))).Some?
    ensures Fold(origin, commits + [c]) == Perform(c.op, Read(origin, c.source, Fold(origin, commits))).value
    ensures Succeeded(origin, commits + [c])
  {
    hide Perform;
    var longer := commits + [c];
    assert longer[..|commits|] == commits;
    forall i | 0 <= i < |longer| ensures Perform(longer[i].op, Seen(origin, longer, i)).Some? {
      if i < |commits| {
        assert longer[..i] == commits[..i];
        assert Seen(origin, longer, i) == Seen(origin, commits, i);
      }
    }
  }

  lemma {:induction false} RenameKeepsInv(origin: Origin, w: World, p: nat)
    requires Inv(origin, w) && PhaseOf(w, p).Written?
    ensures Inv(origin, Next(origin, w, Rename(p)))
  {
    hide Perform, Fold, Succeeded;
    assert PhaseOk(origin, w, p);
    var phase := PhaseOf(w, p);
    var c := Commit(phase.op, phase.source, w.turn);
    FoldGrows(origin, w.commits, c);
    var r := Next(origin, w, Rename(p));
    assert r.commits == w.commits + [c];
    forall q ensures PhaseOk(origin, r, q) {
      assert PhaseOk(origin, w, q);
    }
    forall t | t in r.confirmed ensures exists d :: d in r.commits && d.turn == t {
      var d :| d in w.commits && d.turn == t;
      assert d in r.commits;
    }
  }

  lemma {:induction false} ReleaseKeepsInv(origin: Origin, w: World, p: nat)
    requires Inv(origin, w)
    ensures Inv(origin, Next(origin, w, Release(p)))
  {
    hide Perform, Fold, Succeeded;
    assert PhaseOk(origin, w, p);
    var r := Next(origin, w, Release(p));
    forall q ensures PhaseOk(origin, r, q) {
      assert PhaseOk(origin, w, q);
    }
    if PhaseOf(w, p).Renamed? {
      var last := w.commits[|w.commits| - 1];
      assert last in r.commits && last.turn == w.turn;
    }
  }

  /** Any other step, seen from the process that takes it and from another one. */
  lemma {:induction false} OwnPhaseStays(origin: Origin, w: World, s: Step)
    requires Inv(origin, w) && !s.Release? && (s.Rename? ==> !PhaseOf(w, s.p).Written?)
    ensures PhaseOk(origin, Next(origin, w, s), s.p)
  {
    hide Perform, Fold, Succeeded, ConfirmedCommitted;
    assert PhaseOk(origin, w, s.p);
  }

  lemma {:induction false} OtherPhaseStays(origin: Origin, w: World, s: Step, q: nat)
    requires Inv(origin, w) && !s.Release? && (s.Rename? ==> !PhaseOf(w, s.p).Written?) && q != s.p
    ensures PhaseOk(origin, Next(origin, w, s), q)
  {
    hide Perform, Fold, Succeeded, ConfirmedCommitted;
    assert PhaseOk(origin, w, s.p) && PhaseOk(origin, w, q);
  }

  lemma {:induction false} OtherStepKeepsInv(origin: Origin, w: World, s: Step)
    requires Inv(origin, w) && !s.Release? && (s.Rename? ==> !PhaseOf(w, s.p).Written?)
    ensures Inv(origin, Next(origin, w, s))
  {
    hide Perform, Fold, Succeeded, PhaseOk;
    var r := Next(origin, w, s);
    forall q ensures PhaseOk(origin, r, q) {
      if q == s.p {
        OwnPhaseStays(origin, w, s);
      } else {
        OtherPhaseStays(origin, w, s, q);
      }
    }
    assert PhaseOk(origin, w, s.p);
  }

  lemma {:induction false} StepKeepsInv(origin: Origin, w: World, s: Step)
    requires Inv(origin, w)
    ensures Inv(origin, Next(origin, w, s))
  {
    if s.Release? {
      ReleaseKeepsInv(origin, w, s.p);
    } else if s.Rename? && PhaseOf(w, s.p).Written? {
      RenameKeepsInv(origin, w, s.p);
    } else {
      OtherStepKeepsInv(origin, w, s);
    }
  }

  lemma {:induction false} RunKeepsInv(origin: Origin, w: World, steps: seq<Step>)
    requires Inv(origin, w)
    ensures Inv(origin, Run(origin, w, steps))
    decreases |steps|
  {
    if steps != [] {
      StepKeepsInv(origin, w, steps[0]);
      RunKeepsInv(origin, Next(origin, w, steps[0]), steps[1..]);
    }
  }

  lemma {:induction false} StartInv(origin: Origin)
    ensures Inv(origin, Start(origin))
  {
  }

  // ---------------------------------------------------------------- main results

  /** Linearisation. After any interleaving with any failures and crashes, the data file is the fold
      of the renamed closures in lock order, each of which succeeded on what it read; and every
      success a caller saw is among them. */
  lemma {:induction false} FileIsFoldOfCommits(origin: Origin, steps: seq<Step>)
    ensures var w := Run(origin, Start(origin), steps);
      && Contents(origin, w) == Fold(origin, w.commits)
      && Succeeded(origin, w.commits) && LockOrder(w) && ConfirmedCommitted(w)
  {
    StartInv(origin);
    RunKeepsInv(origin, Start(origin), steps);
  }

  /** Nobody but a rename changes what readers see: a closure that fails, or a process that
      crashes before its rename, leaves the file as it was. */
  lemma {:induction false} OnlyRenameChangesFile(origin: Origin, steps: seq<Step>, w: World, s: Step)
    requires w == Run(origin, Start(origin), steps)
    ensures var r := Next(origin, w, s);
      && (r.commits == w.commits ==> Contents(origin, r) == Contents(origin, w))
      && (r.commits != w.commits ==> r.temp.None? && s.Rename? && PhaseOf(w, s.p).Written? && w.holder == Some(s.p)
                                     && Perform(PhaseOf(w, s.p).op,
                                                Read(origin, PhaseOf(w, s.p).source, Contents(origin, w)))
                                        == Some(Contents(origin, r)))
  {
    hide Perform, Fold, Succeeded;
    StartInv(origin);
    RunKeepsInv(origin, Start(origin), steps);
    assert PhaseOk(origin, w, s.p);
  }

  // ---------------------------------------------------------------- no add is lost

  /** A closure outside the named ones is only asked to drop no milestone. */
  ghost predicate Retains(op: Op) {
    match op
    case OtherOp(change) => forall g, x :: Known(g, x) && change(g).Some? ==> Known(change(g).value, x)
    case TryOp(action) => Retains(action)
    case _ => true
  }

  /** `op`, run on `g`, removes `x`. */
  ghost predicate Removes(op: Op, g: Nodes, x: nat) {
    match op
    case RemoveOp(id) => id == x
    case TryOp(action) => Perform(action, g).Some? && Removes(action, g, x)
    case _ => false
  }

  lemma {:induction false} SeededKeeps(g: Nodes, titles: seq<string>, x: nat)
    requires Known(g, x)
    ensures Known(Seeded(g, titles), x)
  {
    hide Find, AddTo;
    if titles != [] {
      var n := |titles| - 1;
      SeededKeeps(g, titles[..n], x);
      if AddTo(Seeded(g, titles[..n]), titles[n], []).Added? {
        AddEffect(Seeded(g, titles[..n]), titles[n], []);
      }
    }
  }

  lemma {:induction false} KeptUnlessRemoved(op: Op, g: Nodes, x: nat)
    requires Retains(op) && Perform(op, g).Some? && Known(g, x) && !Removes(op, g, x)
    ensures Known(Perform(op, g).value, x)
  {
    hide Find;
    match op
    case AddOp(title, deps) => AddEffect(g, title, deps);
    case StatusOp(id, status) => StatusKeepsIds(g, id, status);
    case RemoveOp(id) => RemoveEffect(g, id);
    case ReopenOp(id) => StatusKeepsIds(g, id, Pending);
    case ResetOp =>
      ResetEffect(g);
      SameShapeEdges(g, ResetInProgress(g));
    case SeedOp(titles) => SeededKeeps(g, titles, x);
    case ListOp =>
    case TryOp(action) => if Perform(action, g).Some? { KeptUnlessRemoved(action, g, x); }
    case OtherOp(change) =>
  }

  lemma {:induction false} StatusKeepsIds(g: Nodes, id: nat, status: NodeStatus)
    ensures SameShape(g, SetStatusOf(g, id, status).GetOr(g))
    ensures forall x :: Known(SetStatusOf(g, id, status).GetOr(g), x) <==> Known(g, x)
  {
    RecomputeKeepsShape(WithStatus(g, id, status));
    SameShapeEdges(g, SetStatusOf(g, id, status).GetOr(g));
  }

  /** The `i`-th commit brought `x` in: the closure did not find it, and left it. */
  ghost predicate Issues(origin: Origin, commits: seq<Commit>, i: nat, x: nat)
    requires i < |commits|
  {
    !Known(Seen(origin, commits, i), x) && Known(Fold(origin, commits[..i + 1]), x)
  }

  /** A commit that can lose `x`: it was made without reading the file, or it removes `x`. */
  ghost predicate CanLose(origin: Origin, commits: seq<Commit>, j: nat, x: nat)
    requires j < |commits|
  {
    commits[j].source != FromFile || Removes(commits[j].op, Seen(origin, commits, j), x)
  }

  /** The id that an add returns is one that it brings in. */
  lemma {:induction false} AddIssues(origin: Origin, commits: seq<Commit>, i: nat)
    requires Succeeded(origin, commits) && i < |commits| && commits[i].op.AddOp?
    ensures Issues(origin, commits, i, NextId(Seen(origin, commits, i)))
  {
    hide Fold, Seen, Succeeded, Find;
    FoldNext(origin, commits, i);
    assert Perform(commits[i].op, Seen(origin, commits, i)).Some?;
    AddEffect(Seen(origin, commits, i), commits[i].op.title, commits[i].op.deps);
  }

  lemma {:induction false} FoldNext(origin: Origin, commits: seq<Commit>, k: nat)
    requires Succeeded(origin, commits) && k < |commits|
    ensures Perform(commits[k].op, Seen(origin, commits, k)) == Some(Fold(origin, commits[..k + 1]))
  {
    hide Perform;
    assert commits[..k + 1][..k] == commits[..k];
  }

  lemma {:induction false} StaysUntilLost(origin: Origin, commits: seq<Commit>, i: nat, k: nat, x: nat)
    requires Succeeded(origin, commits) && forall c :: c in commits ==> Retains(c.op)
    requires i < k <= |commits| && Known(Fold(origin, commits[..i + 1]), x)
    requires forall j :: i < j < k ==> !CanLose(origin, commits, j, x)
    ensures Known(Fold(origin, commits[..k]), x)
    decreases k
  {
    hide Perform, Find, Removes, Retains, Succeeded, Fold;
    if i + 1 < k {
      StaysUntilLost(origin, commits, i, k - 1, x);
      FoldNext(origin, commits, k - 1);
      assert !CanLose(origin, commits, k - 1, x) && commits[k - 1] in commits;
      KeptUnlessRemoved(commits[k - 1].op, Seen(origin, commits, k - 1), x);
    }
  }

  /** No milestone is lost: in every run, whatever else the closures do, a milestone that a commit
      brought in stays in the file until a commit removes it or is made on an unread file; and only
      after such a commit, or by one made on an unread file, is the same id handed out again. */
  lemma {:induction false} NoAddIsLost(origin: Origin, steps: seq<Step>, w: World, i: nat, k: nat, x: nat)
    requires w == Run(origin, Start(origin), steps) && forall c :: c in w.commits ==> Retains(c.op)
    requires i < k <= |w.commits| && Issues(origin, w.commits, i, x)
    ensures (forall j :: i < j < k ==> !CanLose(origin, w.commits, j, x)) ==>
              && Known(Fold(origin, w.commits[..k]), x)
              && (k < |w.commits| && Issues(origin, w.commits, k, x) ==> w.commits[k].source != FromFile)
    ensures Contents(origin, w) == Fold(origin, w.commits[..|w.commits|])
  {
    hide Perform, Fold, Succeeded, Run, CanLose, Find, LockOrder, ConfirmedCommitted, Retains;
    FileIsFoldOfCommits(origin, steps);
    assert w.commits[..|w.commits|] == w.commits;
    if forall j :: i < j < k ==> !CanLose(origin, w.commits, j, x) {
      StaysUntilLost(origin, w.commits, i, k, x);
    }
  }

  // ---------------------------------------------------------------- exactly which milestones there are

  ghost predicate Named(op: Op) {
    match op
    case OtherOp(_) => false
    case TryOp(action) => Named(action)
    case _ => true
  }

  /** How many of the titles `add` accepts. */
  function Accepted(titles: seq<string>): nat {
    if titles == [] then 0
    else Accepted(titles[..|titles| - 1]) + if Trim(titles[|titles| - 1]) == "" then 0 else 1
  }

  /** Whether `x` is there after `op` succeeded on `g`, given whether it was there before. */
  ghost predicate Held(op: Op, g: Nodes, was: bool, x: nat) {
    match op
    case AddOp(_, _) => was || x == NextId(g)
    case RemoveOp(id) => was && x != id
    case SeedOp(titles) => was || NextId(g) <= x < NextId(g) + Accepted(titles)
    case TryOp(action) => if Perform(action, g).Some? then Held(action, g, was, x) else was
    case _ => was
  }

  /** `x` followed through the commits. */
  ghost predicate Present(origin: Origin, commits: seq<Commit>, x: nat) {
    if commits == [] then Known(Initial(origin), x)
    else
      var n := |commits| - 1;
      var was := match commits[n].source
        case FromFile => Present(origin, commits[..n], x)
        case FromTodos => Known(origin.todos, x)
        case FromNothing => false;
      Held(commits[n].op, Seen(origin, commits, n), was, x)
  }

  lemma {:induction false} NextIdAfterAdd(g: Nodes, title: string, deps: seq<nat>)
    requires AddTo(g, title, deps).Added?
    ensures NextId(AddTo(g, title, deps).nodes) == NextId(g) + 1
  {
    AddEffect(g, title, deps);
    var r := AddTo(g, title, deps).nodes;
    var top :| top in r && top.id + 1 == NextId(r);
    assert Known(r, top.id) && Known(r, NextId(g));
    assert Find(r, NextId(g)).value in r;
    if Known(g, top.id) {
      assert Find(g, top.id).value in g;
    }
  }

  lemma {:induction false} SeededIds(g: Nodes, titles: seq<string>)
    requires Consistent(g)
    ensures Consistent(Seeded(g, titles)) && NextId(Seeded(g, titles)) == NextId(g) + Accepted(titles)
    ensures forall x: nat ::
              Known(Seeded(g, titles), x) <==> Known(g, x) || NextId(g) <= x < NextId(g) + Accepted(titles)
  {
    hide Consistent, AddTo, Find, NextId;
    if titles != [] {
      var n := |titles| - 1;
      var before := Seeded(g, titles[..n]);
      SeededIds(g, titles[..n]);
      AddOnSoundGraph(before, titles[n], []);
      if AddTo(before, titles[n], []).Added? {
        AddEffect(before, titles[n], []);
        NextIdAfterAdd(before, titles[n], []);
      }
    }
  }

  lemma {:induction false} AddMovesIds(g: Nodes, title: string, deps: seq<nat>)
    requires Consistent(g) && AddTo(g, title, deps).Added?
    ensures var r := AddTo(g, title, deps).nodes;
      Consistent(r) && forall x :: Known(r, x) <==> Known(g, x) || x == NextId(g)
  {
    hide Find, Consistent, AddTo;
    AddOnSoundGraph(g, title, deps);
    AddEffect(g, title, deps);
  }

  lemma {:induction false} RemoveMovesIds(g: Nodes, id: nat)
    requires Consistent(g) && RemoveFrom(g, id).Removed?
    ensures var r := RemoveFrom(g, id).nodes;
      Consistent(r) && forall x :: Known(r, x) <==> Known(g, x) && x != id
  {
    hide Find, Consistent, RemoveFrom;
    RemoveOnSoundGraph(g, id);
    RemoveEffect(g, id);
  }

  lemma {:induction false} ResetMovesNothing(g: Nodes)
    requires Consistent(g)
    ensures var r := ResetInProgress(g);
      Consistent(r) && forall x :: Known(r, x) <==> Known(g, x)
  {
    hide Find, WellFormed, UniqueIds, ResetInProgress;
    ResetEffect(g);
    SameShapeEdges(g, ResetInProgress(g));
    SameShapeWellFormed(g, ResetInProgress(g));
  }

  /** What one successful action does to the ids. */
  lemma {:induction false} ActionMovesIds(g: Nodes, op: Op)
    requires Consistent(g) && Named(op) && Perform(op, g).Some?
    ensures Consistent(Perform(op, g).value)
    ensures forall x :: Known(Perform(op, g).value, x) <==> Held(op, g, Known(g, x), x)
  {
    hide Find, Consistent, AddTo, RemoveFrom, SetStatusOf, ResetInProgress, Seeded, NextId;
    match op
    case AddOp(title, deps) => AddMovesIds(g, title, deps);
    case StatusOp(id, status) => StatusMovesNothing(g, id, status);
    case RemoveOp(id) => RemoveMovesIds(g, id);
    case ReopenOp(id) => StatusMovesNothing(g, id, Pending);
    case ResetOp => ResetMovesNothing(g);
    case SeedOp(titles) => SeededIds(g, titles);
    case ListOp =>
    case TryOp(action) => if Perform(action, g).Some? { ActionMovesIds(g, action); }
    case OtherOp(_) =>
  }

  lemma {:induction false} StatusMovesNothing(g: Nodes, id: nat, status: NodeStatus)
    requires Consistent(g)
    ensures var r := SetStatusOf(g, id, status).GetOr(g);
      Consistent(r) && forall x :: Known(r, x) <==> Known(g, x)
  {
    StatusKeepsIds(g, id, status);
    SameShapeWellFormed(g, SetStatusOf(g, id, status).GetOr(g));
  }

  lemma {:induction false} SucceededPrefix(origin: Origin, commits: seq<Commit>, n: nat)
    requires Succeeded(origin, commits) && n <= |commits|
    ensures Succeeded(origin, commits[..n])
    ensures forall c :: c in commits[..n] ==> c in commits
  {
    hide Perform, Fold;
    forall i | 0 <= i < n ensures Seen(origin, commits[..n], i) == Seen(origin, commits, i) {
      assert commits[..n][..i] == commits[..i];
    }
  }

  ghost predicate Sound(origin: Origin) {
    Consistent(Initial(origin)) && Consistent(origin.todos)
  }

  /** Exactly which ids the file holds after any sequence of commits of named closures, on a file
      read or unread. */
  lemma {:induction false} FileHoldsPresent(origin: Origin, commits: seq<Commit>)
    requires Sound(origin) && Succeeded(origin, commits) && forall c :: c in commits ==> Named(c.op)
    ensures Consistent(Fold(origin, commits))
    ensures forall x :: Known(Fold(origin, commits), x) <==> Present(origin, commits, x)
  {
    hide Consistent, Perform, Find, Succeeded, Held, Named;
    EmptyConsistent();
    if commits != [] {
      var n := |commits| - 1;
      SucceededPrefix(origin, commits, n);
      FileHoldsPresent(origin, commits[..n]);
      assert commits[..n + 1] == commits && commits[n] in commits;
      FoldNext(origin, commits, n);
      ActionMovesIds(Seen(origin, commits, n), commits[n].op);
      NothingKnown();
    }
  }

  lemma {:induction false} NothingKnown()
    ensures forall x :: !Known([], x)
  {
  }

  /** A commit loses `x` exactly when it removes it, having read the file, or when it was made on an
      unread file and `x` is neither in what it found instead nor handed out again. */
  lemma {:induction false} LostIff(origin: Origin, commits: seq<Commit>, k: nat, x: nat)
    requires Sound(origin) && Succeeded(origin, commits) && forall c :: c in commits ==> Named(c.op)
    requires k < |commits| && Known(Fold(origin, commits[..k]), x)
    ensures var c, g := commits[k], Seen(origin, commits, k);
      !Known(Fold(origin, commits[..k + 1]), x) <==>
      if c.source == FromFile then Removes(c.op, g, x) else !Held(c.op, g, Known(g, x), x)
  {
    hide Consistent, Perform, Find, Succeeded, Held, Removes, Named;
    SucceededPrefix(origin, commits, k);
    FileHoldsPresent(origin, commits[..k]);
    FoldNext(origin, commits, k);
    EmptyConsistent();
    assert commits[k] in commits;
    var c, g := commits[k], Seen(origin, commits, k);
    ActionMovesIds(g, c.op);
    if Known(g, x) {
      HeldUnlessRemoved(c.op, g, x);
    }
  }

  lemma {:induction false} HeldUnlessRemoved(op: Op, g: Nodes, x: nat)
    ensures Held(op, g, true, x) <==> !Removes(op, g, x)
  {
    hide Perform;
    match op
    case TryOp(action) => HeldUnlessRemoved(action, g, x);
    case _ =>
  }

  // ---------------------------------------------------------------- a run that loses a milestone

  /** One undisturbed call of `with_lock`. */
  function OneCall(p: nat, op: Op, source: Source): seq<Step> {
    [Call(p, op), Acquire(p), Load(p, source), Mutate(p), BeginWrite(p), EndWrite(p), Rename(p), Release(p)]
  }

  lemma {:induction false} RunNext(origin: Origin, w: World, s: Step, more: seq<Step>)
    ensures Run(origin, w, [s] + more) == Run(origin, Next(origin, w, s), more)
    ensures Run(origin, w, []) == w
  {
    assert ([s] + more)[1..] == more;
  }

  lemma {:induction false} RunJoin(origin: Origin, w: World, a: seq<Step>, b: seq<Step>)
    ensures Run(origin, w, a + b) == Run(origin, Run(origin, w, a), b)
    decreases |a|
  {
    hide Next;
    if a == [] {
      assert a + b == b;
    } else {
      assert (a + b)[0] == a[0] && (a + b)[1..] == a[1..] + b;
      RunJoin(origin, Next(origin, w, a[0]), a[1..], b);
    }
  }

  lemma {:induction false} CallCommits(origin: Origin, w: World, p: nat, op: Op, source: Source)
    requires PhaseOf(w, p).Idle? && w.holder.None?
    requires Perform(op, Read(origin, source, Contents(origin, w))).Some?
    ensures var r := Run(origin, w, OneCall(p, op, source));
      && PhaseOf(r, p).Idle? && r.holder.None?
      && r.data == Perform(op, Read(origin, source, Contents(origin, w)))
      && r.commits == w.commits + [Commit(op, source, w.turn + 1)]
  {
    hide Run, Perform, Read, Contents, Next;
    var s := OneCall(p, op, source);
    assert s == s[..4] + s[4..];
    RunJoin(origin, w, s[..4], s[4..]);
    FirstHalf(origin, w, p, op, source);
    SecondHalf(origin, Run(origin, w, s[..4]), p);
  }

  lemma {:induction false} CallAndAcquire(origin: Origin, w: World, p: nat, op: Op)
    requires PhaseOf(w, p).Idle? && w.holder.None?
    ensures Next(origin, Next(origin, w, Call(p, op)), Acquire(p)) ==
            Move(w.(holder := Some(p), turn := w.turn + 1), p, Holding(op))
  {
    hide Contents, Read, Perform;
  }

  lemma {:induction false} LoadAndMutate(origin: Origin, w: World, p: nat, op: Op, source: Source)
    requires PhaseOf(w, p) == Holding(op) && Perform(op, Read(origin, source, Contents(origin, w))).Some?
    ensures Next(origin, Next(origin, w, Load(p, source)), Mutate(p)) ==
            Move(w, p, Mutated(op, source, Perform(op, Read(origin, source, Contents(origin, w))).value))
  {
    hide Contents, Read, Perform;
  }

  /** Up to the result in memory. */
  lemma {:induction false} FirstHalf(origin: Origin, w: World, p: nat, op: Op, source: Source)
    requires PhaseOf(w, p).Idle? && w.holder.None?
    requires Perform(op, Read(origin, source, Contents(origin, w))).Some?
    ensures var result := Perform(op, Read(origin, source, Contents(origin, w))).value;
      Run(origin, w, OneCall(p, op, source)[..4]) ==
      Move(w.(holder := Some(p), turn := w.turn + 1), p, Mutated(op, source, result))
  {
    hide Run, Perform, Read, Contents, Next;
    FourSteps(origin, w, OneCall(p, op, source)[..4]);
    CallAndAcquire(origin, w, p, op);
    var w1 := Move(w.(holder := Some(p), turn := w.turn + 1), p, Holding(op));
    SameContents(origin, w, w1);
    LoadAndMutate(origin, w1, p, op, source);
  }

  /** From there to the release of the lock. */
  lemma {:induction false} SecondHalf(origin: Origin, w: World, p: nat)
    requires PhaseOf(w, p).Mutated?
    ensures var phase := PhaseOf(w, p);
      var r := Run(origin, w, OneCall(p, phase.op, phase.source)[4..]);
      && PhaseOf(r, p).Idle? && r.holder.None? && r.data == Some(phase.result)
      && r.commits == w.commits + [Commit(phase.op, phase.source, w.turn)]
  {
    hide Run, Perform, Read, Contents;
    var phase := PhaseOf(w, p);
    FourSteps(origin, w, OneCall(p, phase.op, phase.source)[4..]);
    var w2 := Next(origin, Next(origin, w, BeginWrite(p)), EndWrite(p));
    assert PhaseOf(w2, p) == Written(phase.op, phase.source, phase.result);
  }

  lemma {:induction false} SameContents(origin: Origin, w: World, v: World)
    requires w.data == v.data
    ensures Contents(origin, w) == Contents(origin, v)
  {
  }

  lemma {:induction false} FourSteps(origin: Origin, w: World, s: seq<Step>)
    requires |s| == 4
    ensures Run(origin, w, s) == Next(origin, Next(origin, Next(origin, Next(origin, w, s[0]), s[1]), s[2]), s[3])
  {
    hide Next;
    assert s == [s[0]] + ([s[1]] + ([s[2]] + ([s[3]] + [])));
    RunNext(origin, w, s[0], [s[1]] + ([s[2]] + ([s[3]] + [])));
    var w1 := Next(origin, w, s[0]);
    RunNext(origin, w1, s[1], [s[2]] + ([s[3]] + []));
    RunNext(origin, Next(origin, w1, s[1]), s[2], [s[3]] + []);
    RunNext(origin, Next(origin, Next(origin, w1, s[1]), s[2]), s[3], []);
  }

  lemma {:induction false} AddToNothing(title: string)
    requires Trim(title) != ""
    ensures AddTo([], title, []) == Added([Milestone(1, Trim(title), [], Pending, [])], 1)
  {
    hide Trim, WellFormed;
    EmptyConsistent();
    AddOnSoundGraph([], title, []);
    assert [] + [NewNode([], title, [])] == [NewNode([], title, [])];
  }

  /** The second add cannot read the file, takes it for an empty graph, hands out #1 once more and
      overwrites the milestone that the first add was promised. */
  lemma {:induction false} UnreadFileLosesMilestone()
    ensures var origin := Origin(None, []);
      var steps := OneCall(0, AddOp("a", []), FromFile) + OneCall(0, AddOp("b", []), FromNothing);
      var w := Run(origin, Start(origin), steps);
      && |w.commits| == 2 && Issues(origin, w.commits, 0, 1) && Issues(origin, w.commits, 1, 1)
      && Contents(origin, w) == [Milestone(1, "b", [], Pending, [])]
  {
    hide Run, AddTo, Fold, Seen;
    var origin := Origin(None, []);
    var first, second := OneCall(0, AddOp("a", []), FromFile), OneCall(0, AddOp("b", []), FromNothing);
    AddToNothing("a");
    AddToNothing("b");
    assert Trim("a") == "a" && Trim("b") == "b";
    CallCommits(origin, Start(origin), 0, AddOp("a", []), FromFile);
    var w1 := Run(origin, Start(origin), first);
    CallCommits(origin, w1, 0, AddOp("b", []), FromNothing);
    RunJoin(origin, Start(origin), first, second);
    var w := Run(origin, w1, second);
    FileIsFoldOfCommits(origin, first + second);
    AddIssues(origin, w.commits, 0);
    AddIssues(origin, w.commits, 1);
    SeenFirst(origin, w.commits);
  }

  lemma {:induction false} SeenFirst(origin: Origin, commits: seq<Commit>)
    requires |commits| == 2 && origin == Origin(None, []) && commits[0].source == FromFile
    requires commits[1].source == FromNothing
    ensures Seen(origin, commits, 0) == [] && Seen(origin, commits, 1) == []
  {
    assert commits[..0] == [];
  }
}
