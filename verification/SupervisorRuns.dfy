/** What the crash budget guarantees over every run of daemon starts, exits and ticks.
 */
module SupervisorRuns {
  import opened Wrappers
  import opened Supervision

  // ---------------------------------------------------------------- reading the trace

  /** Crashes of a service recorded since the daemon was last started. */
  function CrashesThisLife(trace: seq<Event>, name: string): nat {
    if trace == [] then 0
    else
      var n := |trace| - 1;
      if trace[n] == DaemonStarted then 0
      else CrashesThisLife(trace[..n], name) + if trace[n] == Crashed(name) then 1 else 0
  }

  /** The modification time with which the manifest of a service was last found. */
  function MtimeSeen(trace: seq<Event>, name: string): Option<nat> {
    if trace == [] then None
    else
      var n := |trace| - 1;
      if trace[n].Found? && trace[n].name == name then Some(trace[n].mtime) else MtimeSeen(trace[..n], name)
  }

  /** Crashes of a service since its manifest last changed. */
  function CrashesThisManifest(trace: seq<Event>, name: string): nat {
    if trace == [] then 0
    else
      var n := |trace| - 1;
      if trace[n].Found? && trace[n].name == name && MtimeSeen(trace[..n], name) != Some(trace[n].mtime) then 0
      else CrashesThisManifest(trace[..n], name) + if trace[n] == Crashed(name) then 1 else 0
  }

  lemma {:induction false} Push(trace: seq<Event>, e: Event, name: string)
    ensures CrashesThisLife(trace + [e], name) ==
            if e == DaemonStarted then 0 else CrashesThisLife(trace, name) + if e == Crashed(name) then 1 else 0
    ensures CrashesThisManifest(trace + [e], name) ==
            if e.Found? && e.name == name && MtimeSeen(trace, name) != Some(e.mtime) then 0
            else CrashesThisManifest(trace, name) + if e == Crashed(name) then 1 else 0
    ensures MtimeSeen(trace + [e], name) ==
            if e.Found? && e.name == name then Some(e.mtime) else MtimeSeen(trace, name)
  {
    assert (trace + [e])[..|trace|] == trace;
  }

  // ---------------------------------------------------------------- the table invariant

  ghost predicate TableOk(t: Table, budget: nat) {
    forall n :: n in t ==> t[n].crashCount <= budget && (t[n].gaveUp <==> t[n].crashCount >= budget)
  }

  /** A service that can still crash is below its budget. */
  ghost predicate ServicesOk(w: World, budget: nat) {
    forall n :: n in w.services && !w.services[n].gaveUp ==> n in w.table && w.table[n].crashCount < budget
  }

  /** A crash of this life shows as a failed service. */
  ghost predicate LifeOk(w: World) {
    forall n :: CrashesThisLife(w.trace, n) == if n in w.services && w.services[n].gaveUp then 1 else 0
  }

  ghost predicate Inv(w: World, budget: nat) {
    TableOk(w.disk, budget) && TableOk(w.table, budget) && ServicesOk(w, budget) && LifeOk(w)
  }

  /** Nothing has crashed yet in this life. */
  ghost predicate Unscathed(w: World) {
    forall n :: n in w.services ==> !w.services[n].gaveUp
  }

  lemma {:induction false} StartOneKeepsInv(w: World, m: Manifest, budget: nat)
    requires 0 < budget <= U32_MAX && Inv(w, budget) && Unscathed(w)
    ensures Inv(StartOne(w, m, budget), budget) && Unscathed(StartOne(w, m, budget))
  {
    hide CrashesThisLife, TableOk;
    ResetKeepsTable(w.table, m, budget);
    StartOneIsNoCrash(w, m, budget);
  }

  lemma {:induction false} ResetKeepsTable(t: Table, m: Manifest, budget: nat)
    requires 0 < budget && TableOk(t, budget)
    ensures TableOk(ResetIfChanged(t, m.name, m.mtime), budget)
  {
  }

  lemma {:induction false} StartOneIsNoCrash(w: World, m: Manifest, budget: nat)
    requires LifeOk(w) && Unscathed(w)
    ensures forall n :: CrashesThisLife(StartOne(w, m, budget).trace, n) == 0
  {
    hide CrashesThisLife, ShouldSkip, ResetIfChanged;
    var seen := Note(w, Found(m.name, m.mtime));
    forall n ensures CrashesThisLife(StartOne(w, m, budget).trace, n) == 0 {
      Push(w.trace, Found(m.name, m.mtime), n);
      Push(seen.trace, Spawned(m.name), n);
    }
  }

  lemma {:induction false} StartEachKeepsInv(w: World, found: seq<Manifest>, budget: nat)
    requires 0 < budget <= U32_MAX && Inv(w, budget) && Unscathed(w)
    ensures Inv(StartEach(w, found, budget), budget) && Unscathed(StartEach(w, found, budget))
  {
    hide Inv, Unscathed, StartOne;
    if found != [] {
      StartEachKeepsInv(w, found[..|found| - 1], budget);
      StartOneKeepsInv(StartEach(w, found[..|found| - 1], budget), found[|found| - 1], budget);
    }
  }

  lemma {:induction false} LookKeepsInv(w: World, name: string, exited: bool, saves: bool, budget: nat)
    requires 0 < budget <= U32_MAX && Inv(w, budget)
    ensures Inv(LookAt(w, name, exited, saves, budget), budget)
  {
    hide CrashesThisLife, CrashesThisManifest;
    if name in w.services && !w.services[name].gaveUp {
      assert TableOk(RecordCrash(w.table, name, budget), budget);
      forall n
        ensures CrashesThisLife(w.trace + [Crashed(name)], n) ==
                CrashesThisLife(w.trace, n) + if n == name then 1 else 0
      {
        Push(w.trace, Crashed(name), n);
      }
    }
  }

  lemma {:induction false} TickKeepsInv(w: World, looks: seq<Look>, budget: nat)
    requires 0 < budget <= U32_MAX && Inv(w, budget)
    ensures Inv(AfterTick(w, looks, budget), budget)
  {
    hide Inv, LookAt;
    if looks != [] {
      var k := looks[|looks| - 1];
      TickKeepsInv(w, looks[..|looks| - 1], budget);
      LookKeepsInv(AfterTick(w, looks[..|looks| - 1], budget), k.name, k.exited, k.saves, budget);
    }
  }

  lemma {:induction false} OpKeepsInv(w: World, op: Op, budget: nat)
    requires 0 < budget <= U32_MAX && Inv(w, budget)
    ensures Inv(Apply(w, op, budget), budget)
  {
    hide Inv, AfterStart, AfterTick;
    match op
    case Start(found, loads, saves) => StartKeepsInv(w, found, loads, saves, budget);
    case Tick(looks) => TickKeepsInv(w, looks, budget);
  }

  lemma {:induction false} StartKeepsInv(w: World, found: seq<Manifest>, loads: bool, saves: bool, budget: nat)
    requires 0 < budget <= U32_MAX && Inv(w, budget)
    ensures Inv(AfterStart(w, found, loads, saves, budget), budget)
  {
    hide CrashesThisLife, StartEach;
    var begun := World(w.disk, if loads then w.disk else map[], map[], w.trace + [DaemonStarted]);
    forall n ensures CrashesThisLife(begun.trace, n) == 0 {
      Push(w.trace, DaemonStarted, n);
    }
    StartEachKeepsInv(begun, found, budget);
    StartEachKeepsDisk(begun, found, budget);
  }

  lemma {:induction false} StartEachKeepsDisk(w: World, found: seq<Manifest>, budget: nat)
    ensures StartEach(w, found, budget).disk == w.disk
  {
    if found != [] {
      StartEachKeepsDisk(w, found[..|found| - 1], budget);
    }
  }

  /** In every run, with state files that may fail to be read or written: no counter exceeds the
      budget, in memory or on disk; a service is given up exactly when its counter is at the
      budget; and each life of the daemon records at most one crash of each service. */
  lemma {:induction false} BudgetIsKept(ops: seq<Op>, budget: nat)
    requires 0 < budget <= U32_MAX
    ensures TableOk(Run(FIRST, ops, budget).table, budget) && TableOk(Run(FIRST, ops, budget).disk, budget)
    ensures forall name :: CrashesThisLife(Run(FIRST, ops, budget).trace, name) <= 1
    ensures Inv(Run(FIRST, ops, budget), budget)
  {
    hide AfterStart, AfterTick, CrashesThisLife;
    if ops == [] {
      NothingRecorded();
    } else {
      BudgetIsKept(ops[..|ops| - 1], budget);
      OpKeepsInv(Run(FIRST, ops[..|ops| - 1], budget), ops[|ops| - 1], budget);
    }
  }

  lemma {:induction false} NothingRecorded()
    ensures forall name :: CrashesThisLife([], name) == 0
  {
  }

  // ---------------------------------------------------------------- after the budget

  ghost predicate AtBudget(t: Table, name: string, mtime: nat, budget: nat) {
    name in t && t[name].crashCount >= budget && t[name].mtime == mtime
  }

  /** The budget of a service is spent, on disk as in memory, and the service is down. */
  ghost predicate Spent(w: World, name: string, mtime: nat, budget: nat) {
    && AtBudget(w.disk, name, mtime, budget) && AtBudget(w.table, name, mtime, budget)
    && (name in w.services ==> w.services[name].gaveUp)
  }

  /** The state file can be read, and the manifest of the service has not been touched. */
  ghost predicate Untouched(op: Op, name: string, mtime: nat) {
    op.Start? ==> op.loads && forall m :: m in op.found && m.name == name ==> m.mtime == mtime
  }

  ghost predicate Quiet(before: seq<Event>, after: seq<Event>, name: string) {
    before <= after && forall i :: |before| <= i < |after| ==> after[i] != Spawned(name) && after[i] != Crashed(name)
  }

  lemma {:induction false} QuietJoin(a: seq<Event>, b: seq<Event>, c: seq<Event>, name: string)
    requires Quiet(a, b, name) && Quiet(b, c, name)
    ensures Quiet(a, c, name)
  {
    forall i | |a| <= i < |c| ensures c[i] != Spawned(name) && c[i] != Crashed(name) {
      assert i < |b| ==> c[i] == b[i];
    }
  }

  lemma {:induction false} SpentStartOne(w: World, m: Manifest, name: string, mtime: nat, budget: nat)
    requires 0 < budget && Spent(w, name, mtime, budget) && (m.name == name ==> m.mtime == mtime)
    ensures Spent(StartOne(w, m, budget), name, mtime, budget)
    ensures Quiet(w.trace, StartOne(w, m, budget).trace, name)
  {
  }

  lemma {:induction false} SpentStart(w: World, found: seq<Manifest>, name: string, mtime: nat, budget: nat)
    requires 0 < budget && Spent(w, name, mtime, budget)
    requires forall m :: m in found && m.name == name ==> m.mtime == mtime
    ensures Spent(StartEach(w, found, budget), name, mtime, budget)
    ensures Quiet(w.trace, StartEach(w, found, budget).trace, name)
  {
    hide Spent, StartOne, Quiet;
    QuietItself(w.trace, name);
    if found != [] {
      var n := |found| - 1;
      assert found == found[..n] + [found[n]];
      var before := StartEach(w, found[..n], budget);
      SpentStart(w, found[..n], name, mtime, budget);
      SpentStartOne(before, found[n], name, mtime, budget);
      QuietJoin(w.trace, before.trace, StartOne(before, found[n], budget).trace, name);
    }
  }

  lemma {:induction false} SpentTick(w: World, looks: seq<Look>, name: string, mtime: nat, budget: nat)
    requires 0 < budget && Spent(w, name, mtime, budget)
    ensures Spent(AfterTick(w, looks, budget), name, mtime, budget)
    ensures Quiet(w.trace, AfterTick(w, looks, budget).trace, name)
  {
    hide Spent, LookAt, Quiet;
    QuietItself(w.trace, name);
    if looks != [] {
      var k := looks[|looks| - 1];
      var before := AfterTick(w, looks[..|looks| - 1], budget);
      SpentTick(w, looks[..|looks| - 1], name, mtime, budget);
      SpentLook(before, k, name, mtime, budget);
      QuietJoin(w.trace, before.trace, LookAt(before, k.name, k.exited, k.saves, budget).trace, name);
    }
  }

  lemma {:induction false} SpentLook(w: World, k: Look, name: string, mtime: nat, budget: nat)
    requires 0 < budget && Spent(w, name, mtime, budget)
    ensures Spent(LookAt(w, k.name, k.exited, k.saves, budget), name, mtime, budget)
    ensures Quiet(w.trace, LookAt(w, k.name, k.exited, k.saves, budget).trace, name)
  {
  }

  lemma {:induction false} QuietItself(a: seq<Event>, name: string)
    ensures Quiet(a, a, name)
  {
  }

  /** Once the budget of a service is spent and saved, it is not started again by any later life
      as long as its manifest is not modified, whichever later saves fail. */
  lemma {:induction false} NoSpawnAfterBudget(w: World, ops: seq<Op>, name: string, mtime: nat, budget: nat)
    requires 0 < budget && Spent(w, name, mtime, budget)
    requires forall op :: op in ops ==> Untouched(op, name, mtime)
    ensures Spent(Run(w, ops, budget), name, mtime, budget)
    ensures Quiet(w.trace, Run(w, ops, budget).trace, name)
  {
    hide Spent, AfterTick, StartEach;
    if ops != [] {
      var n := |ops| - 1;
      assert ops == ops[..n] + [ops[n]];
      NoSpawnAfterBudget(w, ops[..n], name, mtime, budget);
      var before := Run(w, ops[..n], budget);
      SpentOp(before, ops[n], name, mtime, budget);
    }
  }

  lemma {:induction false} SpentOp(w: World, op: Op, name: string, mtime: nat, budget: nat)
    requires 0 < budget && Spent(w, name, mtime, budget) && Untouched(op, name, mtime)
    ensures Spent(Apply(w, op, budget), name, mtime, budget)
    ensures Quiet(w.trace, Apply(w, op, budget).trace, name)
  {
    hide AfterTick, StartEach;
    match op
    case Start(found, loads, saves) =>
      SpentStart(World(w.disk, w.disk, map[], w.trace + [DaemonStarted]), found, name, mtime, budget);
    case Tick(looks) => SpentTick(w, looks, name, mtime, budget);
  }

  // ---------------------------------------------------------------- when it is started again

  /** The record of the service is gone: the file was not read, or a manifest of that name had
      another modification time. */
  ghost predicate Wiped(found: seq<Manifest>, name: string, mtime: nat, loads: bool) {
    !loads || exists j :: 0 <= j < |found| && found[j].name == name && found[j].mtime != mtime
  }

  /** Some manifest of the service can be started at a moment when its record is gone. */
  ghost predicate Revived(found: seq<Manifest>, name: string, mtime: nat, loads: bool) {
    exists i :: 0 <= i < |found| && found[i].name == name && found[i].spawns &&
                Wiped(found[..i + 1], name, mtime, loads)
  }

  ghost predicate SpawnedSince(before: seq<Event>, after: seq<Event>, name: string) {
    before <= after && Spawned(name) in after[|before|..]
  }

  ghost predicate RecordIs(t: Table, name: string, mtime: nat, budget: nat, wiped: bool) {
    if wiped then name in t ==> t[name].crashCount == 0 && !t[name].gaveUp else AtBudget(t, name, mtime, budget)
  }

  lemma {:induction false} WipedNext(found: seq<Manifest>, name: string, mtime: nat, loads: bool)
    requires found != []
    ensures var n := |found| - 1;
      Wiped(found, name, mtime, loads) <==>
      Wiped(found[..n], name, mtime, loads) || (found[n].name == name && found[n].mtime != mtime)
  {
    var n := |found| - 1;
    forall j | 0 <= j < n ensures found[..n][j] == found[j] {
    }
  }

  lemma {:induction false} RevivedNext(found: seq<Manifest>, name: string, mtime: nat, loads: bool)
    requires found != []
    ensures var n := |found| - 1;
      Revived(found, name, mtime, loads) <==>
        Revived(found[..n], name, mtime, loads) ||
        (found[n].name == name && found[n].spawns && Wiped(found, name, mtime, loads))
  {
    hide Wiped;
    var n := |found| - 1;
    assert found[..n + 1] == found;
    forall i | 0 <= i < n ensures found[..n][i] == found[i] && found[..n][..i + 1] == found[..i + 1] {
    }
  }

  /** The events of one manifest. */
  function StartEvents(w: World, m: Manifest, budget: nat): seq<Event> {
    [Found(m.name, m.mtime)] +
    (if ShouldSkip(ResetIfChanged(w.table, m.name, m.mtime), m.name, budget) || !m.spawns then []
     else [Spawned(m.name)])
  }

  lemma {:induction false} StartOneNotes(w: World, m: Manifest, budget: nat)
    ensures StartOne(w, m, budget).trace == w.trace + StartEvents(w, m, budget)
    ensures StartOne(w, m, budget).table == ResetIfChanged(w.table, m.name, m.mtime)
  {
    hide ShouldSkip, ResetIfChanged;
  }

  lemma {:induction false} OneRecord(t: Table, m: Manifest, name: string, mtime: nat, budget: nat, wiped: bool)
    requires 0 < budget && RecordIs(t, name, mtime, budget, wiped)
    ensures var wiped' := wiped || (m.name == name && m.mtime != mtime);
      && RecordIs(ResetIfChanged(t, m.name, m.mtime), name, mtime, budget, wiped')
      && (m.name == name ==> (ShouldSkip(ResetIfChanged(t, name, m.mtime), name, budget) <==> !wiped'))
  {
  }

  lemma {:induction false} SinceMore(base: seq<Event>, trace: seq<Event>, more: seq<Event>, name: string)
    requires base <= trace
    ensures base <= trace + more
    ensures SpawnedSince(base, trace + more, name) <==> SpawnedSince(base, trace, name) || Spawned(name) in more
  {
    assert (trace + more)[|base|..] == trace[|base|..] + more;
  }

  lemma {:induction false} OneRevives(w: World, base: seq<Event>, m: Manifest, name: string, mtime: nat, budget: nat,
          wiped: bool)
    requires 0 < budget && base <= w.trace && RecordIs(w.table, name, mtime, budget, wiped)
    ensures var w', wiped' := StartOne(w, m, budget), wiped || (m.name == name && m.mtime != mtime);
      && base <= w'.trace
      && RecordIs(w'.table, name, mtime, budget, wiped')
      && (SpawnedSince(base, w'.trace, name) <==>
          SpawnedSince(base, w.trace, name) || (m.name == name && m.spawns && wiped'))
  {
    hide StartOne, RecordIs, SpawnedSince, ShouldSkip, ResetIfChanged;
    StartOneNotes(w, m, budget);
    OneRecord(w.table, m, name, mtime, budget, wiped);
    SinceMore(base, w.trace, StartEvents(w, m, budget), name);
  }

  lemma {:induction false} EachRevives(w: World, found: seq<Manifest>, name: string, mtime: nat, budget: nat,
          loads: bool)
    requires 0 < budget && RecordIs(w.table, name, mtime, budget, !loads)
    ensures var w' := StartEach(w, found, budget);
      && w.trace <= w'.trace
      && RecordIs(w'.table, name, mtime, budget, Wiped(found, name, mtime, loads))
      && (SpawnedSince(w.trace, w'.trace, name) <==> Revived(found, name, mtime, loads))
  {
    hide RecordIs, StartOne, Wiped, Revived, SpawnedSince;
    if found == [] {
      NoneFound(w.trace, name, mtime, loads);
    } else {
      var n := |found| - 1;
      EachRevives(w, found[..n], name, mtime, budget, loads);
      OneRevives(StartEach(w, found[..n], budget), w.trace, found[n], name, mtime, budget,
                 Wiped(found[..n], name, mtime, loads));
      WipedNext(found, name, mtime, loads);
      RevivedNext(found, name, mtime, loads);
    }
  }

  lemma {:induction false} NoneFound(trace: seq<Event>, name: string, mtime: nat, loads: bool)
    ensures Wiped([], name, mtime, loads) == !loads && !Revived([], name, mtime, loads)
    ensures !SpawnedSince(trace, trace, name)
  {
  }

  /** A start of the daemon starts a spent service again if and only if a manifest of it can be
      spawned once the state file could not be read or its modification time has changed. */
  lemma {:induction false} SpentIsStartedAgainIff(w: World, found: seq<Manifest>, loads: bool, saves: bool,
                                                  name: string, mtime: nat, budget: nat)
    requires 0 < budget && Spent(w, name, mtime, budget)
    ensures SpawnedSince(w.trace, AfterStart(w, found, loads, saves, budget).trace, name) <==>
            Revived(found, name, mtime, loads)
  {
    hide StartEach, Revived;
    var begun := World(w.disk, if loads then w.disk else map[], map[], w.trace + [DaemonStarted]);
    EachRevives(begun, found, name, mtime, budget, loads);
    var after := StartEach(begun, found, budget).trace;
    assert after == begun.trace + after[|begun.trace|..];
    assert after == w.trace + ([DaemonStarted] + after[|begun.trace|..]);
  }

  // ---------------------------------------------------------------- the budget per manifest

  /** Every read and write of the state file succeeds. */
  ghost predicate Reliable(op: Op) {
    match op
    case Start(found, loads, saves) => loads && saves
    case Tick(looks) => forall k :: k in looks ==> k.saves
  }

  function CountOf(t: Table, name: string): nat {
    if name in t then t[name].crashCount else 0
  }

  /** The counters are the crashes since the manifests last changed; so far every spawn was made
      with budget to spare. */
  ghost predicate Counted(w: World, budget: nat) {
    && (forall n :: CrashesThisManifest(w.trace, n) == CountOf(w.table, n))
    && (forall n :: n in w.table ==> MtimeSeen(w.trace, n) == Some(w.table[n].mtime))
    && SpawnsInBudget(w.trace, budget)
  }

  ghost predicate SpawnsInBudget(trace: seq<Event>, budget: nat) {
    forall j :: 0 <= j < |trace| && trace[j].Spawned? ==> SpawnInBudget(trace, j, budget)
  }

  ghost predicate SpawnInBudget(trace: seq<Event>, j: nat, budget: nat)
    requires j < |trace| && trace[j].Spawned?
  {
    CrashesThisManifest(trace[..j], trace[j].name) < budget
  }

  lemma {:induction false} PushInBudget(trace: seq<Event>, e: Event, budget: nat)
    requires SpawnsInBudget(trace, budget)
    requires e.Spawned? ==> CrashesThisManifest(trace, e.name) < budget
    ensures SpawnsInBudget(trace + [e], budget)
  {
    hide CrashesThisManifest;
    var trace' := trace + [e];
    forall j | 0 <= j < |trace'| && trace'[j].Spawned? ensures SpawnInBudget(trace', j, budget) {
      assert trace'[..j] == trace[..j];
      if j < |trace| {
        assert SpawnInBudget(trace, j, budget);
      } else {
        assert trace[..j] == trace;
      }
    }
  }

  lemma {:induction false} StartOneCounts(w: World, m: Manifest, budget: nat)
    requires 0 < budget && Counted(w, budget)
    ensures Counted(StartOne(w, m, budget), budget)
  {
    hide CrashesThisManifest, MtimeSeen, SpawnsInBudget;
    var seen := Note(w, Found(m.name, m.mtime));
    var t := ResetIfChanged(w.table, m.name, m.mtime);
    forall n
      ensures CrashesThisManifest(seen.trace, n) == CountOf(t, n)
      ensures CrashesThisManifest(seen.trace + [Spawned(m.name)], n) == CountOf(t, n)
      ensures n in t ==> MtimeSeen(seen.trace, n) == Some(t[n].mtime)
      ensures n in t ==> MtimeSeen(seen.trace + [Spawned(m.name)], n) == Some(t[n].mtime)
    {
      Push(w.trace, Found(m.name, m.mtime), n);
      Push(seen.trace, Spawned(m.name), n);
    }
    PushInBudget(w.trace, Found(m.name, m.mtime), budget);
    if !ShouldSkip(t, m.name, budget) {
      PushInBudget(seen.trace, Spawned(m.name), budget);
    }
  }

  lemma {:induction false} StartEachCounts(w: World, found: seq<Manifest>, budget: nat)
    requires 0 < budget && Counted(w, budget)
    ensures Counted(StartEach(w, found, budget), budget)
  {
    hide Counted, StartOne;
    if found != [] {
      StartEachCounts(w, found[..|found| - 1], budget);
      StartOneCounts(StartEach(w, found[..|found| - 1], budget), found[|found| - 1], budget);
    }
  }

  lemma {:induction false} LookCounts(w: World, k: Look, budget: nat)
    requires 0 < budget <= U32_MAX && Inv(w, budget) && Counted(w, budget)
    ensures Counted(LookAt(w, k.name, k.exited, k.saves, budget), budget)
  {
    hide CrashesThisManifest, MtimeSeen, SpawnsInBudget, LifeOk;
    if k.name in w.services && !w.services[k.name].gaveUp {
      forall n
        ensures CrashesThisManifest(w.trace + [Crashed(k.name)], n) ==
                CrashesThisManifest(w.trace, n) + if n == k.name then 1 else 0
        ensures MtimeSeen(w.trace + [Crashed(k.name)], n) == MtimeSeen(w.trace, n)
      {
        Push(w.trace, Crashed(k.name), n);
      }
      PushInBudget(w.trace, Crashed(k.name), budget);
    }
  }

  lemma {:induction false} TickCounts(w: World, looks: seq<Look>, budget: nat)
    requires 0 < budget <= U32_MAX && Inv(w, budget) && Counted(w, budget)
    requires w.disk == w.table && forall k :: k in looks ==> k.saves
    ensures Counted(AfterTick(w, looks, budget), budget)
    ensures AfterTick(w, looks, budget).disk == AfterTick(w, looks, budget).table
  {
    hide Inv, Counted;
    if looks != [] {
      var n := |looks| - 1;
      assert looks == looks[..n] + [looks[n]];
      TickCounts(w, looks[..n], budget);
      TickKeepsInv(w, looks[..n], budget);
      LookCounts(AfterTick(w, looks[..n], budget), looks[n], budget);
    }
  }

  /** When the state file works, a service is started only while the crashes recorded since its
      manifest last changed are below the budget, and never more than the budget are recorded. */
  lemma {:induction false} SpawnsOnlyBelowBudget(ops: seq<Op>, budget: nat)
    requires 0 < budget <= U32_MAX
    requires forall op :: op in ops ==> Reliable(op)
    ensures SpawnsInBudget(Run(FIRST, ops, budget).trace, budget)
    ensures forall name :: CrashesThisManifest(Run(FIRST, ops, budget).trace, name) <= budget
    ensures Counted(Run(FIRST, ops, budget), budget) && Run(FIRST, ops, budget).disk == Run(FIRST, ops, budget).table
  {
    hide AfterStart, AfterTick, CrashesThisManifest, SpawnsInBudget, LifeOk;
    BudgetIsKept(ops, budget);
    if ops == [] {
      NothingCounted(budget);
    } else {
      var n := |ops| - 1;
      assert ops == ops[..n] + [ops[n]];
      SpawnsOnlyBelowBudget(ops[..n], budget);
      BudgetIsKept(ops[..n], budget);
      OpCounts(Run(FIRST, ops[..n], budget), ops[n], budget);
    }
  }

  lemma {:induction false} NothingCounted(budget: nat)
    ensures (forall name :: CrashesThisManifest([], name) == 0) && SpawnsInBudget([], budget)
  {
  }

  lemma {:induction false} OpCounts(w: World, op: Op, budget: nat)
    requires 0 < budget <= U32_MAX && Inv(w, budget) && Counted(w, budget) && w.disk == w.table && Reliable(op)
    ensures Counted(Apply(w, op, budget), budget)
    ensures Apply(w, op, budget).disk == Apply(w, op, budget).table
  {
    hide Inv, SpawnsInBudget, CrashesThisManifest;
    match op
    case Start(found, loads, saves) => {
      var begun := World(w.disk, w.disk, map[], w.trace + [DaemonStarted]);
      forall n
        ensures CrashesThisManifest(begun.trace, n) == CountOf(begun.table, n)
        ensures MtimeSeen(begun.trace, n) == MtimeSeen(w.trace, n)
      {
        Push(w.trace, DaemonStarted, n);
      }
      PushInBudget(w.trace, DaemonStarted, budget);
      StartEachCounts(begun, found, budget);
    }
    case Tick(looks) => TickCounts(w, looks, budget);
  }

  // ---------------------------------------------------------------- exactly when the budget is overrun

  /** What is read from the state file forbids to start this manifest. */
  predicate Forbidden(t: Table, m: Manifest, budget: nat) {
    m.name in t && t[m.name].mtime == m.mtime && ShouldSkip(t, m.name, budget)
  }

  /** Up to here the manifest is found as it was last seen. */
  ghost predicate Steady(trace: seq<Event>, found: seq<Manifest>, name: string) {
    forall j :: 0 <= j < |found| && found[j].name == name ==> MtimeSeen(trace, name) == Some(found[j].mtime)
  }

  /** The `i`-th manifest has not changed and its crashes have used up the budget, but what is read
      from the state file does not say so. */
  ghost predicate Overruns(trace: seq<Event>, t: Table, found: seq<Manifest>, i: nat, budget: nat)
    requires i < |found|
  {
    && found[i].spawns && Steady(trace, found[..i + 1], found[i].name)
    && CrashesThisManifest(trace, found[i].name) >= budget && !Forbidden(t, found[i], budget)
  }

  lemma {:induction false} PushInBudgetIff(trace: seq<Event>, e: Event, budget: nat)
    ensures SpawnsInBudget(trace + [e], budget) <==>
            SpawnsInBudget(trace, budget) && (e.Spawned? ==> CrashesThisManifest(trace, e.name) < budget)
  {
    hide CrashesThisManifest;
    var trace' := trace + [e];
    assert trace'[..|trace|] == trace;
    forall j | 0 <= j < |trace| && trace[j].Spawned?
      ensures SpawnInBudget(trace', j, budget) <==> SpawnInBudget(trace, j, budget)
    {
      assert trace'[..j] == trace[..j];
    }
    if SpawnsInBudget(trace', budget) {
      forall j | 0 <= j < |trace| && trace[j].Spawned? ensures SpawnInBudget(trace, j, budget) {
        assert trace'[j] == trace[j];
      }
      if e.Spawned? {
        assert SpawnInBudget(trace', |trace|, budget);
      }
    }
    if SpawnsInBudget(trace, budget) && (e.Spawned? ==> CrashesThisManifest(trace, e.name) < budget) {
      PushInBudget(trace, e, budget);
    }
  }

  lemma {:induction false} ForbiddenAfter(t: Table, m: Manifest, k: Manifest, budget: nat)
    requires 0 < budget && (m.name == k.name ==> m.mtime == k.mtime)
    ensures Forbidden(ResetIfChanged(t, m.name, m.mtime), k, budget) <==> Forbidden(t, k, budget)
    ensures ShouldSkip(ResetIfChanged(t, m.name, m.mtime), m.name, budget) <==> Forbidden(t, m, budget)
  {
  }

  lemma {:induction false} SteadyNext(trace: seq<Event>, found: seq<Manifest>, name: string)
    requires found != []
    ensures var n := |found| - 1;
      Steady(trace, found, name) <==>
      Steady(trace, found[..n], name) && (found[n].name == name ==> MtimeSeen(trace, name) == Some(found[n].mtime))
  {
    hide MtimeSeen;
    var n := |found| - 1;
    assert found == found[..n] + [found[n]];
  }

  /** As long as the manifest is steady, neither its crashes nor what forbids it changes; after a
      change its crashes start from 0. */
  lemma {:induction false} EachTracks(w: World, found: seq<Manifest>, k: Manifest, budget: nat)
    requires 0 < budget
    ensures var w', name := StartEach(w, found, budget), k.name;
      if Steady(w.trace, found, name) then
        && CrashesThisManifest(w'.trace, name) == CrashesThisManifest(w.trace, name)
        && MtimeSeen(w'.trace, name) == MtimeSeen(w.trace, name)
        && (MtimeSeen(w.trace, name) == Some(k.mtime) ==>
              (Forbidden(w'.table, k, budget) <==> Forbidden(w.table, k, budget)))
      else CrashesThisManifest(w'.trace, name) == 0
  {
    hide CrashesThisManifest, MtimeSeen, StartOne, Forbidden, Steady;
    if found == [] {
      NothingFound(w.trace, k.name);
    } else {
      var n := |found| - 1;
      var m, before := found[n], StartEach(w, found[..n], budget);
      EachTracks(w, found[..n], k, budget);
      SteadyNext(w.trace, found, k.name);
      StartOneNotes(before, m, budget);
      EventsCount(before.trace, m, StartEvents(before, m, budget), k.name);
      if m.name == k.name ==> m.mtime == k.mtime {
        ForbiddenAfter(before.table, m, k, budget);
      }
    }
  }

  lemma {:induction false} NothingFound(trace: seq<Event>, name: string)
    ensures Steady(trace, [], name)
  {
  }

  /** The events of one manifest, counted. */
  lemma {:induction false} EventsCount(trace: seq<Event>, m: Manifest, es: seq<Event>, name: string)
    requires es == [Found(m.name, m.mtime)] || es == [Found(m.name, m.mtime), Spawned(m.name)]
    ensures CrashesThisManifest(trace + es, name) ==
            if m.name == name && MtimeSeen(trace, name) != Some(m.mtime) then 0 else CrashesThisManifest(trace, name)
    ensures MtimeSeen(trace + es, name) == if m.name == name then Some(m.mtime) else MtimeSeen(trace, name)
  {
    hide CrashesThisManifest, MtimeSeen, CrashesThisLife;
    var found := trace + [Found(m.name, m.mtime)];
    Push(trace, Found(m.name, m.mtime), name);
    Push(found, Spawned(m.name), name);
    assert trace + [Found(m.name, m.mtime), Spawned(m.name)] == found + [Spawned(m.name)];
  }

  lemma {:induction false} OneOverrunsIff(w: World, found: seq<Manifest>, budget: nat)
    requires 0 < budget && found != []
    ensures var n := |found| - 1;
      SpawnsInBudget(StartEach(w, found, budget).trace, budget) <==>
      SpawnsInBudget(StartEach(w, found[..n], budget).trace, budget) && !Overruns(w.trace, w.table, found, n, budget)
  {
    hide CrashesThisManifest, MtimeSeen, StartOne, Forbidden, Steady, SpawnsInBudget, ShouldSkip, ResetIfChanged;
    var n := |found| - 1;
    var m, before := found[n], StartEach(w, found[..n], budget);
    var seen := before.trace + [Found(m.name, m.mtime)];
    StartOneNotes(before, m, budget);
    PushInBudgetIff(before.trace, Found(m.name, m.mtime), budget);
    PushInBudgetIff(seen, Spawned(m.name), budget);
    ForbiddenAfter(before.table, m, m, budget);
    var emits := !Forbidden(before.table, m, budget) && m.spawns;
    assert StartEach(w, found, budget).trace == if emits then seen + [Spawned(m.name)] else seen;
    EventsCount(before.trace, m, [Found(m.name, m.mtime)], m.name);
    EachTracks(w, found[..n], m, budget);
    SteadyNext(w.trace, found, m.name);
    assert found[..n + 1] == found;
  }

  lemma {:induction false} EachOverrunsIff(w: World, found: seq<Manifest>, budget: nat)
    requires 0 < budget
    ensures SpawnsInBudget(StartEach(w, found, budget).trace, budget) <==>
            SpawnsInBudget(w.trace, budget) && NoneOverruns(w.trace, w.table, found, budget)
  {
    hide SpawnsInBudget, StartOne, Overruns, NoneOverruns;
    NoneOverrunsNext(w.trace, w.table, found, budget);
    if found != [] {
      EachOverrunsIff(w, found[..|found| - 1], budget);
      OneOverrunsIff(w, found, budget);
    }
  }

  ghost predicate NoneOverruns(trace: seq<Event>, t: Table, found: seq<Manifest>, budget: nat) {
    forall i :: 0 <= i < |found| ==> !Overruns(trace, t, found, i, budget)
  }

  lemma {:induction false} NoneOverrunsNext(trace: seq<Event>, t: Table, found: seq<Manifest>, budget: nat)
    ensures NoneOverruns(trace, t, found, budget) <==>
            found == [] ||
            (NoneOverruns(trace, t, found[..|found| - 1], budget) && !Overruns(trace, t, found, |found| - 1, budget))
  {
    hide CrashesThisManifest, Steady, Forbidden;
    if found != [] {
      var n := |found| - 1;
      forall i | 0 <= i < n
        ensures Overruns(trace, t, found[..n], i, budget) == Overruns(trace, t, found, i, budget)
      {
        assert found[..n][..i + 1] == found[..i + 1];
      }
      if NoneOverruns(trace, t, found, budget) {
        forall i | 0 <= i < n ensures !Overruns(trace, t, found[..n], i, budget) {
          assert !Overruns(trace, t, found, i, budget);
        }
      }
      if NoneOverruns(trace, t, found[..n], budget) {
        forall i | 0 <= i < n ensures !Overruns(trace, t, found, i, budget) {
          assert !Overruns(trace, t, found[..n], i, budget);
        }
      }
    }
  }

  /** No manifest overruns its budget in this start. */
  ghost predicate StartFits(w: World, op: Op, budget: nat) {
    op.Start? ==> NoneOverruns(w.trace, if op.loads then w.disk else map[], op.found, budget)
  }

  lemma {:induction false} OpFitsIff(w: World, op: Op, budget: nat)
    requires 0 < budget
    ensures SpawnsInBudget(Apply(w, op, budget).trace, budget) <==>
            SpawnsInBudget(w.trace, budget) && StartFits(w, op, budget)
  {
    hide SpawnsInBudget, CrashesThisManifest, MtimeSeen, StartEach, Forbidden, CrashesThisLife;
    match op
    case Start(found, loads, saves) =>
      var table := if loads then w.disk else map[];
      var begun := World(w.disk, table, map[], w.trace + [DaemonStarted]);
      PushInBudgetIff(w.trace, DaemonStarted, budget);
      EachOverrunsIff(begun, found, budget);
      StillNoneOverruns(w.trace, table, found, budget);
    case Tick(looks) => TickSpawnsNothing(w, looks, budget);
  }

  lemma {:induction false} StillNoneOverruns(trace: seq<Event>, t: Table, found: seq<Manifest>, budget: nat)
    ensures NoneOverruns(trace + [DaemonStarted], t, found, budget) <==> NoneOverruns(trace, t, found, budget)
  {
    hide CrashesThisManifest, MtimeSeen, Forbidden, CrashesThisLife, Steady;
    forall i | 0 <= i < |found|
      ensures Overruns(trace + [DaemonStarted], t, found, i, budget) == Overruns(trace, t, found, i, budget)
    {
      Push(trace, DaemonStarted, found[i].name);
      SteadyStill(trace, DaemonStarted, found[..i + 1], found[i].name);
    }
    if NoneOverruns(trace, t, found, budget) {
      forall i | 0 <= i < |found| ensures !Overruns(trace + [DaemonStarted], t, found, i, budget) {
        assert !Overruns(trace, t, found, i, budget);
      }
    }
    if NoneOverruns(trace + [DaemonStarted], t, found, budget) {
      forall i | 0 <= i < |found| ensures !Overruns(trace, t, found, i, budget) {
        assert !Overruns(trace + [DaemonStarted], t, found, i, budget);
      }
    }
  }

  lemma {:induction false} SteadyStill(trace: seq<Event>, e: Event, found: seq<Manifest>, name: string)
    requires !e.Found?
    ensures Steady(trace + [e], found, name) <==> Steady(trace, found, name)
  {
    hide MtimeSeen, CrashesThisLife, CrashesThisManifest;
    Push(trace, e, name);
  }

  lemma {:induction false} TickSpawnsNothing(w: World, looks: seq<Look>, budget: nat)
    ensures SpawnsInBudget(AfterTick(w, looks, budget).trace, budget) <==> SpawnsInBudget(w.trace, budget)
  {
    hide SpawnsInBudget, CrashesThisManifest;
    if looks != [] {
      var n := |looks| - 1;
      TickSpawnsNothing(w, looks[..n], budget);
      PushInBudgetIff(AfterTick(w, looks[..n], budget).trace, Crashed(looks[n].name), budget);
    }
  }

  /** Over every run, whatever reads and writes of the state file fail: no service is ever started
      after its crashes have used up the budget of its manifest, if and only if no start comes across
      such a manifest that what it reads from the state file does not forbid. */
  lemma {:induction false} SpawnsInBudgetIff(ops: seq<Op>, budget: nat)
    requires 0 < budget
    ensures SpawnsInBudget(Run(FIRST, ops, budget).trace, budget) <==>
            forall k :: 0 <= k < |ops| ==> StartFits(Run(FIRST, ops[..k], budget), ops[k], budget)
  {
    hide SpawnsInBudget, StartFits, Apply;
    if ops == [] {
      NothingCounted(budget);
    } else {
      var n := |ops| - 1;
      SpawnsInBudgetIff(ops[..n], budget);
      OpFitsIff(Run(FIRST, ops[..n], budget), ops[n], budget);
      forall k | 0 <= k < n ensures ops[..n][k] == ops[k] && ops[..n][..k] == ops[..k] {
      }
    }
  }

  // ---------------------------------------------------------------- two runs that overrun it

  const SERVICE := Manifest("s", 0, true)

  /** A crash that is not saved, and then a start. */
  const UNSAVED := [Start([SERVICE], true, true), Tick([Look("s", true, false)]), Start([SERVICE], true, true)]

  /** A crash that is saved, and then a start that cannot read the file. */
  const UNREAD := [Start([SERVICE], true, true), Tick([Look("s", true, true)]), Start([SERVICE], false, true)]

  /** What the first start and the crash leave, for a budget of one crash. */
  lemma {:induction false} OneCrash(saves: bool)
    ensures var w := AfterTick(AfterStart(FIRST, [SERVICE], true, true, 1), [Look("s", true, saves)], 1);
      && w.trace == [DaemonStarted, Found("s", 0), Spawned("s"), Crashed("s")]
      && w.disk == map["s" := if saves then ServiceEntry(true, 1, 0) else ServiceEntry(false, 0, 0)]
  {
    assert [SERVICE][..0] == [] && [Look("s", true, saves)][..0] == [];
    var begun := World(map[], map[], map[], [] + [DaemonStarted]);
    assert StartEach(begun, [], 1) == begun;
    var started := AfterStart(FIRST, [SERVICE], true, true, 1);
    assert started.disk == map["s" := ServiceEntry(false, 0, 0)];
    assert started.services == map["s" := Service(true, false)];
    assert started.trace == [DaemonStarted, Found("s", 0), Spawned("s")];
    assert AfterTick(started, [], 1) == started;
  }

  lemma {:induction false} NoTrace(name: string)
    ensures CrashesThisManifest([], name) == 0 && MtimeSeen([], name) == None
  {
  }

  lemma {:induction false} OneCrashCounted()
    ensures var trace := [DaemonStarted, Found("s", 0), Spawned("s"), Crashed("s")];
      CrashesThisManifest(trace, "s") == 1 && MtimeSeen(trace, "s") == Some(0)
  {
    hide CrashesThisManifest, MtimeSeen, CrashesThisLife;
    var a, b, c := [DaemonStarted], [DaemonStarted, Found("s", 0)], [DaemonStarted, Found("s", 0), Spawned("s")];
    assert a == [] + [DaemonStarted] && b == a + [Found("s", 0)] && c == b + [Spawned("s")];
    NoTrace("s");
    Push([], DaemonStarted, "s");
    Push(a, Found("s", 0), "s");
    Push(b, Spawned("s"), "s");
    Push(c, Crashed("s"), "s");
    assert c + [Crashed("s")] == [DaemonStarted, Found("s", 0), Spawned("s"), Crashed("s")];
  }

  /** In both runs the service is started again although it has crashed as often as it may. */
  lemma {:induction false} BudgetIsOverrun()
    ensures !SpawnsInBudget(Run(FIRST, UNSAVED, 1).trace, 1) && !SpawnsInBudget(Run(FIRST, UNREAD, 1).trace, 1)
  {
    hide SpawnsInBudget, CrashesThisManifest, MtimeSeen, AfterStart, AfterTick;
    OneCrash(false);
    OneCrash(true);
    OneCrashCounted();
    ThirdOverruns(UNSAVED);
    ThirdOverruns(UNREAD);
  }

  lemma {:induction false} ThirdOverruns(ops: seq<Op>)
    requires |ops| == 3 && ops[0] == Start([SERVICE], true, true) && ops[1].Tick?
    requires ops[2].Start? && ops[2].found == [SERVICE]
    requires var w := Apply(Apply(FIRST, ops[0], 1), ops[1], 1);
      && CrashesThisManifest(w.trace, "s") == 1 && MtimeSeen(w.trace, "s") == Some(0)
      && !Forbidden(if ops[2].loads then w.disk else map[], SERVICE, 1)
    ensures !SpawnsInBudget(Run(FIRST, ops, 1).trace, 1)
  {
    hide SpawnsInBudget, CrashesThisManifest, MtimeSeen, Apply, Forbidden;
    assert ops[..2][..1] == ops[..1] && ops[..1][..0] == [] && ops[..2][1] == ops[1] && ops[..1][0] == ops[0];
    assert Run(FIRST, [], 1) == FIRST;
    assert Run(FIRST, ops[..1], 1) == Apply(FIRST, ops[0], 1);
    var w := Run(FIRST, ops[..2], 1);
    assert w == Apply(Apply(FIRST, ops[0], 1), ops[1], 1);
    assert [SERVICE][..1] == [SERVICE];
    assert Overruns(w.trace, if ops[2].loads then w.disk else map[], [SERVICE], 0, 1);
    assert !StartFits(w, ops[2], 1);
    OpFitsIff(w, ops[2], 1);
    assert Run(FIRST, ops, 1) == Apply(w, ops[2], 1);
  }
}
