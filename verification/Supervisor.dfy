/** The crash budget of persistent capabilities (`src/supervisor_state.rs`) and the supervisor
    that spends it (`src/capability.rs`): started once per daemon life, never restarted within
    one, and skipped by later lives once the budget is gone.
 */
module Supervision {
  datatype ServiceEntry = ServiceEntry(gaveUp: bool, crashCount: nat, mtime: nat)

  type Table = map<string, ServiceEntry>

  const U32_MAX: nat := 0xFFFF_FFFF

  /** `reset_if_manifest_changed`: a new modification time wipes the record. */
  function ResetIfChanged(t: Table, name: string, mtime: nat): Table {
    if name in t && t[name].mtime == mtime then t else t[name := ServiceEntry(false, 0, mtime)]
  }

  /** `should_skip`. */
  predicate ShouldSkip(t: Table, name: string, budget: nat) {
    name in t && (t[name].gaveUp || (budget > 0 && t[name].crashCount >= budget))
  }

  /** `record_crash`, with its saturating counter. */
  function RecordCrash(t: Table, name: string, budget: nat): Table {
    var e := if name in t then t[name] else ServiceEntry(false, 0, 0);
    var count := if e.crashCount < U32_MAX then e.crashCount + 1 else U32_MAX;
    t[name := ServiceEntry(e.gaveUp || (budget > 0 && count >= budget), count, e.mtime)]
  }

  // ---------------------------------------------------------------- lives of a daemon

  /** A manifest found on start; `spawns` tells whether reading it again and spawning succeed. */
  datatype Manifest = Manifest(name: string, mtime: nat, spawns: bool)

  datatype Service = Service(hasChild: bool, gaveUp: bool)

  /** `Found` is a manifest with its modification time, as a start of the daemon comes across it. */
  datatype Event = DaemonStarted | Found(name: string, mtime: nat) | Spawned(name: string) | Crashed(name: string)

  /** The state file, the table and services of the current life, and what has happened. */
  datatype World = World(disk: Table, table: Table, services: map<string, Service>, trace: seq<Event>)

  const FIRST := World(map[], map[], map[], [])

  function Note(w: World, e: Event): World {
    w.(trace := w.trace + [e])
  }

  /** One manifest of `start_all`. */
  function StartOne(w: World, m: Manifest, budget: nat): World {
    var seen := Note(w, Found(m.name, m.mtime));
    var w' := seen.(table := ResetIfChanged(w.table, m.name, m.mtime));
    if ShouldSkip(w'.table, m.name, budget) || !m.spawns then w'
    else Note(w'.(services := w'.services[m.name := Service(true, false)]), Spawned(m.name))
  }

  function StartEach(w: World, found: seq<Manifest>, budget: nat): World {
    if found == [] then w else StartOne(StartEach(w, found[..|found| - 1], budget), found[|found| - 1], budget)
  }

  /** `start_all` in a new life; an unreadable state file counts as empty. */
  function AfterStart(w: World, found: seq<Manifest>, loads: bool, saves: bool, budget: nat): World {
    var table := if loads then w.disk else map[];
    var w' := StartEach(World(w.disk, table, map[], w.trace + [DaemonStarted]), found, budget);
    if saves then w'.(disk := w'.table) else w'
  }

  /** One service of `supervise`: a child that has exited is marked failed and recorded, once. */
  function LookAt(w: World, name: string, exited: bool, saves: bool, budget: nat): World {
    if name !in w.services || w.services[name].gaveUp || (w.services[name].hasChild && !exited) then w
    else
      var t := RecordCrash(w.table, name, budget);
      Note(World(if saves then t else w.disk, t, w.services[name := Service(false, true)], w.trace), Crashed(name))
  }

  /** What a supervision tick learns about one service. */
  datatype Look = Look(name: string, exited: bool, saves: bool)

  function AfterTick(w: World, looks: seq<Look>, budget: nat): World {
    if looks == [] then w
    else
      var k := looks[|looks| - 1];
      LookAt(AfterTick(w, looks[..|looks| - 1], budget), k.name, k.exited, k.saves, budget)
  }

  datatype Op = Start(found: seq<Manifest>, loads: bool, saves: bool) | Tick(looks: seq<Look>)

  function Apply(w: World, op: Op, budget: nat): World {
    match op
    case Start(found, loads, saves) => AfterStart(w, found, loads, saves, budget)
    case Tick(looks) => AfterTick(w, looks, budget)
  }

  function Run(w: World, ops: seq<Op>, budget: nat): World {
    if ops == [] then w else Apply(Run(w, ops[..|ops| - 1], budget), ops[|ops| - 1], budget)
  }

  // ---------------------------------------------------------------- the object

  class Supervisor {
    const budget: nat
    /** The state file. */
    var disk: Table
    var table: Table
    var services: map<string, Service>
    var trace: seq<Event>

    ghost function View(): World
      reads this
    {
      World(disk, table, services, trace)
    }

    constructor (budget: nat)
      ensures this.budget == budget && View() == FIRST
    {
      this.budget, disk, table, services, trace := budget, map[], map[], map[], [];
    }

    method ResetIfManifestChanged(name: string, mtime: nat) returns (reset: bool)
      modifies this`table
      ensures table == ResetIfChanged(old(table), name, mtime)
      ensures reset <==> name in old(table) && old(table)[name].mtime != mtime
    {
      if name in table {
        reset := table[name].mtime != mtime;
        if reset {
          table := table[name := ServiceEntry(false, 0, mtime)];
        }
      } else {
        table := table[name := ServiceEntry(false, 0, mtime)];
        reset := false;
      }
    }

    method StartAll(found: seq<Manifest>, loads: bool, saves: bool)
      modifies this
      ensures View() == AfterStart(old(View()), found, loads, saves, budget)
    {
      table, services := if loads then disk else map[], map[];
      trace := trace + [DaemonStarted];
      ghost var begun := View();
      for i := 0 to |found|
        invariant View() == StartEach(begun, found[..i], budget)
      {
        assert found[..i + 1][..i] == found[..i];
        var m := found[i];
        var _ := ResetIfManifestChanged(m.name, m.mtime);
        trace := trace + [Found(m.name, m.mtime)];
        if ShouldSkip(table, m.name, budget) {
          continue;
        }
        if m.spawns {
          services := services[m.name := Service(true, false)];
          trace := trace + [Spawned(m.name)];
        }
      }
      assert found[..|found|] == found;
      if saves {
        disk := table;
      }
    }

    method Supervise(looks: seq<Look>)
      modifies this
      ensures View() == AfterTick(old(View()), looks, budget)
    {
      for i := 0 to |looks|
        invariant View() == AfterTick(old(View()), looks[..i], budget)
      {
        assert looks[..i + 1][..i] == looks[..i];
        var name := looks[i].name;
        if name !in services || services[name].gaveUp {
          continue;
        }
        var exited := !services[name].hasChild || looks[i].exited;
        if !exited {
          continue;
        }
        services := services[name := Service(false, true)];
        table := RecordCrash(table, name, budget);
        if looks[i].saves {
          disk := table;
        }
        trace := trace + [Crashed(name)];
      }
      assert looks[..|looks|] == looks;
    }
  }
}
