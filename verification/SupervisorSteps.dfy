/** What a start of the daemon and a look at a service do, whatever the state file says. */
module SupervisorSteps {
  import opened Supervision

  // ---------------------------------------------------------------- a start

  /** Every manifest of that name among the first `n` has the modification time on record. */
  ghost predicate Unmodified(known: Table, found: seq<Manifest>, n: nat, name: string)
    requires n <= |found|
  {
    forall j :: 0 <= j < n && found[j].name == name ==> name in known && found[j].mtime == known[name].mtime
  }

  /** Given up, or out of budget, where there is one. */
  predicate IsSpent(e: ServiceEntry, budget: nat) {
    e.gaveUp || (budget != 0 && e.crashCount >= budget)
  }

  /** The `i`-th manifest is started: it can be, and there is no spent record for it, or the record is
      of another version of the manifest. */
  ghost predicate Starts(known: Table, found: seq<Manifest>, i: nat, budget: nat)
    requires i < |found|
  {
    var name := found[i].name;
    found[i].spawns && !(name in known && IsSpent(known[name], budget) && Unmodified(known, found, i + 1, name))
  }

  /** The events of the first `n` manifests. */
  ghost function StartLog(known: Table, found: seq<Manifest>, n: nat, budget: nat): seq<Event>
    requires n <= |found|
  {
    if n == 0 then []
    else
      var m := found[n - 1];
      StartLog(known, found, n - 1, budget) + [Found(m.name, m.mtime)] +
      if Starts(known, found, n - 1, budget) then [Spawned(m.name)] else []
  }

  /** The record of a service after the first `n` manifests: as it was, or a fresh one for the latest
      modification time. */
  ghost predicate RecordAfter(known: Table, found: seq<Manifest>, n: nat, name: string, t: Table)
    requires n <= |found|
  {
    if Unmodified(known, found, n, name)
    then (name in t <==> name in known) && (name in t ==> t[name] == known[name])
    else name in t && Latest(found, n, name, t[name].mtime) && t[name] == ServiceEntry(false, 0, t[name].mtime)
  }

  ghost predicate Latest(found: seq<Manifest>, n: nat, name: string, mtime: nat)
    requires n <= |found|
  {
    exists j :: 0 <= j < n && found[j].name == name && found[j].mtime == mtime &&
                forall k :: j < k < n ==> found[k].name != name
  }

  ghost predicate SomeStarts(known: Table, found: seq<Manifest>, n: nat, name: string, budget: nat)
    requires n <= |found|
  {
    exists i :: 0 <= i < n && found[i].name == name && Starts(known, found, i, budget)
  }

  /** The world after the first `n` manifests. */
  ghost predicate StartedUpto(w: World, found: seq<Manifest>, n: nat, budget: nat, r: World)
    requires n <= |found|
  {
    && r.disk == w.disk && r.trace == w.trace + StartLog(w.table, found, n, budget)
    && (forall name :: RecordAfter(w.table, found, n, name, r.table))
    && (forall name :: name in r.services <==> name in w.services || SomeStarts(w.table, found, n, name, budget))
    && (forall name :: SomeStarts(w.table, found, n, name, budget) ==>
          name in r.services && r.services[name] == Service(true, false))
  }

  lemma {:induction false} RecordNext(known: Table, found: seq<Manifest>, n: nat, name: string, t: Table)
    requires n < |found| && RecordAfter(known, found, n, name, t)
    ensures RecordAfter(known, found, n + 1, name, ResetIfChanged(t, found[n].name, found[n].mtime))
  {
    var m := found[n];
    assert Unmodified(known, found, n + 1, name) <==>
           Unmodified(known, found, n, name) &&
           (m.name == name ==> name in known && m.mtime == known[name].mtime);
    if m.name == name {
      assert Latest(found, n + 1, name, m.mtime);
    } else if !Unmodified(known, found, n, name) {
      var mtime := t[name].mtime;
      var j :| 0 <= j < n && found[j].name == name && found[j].mtime == mtime &&
               forall k :: j < k < n ==> found[k].name != name;
      assert Latest(found, n + 1, name, mtime);
    }
  }

  lemma {:induction false} SkipIff(known: Table, found: seq<Manifest>, n: nat, t: Table, budget: nat)
    requires n < |found| && RecordAfter(known, found, n, found[n].name, t)
    ensures var m := found[n];
      Starts(known, found, n, budget) <==>
      m.spawns && !ShouldSkip(ResetIfChanged(t, m.name, m.mtime), m.name, budget)
  {
    RecordNext(known, found, n, found[n].name, t);
  }

  lemma {:induction false} SomeStartsNext(known: Table, found: seq<Manifest>, n: nat, name: string, budget: nat)
    requires n < |found|
    ensures SomeStarts(known, found, n + 1, name, budget) <==>
            SomeStarts(known, found, n, name, budget) || (found[n].name == name && Starts(known, found, n, budget))
  {
    hide Starts;
  }

  lemma {:induction false} OneMore(w: World, found: seq<Manifest>, n: nat, budget: nat, r: World)
    requires n < |found| && StartedUpto(w, found, n, budget, r)
    ensures StartedUpto(w, found, n + 1, budget, StartOne(r, found[n], budget))
  {
    hide Starts, RecordAfter, SomeStarts, ShouldSkip, ResetIfChanged;
    var m := found[n];
    var r' := StartOne(r, m, budget);
    var next, t := n + 1, r'.table;
    SkipIff(w.table, found, n, r.table, budget);
    forall name ensures RecordAfter(w.table, found, next, name, t) {
      RecordNext(w.table, found, n, name, r.table);
    }
    forall name ensures SomeStarts(w.table, found, n + 1, name, budget) <==>
                        SomeStarts(w.table, found, n, name, budget) ||
                        (m.name == name && Starts(w.table, found, n, budget)) {
      SomeStartsNext(w.table, found, n, name, budget);
    }
    assert r'.trace == w.trace + StartLog(w.table, found, n + 1, budget);
  }

  lemma {:induction false} NothingStarted(w: World, found: seq<Manifest>, budget: nat)
    ensures StartedUpto(w, found, 0, budget, w)
  {
  }

  lemma {:induction false} EachStarts(w: World, found: seq<Manifest>, n: nat, budget: nat)
    requires n <= |found|
    ensures StartedUpto(w, found, n, budget, StartEach(w, found[..n], budget))
  {
    hide StartedUpto, StartOne;
    if n == 0 {
      NothingStarted(w, found, budget);
    } else {
      EachStarts(w, found, n - 1, budget);
      assert found[..n][..n - 1] == found[..n - 1];
      OneMore(w, found, n - 1, budget, StartEach(w, found[..n - 1], budget));
    }
  }

  /** A start exactly: of the manifests found, in order, those start that can and are not on record as
      spent in the version found; a changed manifest gets a fresh record; the new life has the services
      started and no others; and the records are saved if they can be. */
  lemma {:induction false} StartIs(w: World, found: seq<Manifest>, loads: bool, saves: bool, budget: nat)
    ensures var r := AfterStart(w, found, loads, saves, budget);
      var known := if loads then w.disk else map[];
      && r.trace == w.trace + [DaemonStarted] + StartLog(known, found, |found|, budget)
      && (forall name :: RecordAfter(known, found, |found|, name, r.table))
      && (forall name :: name in r.services <==> SomeStarts(known, found, |found|, name, budget))
      && (forall name :: name in r.services ==> r.services[name] == Service(true, false))
      && r.disk == if saves then r.table else w.disk
  {
    hide Starts, RecordAfter, SomeStarts, StartLog, StartEach;
    var begun := World(w.disk, if loads then w.disk else map[], map[], w.trace + [DaemonStarted]);
    EachStarts(begun, found, |found|, budget);
    assert found[..|found|] == found;
  }

  // ---------------------------------------------------------------- a tick

  /** The record of a service after one more crash: one more on the counter, up to the largest count,
      and given up if it was or when the count has reached the budget. */
  ghost predicate CrashNoted(was: Table, name: string, budget: nat, now: Table) {
    name in now &&
    var e, before := now[name], if name in was then was[name].crashCount else 0;
    && e.crashCount == (if before < 0xFFFF_FFFF then before + 1 else 0xFFFF_FFFF)
    && e.mtime == (if name in was then was[name].mtime else 0)
    && (e.gaveUp <==> (name in was && was[name].gaveUp) || (budget != 0 && e.crashCount >= budget))
  }

  /** `t` says of the service what `u` says. */
  ghost predicate SameRecord(t: Table, u: Table, name: string) {
    (name in t <==> name in u) && (name in t ==> t[name] == u[name])
  }

  /** A look finds the service up to now, and its child gone. */
  ghost predicate FindsGone(w: World, k: Look, name: string) {
    k.name == name && name in w.services && !w.services[name].gaveUp && (w.services[name].hasChild ==> k.exited)
  }

  /** What one look means for a service: the one it finds gone fails, and that is noted and, if that
      can be, saved. */
  lemma {:induction false} LookIs(w: World, k: Look, budget: nat, name: string)
    ensures var r := LookAt(w, k.name, k.exited, k.saves, budget);
      var gone := FindsGone(w, k, name);
      && (name in r.services <==> name in w.services)
      && (name in w.services ==> r.services[name] == if gone then Service(false, true) else w.services[name])
      && multiset(r.trace)[Crashed(name)] == multiset(w.trace)[Crashed(name)] + (if gone then 1 else 0)
      && (if gone then CrashNoted(w.table, name, budget, r.table) else SameRecord(r.table, w.table, name))
      && r.disk == if FindsGone(w, k, k.name) && k.saves then r.table else w.disk
  {
  }

  ghost predicate Fails(w: World, looks: seq<Look>, name: string) {
    exists k :: k in looks && FindsGone(w, k, name)
  }

  /** A tick exactly: those services fail of which some look finds that the child has exited, each
      once, however often it is looked at; services, records and crashes of the others stay. */
  lemma {:induction false} TickIs(w: World, looks: seq<Look>, budget: nat, name: string)
    ensures var r := AfterTick(w, looks, budget);
      && (name in r.services <==> name in w.services)
      && (name in w.services ==>
            r.services[name] == if Fails(w, looks, name) then Service(false, true) else w.services[name])
      && multiset(r.trace)[Crashed(name)] ==
           multiset(w.trace)[Crashed(name)] + (if Fails(w, looks, name) then 1 else 0)
      && (if Fails(w, looks, name) then CrashNoted(w.table, name, budget, r.table)
          else SameRecord(r.table, w.table, name))
  {
    hide LookAt;
    if looks != [] {
      var n := |looks| - 1;
      var k, before := looks[n], AfterTick(w, looks[..n], budget);
      TickIs(w, looks[..n], budget, name);
      LookIs(before, k, budget, name);
      assert looks == looks[..n] + [k];
      assert Fails(w, looks, name) <==> Fails(w, looks[..n], name) || FindsGone(w, k, name);
    }
  }
}
