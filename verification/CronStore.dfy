/** The cron store and its poll (`src/tool/cron.rs`): over any run of creates, deletes and polls,
    with a clock that may jump either way, fires of one entry are at least a minute apart.
 */
module CronStores {
  import opened Wrappers
  import opened CronExpr

  /** Instants are in nanoseconds since the epoch. */
  datatype CronEntry = CronEntry(id: nat, cron: string, prompt: string, description: string,
                                  lastFired: Option<int>, oneShot: bool)

  const MINUTE: int := 60_000_000_000

  /** `now - lastFired` in whole seconds, or 0 when the clock has gone backwards, is below 60. */
  predicate FiredRecently(e: CronEntry, now: int) {
    e.lastFired.Some? && (if now < e.lastFired.value then 0 else (now - e.lastFired.value) / 1_000_000_000) < 60
  }

  lemma {:induction false} RecentlyMeansWithinAMinute(e: CronEntry, now: int)
    ensures FiredRecently(e, now) <==> e.lastFired.Some? && now < e.lastFired.value + MINUTE
  {
  }

  ghost predicate IsDue(e: CronEntry, now: int, values: seq<int>)
    requires |values| == 5 && CronOk(e.cron)
  {
    CronDenotes(e.cron, values) && !FiredRecently(e, now)
  }

  /** Fires are recorded for the theorem below. */
  datatype Fire = Fire(id: nat, at: int, oneShot: bool)

  // ---------------------------------------------------------------- what a poll does

  ghost predicate AllOk(entries: seq<CronEntry>) {
    forall e :: e in entries ==> CronOk(e.cron)
  }

  ghost function DueEntries(entries: seq<CronEntry>, now: int, values: seq<int>): seq<CronEntry>
    requires AllOk(entries) && |values| == 5
  {
    if entries == [] then []
    else
      var n := |entries| - 1;
      DueEntries(entries[..n], now, values) + if IsDue(entries[n], now, values) then [entries[n]] else []
  }

  ghost function Marked(entries: seq<CronEntry>, now: int, values: seq<int>): (r: seq<CronEntry>)
    requires AllOk(entries) && |values| == 5
    ensures |r| == |entries|
  {
    seq(|entries|, i requires 0 <= i < |entries| =>
      if IsDue(entries[i], now, values) then entries[i].(lastFired := Some(now)) else entries[i])
  }

  function Prompts(entries: seq<CronEntry>): (r: seq<string>)
    ensures |r| == |entries|
  {
    seq(|entries|, i requires 0 <= i < |entries| => entries[i].prompt)
  }

  function Without(entries: seq<CronEntry>, id: nat): seq<CronEntry> {
    if entries == [] then []
    else
      var n := |entries| - 1;
      Without(entries[..n], id) + if entries[n].id == id then [] else [entries[n]]
  }

  function WithoutAll(entries: seq<CronEntry>, ids: seq<nat>): seq<CronEntry> {
    if ids == [] then entries else Without(WithoutAll(entries, ids[..|ids| - 1]), ids[|ids| - 1])
  }

  function OneShotIds(due: seq<CronEntry>): seq<nat> {
    if due == [] then []
    else
      var n := |due| - 1;
      OneShotIds(due[..n]) + if due[n].oneShot then [due[n].id] else []
  }

  /** The entries after a poll. */
  ghost function Polled(entries: seq<CronEntry>, now: int, values: seq<int>): seq<CronEntry>
    requires AllOk(entries) && |values| == 5
  {
    WithoutAll(Marked(entries, now, values), OneShotIds(DueEntries(entries, now, values)))
  }

  class CronStore {
    var entries: seq<CronEntry>
    var nextId: nat

    ghost predicate Valid()
      reads this
    {
      StoreOk(entries, nextId)
    }

    constructor ()
      ensures Valid() && entries == [] && nextId == 1
    {
      entries, nextId := [], 1;
    }

    method Create(cron: string, prompt: string, description: string, oneShot: bool) returns (id: Option<nat>)
      requires Valid()
      modifies this
      ensures Valid() && (id.Some? <==> CronOk(cron))
      ensures id.Some? ==> id.value == old(nextId) && nextId == old(nextId) + 1
      ensures id.Some? ==> entries == old(entries) + [CronEntry(old(nextId), cron, prompt, description, None, oneShot)]
      ensures id.None? ==> entries == old(entries) && nextId == old(nextId)
    {
      var ok := IsValidCron(cron);
      if !ok {
        return None;
      }
      id := Some(nextId);
      nextId := nextId + 1;
      entries := entries + [CronEntry(id.value, cron, prompt, description, None, oneShot)];
    }

    method Delete(id: nat) returns (found: bool)
      requires Valid()
      modifies this`entries
      ensures Valid() && entries == Without(old(entries), id)
      ensures found <==> exists e :: e in old(entries) && e.id == id
    {
      WithoutKeeps(entries, id, nextId);
      WithoutShrinks(entries, id);
      var before := |entries|;
      entries := Without(entries, id);
      found := |entries| != before;
    }

    /** `poll_cron_due`; `values` are the calendar fields of `now`. */
    method PollDue(now: int, values: seq<int>) returns (due: seq<string>)
      requires Valid() && |values| == 5
      modifies this`entries
      ensures Valid() && entries == Polled(old(entries), now, values)
      ensures due == Prompts(DueEntries(old(entries), now, values))
    {
      hide CronOk, CronDenotes, FiredRecently, DueEntries, OneShotIds, Marked, Without;
      var toRemove;
      due, toRemove := MarkDue(now, values);
      MarkedKeeps(old(entries), now, values, nextId);
      for i := 0 to |toRemove|
        invariant Valid() && entries == WithoutAll(Marked(old(entries), now, values), toRemove[..i])
      {
        assert toRemove[..i + 1][..i] == toRemove[..i];
        WithoutKeeps(entries, toRemove[i], nextId);
        entries := Without(entries, toRemove[i]);
      }
      assert toRemove[..|toRemove|] == toRemove;
    }

    /** The scan: marks the due entries and collects their prompts and the one-shots among them. */
    method MarkDue(now: int, values: seq<int>) returns (due: seq<string>, toRemove: seq<nat>)
      requires Valid() && |values| == 5
      modifies this`entries
      ensures AllOk(old(entries)) && entries == Marked(old(entries), now, values)
      ensures due == Prompts(DueEntries(old(entries), now, values))
      ensures toRemove == OneShotIds(DueEntries(old(entries), now, values))
    {
      hide CronOk, CronDenotes, FiredRecently, DueEntries, OneShotIds, Prompts, IsDue, AllOk;
      due, toRemove := [], [];
      ghost var before := entries;
      NoneDueYet(before, now, values);
      for i := 0 to |entries|
        invariant |entries| == |before| && AllOk(before) && AllOk(before[..i])
        invariant forall k :: 0 <= k < i ==> entries[k] == Marked(before, now, values)[k]
        invariant forall k :: i <= k < |before| ==> entries[k] == before[k]
        invariant due == Prompts(DueEntries(before[..i], now, values))
        invariant toRemove == OneShotIds(DueEntries(before[..i], now, values))
      {
        DueNext(before, i, now, values);
        var e := entries[i];
        var matches := CronMatches(e.cron, values);
        DueMeans(e, now, values);
        if matches && !FiredRecently(e, now) {
          due := due + [e.prompt];
          entries := entries[i := e.(lastFired := Some(now))];
          if e.oneShot {
            toRemove := toRemove + [e.id];
          }
        }
      }
      assert before[..|before|] == before;
    }
  }

  lemma {:induction false} DueMeans(e: CronEntry, now: int, values: seq<int>)
    requires |values| == 5 && CronOk(e.cron)
    ensures IsDue(e, now, values) <==> CronDenotes(e.cron, values) && !FiredRecently(e, now)
  {
  }

  ghost predicate StoreOk(entries: seq<CronEntry>, nextId: nat) {
    && AllOk(entries)
    && (forall e :: e in entries ==> e.id < nextId)
    && (forall i, j :: 0 <= i < j < |entries| ==> entries[i].id != entries[j].id)
  }

  lemma {:induction false} NoneDueYet(entries: seq<CronEntry>, now: int, values: seq<int>)
    requires |values| == 5
    ensures AllOk(entries[..0]) && Prompts(DueEntries(entries[..0], now, values)) == []
    ensures OneShotIds(DueEntries(entries[..0], now, values)) == []
  {
  }

  lemma {:induction false} DueNext(entries: seq<CronEntry>, i: nat, now: int, values: seq<int>)
    requires AllOk(entries) && |values| == 5 && i < |entries|
    ensures AllOk(entries[..i]) && AllOk(entries[..i + 1]) && CronOk(entries[i].cron)
    ensures var due, e := DueEntries(entries[..i], now, values), entries[i];
      var due' := DueEntries(entries[..i + 1], now, values);
      if IsDue(e, now, values) then
        Prompts(due') == Prompts(due) + [e.prompt] &&
        OneShotIds(due') == OneShotIds(due) + if e.oneShot then [e.id] else []
      else due' == due
  {
    hide CronOk, IsDue, Prompts, OneShotIds;
    assert entries[..i + 1][..i] == entries[..i];
    DuePush(DueEntries(entries[..i], now, values), entries[i]);
  }

  lemma {:induction false} DuePush(due: seq<CronEntry>, e: CronEntry)
    ensures Prompts(due + [e]) == Prompts(due) + [e.prompt]
    ensures OneShotIds(due + [e]) == OneShotIds(due) + if e.oneShot then [e.id] else []
  {
    assert (due + [e])[..|due|] == due;
  }

  /** What is left are the entries with other ids. */
  lemma {:induction false} WithoutIs(entries: seq<CronEntry>, id: nat, e: CronEntry)
    ensures e in Without(entries, id) <==> e in entries && e.id != id
  {
    if entries != [] {
      var n := |entries| - 1;
      WithoutIs(entries[..n], id, e);
      assert entries == entries[..n] + [entries[n]];
    }
  }

  lemma {:induction false} WithoutShrinks(entries: seq<CronEntry>, id: nat)
    ensures |Without(entries, id)| <= |entries|
    ensures |Without(entries, id)| == |entries| <==> forall e :: e in entries ==> e.id != id
  {
    if entries != [] {
      var n := |entries| - 1;
      WithoutShrinks(entries[..n], id);
      assert entries == entries[..n] + [entries[n]];
    }
  }

  lemma {:induction false} WithoutKeeps(entries: seq<CronEntry>, id: nat, nextId: nat)
    requires StoreOk(entries, nextId)
    ensures StoreOk(Without(entries, id), nextId)
  {
    hide CronOk;
    if entries != [] {
      var n := |entries| - 1;
      WithoutKeeps(entries[..n], id, nextId);
      var rest := Without(entries[..n], id);
      forall e | e in rest ensures e.id != entries[n].id {
        WithoutIs(entries[..n], id, e);
        var k :| 0 <= k < n && entries[..n][k] == e;
      }
      forall i | 0 <= i < |rest| ensures rest[i] in rest {
      }
    }
  }

  lemma {:induction false} MarkedKeeps(entries: seq<CronEntry>, now: int, values: seq<int>, nextId: nat)
    requires StoreOk(entries, nextId) && |values| == 5
    ensures StoreOk(Marked(entries, now, values), nextId)
  {
    hide CronOk, CronDenotes, FiredRecently;
    var m := Marked(entries, now, values);
    forall e | e in m ensures CronOk(e.cron) && e.id < nextId {
      var i :| 0 <= i < |m| && m[i] == e;
      assert entries[i] in entries;
    }
  }
}
