/** Runs of the cron store: any sequence of creates, deletes and polls at any instants.
 */
module CronRuns {
  import opened Wrappers
  import opened CronExpr
  import opened CronStores

  datatype Op =
    | Create(cron: string, prompt: string, description: string, oneShot: bool)
    | Delete(id: nat)
    | Poll(now: int, values: seq<int>)

  /** The store together with every fire so far. */
  datatype Store = Store(entries: seq<CronEntry>, nextId: nat, fires: seq<Fire>)

  ghost function FiresOf(due: seq<CronEntry>, now: int): (r: seq<Fire>)
    ensures |r| == |due|
  {
    seq(|due|, i requires 0 <= i < |due| => Fire(due[i].id, now, due[i].oneShot))
  }

  ghost predicate OpOk(op: Op) {
    op.Poll? ==> |op.values| == 5
  }

  /** The effect of one operation, as the methods of the store have it. */
  ghost function Step(s: Store, op: Op): Store
    requires AllOk(s.entries) && OpOk(op)
  {
    match op
    case Create(cron, prompt, description, oneShot) =>
      if CronOk(cron)
      then Store(s.entries + [CronEntry(s.nextId, cron, prompt, description, None, oneShot)], s.nextId + 1, s.fires)
      else s
    case Delete(id) => s.(entries := Without(s.entries, id))
    case Poll(now, values) =>
      s.(entries := Polled(s.entries, now, values),
         fires := s.fires + FiresOf(DueEntries(s.entries, now, values), now))
  }

  // ---------------------------------------------------------------- the invariant

  /** A fired entry that is still there is no one-shot and remembers its latest fire. */
  ghost predicate Remembers(e: CronEntry, f: Fire) {
    e.id == f.id ==> !e.oneShot && !f.oneShot && e.lastFired.Some? && f.at <= e.lastFired.value
  }

  ghost predicate AllRemembered(entries: seq<CronEntry>, fires: seq<Fire>) {
    forall e, f :: e in entries && f in fires ==> Remembers(e, f)
  }

  /** Two fires of one entry are a minute apart or more, and then it is no one-shot. */
  ghost predicate Apart(f: Fire, g: Fire) {
    f.id == g.id ==> g.at >= f.at + MINUTE && !f.oneShot && !g.oneShot
  }

  ghost predicate Spaced(fires: seq<Fire>) {
    forall i, j :: 0 <= i < j < |fires| ==> Apart(fires[i], fires[j])
  }

  ghost predicate Inv(s: Store) {
    && StoreOk(s.entries, s.nextId)
    && (forall f :: f in s.fires ==> f.id < s.nextId)
    && AllRemembered(s.entries, s.fires)
    && Spaced(s.fires)
  }

  // ---------------------------------------------------------------- polls

  /** Exactly the due entries fire. */
  lemma {:induction false} DueIn(entries: seq<CronEntry>, now: int, values: seq<int>, e: CronEntry)
    requires AllOk(entries) && |values| == 5
    ensures e in DueEntries(entries, now, values) <==> e in entries && IsDue(e, now, values)
  {
    hide IsDue, CronOk;
    if entries != [] {
      var n := |entries| - 1;
      DueIn(entries[..n], now, values, e);
      assert entries == entries[..n] + [entries[n]];
    }
  }

  lemma {:induction false} DueDistinct(entries: seq<CronEntry>, now: int, values: seq<int>, nextId: nat)
    requires StoreOk(entries, nextId) && |values| == 5
    ensures var due := DueEntries(entries, now, values);
      forall i, j :: 0 <= i < j < |due| ==> due[i].id != due[j].id
  {
    hide IsDue, CronOk;
    if entries != [] {
      var n := |entries| - 1;
      DueDistinct(entries[..n], now, values, nextId);
      var rest := DueEntries(entries[..n], now, values);
      forall i | 0 <= i < |rest| ensures rest[i].id != entries[n].id {
        DueIn(entries[..n], now, values, rest[i]);
        var k :| 0 <= k < n && entries[..n][k] == rest[i];
      }
    }
  }

  lemma {:induction false} OneShotIdsIn(due: seq<CronEntry>, id: nat)
    ensures id in OneShotIds(due) <==> exists e :: e in due && e.oneShot && e.id == id
  {
    if due != [] {
      var n := |due| - 1;
      OneShotIdsIn(due[..n], id);
      assert due == due[..n] + [due[n]];
    }
  }

  lemma {:induction false} WithoutAllIn(entries: seq<CronEntry>, ids: seq<nat>, e: CronEntry)
    ensures e in WithoutAll(entries, ids) <==> e in entries && e.id !in ids
  {
    hide Without;
    if ids != [] {
      var n := |ids| - 1;
      WithoutAllIn(entries, ids[..n], e);
      assert e.id in ids <==> e.id in ids[..n] || e.id == ids[n] by { assert ids == ids[..n] + [ids[n]]; }
      WithoutIs(WithoutAll(entries, ids[..n]), ids[n], e);
    }
  }

  lemma {:induction false} WithoutAllKeeps(entries: seq<CronEntry>, ids: seq<nat>, nextId: nat)
    requires StoreOk(entries, nextId)
    ensures StoreOk(WithoutAll(entries, ids), nextId)
  {
    hide StoreOk;
    if ids != [] {
      WithoutAllKeeps(entries, ids[..|ids| - 1], nextId);
      WithoutKeeps(WithoutAll(entries, ids[..|ids| - 1]), ids[|ids| - 1], nextId);
    }
  }

  /** An entry after a poll: an entry from before, marked if it fired, and then no one-shot. */
  lemma {:induction false} PolledEntry(entries: seq<CronEntry>, now: int, values: seq<int>, nextId: nat, e: CronEntry)
    returns (was: CronEntry)
    requires StoreOk(entries, nextId) && |values| == 5 && e in Polled(entries, now, values)
    ensures was in entries && was.id == e.id
    ensures if IsDue(was, now, values) then e == was.(lastFired := Some(now)) && !was.oneShot else e == was
  {
    hide IsDue, CronOk;
    var due, marked := DueEntries(entries, now, values), Marked(entries, now, values);
    WithoutAllIn(marked, OneShotIds(due), e);
    var i :| 0 <= i < |marked| && marked[i] == e;
    was := entries[i];
    assert was in entries;
    DueIn(entries, now, values, was);
    OneShotIdsIn(due, was.id);
  }

  /** A new fire is at least a minute after every earlier fire of its entry. */
  lemma {:induction false} NewFireIsApart(s: Store, e: CronEntry, now: int, values: seq<int>, f: Fire)
    requires Inv(s) && |values| == 5 && e in DueEntries(s.entries, now, values) && f in s.fires
    ensures Apart(f, Fire(e.id, now, e.oneShot))
  {
    hide CronOk, CronDenotes;
    DueIn(s.entries, now, values, e);
    RecentlyMeansWithinAMinute(e, now);
    assert Remembers(e, f);
  }

  lemma {:induction false} PollKeepsSpaced(s: Store, now: int, values: seq<int>)
    requires Inv(s) && |values| == 5
    ensures Spaced(Step(s, Poll(now, values)).fires)
  {
    hide CronOk, CronDenotes, DueEntries, Polled, AllOk, Apart;
    var due, fires := DueEntries(s.entries, now, values), Step(s, Poll(now, values)).fires;
    DueDistinct(s.entries, now, values, s.nextId);
    forall i, j | 0 <= i < j < |fires| ensures Apart(fires[i], fires[j]) {
      if j >= |s.fires| {
        var e := due[j - |s.fires|];
        assert fires[j] == Fire(e.id, now, e.oneShot);
        if i < |s.fires| {
          assert fires[i] in s.fires && e in due;
          NewFireIsApart(s, e, now, values, fires[i]);
        } else {
          OtherIdIsApart(fires[i], fires[j]);
        }
      } else {
        assert fires[i] == s.fires[i] && fires[j] == s.fires[j];
      }
    }
  }

  lemma {:induction false} OtherIdIsApart(f: Fire, g: Fire)
    requires f.id != g.id
    ensures Apart(f, g)
  {
  }

  lemma {:induction false} PollKeepsMemory(s: Store, now: int, values: seq<int>)
    requires Inv(s) && |values| == 5
    ensures AllRemembered(Step(s, Poll(now, values)).entries, Step(s, Poll(now, values)).fires)
  {
    hide CronOk, CronDenotes, DueEntries, Polled;
    var due, s' := DueEntries(s.entries, now, values), Step(s, Poll(now, values));
    forall e, f | e in s'.entries && f in s'.fires ensures Remembers(e, f) {
      var was := PolledEntry(s.entries, now, values, s.nextId, e);
      RecentlyMeansWithinAMinute(was, now);
      if f in s.fires {
        assert Remembers(was, f);
      } else {
        var k :| 0 <= k < |due| && FiresOf(due, now)[k] == f;
        assert due[k] in due;
        DueIn(s.entries, now, values, due[k]);
        if f.id == e.id {
        }
      }
    }
  }

  lemma {:induction false} PollKeepsInv(s: Store, now: int, values: seq<int>)
    requires Inv(s) && |values| == 5
    ensures Inv(Step(s, Poll(now, values)))
  {
    hide CronOk, CronDenotes, DueEntries, AllRemembered, Spaced, AllOk;
    PollKeepsSpaced(s, now, values);
    PollKeepsMemory(s, now, values);
    MarkedKeeps(s.entries, now, values, s.nextId);
    var due := DueEntries(s.entries, now, values);
    WithoutAllKeeps(Marked(s.entries, now, values), OneShotIds(due), s.nextId);
    forall f | f in FiresOf(due, now) ensures f.id < s.nextId {
      var k :| 0 <= k < |due| && FiresOf(due, now)[k] == f;
      DueIn(s.entries, now, values, due[k]);
    }
  }

  // ---------------------------------------------------------------- runs

  lemma {:induction false} StepKeepsInv(s: Store, op: Op)
    requires Inv(s) && OpOk(op)
    ensures Inv(Step(s, op))
  {
    match op
    case Create(cron, prompt, description, oneShot) =>
    case Delete(id) => {
      hide CronOk;
      WithoutKeeps(s.entries, id, s.nextId);
      forall e | e in Without(s.entries, id) ensures e in s.entries {
        WithoutIs(s.entries, id, e);
      }
    }
    case Poll(now, values) => PollKeepsInv(s, now, values);
  }

  ghost function Run(ops: seq<Op>): (s: Store)
    requires forall op :: op in ops ==> OpOk(op)
    ensures Inv(s)
  {
    if ops == [] then Store([], 1, [])
    else
      var n := |ops| - 1;
      var before := Run(ops[..n]);
      StepKeepsInv(before, ops[n]);
      Step(before, ops[n])
  }

  /** In every run, whatever the clock does, two fires of one entry are at least 60 seconds apart
      in the order they happen, and a one-shot entry fires at most once. Ids are never reused. */
  lemma {:induction false} FiresAreSpaced(ops: seq<Op>, i: nat, j: nat)
    requires forall op :: op in ops ==> OpOk(op)
    requires i < j < |Run(ops).fires| && Run(ops).fires[i].id == Run(ops).fires[j].id
    ensures Run(ops).fires[j].at - Run(ops).fires[i].at >= MINUTE
    ensures !Run(ops).fires[i].oneShot && !Run(ops).fires[j].oneShot
  {
    assert Apart(Run(ops).fires[i], Run(ops).fires[j]);
  }
}
