/** The milestone loop of `skills/engineer-job/run.wf.js`: run every milestone once, retry a
    blocked one with degraded scope, and skip whatever depends on one that stays blocked.
 */
module MilestoneLoop {
  import opened Digraph
  import opened Sequences
  import opened TopoSort

  datatype Status = Todo | InProgress | Completed | Degraded | Skipped

  datatype Record = Record(status: Status, rebuilds: nat, happyPathOnly: bool, skipped: bool)

  /** An agent call answers nothing, "BLOCKED", or one of the accepting statuses. */
  datatype Reply = NoReply | Blocked | Accepted

  datatype Replies = Replies(attempt: Reply, retry: Reply, inspector: Reply)

  type State = map<string, Record>

  const FRESH := Record(Todo, 0, false, false)

  predicate Failing(r: Reply) {
    r != Accepted
  }

  /** Blocked at the first attempt and again at the degraded retry. */
  predicate BlockedTwice(r: Replies) {
    Failing(r.attempt) && Failing(r.retry)
  }

  predicate StaysBlocked(replies: map<string, Replies>, id: string) {
    id in replies && BlockedTwice(replies[id])
  }

  predicate Has(state: State, id: string, status: Status) {
    id in state && state[id].status == status
  }

  /** A milestone that was worked on and kept. */
  predicate Kept(state: State, id: string) {
    Has(state, id, Completed) || Has(state, id, Degraded)
  }

  // ---------------------------------------------------------------- cascadeSkip

  /** `p` leads from a milestone through waiting milestones to `blocked`. */
  ghost predicate SkipChain(items: seq<Item<string>>, state: State, p: seq<string>, blocked: string) {
    && |p| > 1 && p[|p| - 1] == blocked
    && forall i :: 0 < i < |p| ==> Waits(items, state, p[i - 1], p[i])
  }

  /** `id` is waiting and `d` is one of its dependencies. */
  ghost predicate Waits(items: seq<Item<string>>, state: State, id: string, d: string) {
    Has(state, id, Todo) && Mentions(items, id, d)
  }

  ghost predicate Mentions(items: seq<Item<string>>, id: string, d: string) {
    exists k :: 0 <= k < |items| && items[k].id == id && d in items[k].deps
  }

  /** Waiting, and cut off from its inputs once `blocked` is. */
  ghost predicate CutOff(items: seq<Item<string>>, state: State, id: string, blocked: string) {
    exists p :: SkipChain(items, state, p, blocked) && p[0] == id
  }

  function SkippedRecord(r: Record): Record {
    r.(status := Skipped, skipped := true)
  }

  /** `later` differs from `state` only in waiting milestones that became skipped. */
  ghost predicate OnlySkips(state: State, later: State) {
    && (forall id :: id in state <==> id in later)
    && (forall id :: id in state ==>
          later[id] == state[id] || (Has(state, id, Todo) && later[id] == SkippedRecord(state[id])))
  }

  ghost predicate NewlySkipped(state: State, later: State, id: string) {
    Has(state, id, Todo) && Has(later, id, Skipped)
  }

  /** No waiting milestone mentions `d`. */
  ghost predicate NoWaiter(items: seq<Item<string>>, state: State, d: string) {
    forall k :: 0 <= k < |items| && Has(state, items[k].id, Todo) ==> d !in items[k].deps
  }

  lemma {:induction false} NoWaiterStays(items: seq<Item<string>>, state: State, later: State, d: string)
    requires NoWaiter(items, state, d) && OnlySkips(state, later)
    ensures NoWaiter(items, later, d)
  {
    forall k | 0 <= k < |items| && Has(later, items[k].id, Todo) ensures d !in items[k].deps {
      assert Has(state, items[k].id, Todo);
    }
  }

  /** The same when the waiting milestones of `later` were already waiting in `state`. */
  lemma {:induction false} NoWaiterShrinks(items: seq<Item<string>>, state: State, later: State, d: string)
    requires NoWaiter(items, state, d) && forall id :: Has(later, id, Todo) ==> Has(state, id, Todo)
    ensures NoWaiter(items, later, d)
  {
  }

  lemma {:induction false} OnlySkipsTransitive(a: State, b: State, c: State)
    requires OnlySkips(a, b) && OnlySkips(b, c)
    ensures OnlySkips(a, c)
  {
  }

  /** A chain found later, then one more mention, is a chain of the earlier state. */
  lemma {:induction false} ChainGrows(items: seq<Item<string>>, state: State, later: State, id: string, m: string,
          blocked: string)
    requires OnlySkips(state, later) && CutOff(items, later, id, m)
    requires Waits(items, state, m, blocked)
    ensures CutOff(items, state, id, blocked)
  {
    var p :| SkipChain(items, later, p, m) && p[0] == id;
    var q := p + [blocked];
    forall i | 0 < i < |q| ensures Waits(items, state, q[i - 1], q[i]) {
      if i < |p| {
        assert Waits(items, later, p[i - 1], p[i]);
      }
    }
    assert SkipChain(items, state, q, blocked);
  }

  lemma {:induction false} DirectChain(items: seq<Item<string>>, state: State, m: string, blocked: string)
    requires Waits(items, state, m, blocked)
    ensures CutOff(items, state, m, blocked)
  {
    assert SkipChain(items, state, [m, blocked], blocked);
  }

  /** Whoever is cut off has been skipped, once nobody waits on `blocked` or on a skipped one. */
  lemma {:induction false} CutOffIsSkipped(items: seq<Item<string>>, state: State, later: State, p: seq<string>,
          blocked: string)
    requires OnlySkips(state, later) && SkipChain(items, state, p, blocked)
    requires NoWaiter(items, later, blocked)
    requires forall x :: NewlySkipped(state, later, x) ==> NoWaiter(items, later, x)
    ensures NewlySkipped(state, later, p[0])
    decreases |p|
  {
    assert Waits(items, state, p[0], p[1]);
    if |p| > 2 {
      var tail := p[1..];
      forall i | 0 < i < |tail| ensures Waits(items, state, tail[i - 1], tail[i]) {
        assert Waits(items, state, p[i], p[i + 1]);
      }
      CutOffIsSkipped(items, state, later, tail, blocked);
    }
    assert NoWaiter(items, later, p[1]);
  }

  class Workflow {
    var state: State

    constructor (order: seq<string>)
      ensures forall id :: id in state <==> id in order
      ensures forall id :: id in state ==> state[id] == FRESH
    {
      state := map id | id in order :: FRESH;
    }

    /** Skips exactly the waiting milestones cut off by `blocked`, on any graph, cyclic or not.
        `todo` bounds the recursion: it contains every waiting milestone. */
    method CascadeSkip(items: seq<Item<string>>, blocked: string, ghost todo: set<string>)
      requires forall k :: 0 <= k < |items| ==> items[k].id in state
      requires forall id :: Has(state, id, Todo) ==> id in todo
      modifies this
      ensures OnlySkips(old(state), state)
      ensures forall id :: NewlySkipped(old(state), state, id) <==> CutOff(items, old(state), id, blocked)
      ensures NoWaiter(items, state, blocked)
      ensures forall id :: NewlySkipped(old(state), state, id) ==> NoWaiter(items, state, id)
      decreases todo
    {
      ghost var start := state;
      for k := 0 to |items|
        invariant CascadeUpTo(items, start, state, k, blocked)
      {
        var m := items[k];
        if blocked in m.deps && state[m.id].status == Todo {
          ghost var before := state;
          state := state[m.id := SkippedRecord(state[m.id])];
          MarkStep(items, start, before, state, k, blocked);
          ghost var marked := state;
          CascadeSkip(items, m.id, todo - {m.id});
          CascadeStep(items, start, before, marked, state, k, blocked);
        }
      }
      forall id | CutOff(items, start, id, blocked) ensures NewlySkipped(start, state, id) {
        var p :| SkipChain(items, start, p, blocked) && p[0] == id;
        CutOffIsSkipped(items, start, state, p, blocked);
      }
    }

    /** The milestone loop. In any order without repetition, every milestone ends kept or
        skipped, and one that stayed blocked is skipped. In a topological order, moreover, no
        milestone is started after a dependency of it was skipped, a milestone is started exactly
        when none of its dependencies is skipped, and it is skipped exactly when it stayed blocked
        or one of its dependencies is skipped. */
    method RunMilestones(items: seq<Item<string>>, order: seq<string>, replies: map<string, Replies>)
      returns (started: seq<string>)
      requires Distinct(order)
      requires forall id :: id in order <==> id in Deps(items)
      requires forall id :: id in order ==> id in replies
      requires forall id :: id in state <==> id in order
      requires forall id :: id in state ==> state[id] == FRESH
      modifies this
      ensures forall id :: id in order ==> Kept(state, id) || Has(state, id, Skipped)
      ensures forall id :: id in order && StaysBlocked(replies, id) ==> Has(state, id, Skipped)
      ensures SkipsJustified(items, replies, state, started) && KeptAsWorked(replies, state, started)
      ensures StartsJustified(items, order, state, started) && StartedInOrder(order, |order|, started)
      ensures TopoOrder(Deps(items), order) ==>
                forall id :: id in order ==>
                  && (Has(state, id, Skipped) <==> StaysBlocked(replies, id) || NeedsSkipped(items, state, id))
                  && (id in started <==> !NeedsSkipped(items, state, id))
    {
      hide LoopInv, TopoOrder, Deps, Represents, NoWaiter, CutOff, KeptAsWorked, SkipsJustified, StartsJustified,
        StartedInOrder, NeedsSkipped;
      started := [];
      DepsRepresent(items);
      EachIsNode(items);
      LoopStart(items, order, replies, state);
      for i := 0 to |order|
        invariant LoopInv(items, order, replies, state, started, i)
      {
        var id := order[i];
        AtHead(items, order, replies, state, started, i);
        if state[id].status == Skipped {
          SkippedStep(items, order, replies, state, started, i);
          continue;
        }
        ghost var before, earlier := state, started;
        started := started + [id];
        var failing := WorkOn(id, replies[id]);
        if failing {
          ghost var marked := state;
          CascadeSkip(items, id, set x | x in state);
          BlockedStep(items, order, replies, before, marked, state, earlier, started, i);
        } else {
          KeptStep(items, order, replies, before, state, earlier, started, i);
        }
      }
      LoopEnd(items, order, replies, state, started);
    }

    /** One milestone: attempt, degraded retry, inspection, one fix. */
    method WorkOn(id: string, r: Replies) returns (failing: bool)
      requires id in state && state[id] == FRESH
      modifies this
      ensures failing == BlockedTwice(r)
      ensures state == old(state)[id := Worked(r)]
    {
      state := state[id := state[id].(status := InProgress)];
      var res := r.attempt;
      if Failing(res) && state[id].rebuilds < MAX_RETRY {
        state := state[id := state[id].(rebuilds := state[id].rebuilds + 1, happyPathOnly := true)];
        res := r.retry;
      }
      failing := Failing(res);
      if failing {
        state := state[id := SkippedRecord(state[id])];
      } else {
        if r.inspector == Blocked && state[id].rebuilds < MAX_RETRY {
          state := state[id := state[id].(rebuilds := state[id].rebuilds + 1)];
        }
        state := state[id := state[id].(status := if r.inspector == Blocked then Degraded else Completed)];
      }
    }
  }

  const MAX_RETRY := 1

  /** How a milestone that was started ends. */
  function Worked(r: Replies): Record {
    if BlockedTwice(r) then Record(Skipped, 1, true, true)
    else Record(if r.inspector == Blocked then Degraded else Completed,
                if Failing(r.attempt) || r.inspector == Blocked then 1 else 0, Failing(r.attempt), false)
  }

  /** A milestone that was started is kept exactly if the attempt or the degraded retry was accepted;
      it is degraded exactly if the inspector objected; only a failed attempt narrows it to the happy
      path; and it is built once more at most, exactly if the attempt or the inspection failed. */
  lemma {:induction false} WorkedMeans(r: Replies)
    ensures var w := Worked(r);
      && (w.status == Skipped <==> r.attempt != Accepted && r.retry != Accepted)
      && (w.status != Skipped ==> w.status == if r.inspector == Blocked then Degraded else Completed)
      && (w.happyPathOnly <==> r.attempt != Accepted)
      && (w.skipped <==> w.status == Skipped)
      && w.rebuilds == if r.attempt != Accepted || r.inspector == Blocked then 1 else 0
    ensures forall was: Record :: SkippedRecord(was) == Record(Skipped, was.rebuilds, was.happyPathOnly, true)
  {
  }

  ghost predicate NeedsSkipped(items: seq<Item<string>>, state: State, id: string) {
    exists d :: Mentions(items, id, d) && Has(state, d, Skipped)
  }

  /** The first `i` milestones are settled, the others untouched or skipped in advance. */
  ghost predicate Progress(order: seq<string>, state: State, i: nat) {
    && i <= |order|
    && (forall id :: id in state <==> id in order)
    && (forall j :: 0 <= j < i ==> Kept(state, order[j]) || Has(state, order[j], Skipped))
    && (forall j :: i <= j < |order| && order[j] in state ==>
          state[order[j]] == FRESH || state[order[j]] == SkippedRecord(FRESH))
  }

  ghost predicate NobodyWaitsOnSkipped(items: seq<Item<string>>, state: State) {
    forall d :: Has(state, d, Skipped) ==> NoWaiter(items, state, d)
  }

  /** A milestone is skipped for its own blocks if it was started, and for a skipped dependency if not. */
  ghost predicate SkipsJustified(items: seq<Item<string>>, replies: map<string, Replies>, state: State,
                                 started: seq<string>) {
    forall id :: Has(state, id, Skipped) ==>
      if id in started then StaysBlocked(replies, id) else NeedsSkipped(items, state, id)
  }

  /** Work follows the order, on each of its first `i` milestones at most once. */
  ghost predicate StartedInOrder(order: seq<string>, i: nat, started: seq<string>)
    requires i <= |order|
  {
    exists ks: seq<nat> :: StartedAt(order, i, started, ks)
  }

  ghost predicate StartedAt(order: seq<string>, i: nat, started: seq<string>, ks: seq<nat>)
    requires i <= |order|
  {
    Positions(ks, i) && |started| == |ks| && forall j :: 0 <= j < |ks| ==> started[j] == order[ks[j]]
  }

  lemma {:induction false} StartedNext(order: seq<string>, i: nat, started: seq<string>)
    requires i < |order| && StartedInOrder(order, i, started)
    ensures StartedInOrder(order, i + 1, started) && StartedInOrder(order, i + 1, started + [order[i]])
    ensures forall id :: id in started ==> id in order[..i]
  {
    hide Positions;
    var ks: seq<nat> :| StartedAt(order, i, started, ks);
    PositionsNext(ks, i);
    assert StartedAt(order, i + 1, started, ks);
    assert StartedAt(order, i + 1, started + [order[i]], ks + [i]);
  }

  ghost predicate KeptAsWorked(replies: map<string, Replies>, state: State, started: seq<string>) {
    forall id :: Kept(state, id) ==> id in started && id in replies && state[id] == Worked(replies[id])
  }

  ghost predicate StartsJustified(items: seq<Item<string>>, order: seq<string>, state: State, started: seq<string>) {
    TopoOrder(Deps(items), order) ==> forall id, d :: id in started && Mentions(items, id, d) ==> Kept(state, d)
  }

  ghost predicate LoopInv(items: seq<Item<string>>, order: seq<string>, replies: map<string, Replies>,
                          state: State, started: seq<string>, i: nat) {
    && Progress(order, state, i)
    && NobodyWaitsOnSkipped(items, state)
    && SkipsJustified(items, replies, state, started)
    && KeptAsWorked(replies, state, started)
    && StartsJustified(items, order, state, started)
    && StartedInOrder(order, i, started)
  }

  /** The loop of `cascadeSkip` after `k` items. */
  ghost predicate CascadeUpTo(items: seq<Item<string>>, start: State, state: State, k: nat, blocked: string) {
    && k <= |items|
    && OnlySkips(start, state)
    && (forall i :: 0 <= i < k && Has(state, items[i].id, Todo) ==> blocked !in items[i].deps)
    && (forall id :: NewlySkipped(start, state, id) ==> NoWaiter(items, state, id))
    && (forall id :: NewlySkipped(start, state, id) ==> CutOff(items, start, id, blocked))
  }

  lemma {:induction false} MarkStep(items: seq<Item<string>>, start: State, before: State, marked: State, k: nat,
          blocked: string)
    requires CascadeUpTo(items, start, before, k, blocked) && k < |items|
    requires Has(before, items[k].id, Todo) && blocked in items[k].deps
    requires marked == before[items[k].id := SkippedRecord(before[items[k].id])]
    ensures OnlySkips(before, marked) && OnlySkips(start, marked)
    ensures Has(start, items[k].id, Todo) && CutOff(items, start, items[k].id, blocked)
  {
    assert Has(start, items[k].id, Todo);
    assert Mentions(items, items[k].id, blocked);
    DirectChain(items, start, items[k].id, blocked);
  }

  lemma {:induction false} CascadeStep(items: seq<Item<string>>, start: State, before: State, marked: State,
          state: State, k: nat, blocked: string)
    requires CascadeUpTo(items, start, before, k, blocked) && k < |items|
    requires Has(before, items[k].id, Todo) && blocked in items[k].deps
    requires marked == before[items[k].id := SkippedRecord(before[items[k].id])]
    requires OnlySkips(marked, state) && NoWaiter(items, state, items[k].id)
    requires forall id :: NewlySkipped(marked, state, id) ==>
               NoWaiter(items, state, id) && CutOff(items, marked, id, items[k].id)
    ensures CascadeUpTo(items, start, state, k + 1, blocked)
  {
    var m := items[k].id;
    MarkStep(items, start, before, marked, k, blocked);
    OnlySkipsTransitive(start, marked, state);
    OnlySkipsTransitive(before, marked, state);
    forall id | NewlySkipped(start, state, id) ensures NoWaiter(items, state, id) && CutOff(items, start, id, blocked) {
      if NewlySkipped(start, before, id) {
        NoWaiterStays(items, before, state, id);
      } else if id != m {
        assert NewlySkipped(marked, state, id);
        assert Waits(items, start, m, blocked) by { assert Mentions(items, m, blocked); }
        ChainGrows(items, start, marked, id, m, blocked);
      }
    }
    forall i | 0 <= i < k + 1 && Has(state, items[i].id, Todo) ensures blocked !in items[i].deps {
      assert Has(before, items[i].id, Todo) && Has(marked, items[i].id, Todo);
    }
  }

  lemma {:induction false} SkippedStep(items: seq<Item<string>>, order: seq<string>, replies: map<string, Replies>,
                    state: State, started: seq<string>, i: nat)
    requires LoopInv(items, order, replies, state, started, i) && i < |order| && Has(state, order[i], Skipped)
    ensures LoopInv(items, order, replies, state, started, i + 1)
  {
    hide TopoOrder, Represents, Deps, Mentions, StaysBlocked, StartedInOrder;
    StartedNext(order, i, started);
  }

  /** When a waiting milestone is reached in topological order, its dependencies are all kept. */
  lemma {:induction false} DepsKeptAtStart(items: seq<Item<string>>, order: seq<string>, replies: map<string, Replies>,
                        state: State, started: seq<string>, i: nat, d: string)
    requires LoopInv(items, order, replies, state, started, i) && i < |order| && Has(state, order[i], Todo)
    requires Represents(Deps(items), items) && TopoOrder(Deps(items), order) && Mentions(items, order[i], d)
    ensures Kept(state, d)
  {
    TopoOrderAt(Deps(items), order);
    DepsOfHas(items, order[i], d);
    assert IsId(items, order[i]) && Edge(Deps(items), order[i], d);
    var j :| 0 <= j < i && order[j] == d;
    assert !NoWaiter(items, state, d);
  }

  lemma {:induction false} StartedDepsKept(items: seq<Item<string>>, order: seq<string>, replies: map<string, Replies>,
                        before: State, state: State, earlier: seq<string>, started: seq<string>, i: nat)
    requires LoopInv(items, order, replies, before, earlier, i) && i < |order| && Has(before, order[i], Todo)
    requires Represents(Deps(items), items) && started == earlier + [order[i]]
    requires forall d :: Kept(before, d) ==> Kept(state, d)
    ensures StartsJustified(items, order, state, started)
  {
    if TopoOrder(Deps(items), order) {
      forall id, d | id in started && Mentions(items, id, d) ensures Kept(state, d) {
        if id !in earlier {
          DepsKeptAtStart(items, order, replies, before, earlier, i, d);
        }
      }
    }
  }

  /** A milestone that was worked on and kept. */
  lemma {:induction false} KeptStep(items: seq<Item<string>>, order: seq<string>, replies: map<string, Replies>,
                 before: State, state: State, earlier: seq<string>, started: seq<string>, i: nat)
    requires LoopInv(items, order, replies, before, earlier, i) && i < |order| && Has(before, order[i], Todo)
    requires Represents(Deps(items), items) && Distinct(order) && started == earlier + [order[i]]
    requires order[i] in replies && !BlockedTwice(replies[order[i]])
    requires state == before[order[i] := Worked(replies[order[i]])]
    ensures LoopInv(items, order, replies, state, started, i + 1)
  {
    hide Represents, StartsJustified, SkipsJustified, NobodyWaitsOnSkipped, StartedInOrder;
    StartedNext(order, i, earlier);
    StartedDepsKept(items, order, replies, before, state, earlier, started, i);
    NobodyWaitsAfterKeep(items, before, state, order[i]);
    SkipsSurviveKeep(items, replies, before, state, order[i], earlier);
  }

  lemma {:induction false} NobodyWaitsAfterKeep(items: seq<Item<string>>, before: State, state: State, id: string)
    requires NobodyWaitsOnSkipped(items, before) && Kept(state, id) && state == before[id := state[id]]
    ensures NobodyWaitsOnSkipped(items, state)
  {
    forall d | Has(state, d, Skipped) ensures NoWaiter(items, state, d) {
      NoWaiterShrinks(items, before, state, d);
    }
  }

  lemma {:induction false} SkipsSurviveKeep(items: seq<Item<string>>, replies: map<string, Replies>, before: State,
          state: State, id: string, earlier: seq<string>)
    requires SkipsJustified(items, replies, before, earlier) && Has(before, id, Todo) && Kept(state, id)
    requires state == before[id := state[id]]
    ensures SkipsJustified(items, replies, state, earlier + [id])
  {
    forall x | Has(state, x, Skipped)
      ensures if x in earlier + [id] then StaysBlocked(replies, x) else NeedsSkipped(items, state, x)
    {
      if NeedsSkipped(items, before, x) {
        var d :| Mentions(items, x, d) && Has(before, d, Skipped);
        assert Has(state, d, Skipped);
      }
    }
  }

  lemma {:induction false} CutOffNeedsSkipped(items: seq<Item<string>>, marked: State, state: State, id: string,
          blocked: string)
    requires OnlySkips(marked, state) && Has(state, blocked, Skipped)
    requires forall x :: NewlySkipped(marked, state, x) <==> CutOff(items, marked, x, blocked)
    requires CutOff(items, marked, id, blocked)
    ensures NeedsSkipped(items, state, id)
  {
    var p :| SkipChain(items, marked, p, blocked) && p[0] == id;
    assert Waits(items, marked, p[0], p[1]);
    if |p| > 2 {
      var tail := p[1..];
      forall i | 0 < i < |tail| ensures Waits(items, marked, tail[i - 1], tail[i]) {
        assert Waits(items, marked, p[i], p[i + 1]);
      }
      assert SkipChain(items, marked, tail, blocked);
      assert CutOff(items, marked, p[1], blocked);
    }
    assert Mentions(items, id, p[1]) && Has(state, p[1], Skipped);
  }

  /** A milestone that stayed blocked, after the cascade. */
  lemma {:induction false} BlockedStep(items: seq<Item<string>>, order: seq<string>, replies: map<string, Replies>,
                    before: State, marked: State, state: State, earlier: seq<string>, started: seq<string>, i: nat)
    requires LoopInv(items, order, replies, before, earlier, i) && i < |order| && Has(before, order[i], Todo)
    requires Represents(Deps(items), items) && Distinct(order) && started == earlier + [order[i]]
    requires StaysBlocked(replies, order[i])
    requires marked == before[order[i] := Worked(replies[order[i]])] && OnlySkips(marked, state)
    requires forall x :: NewlySkipped(marked, state, x) <==> CutOff(items, marked, x, order[i])
    requires NoWaiter(items, state, order[i])
    requires forall x :: NewlySkipped(marked, state, x) ==> NoWaiter(items, state, x)
    ensures LoopInv(items, order, replies, state, started, i + 1)
  {
    hide Represents, StartsJustified, SkipsJustified, NobodyWaitsOnSkipped, Mentions, CutOff, Progress, KeptAsWorked,
      NoWaiter, StartedInOrder;
    var id := order[i];
    StartedNext(order, i, earlier);
    EarlierSettled(order, before, earlier, i);
    ProgressAfterBlock(order, before, marked, state, i);
    KeptAfterBlock(order, replies, before, marked, state, earlier, started, i);
    StartedDepsKept(items, order, replies, before, state, earlier, started, i);
    NobodyWaitsAfterBlock(items, replies, before, marked, state, id);
    SkipsStayJustified(items, replies, before, marked, state, id, earlier);
  }

  lemma {:induction false} EarlierSettled(order: seq<string>, before: State, earlier: seq<string>, i: nat)
    requires Progress(order, before, i) && forall x :: x in earlier ==> x in order[..i]
    ensures forall x :: x in earlier ==> !Has(before, x, Todo)
  {
    forall x | x in earlier ensures !Has(before, x, Todo) {
      var j :| 0 <= j < i && order[j] == x;
    }
  }

  lemma {:induction false} ProgressAfterBlock(order: seq<string>, before: State, marked: State, state: State, i: nat)
    requires Progress(order, before, i) && i < |order| && Has(before, order[i], Todo) && Distinct(order)
    requires exists r :: BlockedTwice(r) && marked == before[order[i] := Worked(r)]
    requires OnlySkips(marked, state)
    ensures Progress(order, state, i + 1)
  {
    var r :| BlockedTwice(r) && marked == before[order[i] := Worked(r)];
    assert Has(marked, order[i], Skipped) && state[order[i]] == marked[order[i]];
    forall j | 0 <= j < |order| && j != i ensures order[j] in state && marked[order[j]] == before[order[j]] {
    }
  }

  lemma {:induction false} KeptAfterBlock(order: seq<string>, replies: map<string, Replies>, before: State,
          marked: State, state: State, earlier: seq<string>, started: seq<string>, i: nat)
    requires KeptAsWorked(replies, before, earlier) && i < |order| && started == earlier + [order[i]]
    requires StaysBlocked(replies, order[i]) && order[i] in before
    requires marked == before[order[i] := Worked(replies[order[i]])] && OnlySkips(marked, state)
    requires Has(before, order[i], Todo)
    ensures KeptAsWorked(replies, state, started)
    ensures forall d :: Kept(before, d) ==> Kept(state, d)
  {
    forall d | Kept(before, d) ensures Kept(state, d) {
      assert state[d] == marked[d];
    }
    forall d | Kept(state, d) ensures Kept(before, d) && state[d] == before[d] {
      assert d != order[i];
    }
  }

  lemma {:induction false} NobodyWaitsAfterBlock(items: seq<Item<string>>, replies: map<string, Replies>,
          before: State, marked: State, state: State, id: string)
    requires NobodyWaitsOnSkipped(items, before) && Has(before, id, Todo)
    requires StaysBlocked(replies, id) && marked == before[id := Worked(replies[id])] && OnlySkips(marked, state)
    requires NoWaiter(items, state, id) && forall x :: NewlySkipped(marked, state, x) ==> NoWaiter(items, state, x)
    ensures NobodyWaitsOnSkipped(items, state)
  {
    forall d | Has(state, d, Skipped) ensures NoWaiter(items, state, d) {
      if d != id && !NewlySkipped(marked, state, d) {
        NoWaiterShrinks(items, before, state, d);
      }
    }
  }

  lemma {:induction false} SkipsStayJustified(items: seq<Item<string>>, replies: map<string, Replies>,
                           before: State, marked: State, state: State, id: string, earlier: seq<string>)
    requires SkipsJustified(items, replies, before, earlier) && StaysBlocked(replies, id) && Has(before, id, Todo)
    requires forall x :: x in earlier ==> !Has(before, x, Todo)
    requires marked == before[id := Worked(replies[id])] && OnlySkips(marked, state)
    requires forall y :: NewlySkipped(marked, state, y) <==> CutOff(items, marked, y, id)
    ensures SkipsJustified(items, replies, state, earlier + [id])
  {
    assert Has(marked, id, Skipped) && Has(state, id, Skipped);
    forall x | Has(state, x, Skipped)
      ensures if x in earlier + [id] then StaysBlocked(replies, x) else NeedsSkipped(items, state, x)
    {
      if NewlySkipped(marked, state, x) {
        CutOffNeedsSkipped(items, marked, state, x, id);
      } else if x != id && NeedsSkipped(items, before, x) {
        var d :| Mentions(items, x, d) && Has(before, d, Skipped);
        assert Has(state, d, Skipped);
      }
    }
  }

  lemma {:induction false} LoopStart(items: seq<Item<string>>, order: seq<string>, replies: map<string, Replies>,
          state: State)
    requires forall id :: id in state <==> id in order
    requires forall id :: id in state ==> state[id] == FRESH
    ensures LoopInv(items, order, replies, state, [], 0)
  {
    assert StartedAt(order, 0, [], []);
  }

  lemma {:induction false} AtHead(items: seq<Item<string>>, order: seq<string>, replies: map<string, Replies>,
               state: State, started: seq<string>, i: nat)
    requires LoopInv(items, order, replies, state, started, i) && i < |order|
    ensures order[i] in state
    ensures Has(state, order[i], Skipped) || state[order[i]] == FRESH
    ensures forall k :: 0 <= k < |items| && items[k].id in order ==> items[k].id in state
  {
  }

  /** What the loop has established when the order is exhausted. */
  lemma {:induction false} LoopEnd(items: seq<Item<string>>, order: seq<string>, replies: map<string, Replies>,
          state: State, started: seq<string>)
    requires LoopInv(items, order, replies, state, started, |order|)
    ensures forall id :: id in order ==> Kept(state, id) || Has(state, id, Skipped)
    ensures forall id :: id in order && StaysBlocked(replies, id) ==> Has(state, id, Skipped)
    ensures SkipsJustified(items, replies, state, started) && KeptAsWorked(replies, state, started)
    ensures StartsJustified(items, order, state, started) && StartedInOrder(order, |order|, started)
    ensures TopoOrder(Deps(items), order) ==>
              forall id :: id in order ==>
                && (Has(state, id, Skipped) <==> StaysBlocked(replies, id) || NeedsSkipped(items, state, id))
                && (id in started <==> !NeedsSkipped(items, state, id))
  {
    hide StartedInOrder;
    forall id | id in order ensures Kept(state, id) || Has(state, id, Skipped) {
      var j :| 0 <= j < |order| && order[j] == id;
    }
    if TopoOrder(Deps(items), order) {
      forall id | id in order && NeedsSkipped(items, state, id) ensures Has(state, id, Skipped) && id !in started {
        var d :| Mentions(items, id, d) && Has(state, d, Skipped);
        assert id in started ==> Kept(state, d);
      }
      forall id | id in order && !NeedsSkipped(items, state, id)
        ensures id in started && (Has(state, id, Skipped) <==> StaysBlocked(replies, id))
      {
        assert Kept(state, id) || Has(state, id, Skipped);
      }
    }
  }

  /** With the results of `RunMilestones` in a topological order: everything upstream of a
      started milestone, however far, was kept; so no milestone starts under a skipped one. */
  lemma {:induction false} NothingSkippedUpstream(items: seq<Item<string>>, order: seq<string>,
          replies: map<string, Replies>, state: State, started: seq<string>, p: seq<string>, i: nat)
    requires TopoOrder(Deps(items), order) && StartsJustified(items, order, state, started)
    requires KeptAsWorked(replies, state, started)
    requires |p| > 0 && p[0] in started && forall k :: 0 < k < |p| ==> Mentions(items, p[k - 1], p[k])
    requires 0 < i < |p|
    ensures Kept(state, p[i])
  {
    if i > 1 {
      NothingSkippedUpstream(items, order, replies, state, started, p, i - 1);
    }
    assert Mentions(items, p[i - 1], p[i]);
  }
}
