/** Both compaction tiers keep a thread disciplined, so the request built from it stays
    well paired.
 */
module CompactionKeepsPairing {
  import opened Wrappers
  import opened Messages
  import opened Discipline
  import opened Compaction

  /** `s'` accepts whatever `s` accepts: it knows fewer call ids, and the same calls are open
      unless none are. */
  ghost predicate Follows(s: Reading, s': Reading) {
    && (s.ok ==> s'.ok)
    && s'.used <= s.used
    && (s.open == [] || s'.open == s.open)
  }

  lemma {:induction false} ReadKeepsFollows(strict: bool, s: Reading, s': Reading, m: Message, m': Message)
    requires Follows(s, s') && m.role == m'.role
    requires CallIds(m.items) == CallIds(m'.items) && ResultIds(m.items) == ResultIds(m'.items)
    ensures Follows(Read(strict, s, m), Read(strict, s', m'))
  {
  }

  // ---------------------------------------------------------------- tier 1

  lemma {:induction false} ShrinkKeepsIds(items: seq<Item>)
    ensures CallIds(Shrink(items)) == CallIds(items) && ResultIds(Shrink(items)) == ResultIds(items)
  {
    hide CallIds, ResultIds;
    if items == [] {
      assert Shrink(items) == items;
    } else {
      var n := |items| - 1;
      var init, x := items[..n], items[n];
      ShrinkKeepsIds(init);
      assert items == init + [x];
      CallIdsPush(init, x);
      assert Shrink(init) + [] == Shrink(init);
      assert CallIds(init) + [] == CallIds(init) && ResultIds(init) + [] == ResultIds(init);
      CallIdsPush(Shrink(init), if x.ToolResult? then ElidedResult(x) else x);
    }
  }

  lemma {:induction false} ReadTier1One(strict: bool, t: seq<Message>, i: nat, s: Reading, r: seq<Message>)
    requires i < |t| && Follows(s, ReadAll(strict, r)) && Read(strict, s, t[i]).ok
    ensures Follows(Read(strict, s, t[i]), ReadAll(strict, r + Tier1One(t, i)))
  {
    hide CallIds, ResultIds, ReadAll, Shrink, FirstUser;
    var one := Tier1One(t, i);
    ShrinkKeepsIds(t[i].items);
    if one == [] {
      assert r + [] == r;
    } else {
      assert one == [one[0]];
      ReadNext(strict, r, one[0]);
      ReadKeepsFollows(strict, s, ReadAll(strict, r), t[i], one[0]);
    }
  }

  lemma {:induction false} Tier1FollowsStep(strict: bool, t: seq<Message>, n: nat)
    requires Ordered(strict, t) && n < |t|
    requires Follows(ReadAll(strict, t[..n]), ReadAll(strict, Tier1Upto(t, n)))
    ensures Follows(ReadAll(strict, t[..n + 1]), ReadAll(strict, Tier1Upto(t, n + 1)))
  {
    hide Read, Tier1One, ReadAll, Follows;
    assert t[..n + 1] == t[..n] + [t[n]];
    ReadNext(strict, t[..n], t[n]);
    PrefixOrdered(strict, t, n + 1);
    ReadTier1One(strict, t, n, ReadAll(strict, t[..n]), Tier1Upto(t, n));
  }

  lemma {:induction false} NothingFollows(strict: bool, t: seq<Message>)
    ensures Follows(ReadAll(strict, t[..0]), ReadAll(strict, Tier1Upto(t, 0)))
  {
  }

  lemma {:induction false} Tier1Follows(strict: bool, t: seq<Message>, n: nat)
    requires Ordered(strict, t) && n <= |t|
    ensures Follows(ReadAll(strict, t[..n]), ReadAll(strict, Tier1Upto(t, n)))
  {
    hide Read, Tier1One, Ordered, ReadAll, Follows;
    if n == 0 {
      NothingFollows(strict, t);
    } else {
      Tier1Follows(strict, t, n - 1);
      Tier1FollowsStep(strict, t, n - 1);
    }
  }

  lemma {:induction false} WorkingSetKeepsDiscipline(strict: bool, t: seq<Message>, compact: bool)
    requires Ordered(strict, t)
    ensures Ordered(strict, WorkingSet(t, compact))
  {
    if compact {
      Tier1Follows(strict, t, |t|);
      assert t[..|t|] == t;
    }
  }

  // ---------------------------------------------------------------- tier 2

  ghost predicate AscendingIds(t: seq<Message>) {
    forall i, j :: 0 <= i < j < |t| ==> t[i].id < t[j].id
  }

  /** Tier 1 of the first `n` messages, either compacted or verbatim. */
  function Shaped(t: seq<Message>, compact: bool, n: nat): seq<Message>
    requires n <= |t|
  {
    if compact then Tier1Upto(t, n) else t[..n]
  }

  function ShapedOne(t: seq<Message>, compact: bool, i: nat): (r: seq<Message>)
    requires i < |t|
    ensures |r| <= 1 && (r != [] ==> r[0].id == t[i].id)
  {
    if compact then Tier1One(t, i) else [t[i]]
  }

  lemma {:induction false} ShapedNext(t: seq<Message>, compact: bool, i: nat)
    requires i < |t|
    ensures Shaped(t, compact, i + 1) == Shaped(t, compact, i) + ShapedOne(t, compact, i)
  {
  }

  /** Position `i` lies in the summarised span exactly when its id is covered. */
  lemma {:induction false} CoveredIsSpan(t: seq<Message>, start: nat, end: nat, i: nat)
    requires AscendingIds(t) && 0 < start < end <= |t| && i < |t|
    ensures Covered(t[i], t[start - 1].id, t[end - 1].id) <==> start <= i < end
  {
  }

  /** The relation while the span is being replaced: nothing is open in the new thread. */
  ghost predicate Tier2Relation(s: Reading, s': Reading, inSpan: bool) {
    if inSpan then (s.ok ==> s'.ok) && s'.used <= s.used && s'.open == []
    else Follows(s, s')
  }

  lemma {:induction false} ReadOutsideSpan(strict: bool, t: seq<Message>, compact: bool, i: nat, s: Reading,
          out: seq<Message>)
    requires i < |t| && Follows(s, ReadAll(strict, out)) && Read(strict, s, t[i]).ok
    ensures Follows(Read(strict, s, t[i]), ReadAll(strict, out + ShapedOne(t, compact, i)))
  {
    hide Read, Tier1One, ReadAll;
    if compact {
      ReadTier1One(strict, t, i, s, out);
    } else {
      ReadNext(strict, out, t[i]);
      ReadKeepsFollows(strict, s, ReadAll(strict, out), t[i], t[i]);
    }
  }

  lemma {:induction false} ReadSummary(strict: bool, out: seq<Message>, summary: string)
    ensures ReadAll(strict, out + [SummaryMessage(summary)]) ==
            Reading(ReadAll(strict, out).ok, [], ReadAll(strict, out).used)
  {
    ReadNext(strict, out, SummaryMessage(summary));
    ReadTextMessage(strict, ReadAll(strict, out), MAX_ID, System, SUMMARY_PREFIX + summary);
  }

  lemma {:induction false} ReadTextMessage(strict: bool, s: Reading, id: nat, role: Role, text: string)
    requires role == User || role == System
    ensures Read(strict, s, TextMessage(id, role, text)) == Reading(s.ok, [], s.used)
  {
    assert [Text(text)][..0] == [];
  }

  /** The user message after the span closes it: nothing is open on either side. */
  lemma {:induction false} ReadUser(strict: bool, t: seq<Message>, compact: bool, i: nat, s: Reading, out: seq<Message>)
    requires i < |t| && t[i].role == User && Tier2Relation(s, ReadAll(strict, out), true) && Read(strict, s, t[i]).ok
    ensures Follows(Read(strict, s, t[i]), ReadAll(strict, out + ShapedOne(t, compact, i)))
  {
    var closed := Reading(s.ok, [], s.used);
    assert Follows(closed, ReadAll(strict, out)) && Read(strict, closed, t[i]) == Read(strict, s, t[i]);
    ReadOutsideSpan(strict, t, compact, i, closed, out);
  }

  /** The anchor is a user message, so nothing is open when the span begins. */
  lemma {:induction false} AnchorCloses(strict: bool, t: seq<Message>, compact: bool, start: nat)
    requires 0 < start <= |t| && FirstUser(t) == Some((start - 1) as nat)
    ensures ReadAll(strict, Shaped(t, compact, start)).open == []
  {
    var before := Shaped(t, compact, start - 1);
    ShapedNext(t, compact, start - 1);
    assert ShapedOne(t, compact, start - 1) == [t[start - 1]];
    ReadNext(strict, before, t[start - 1]);
  }

  /** How tier 2 treats what tier 1 left of one message. */
  lemma {:induction false} Tier2Effect(a: seq<Message>, one: seq<Message>, anchorId: nat, lastId: nat, summary: string)
    requires |one| <= 1
    ensures var (out, inserted) := Tier2Upto(a, anchorId, lastId, summary);
      var (out', inserted') := Tier2Upto(a + one, anchorId, lastId, summary);
      out' == if one != [] && Covered(one[0], anchorId, lastId)
              then (if inserted then out else out + [SummaryMessage(summary)])
              else out + one
  {
    var (out, inserted) := Tier2Upto(a, anchorId, lastId, summary);
    if one == [] {
      assert a + one == a && out + one == out;
    } else {
      assert one == [one[0]];
    }
  }

  /** `out'` is `out` after tier 2 has treated position `i`. */
  ghost predicate Treated(t: seq<Message>, compact: bool, start: nat, end: nat, i: nat, summary: string,
                          out: seq<Message>, out': seq<Message>)
    requires i < |t|
  {
    if start <= i < end then out' == out || out' == out + [SummaryMessage(summary)]
    else out' == out + ShapedOne(t, compact, i)
  }

  lemma {:induction false} Tier2Treats(t: seq<Message>, compact: bool, start: nat, end: nat, i: nat, summary: string)
    requires AscendingIds(t) && 0 < start < end <= |t| && i < |t|
    ensures Treated(t, compact, start, end, i, summary,
                    ApplyTier2(Shaped(t, compact, i), t[start - 1].id, t[end - 1].id, summary),
                    ApplyTier2(Shaped(t, compact, i + 1), t[start - 1].id, t[end - 1].id, summary))
  {
    hide AscendingIds, Tier2Upto, Tier1One, Shaped;
    ShapedNext(t, compact, i);
    CoveredIsSpan(t, start, end, i);
    Tier2Effect(Shaped(t, compact, i), ShapedOne(t, compact, i), t[start - 1].id, t[end - 1].id, summary);
    var out := ApplyTier2(Shaped(t, compact, i), t[start - 1].id, t[end - 1].id, summary);
    assert ShapedOne(t, compact, i) == [] ==> out + ShapedOne(t, compact, i) == out;
  }

  lemma {:induction false} InsideSpan(strict: bool, t: seq<Message>, s: Reading, m: Message, out: seq<Message>,
          out': seq<Message>, summary: string)
    requires Tier2Relation(s, ReadAll(strict, out), true)
    requires out' == out || out' == out + [SummaryMessage(summary)]
    ensures Tier2Relation(Read(strict, s, m), ReadAll(strict, out'), true)
  {
    hide ReadAll;
    ReadSummary(strict, out, summary);
  }

  lemma {:induction false} TreatedFollows(strict: bool, t: seq<Message>, compact: bool, start: nat, end: nat, i: nat,
          summary: string, s: Reading, out: seq<Message>, out': seq<Message>)
    requires i < |t| && 0 < start < end < |t| && t[end].role == User && Read(strict, s, t[i]).ok
    requires Treated(t, compact, start, end, i, summary, out, out')
    requires Tier2Relation(s, ReadAll(strict, out), start <= i <= end)
    ensures i + 1 != start ==> Tier2Relation(Read(strict, s, t[i]), ReadAll(strict, out'), start <= i + 1 <= end)
    ensures i + 1 == start ==> Follows(Read(strict, s, t[i]), ReadAll(strict, out'))
  {
    hide ReadAll, Read, ShapedOne;
    if start <= i < end {
      InsideSpan(strict, t, s, t[i], out, out', summary);
    } else if i == end {
      ReadUser(strict, t, compact, i, s, out);
    } else {
      ReadOutsideSpan(strict, t, compact, i, s, out);
    }
  }

  lemma {:induction false} NothingCoveredYet(t: seq<Message>, compact: bool, start: nat, end: nat, n: nat,
          summary: string)
    requires AscendingIds(t) && 0 < start < end <= |t| && n <= start
    ensures ApplyTier2(Shaped(t, compact, n), t[start - 1].id, t[end - 1].id, summary) == Shaped(t, compact, n)
  {
    hide AscendingIds;
    if n > 0 {
      NothingCoveredYet(t, compact, start, end, n - 1, summary);
      Tier2Treats(t, compact, start, end, n - 1, summary);
      ShapedNext(t, compact, n - 1);
    }
  }

  lemma {:induction false} Tier2FollowsStep(strict: bool, t: seq<Message>, compact: bool, start: nat, end: nat, n: nat,
          summary: string, out: seq<Message>, out': seq<Message>)
    requires Ordered(strict, t) && AscendingIds(t) && SummarySpan(t) == Some((start, end)) && n < |t|
    requires out == ApplyTier2(Shaped(t, compact, n), t[start - 1].id, t[end - 1].id, summary)
    requires out' == ApplyTier2(Shaped(t, compact, n + 1), t[start - 1].id, t[end - 1].id, summary)
    requires Tier2Relation(ReadAll(strict, t[..n]), ReadAll(strict, out), start <= n <= end)
    ensures Tier2Relation(ReadAll(strict, t[..n + 1]), ReadAll(strict, out'), start <= n + 1 <= end)
  {
    hide Read, ReadAll, ApplyTier2, Shaped, Treated, AscendingIds, Tier2Relation, Follows;
    Tier2Treats(t, compact, start, end, n, summary);
    assert t[..n + 1] == t[..n] + [t[n]];
    ReadNext(strict, t[..n], t[n]);
    PrefixOrdered(strict, t, n + 1);
    TreatedFollows(strict, t, compact, start, end, n, summary, ReadAll(strict, t[..n]), out, out');
    if n + 1 == start {
      NothingCoveredYet(t, compact, start, end, n + 1, summary);
      AnchorCloses(strict, t, compact, start);
      OpenSpan(ReadAll(strict, t[..n + 1]), ReadAll(strict, out'));
    }
  }

  lemma {:induction false} Tier2FollowsStart(strict: bool, t: seq<Message>, compact: bool, start: nat, end: nat,
          summary: string)
    requires 0 < start < end <= |t|
    ensures Tier2Relation(ReadAll(strict, t[..0]),
                          ReadAll(strict, ApplyTier2(Shaped(t, compact, 0), t[start - 1].id, t[end - 1].id, summary)),
                          false)
  {
    assert t[..0] == [] && Shaped(t, compact, 0) == [];
  }

  lemma {:induction false} Tier2Follows(strict: bool, t: seq<Message>, compact: bool, start: nat, end: nat, n: nat,
          summary: string)
    requires Ordered(strict, t) && AscendingIds(t) && SummarySpan(t) == Some((start, end)) && n <= |t|
    ensures Tier2Relation(ReadAll(strict, t[..n]),
                          ReadAll(strict, ApplyTier2(Shaped(t, compact, n), t[start - 1].id, t[end - 1].id, summary)),
                          start <= n <= end)
  {
    hide ReadAll, ApplyTier2, Shaped, Tier2Relation, AscendingIds;
    var anchorId, lastId := t[start - 1].id, t[end - 1].id;
    if n == 0 {
      Tier2FollowsStart(strict, t, compact, start, end, summary);
    } else {
      var out := ApplyTier2(Shaped(t, compact, n - 1), anchorId, lastId, summary);
      var out' := ApplyTier2(Shaped(t, compact, n), anchorId, lastId, summary);
      Tier2Follows(strict, t, compact, start, end, n - 1, summary);
      Tier2FollowsStep(strict, t, compact, start, end, n - 1, summary, out, out');
    }
  }

  lemma {:induction false} OpenSpan(s: Reading, s': Reading)
    requires Follows(s, s') && s'.open == []
    ensures Tier2Relation(s, s', true)
  {
  }

  /** Tier 2 on top of tier 1 keeps the discipline, whatever the summary says. */
  lemma {:induction false} Tier2KeepsDiscipline(strict: bool, t: seq<Message>, compact: bool, summary: string)
    requires Ordered(strict, t) && AscendingIds(t) && SummarySpan(t).Some?
    ensures var (start, end) := SummarySpan(t).value;
      Ordered(strict, ApplyTier2(WorkingSet(t, compact), t[start - 1].id, t[end - 1].id, summary))
  {
    hide ReadAll, ApplyTier2;
    var (start, end) := SummarySpan(t).value;
    Tier2Follows(strict, t, compact, start, end, |t|, summary);
    assert t[..|t|] == t && Shaped(t, compact, |t|) == WorkingSet(t, compact);
  }

  // ---------------------------------------------------------------- what tier 2 keeps

  /** What tier 1 leaves of positions `from` to `n`. */
  function ShapedFrom(t: seq<Message>, compact: bool, from: nat, n: nat): seq<Message>
    requires from <= n <= |t|
  {
    if n == from then [] else ShapedFrom(t, compact, from, n - 1) + ShapedOne(t, compact, n - 1)
  }

  /** Part-way through the span: the head, and the summary as soon as anything was covered. */
  ghost predicate InSpan(head: seq<Message>, now: seq<Message>, anchorId: nat, lastId: nat, summary: string) {
    && |head| <= |now|
    && Tier2Upto(now, anchorId, lastId, summary) ==
         (if |now| == |head| then head else head + [SummaryMessage(summary)], |now| > |head|)
  }

  lemma {:induction false} InSpanStep(head: seq<Message>, now: seq<Message>, one: seq<Message>, anchorId: nat,
          lastId: nat, summary: string)
    requires InSpan(head, now, anchorId, lastId, summary)
    requires |one| <= 1 && (one != [] ==> Covered(one[0], anchorId, lastId))
    ensures InSpan(head, now + one, anchorId, lastId, summary)
  {
    hide Tier2Upto;
    PushOne(now, one, anchorId, lastId, summary);
  }

  lemma {:induction false} Tier2InSpan(t: seq<Message>, compact: bool, start: nat, end: nat, n: nat, summary: string)
    requires AscendingIds(t) && 0 < start <= n <= end <= |t| && start < end
    ensures InSpan(Shaped(t, compact, start), Shaped(t, compact, n), t[start - 1].id, t[end - 1].id, summary)
    decreases n - start
  {
    hide AscendingIds, Shaped, InSpan;
    if n == start {
      HeadInSpan(t, compact, start, end, summary);
    } else {
      Tier2InSpan(t, compact, start, end, n - 1, summary);
      ShapedNext(t, compact, n - 1);
      CoveredIsSpan(t, start, end, n - 1);
      InSpanStep(Shaped(t, compact, start), Shaped(t, compact, n - 1), ShapedOne(t, compact, n - 1),
                 t[start - 1].id, t[end - 1].id, summary);
    }
  }

  lemma {:induction false} HeadInSpan(t: seq<Message>, compact: bool, start: nat, end: nat, summary: string)
    requires AscendingIds(t) && 0 < start < end <= |t|
    ensures InSpan(Shaped(t, compact, start), Shaped(t, compact, start), t[start - 1].id, t[end - 1].id, summary)
  {
    hide AscendingIds, Shaped, Tier2Upto;
    NothingCoveredYet(t, compact, start, end, start, summary);
    NothingInserted(t, compact, start, end, start, summary);
  }

  lemma {:induction false} PushOne(a: seq<Message>, one: seq<Message>, anchorId: nat, lastId: nat, summary: string)
    requires |one| <= 1
    ensures var (out, inserted) := Tier2Upto(a, anchorId, lastId, summary);
      Tier2Upto(a + one, anchorId, lastId, summary) ==
        if one == [] then (out, inserted)
        else if Covered(one[0], anchorId, lastId) then (if inserted then out else out + [SummaryMessage(summary)], true)
        else (out + one, inserted)
  {
    if one == [] {
      assert a + one == a;
    } else {
      assert one == [one[0]];
    }
  }

  lemma {:induction false} NothingInserted(t: seq<Message>, compact: bool, start: nat, end: nat, n: nat,
          summary: string)
    requires AscendingIds(t) && 0 < start < end <= |t| && n <= start
    ensures !Tier2Upto(Shaped(t, compact, n), t[start - 1].id, t[end - 1].id, summary).1
  {
    if n > 0 {
      NothingInserted(t, compact, start, end, n - 1, summary);
      ShapedNext(t, compact, n - 1);
      CoveredIsSpan(t, start, end, n - 1);
      PushOne(Shaped(t, compact, n - 1), ShapedOne(t, compact, n - 1), t[start - 1].id, t[end - 1].id, summary);
    }
  }

  /** The head and at most one summary. */
  function WithSummary(head: seq<Message>, spanned: seq<Message>, summary: string): seq<Message> {
    head + if |spanned| == |head| then [] else [SummaryMessage(summary)]
  }

  /** Tier 2 exactly: everything up to the anchor, one summary if tier 1 left anything of the
      span, and everything from the last user message on. */
  lemma {:induction false} Tier2Exact(t: seq<Message>, compact: bool, start: nat, end: nat, n: nat, summary: string)
    requires AscendingIds(t) && 0 < start < end <= n <= |t|
    ensures ApplyTier2(Shaped(t, compact, n), t[start - 1].id, t[end - 1].id, summary) ==
            WithSummary(Shaped(t, compact, start), Shaped(t, compact, end), summary) + ShapedFrom(t, compact, end, n)
    decreases n - end
  {
    hide AscendingIds, Shaped, Tier2Upto, ShapedOne;
    var done := WithSummary(Shaped(t, compact, start), Shaped(t, compact, end), summary);
    if n == end {
      Tier2InSpan(t, compact, start, end, n, summary);
      assert done + [] == done;
    } else {
      Tier2Exact(t, compact, start, end, n - 1, summary);
      Tier2Treats(t, compact, start, end, n - 1, summary);
      var rest, one := ShapedFrom(t, compact, end, n - 1), ShapedOne(t, compact, n - 1);
      assert done + (rest + one) == done + rest + one;
    }
  }

  // ---------------------------------------------------------------- when no summary is left

  /** Nothing of the message survives tier 1: it is old and has no items but reasoning. */
  predicate Evaporates(t: seq<Message>, i: nat)
    requires i < |t|
  {
    i < TailStart(t) && forall x :: x in t[i].items ==> x.Reasoning?
  }

  lemma {:induction false} ShrinkEmptyIff(items: seq<Item>)
    ensures Shrink(items) == [] <==> forall x :: x in items ==> x.Reasoning?
  {
    if items != [] {
      var n := |items| - 1;
      ShrinkEmptyIff(items[..n]);
      assert items == items[..n] + [items[n]];
    }
  }

  lemma {:induction false} ShapedGrowsBy(t: seq<Message>, compact: bool, i: nat)
    requires i < |t| && FirstUser(t) != Some(i)
    ensures |Shaped(t, compact, i + 1)| == |Shaped(t, compact, i)| + if compact && Evaporates(t, i) then 0 else 1
  {
    hide FirstUser, Shrink;
    ShapedNext(t, compact, i);
    ShrinkEmptyIff(t[i].items);
  }

  ghost predicate AllEvaporate(t: seq<Message>, start: nat, end: nat)
    requires end <= |t|
  {
    forall i :: start <= i < end ==> Evaporates(t, i)
  }

  lemma {:induction false} NothingShapedIff(t: seq<Message>, compact: bool, start: nat, n: nat)
    requires FirstUser(t).Some? && FirstUser(t).value < start <= n <= |t|
    ensures |Shaped(t, compact, n)| >= |Shaped(t, compact, start)|
    ensures |Shaped(t, compact, n)| == |Shaped(t, compact, start)| <==>
            n == start || (compact && AllEvaporate(t, start, n))
    decreases n
  {
    hide FirstUser, Evaporates, Shaped;
    if n > start {
      NothingShapedIff(t, compact, start, n - 1);
      ShapedGrowsBy(t, compact, n - 1);
      assert AllEvaporate(t, start, n) <==> AllEvaporate(t, start, n - 1) && Evaporates(t, n - 1);
    }
  }

  /** The request has its summary unless tier 1 ran and every message of the span lies before the
      recent tail and has no items but reasoning. Then the span is gone and nothing stands for it. */
  lemma {:induction false} SummaryIsLostIff(t: seq<Message>, compact: bool, summary: string)
    requires AscendingIds(t) && SummarySpan(t).Some?
    ensures var (start, end) := SummarySpan(t).value;
      ApplyTier2(WorkingSet(t, compact), t[start - 1].id, t[end - 1].id, summary) ==
      Shaped(t, compact, start) +
      (if compact && AllEvaporate(t, start, end) then [] else [SummaryMessage(summary)]) +
      ShapedFrom(t, compact, end, |t|)
  {
    hide AscendingIds, AllEvaporate, ApplyTier2, SummaryMessage, ShapedFrom;
    var (start, end) := SummarySpan(t).value;
    assert t[..|t|] == t;
    Tier2Exact(t, compact, start, end, |t|, summary);
    NothingShapedIff(t, compact, start, end);
  }

  /** A question, a step of pure thought, a second question and six steps since. */
  function Thoughtful(): seq<Message> {
    [TextMessage(0, User, ""), Message(1, Assistant, [Reasoning("")]), TextMessage(2, User, "")] +
    seq(6, i requires 0 <= i < 6 => TextMessage(i + 3, Assistant, ""))
  }

  lemma {:induction false} ThoughtfulSpan()
    ensures AscendingIds(Thoughtful()) && SummarySpan(Thoughtful()) == Some((1, 2)) && AllEvaporate(Thoughtful(), 1, 2)
  {
    hide AscendingIds, AllEvaporate, Thoughtful;
    ThoughtfulShape();
    var t := Thoughtful();
    assert t[0].role == User && t[2].role == User;
    assert FirstUser(t).Some? && LastUser(t).Some?;
  }

  lemma {:induction false} ThoughtfulShape()
    ensures |Thoughtful()| == 9 && AscendingIds(Thoughtful()) && AllEvaporate(Thoughtful(), 1, 2)
    ensures forall i :: 0 <= i < 9 ==> (Thoughtful()[i].role == User <==> i == 0 || i == 2)
  {
    assert Thoughtful()[1].items == [Reasoning("")];
  }

  lemma {:induction false} IdsUpto(t: seq<Message>, from: nat, n: nat, bound: nat)
    requires from <= n <= |t| && forall m :: m in t ==> m.id <= bound
    ensures forall m :: m in ShapedFrom(t, true, from, n) ==> m.id <= bound
    ensures forall m :: m in Shaped(t, true, n) ==> m.id <= bound
    decreases n
  {
    hide Tier1One;
    if n > 0 {
      ShapedNext(t, true, n - 1);
      assert t[n - 1] in t;
      IdsUpto(t, if from == n then n - 1 else from, n - 1, bound);
    }
  }

  /** On that thread tier 2 inserts no summary at all. */
  lemma {:induction false} SummaryIsLost(summary: string)
    ensures var shaped := WorkingSet(Thoughtful(), true);
      forall m :: m in ApplyTier2(shaped, Thoughtful()[0].id, Thoughtful()[1].id, summary) ==> m.id != MAX_ID
  {
    hide Shaped, ShapedFrom, ApplyTier2, WorkingSet, AllEvaporate, AscendingIds, SummarySpan;
    var t := Thoughtful();
    ThoughtfulSpan();
    SummaryIsLostIff(t, true, summary);
    IdsUpto(t, 2, |t|, 8);
    IdsUpto(t, 1, 1, 8);
  }

  // ---------------------------------------------------------------- synthetic messages around it

  /** The system prompt in front changes nothing. */
  lemma {:induction false} PromptKeepsReading(strict: bool, t: seq<Message>, prompt: string)
    ensures ReadAll(strict, [TextMessage(MAX_ID, System, prompt)] + t) == ReadAll(strict, t)
  {
    var p := TextMessage(MAX_ID, System, prompt);
    hide Read;
    if t == [] {
      assert [p] + t == [] + [p];
      ReadNext(strict, [], p);
      ReadTextMessage(strict, ReadAll(strict, []), MAX_ID, System, prompt);
    } else {
      var n := |t| - 1;
      PromptKeepsReading(strict, t[..n], prompt);
      assert [p] + t == [p] + t[..n] + [t[n]] && t == t[..n] + [t[n]];
      ReadNext(strict, [p] + t[..n], t[n]);
      ReadNext(strict, t[..n], t[n]);
    }
  }

  /** A note at the end changes nothing either. */
  lemma {:induction false} NoteKeepsDiscipline(strict: bool, t: seq<Message>, note: string)
    requires Ordered(strict, t)
    ensures Ordered(strict, t + [TextMessage(MAX_ID, System, note)])
  {
    ReadNext(strict, t, TextMessage(MAX_ID, System, note));
    ReadTextMessage(strict, ReadAll(strict, t), MAX_ID, System, note);
  }
}
