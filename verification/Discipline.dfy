/** The discipline that every active thread obeys, and why a disciplined thread becomes a
    well-paired request once it is sanitised and lowered.
 */
module Discipline {
  import opened Sequences
  import opened Messages
  import opened Wire

  /** Reading a thread from the left: the calls of the message just read, if it was an
      assistant, and all call ids seen so far. */
  datatype Reading = Reading(ok: bool, open: seq<string>, used: set<string>)

  ghost predicate FreshCalls(used: set<string>, calls: seq<string>) {
    Distinct(calls) && forall c :: c in calls ==> c !in used
  }

  /** A tool message answers a non-empty prefix of the calls of the assistant message right
      before it; nobody else carries results. Read strictly, calls of assistants are fresh as well. */
  ghost function Read(strict: bool, r: Reading, m: Message): Reading {
    var calls, results := CallIds(m.items), ResultIds(m.items);
    match m.role
    case Tool => Reading(r.ok && results != [] && results <= r.open, [], r.used)
    case Assistant =>
      Reading(r.ok && results == [] && (strict ==> FreshCalls(r.used, calls)), calls, r.used + Elements(calls))
    case _ => Reading(r.ok && results == [], [], r.used)
  }

  ghost function ReadAll(strict: bool, t: seq<Message>): Reading {
    if t == [] then Reading(true, [], {}) else Read(strict, ReadAll(strict, t[..|t| - 1]), t[|t| - 1])
  }

  /** Calls and results are in order; with `strict`, no call id is ever used again either. */
  ghost predicate Ordered(strict: bool, t: seq<Message>) {
    ReadAll(strict, t).ok
  }

  ghost predicate Disciplined(t: seq<Message>) {
    Ordered(true, t)
  }

  lemma {:induction false} ReadNext(strict: bool, t: seq<Message>, m: Message)
    ensures ReadAll(strict, t + [m]) == Read(strict, ReadAll(strict, t), m)
  {
    assert (t + [m])[..|t|] == t;
  }

  lemma {:induction false} AnsweredNext(t: seq<Message>, m: Message)
    ensures Answered(t + [m]) == Answered(t) + Elements(ResultIds(m.items))
  {
    assert (t + [m])[..|t|] == t;
  }

  lemma {:induction false} PrefixOrdered(strict: bool, t: seq<Message>, n: nat)
    requires Ordered(strict, t) && n <= |t|
    ensures Ordered(strict, t[..n])
    ensures ReadAll(strict, t[..n]).used <= ReadAll(strict, t).used
    decreases |t|
  {
    if n < |t| {
      PrefixOrdered(strict, t[..|t| - 1], n);
      assert t[..|t| - 1][..n] == t[..n];
    } else {
      assert t[..n] == t;
    }
  }

  // ---------------------------------------------------------------- which results answer which calls

  /** Results only answer calls already read. */
  lemma {:induction false} AnsweredAreUsed(t: seq<Message>)
    requires Disciplined(t)
    ensures Answered(t) <= ReadAll(true, t).used
    ensures Elements(ReadAll(true, t).open) <= ReadAll(true, t).used
  {
    if t != [] {
      AnsweredAreUsed(t[..|t| - 1]);
      var m, before := t[|t| - 1], ReadAll(true, t[..|t| - 1]);
      if m.role == Tool {
        forall x | x in Elements(ResultIds(m.items)) ensures x in before.used {
          assert x in before.open;
        }
      }
    }
  }

  /** The calls left open by `t[..n]` are not answered within `t[..n]`. */
  lemma {:induction false} OpenNotAnsweredBefore(t: seq<Message>)
    requires Disciplined(t)
    ensures forall c :: c in ReadAll(true, t).open ==> c !in Answered(t)
  {
    if t != [] && t[|t| - 1].role == Assistant {
      AnsweredAreUsed(t[..|t| - 1]);
    }
  }

  /** An open call was not known before the last message. */
  lemma {:induction false} OpenIsNew(t: seq<Message>, c: string)
    requires Disciplined(t) && c in ReadAll(true, t).open
    ensures t != [] && Disciplined(t[..|t| - 1]) && c !in ReadAll(true, t[..|t| - 1]).used
  {
  }

  /** After position `n`, a call read before `n` is answered by the very next message or never. */
  lemma {:induction false} AnsweredLater(t: seq<Message>, n: nat, c: string)
    requires Disciplined(t) && n <= |t|
    requires c in ReadAll(true, t[..n]).used && c in Answered(t) && c !in Answered(t[..n])
    ensures n < |t| && t[n].role == Tool && c in ResultIds(t[n].items)
    decreases |t|
  {
    hide Read, ReadAll, Answered, ResultIds;
    assert t[..|t|] == t;
    if n < |t| {
      var k := |t| - 1;
      assert t[..k][..n] == t[..n];
      PrefixOrdered(true, t, k);
      if c in Answered(t[..k]) {
        AnsweredLater(t[..k], n, c);
      } else {
        LastAnswers(t, c);
        if n < k {
          assert t[..k][..k - 1] == t[..k - 1] && t[..k - 1][..n] == t[..n];
          OpenIsNew(t[..k], c);
          PrefixOrdered(true, t[..k - 1], n);
        }
      }
    }
  }

  lemma {:induction false} LastAnswers(t: seq<Message>, c: string)
    requires Disciplined(t) && c in Answered(t) && t != [] && c !in Answered(t[..|t| - 1])
    ensures var k := |t| - 1;
      t[k].role == Tool && c in ResultIds(t[k].items) && c in ReadAll(true, t[..k]).open
  {
  }

  lemma {:induction false} AnsweredGrows(t: seq<Message>, n: nat)
    requires n <= |t|
    ensures Answered(t[..n]) <= Answered(t)
    decreases |t|
  {
    if n < |t| {
      AnsweredGrows(t[..|t| - 1], n);
      assert t[..|t| - 1][..n] == t[..n];
    } else {
      assert t[..n] == t;
    }
  }

  // ---------------------------------------------------------------- sanitising

  /** The ids of `ids` that are in `answered`, in order. */
  ghost function Kept(ids: seq<string>, answered: set<string>): seq<string> {
    if ids == [] then []
    else
      var n := |ids| - 1;
      Kept(ids[..n], answered) + if ids[n] in answered then [ids[n]] else []
  }

  lemma {:induction false} KeptAppend(a: seq<string>, b: seq<string>, answered: set<string>)
    ensures Kept(a + b, answered) == Kept(a, answered) + Kept(b, answered)
  {
    if b == [] {
      assert a + b == a;
    } else {
      var n := |b| - 1;
      KeptAppend(a, b[..n], answered);
      assert (a + b)[..|a + b| - 1] == a + b[..n];
    }
  }

  lemma {:induction false} CallIdsPush(items: seq<Item>, x: Item)
    ensures CallIds(items + [x]) == CallIds(items) + if x.ToolCall? then [x.callId] else []
    ensures ResultIds(items + [x]) == ResultIds(items) + if x.ToolResult? then [x.answers] else []
  {
    assert (items + [x])[..|items|] == items;
  }

  lemma {:induction false} KeptPush(ids: seq<string>, id: string, answered: set<string>)
    ensures Kept(ids + [id], answered) == Kept(ids, answered) + if id in answered then [id] else []
  {
    assert (ids + [id])[..|ids|] == ids;
  }

  lemma {:induction false} RetainKeeps(items: seq<Item>, answered: set<string>)
    ensures CallIds(Retain(items, answered)) == Kept(CallIds(items), answered)
    ensures ResultIds(Retain(items, answered)) == ResultIds(items)
  {
    if items != [] {
      var n := |items| - 1;
      var init, x := items[..n], items[n];
      RetainKeeps(init, answered);
      assert items == init + [x];
      CallIdsPush(init, x);
      CallIdsPush(Retain(init, answered), x);
      assert CallIds(init) + [] == CallIds(init);
      assert Kept(CallIds(init), answered) + [] == Kept(CallIds(init), answered);
      assert ResultIds(init) + [] == ResultIds(init);
      assert Retain(init, answered) + [] == Retain(init, answered);
      if x.ToolCall? {
        KeptPush(CallIds(init), x.callId, answered);
      }
    }
  }

  lemma {:induction false} KeptAll(ids: seq<string>, answered: set<string>)
    requires forall c :: c in ids ==> c in answered
    ensures Kept(ids, answered) == ids
  {
    if ids != [] {
      KeptAll(ids[..|ids| - 1], answered);
    }
  }

  lemma {:induction false} KeptNone(ids: seq<string>, answered: set<string>)
    requires forall c :: c in ids ==> c !in answered
    ensures Kept(ids, answered) == []
  {
    if ids != [] {
      KeptNone(ids[..|ids| - 1], answered);
    }
  }

  // ---------------------------------------------------------------- lowering

  lemma {:induction false} ScanNext(w: seq<Entry>, e: Entry)
    ensures ScanAll(w + [e]) == ScanStep(ScanAll(w), e)
  {
    assert (w + [e])[..|w|] == w;
  }

  lemma {:induction false} ScanResults(w: seq<Entry>, items: seq<Item>)
    requires ScanAll(w).Awaiting? && ResultIds(items) <= ScanAll(w).ids
    ensures ScanAll(w + CollectResults(items)) == Awaiting(ScanAll(w).ids[|ResultIds(items)|..])
  {
    hide ScanAll;
    if items == [] {
      assert w + [] == w;
    } else {
      var n := |items| - 1;
      var ids, before := ScanAll(w).ids, ResultIds(items[..n]);
      assert before <= ids by { assert before == ResultIds(items)[..|before|]; }
      ScanResults(w, items[..n]);
      if items[n].ToolResult? {
        var e := ToolEntry(items[n].answers, items[n].output);
        ScanNext(w + CollectResults(items[..n]), e);
        assert w + CollectResults(items) == w + CollectResults(items[..n]) + [e];
        assert ids[|before|] == ResultIds(items)[|before|];
        assert ids[|before|..][1..] == ids[|before| + 1..];
      } else {
        assert w + CollectResults(items) == w + CollectResults(items[..n]);
      }
    }
  }

  /** Any message but a tool message, read when nothing is awaited. */
  lemma {:induction false} ScanOther(w: seq<Entry>, m: Message)
    requires ScanAll(w) == Awaiting([]) && m.role != Tool
    ensures ScanAll(w + Lower(m)) == Awaiting(if m.role == Assistant then CallIds(m.items) else [])
  {
    if Lower(m) == [] {
      assert w + Lower(m) == w;
      assert IdsOf([]) == [];
    } else {
      ScanNext(w, Lower(m)[0]);
      assert Lower(m) == [Lower(m)[0]];
    }
  }

  lemma {:induction false} OpenAnsweredNext(t: seq<Message>, n: nat, c: string)
    requires Disciplined(t) && n <= |t|
    requires c in ReadAll(true, t[..n]).open && c in Answered(t)
    ensures n < |t| && t[n].role == Tool && c in ResultIds(t[n].items)
  {
    hide Read;
    PrefixOrdered(true, t, n);
    AnsweredAreUsed(t[..n]);
    OpenNotAnsweredBefore(t[..n]);
    assert c in Elements(ReadAll(true, t[..n]).open);
    AnsweredLater(t, n, c);
  }

  /** Open calls that are answered somewhere are answered by the very next message. */
  lemma {:induction false} OpenThenAnswered(t: seq<Message>, n: nat)
    requires Disciplined(t) && n <= |t|
    ensures Kept(ReadAll(true, t[..n]).open, Answered(t)) ==
            if n < |t| && t[n].role == Tool then ResultIds(t[n].items) else []
  {
    hide Read, Kept, Answered;
    var open, answered := ReadAll(true, t[..n]).open, Answered(t);
    forall c | c in open && c in answered ensures n < |t| && t[n].role == Tool && c in ResultIds(t[n].items) {
      OpenAnsweredNext(t, n, c);
    }
    if n < |t| && t[n].role == Tool {
      ToolAnswersOpen(t, n);
      SplitOpen(t[..n], open, ResultIds(t[n].items), answered);
    } else {
      KeptNone(open, answered);
    }
  }

  lemma {:induction false} ToolAnswersOpen(t: seq<Message>, n: nat)
    requires Disciplined(t) && n < |t| && t[n].role == Tool
    ensures Disciplined(t[..n])
    ensures ResultIds(t[n].items) != [] && ResultIds(t[n].items) <= ReadAll(true, t[..n]).open
    ensures forall c :: c in ResultIds(t[n].items) ==> c in Answered(t)
  {
    hide Answered, ReadAll;
    PrefixOrdered(true, t, n + 1);
    AnsweredGrows(t, n + 1);
    assert t[..n + 1] == t[..n] + [t[n]];
    ReadNext(true, t[..n], t[n]);
    AnsweredNext(t[..n], t[n]);
  }

  lemma {:induction false} OpenDistinct(t: seq<Message>)
    requires Disciplined(t)
    ensures Distinct(ReadAll(true, t).open)
  {
  }

  lemma {:induction false} SplitOpen(t: seq<Message>, open: seq<string>, results: seq<string>, answered: set<string>)
    requires Disciplined(t) && open == ReadAll(true, t).open && results <= open
    requires forall c :: c in results ==> c in answered
    requires forall c :: c in open && c in answered ==> c in results
    ensures Kept(open, answered) == results
  {
    OpenDistinct(t);
    var rest := open[|results|..];
    assert open == results + rest;
    KeptAppend(results, rest, answered);
    KeptAll(results, answered);
    KeptNone(rest, answered);
  }

  lemma {:induction false} SanitizedScan(t: seq<Message>, n: nat)
    requires Disciplined(t) && n <= |t|
    ensures ScanAll(ToWire(SanitizeAll(t[..n], Answered(t)))) == Awaiting(Kept(ReadAll(true, t[..n]).open, Answered(t)))
  {
    hide Read, CallIds, ResultIds, ReadAll, ScanAll, Answered, Lower, Kept;
    if n == 0 {
      NothingRead(t);
    } else {
      var k, answered := n - 1, Answered(t);
      SanitizedScan(t, k);
      var before, m := SanitizeAll(t[..k], answered), SanitizeOne(t[k], answered);
      assert t[..n] == t[..k] + [t[k]];
      assert SanitizeAll(t[..n], answered) == before + [m];
      assert (before + [m])[..k] == before;
      SanitizedStep(t, k, ToWire(before));
    }
  }

  lemma {:induction false} NothingRead(t: seq<Message>)
    ensures ScanAll(ToWire(SanitizeAll(t[..0], Answered(t)))) == Awaiting(Kept(ReadAll(true, t[..0]).open, Answered(t)))
  {
  }

  lemma {:induction false} SanitizedStep(t: seq<Message>, k: nat, w: seq<Entry>)
    requires Disciplined(t) && k < |t|
    requires ScanAll(w) == Awaiting(Kept(ReadAll(true, t[..k]).open, Answered(t)))
    ensures ScanAll(w + Lower(SanitizeOne(t[k], Answered(t)))) ==
            Awaiting(Kept(ReadAll(true, t[..k + 1]).open, Answered(t)))
  {
    hide Answered, ScanAll, ReadAll, CallIds, ResultIds, Retain;
    OpenThenAnswered(t, k);
    assert t[..k + 1] == t[..k] + [t[k]];
    ReadNext(true, t[..k], t[k]);
    RetainKeeps(t[k].items, Answered(t));
    if t[k].role == Tool {
      ScanResults(w, t[k].items);
    } else {
      ScanOther(w, SanitizeOne(t[k], Answered(t)));
    }
  }

  /** The heart of the pipeline: sanitising and lowering a disciplined thread gives a request
      in which every remaining call is answered at once and no result is an orphan. */
  lemma {:induction false} DisciplinedRequestIsPaired(t: seq<Message>)
    requires Disciplined(t)
    ensures WellPaired(ToWire(Sanitized(t)))
  {
    assert t[..|t|] == t;
    SanitizedScan(t, |t|);
    OpenThenAnswered(t, |t|);
    ScanMeansWellPaired(ToWire(Sanitized(t)));
  }

  /** What sanitising costs: a call survives exactly when the next message answers it, and no
      result is lost. */
  lemma {:induction false} SurvivingCalls(t: seq<Message>, i: nat)
    requires Disciplined(t) && i < |t|
    ensures ResultIds(Sanitized(t)[i].items) == ResultIds(t[i].items)
    ensures t[i].role == Assistant ==>
              CallIds(Sanitized(t)[i].items) ==
              if i + 1 < |t| && t[i + 1].role == Tool then ResultIds(t[i + 1].items) else []
  {
    hide Answered, CallIds, ResultIds, Retain;
    RetainKeeps(t[i].items, Answered(t));
    OpenThenAnswered(t, i + 1);
    assert t[..i + 1] == t[..i] + [t[i]];
    ReadNext(true, t[..i], t[i]);
  }
}
