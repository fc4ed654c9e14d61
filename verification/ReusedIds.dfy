/** What freshness of call ids is needed for: on threads kept in order but with ids free to
    repeat, exactly when sanitising and lowering still give a well-paired request.
 */
module ReusedIds {
  import opened Wrappers
  import opened Messages
  import opened Wire
  import opened Discipline

  // ---------------------------------------------------------------- order without freshness

  /** The calls of the last message of a thread, if it is an assistant's. */
  ghost function OpenCalls(t: seq<Message>): seq<string> {
    if t != [] && t[|t| - 1].role == Assistant then CallIds(t[|t| - 1].items) else []
  }

  /** The thread discipline without any demand on ids: tool messages answer a non-empty prefix
      of the calls right before them, and nobody else carries results. */
  ghost predicate InOrder(t: seq<Message>) {
    forall i :: 0 <= i < |t| ==> InOrderAt(t, i)
  }

  /** The ids answered right after position `i`. */
  ghost function NextResults(t: seq<Message>, i: nat): seq<string> {
    if i + 1 < |t| && t[i + 1].role == Tool then ResultIds(t[i + 1].items) else []
  }

  /** The calls of message `i` from the `|NextResults|`-th on went unanswered, and no result
      anywhere on the thread carries the id of one of them. */
  ghost predicate UnansweredStayUnanswered(t: seq<Message>, i: nat)
    requires i < |t|
  {
    forall k :: |NextResults(t, i)| <= k < |CallIds(t[i].items)| ==> CallIds(t[i].items)[k] !in Answered(t)
  }

  ghost predicate NoUnansweredIdAnswered(t: seq<Message>) {
    forall i :: 0 <= i < |t| && t[i].role == Assistant ==> UnansweredStayUnanswered(t, i)
  }

  lemma {:induction false} OpenIsLastCalls(strict: bool, t: seq<Message>)
    ensures ReadAll(strict, t).open == OpenCalls(t)
  {
  }

  /** Reading without an eye on fresh ids accepts exactly the threads in order. */
  lemma {:induction false} OrderedIsInOrder(t: seq<Message>)
    ensures Ordered(false, t) <==> InOrder(t)
  {
    hide CallIds, ResultIds, OpenCalls;
    if t != [] {
      var n := |t| - 1;
      OrderedIsInOrder(t[..n]);
      OpenIsLastCalls(false, t[..n]);
      InOrderNext(t);
    }
  }

  ghost predicate InOrderAt(t: seq<Message>, i: nat)
    requires i < |t|
  {
    if t[i].role == Tool then ResultIds(t[i].items) != [] && ResultIds(t[i].items) <= OpenCalls(t[..i])
    else ResultIds(t[i].items) == []
  }

  lemma {:induction false} InOrderNext(t: seq<Message>)
    requires t != []
    ensures InOrder(t) <==> InOrder(t[..|t| - 1]) && InOrderAt(t, |t| - 1)
  {
    hide CallIds, ResultIds, OpenCalls;
    var n := |t| - 1;
    forall i | 0 <= i < n ensures InOrderAt(t[..n], i) == InOrderAt(t, i) {
      assert t[..n][..i] == t[..i];
    }
  }

  // ---------------------------------------------------------------- the scan, step by step

  ghost function ScanOf(t: seq<Message>, n: nat): Scan
    requires n <= |t|
  {
    ScanAll(ToWire(SanitizeAll(t[..n], Answered(t))))
  }

  /** What is still kept of the open calls at position `n` is what the next message answers. */
  ghost predicate Settled(t: seq<Message>, n: nat)
    requires n <= |t|
  {
    Kept(OpenCalls(t[..n]), Answered(t)) == if n < |t| && t[n].role == Tool then ResultIds(t[n].items) else []
  }

  /** The scan has failed, or waits for results that can no longer come. */
  ghost predicate Lost(t: seq<Message>, n: nat)
    requires n <= |t|
  {
    ScanOf(t, n).Broken? || (ScanOf(t, n).ids != [] && (n < |t| ==> t[n].role != Tool))
  }

  lemma {:induction false} ScanMoves(t: seq<Message>, k: nat)
    requires k < |t|
    ensures ScanOf(t, k + 1) ==
            ScanAll(ToWire(SanitizeAll(t[..k], Answered(t))) + Lower(SanitizeOne(t[k], Answered(t))))
    ensures OpenCalls(t[..k + 1]) == if t[k].role == Assistant then CallIds(t[k].items) else []
  {
    hide ScanAll, Lower, CallIds;
    var before, m := SanitizeAll(t[..k], Answered(t)), SanitizeOne(t[k], Answered(t));
    assert SanitizeAll(t[..k + 1], Answered(t)) == before + [m];
    assert (before + [m])[..k] == before;
  }

  lemma {:induction false} ResultsAreAnswered(t: seq<Message>, k: nat)
    requires k < |t|
    ensures forall c :: c in ResultIds(t[k].items) ==> c in Answered(t)
  {
    hide ResultIds;
    assert t[..k + 1] == t[..k] + [t[k]];
    AnsweredNext(t[..k], t[k]);
    AnsweredGrows(t, k + 1);
  }

  /** Of the open calls, those answered next are kept, and perhaps some of the rest. */
  lemma {:induction false} KeptSplits(t: seq<Message>, k: nat)
    requires InOrder(t) && k < |t| && t[k].role == Tool
    ensures var open, results := OpenCalls(t[..k]), ResultIds(t[k].items);
      results <= open && Kept(open, Answered(t)) == results + Kept(open[|results|..], Answered(t))
  {
    hide CallIds, ResultIds, Answered;
    var open, results := OpenCalls(t[..k]), ResultIds(t[k].items);
    assert InOrderAt(t, k);
    assert open == results + open[|results|..];
    ResultsAreAnswered(t, k);
    KeptAppend(results, open[|results|..], Answered(t));
    KeptAll(results, Answered(t));
  }

  lemma {:induction false} SettledStep(t: seq<Message>, k: nat)
    requires InOrder(t) && k < |t| && ScanOf(t, k) == Awaiting(Kept(OpenCalls(t[..k]), Answered(t))) && Settled(t, k)
    ensures ScanOf(t, k + 1) == Awaiting(Kept(OpenCalls(t[..k + 1]), Answered(t)))
  {
    hide CallIds, ResultIds, Answered, ScanAll, OpenCalls, Retain;
    ScanMoves(t, k);
    var w := ToWire(SanitizeAll(t[..k], Answered(t)));
    RetainKeeps(t[k].items, Answered(t));
    if t[k].role == Tool {
      ScanResults(w, t[k].items);
    } else {
      ScanOther(w, SanitizeOne(t[k], Answered(t)));
    }
  }

  /** Leftover calls that some other message answers are never caught up with. */
  lemma {:induction false} UnsettledStep(t: seq<Message>, k: nat)
    requires InOrder(t) && k < |t| && ScanOf(t, k) == Awaiting(Kept(OpenCalls(t[..k]), Answered(t))) && !Settled(t, k)
    ensures Lost(t, k) || Lost(t, k + 1)
  {
    hide CallIds, ResultIds, Answered, ScanAll, Retain, OpenCalls;
    if t[k].role == Tool {
      ScanMoves(t, k);
      var w := ToWire(SanitizeAll(t[..k], Answered(t)));
      KeptSplits(t, k);
      ScanResults(w, t[k].items);
      if k + 1 < |t| {
        assert InOrderAt(t, k + 1) && OpenCalls(t[..k + 1]) == [];
      }
    }
  }

  /** Being lost is final. */
  lemma {:induction false} LostStep(t: seq<Message>, k: nat)
    requires InOrder(t) && k < |t| && Lost(t, k)
    ensures Lost(t, k + 1)
  {
    hide CallIds, ResultIds, Answered, Retain, OpenCalls, InOrder, ToWire, SanitizeAll, ScanAll;
    ScanMoves(t, k);
    var w, m := ToWire(SanitizeAll(t[..k], Answered(t))), SanitizeOne(t[k], Answered(t));
    if ScanAll(w).Broken? {
      BrokenStays(w, Lower(m));
    } else if Lower(m) == [] {
      assert w + [] == w;
      RetainKeeps(t[k].items, Answered(t));
      assert CollectCalls(m.items) == [];
      NoCallsNoResults(t, k);
    } else {
      ScanNext(w, Lower(m)[0]);
      assert Lower(m) == [Lower(m)[0]];
    }
  }

  /** A tool message follows only calls that survive. */
  lemma {:induction false} NoCallsNoResults(t: seq<Message>, k: nat)
    requires InOrder(t) && k < |t| && t[k].role == Assistant
    ensures k + 1 < |t| && t[k + 1].role == Tool ==> Kept(CallIds(t[k].items), Answered(t)) != []
  {
    hide CallIds, ResultIds, Answered, Kept;
    if k + 1 < |t| && t[k + 1].role == Tool {
      KeptSplits(t, k + 1);
      assert InOrderAt(t, k + 1) && t[..k + 1][k] == t[k];
    }
  }

  lemma {:induction false} BrokenStays(w: seq<Entry>, more: seq<Entry>)
    requires ScanAll(w).Broken?
    ensures ScanAll(w + more).Broken?
  {
    if more == [] {
      assert w + more == w;
    } else {
      var n := |more| - 1;
      BrokenStays(w, more[..n]);
      assert w + more == w + more[..n] + [more[n]];
      ScanNext(w + more[..n], more[n]);
    }
  }

  ghost predicate SettledBelow(t: seq<Message>, n: nat)
    requires n <= |t|
  {
    forall k :: 0 <= k < n ==> Settled(t, k)
  }

  lemma {:induction false} ScanFollows(t: seq<Message>, n: nat)
    requires InOrder(t) && n <= |t|
    ensures if SettledBelow(t, n) then ScanOf(t, n) == Awaiting(Kept(OpenCalls(t[..n]), Answered(t))) else Lost(t, n)
  {
    hide Settled, Lost, ScanOf, OpenCalls, Answered, Kept;
    if n == 0 {
      StartOfScan(t);
    } else {
      var k := n - 1;
      ScanFollows(t, k);
      if !SettledBelow(t, k) {
        LostStep(t, k);
      } else if Settled(t, k) {
        SettledStep(t, k);
      } else {
        UnsettledStep(t, k);
        if Lost(t, k) {
          LostStep(t, k);
        }
      }
    }
  }

  lemma {:induction false} StartOfScan(t: seq<Message>)
    ensures ScanOf(t, 0) == Awaiting(Kept(OpenCalls(t[..0]), Answered(t)))
  {
    assert SanitizeAll(t[..0], Answered(t)) == [];
  }

  // ---------------------------------------------------------------- the exact condition

  lemma {:induction false} KeptNothing(ids: seq<string>, answered: set<string>)
    ensures Kept(ids, answered) == [] <==> forall k :: 0 <= k < |ids| ==> ids[k] !in answered
  {
    if ids != [] {
      KeptNothing(ids[..|ids| - 1], answered);
    }
  }

  lemma {:induction false} SettledMeans(t: seq<Message>, n: nat)
    requires InOrder(t) && n <= |t|
    ensures Settled(t, n) <==> (n > 0 && t[n - 1].role == Assistant ==> UnansweredStayUnanswered(t, n - 1))
  {
    hide CallIds, ResultIds, Answered, Kept;
    var open := OpenCalls(t[..n]);
    if n < |t| && t[n].role == Tool {
      KeptSplits(t, n);
      var results := ResultIds(t[n].items);
      KeptNothing(open[|results|..], Answered(t));
      assert results + [] == results;
      if Settled(t, n) {
        assert Kept(open[|results|..], Answered(t)) == [];
      }
      if n > 0 && t[n - 1].role == Assistant && UnansweredStayUnanswered(t, n - 1) {
        forall k | 0 <= k < |open[|results|..]| ensures open[|results|..][k] !in Answered(t) {
          assert open[|results|..][k] == open[|results| + k];
        }
      }
      forall k | |results| <= k < |open| ensures open[k] == open[|results|..][k - |results|] {
      }
    } else {
      KeptNothing(open, Answered(t));
    }
  }

  /** A thread in order, sanitised and lowered, is well paired if and only if no call left
      unanswered (by a cancellation or a navigation) has the id of an answered one. */
  lemma {:induction false} PairedIffNoUnansweredIdAnswered(t: seq<Message>)
    requires InOrder(t)
    ensures WellPaired(ToWire(Sanitized(t))) <==> NoUnansweredIdAnswered(t)
  {
    hide InOrder, Settled, Answered, Kept, OpenCalls, ScanAll, WellPaired, UnansweredStayUnanswered;
    assert t[..|t|] == t;
    ScanFollows(t, |t|);
    ScanDecidesPairing(ToWire(Sanitized(t)));
    forall n | 0 <= n <= |t|
      ensures Settled(t, n) <==> (n > 0 && t[n - 1].role == Assistant ==> UnansweredStayUnanswered(t, n - 1))
    {
      SettledMeans(t, n);
    }
    EndSettled(t);
    if NoUnansweredIdAnswered(t) {
      assert SettledBelow(t, |t|) && Settled(t, |t|);
    }
    if SettledBelow(t, |t|) && Settled(t, |t|) {
      forall i | 0 <= i < |t| && t[i].role == Assistant ensures UnansweredStayUnanswered(t, i) {
        assert Settled(t, i + 1);
      }
    }
  }

  lemma {:induction false} EndSettled(t: seq<Message>)
    ensures Settled(t, |t|) <==> Kept(OpenCalls(t[..|t|]), Answered(t)) == []
  {
  }

  // ---------------------------------------------------------------- a concrete failure

  const CALL := ToolCall("a", "bash", Args("", None))
  const RESULT := ToolResult("a", "", false)

  /** A call is cancelled, the user goes on, and the provider uses its id again. */
  const REUSED := [TextMessage(0, User, ""), Message(1, Assistant, [CALL]), TextMessage(2, User, ""),
                   Message(3, Assistant, [CALL]), Message(4, Tool, [RESULT])]

  lemma {:induction false} ReusedIdsRead()
    ensures CallIds([CALL]) == ["a"] && ResultIds([CALL]) == []
    ensures ResultIds([RESULT]) == ["a"] && ResultIds([Text("")]) == []
  {
    assert [CALL][..0] == [] && [RESULT][..0] == [] && [Text("")][..0] == [];
  }

  lemma {:induction false} ReusedIdBreaksPairing()
    ensures InOrder(REUSED) && !WellPaired(ToWire(Sanitized(REUSED)))
  {
    hide CallIds, ResultIds, WellPaired, ToWire, Sanitized, Answered;
    ReusedIdsRead();
    assert REUSED[..4][3] == REUSED[3];
    ResultsAreAnswered(REUSED, 4);
    assert "a" in ResultIds(REUSED[4].items);
    assert NextResults(REUSED, 1) == [] && CallIds(REUSED[1].items)[0] == "a";
    assert !UnansweredStayUnanswered(REUSED, 1);
    PairedIffNoUnansweredIdAnswered(REUSED);
  }
}
