/** What a request stands on: the part of the active thread that decides whether it is well paired,
    whatever compaction, summary, prompt and trace note make of it.
 */
module RequestBasis {
  import opened Wrappers
  import opened Messages
  import opened SessionTree
  import opened Wire
  import opened Discipline
  import opened ReusedIds
  import opened Compaction
  import opened CompactionKeepsPairing
  import opened Agent
  import opened RequestPairing

  // ---------------------------------------------------------------- a tally of calls and results

  /** Reading messages from the left: the calls just made, the calls left unanswered before that,
      and the ids answered. */
  datatype Tally = Tally(ok: bool, open: seq<string>, left: set<string>, answered: set<string>)

  const NOTHING := Tally(true, [], {}, {})

  ghost function Count(s: Tally, m: Message): Tally {
    var calls, results := CallIds(m.items), ResultIds(m.items);
    var answered := s.answered + Elements(results);
    match m.role
    case Tool =>
      var ok := results != [] && results <= s.open;
      Tally(s.ok && ok, [], s.left + Elements(if ok then s.open[|results|..] else s.open), answered)
    case Assistant => Tally(s.ok && results == [], calls, s.left + Elements(s.open), answered)
    case _ => Tally(s.ok && results == [], [], s.left + Elements(s.open), answered)
  }

  ghost function CountAll(s: Tally, t: seq<Message>): Tally {
    if t == [] then s else Count(CountAll(s, t[..|t| - 1]), t[|t| - 1])
  }

  lemma {:induction false} CountJoin(s: Tally, a: seq<Message>, b: seq<Message>)
    ensures CountAll(s, a + b) == CountAll(CountAll(s, a), b)
  {
    hide Count;
    if b == [] {
      assert a + b == a;
    } else {
      var n := |b| - 1;
      CountJoin(s, a, b[..n]);
      assert (a + b)[..|a + b| - 1] == a + b[..n];
    }
  }

  lemma {:induction false} CountOne(s: Tally, m: Message)
    ensures CountAll(s, [m]) == Count(s, m) && CountAll(s, []) == s
  {
    hide Count;
    assert [m][..0] == [];
  }

  lemma {:induction false} NothingCounted(s: Tally)
    ensures CountAll(s, []) == s
  {
  }

  ghost predicate Clean(s: Tally) {
    forall c :: c in s.answered ==> c !in s.left && c !in s.open
  }

  // ---------------------------------------------------------------- what the tally means

  /** `c` is a call of message `i` that the next message leaves unanswered. */
  ghost predicate LeftAt(t: seq<Message>, i: nat, c: string)
    requires i < |t|
  {
    t[i].role == Assistant && exists k :: |NextResults(t, i)| <= k < |CallIds(t[i].items)| &&
                                             CallIds(t[i].items)[k] == c
  }

  /** `c` went unanswered at some message before the last. */
  ghost predicate LeftBefore(t: seq<Message>, c: string) {
    exists i :: 0 <= i < |t| - 1 && LeftAt(t, i, c)
  }

  lemma {:induction false} TallyMeans(t: seq<Message>)
    requires InOrder(t)
    ensures var s := CountAll(NOTHING, t);
      && s.ok && s.open == OpenCalls(t) && s.answered == Answered(t)
      && forall c :: c in s.left <==> LeftBefore(t, c)
  {
    hide CallIds, ResultIds, LeftAt, InOrder;
    if t != [] {
      var n := |t| - 1;
      var s := CountAll(NOTHING, t[..n]);
      InOrderNext(t);
      TallyMeans(t[..n]);
      forall c ensures c in CountAll(NOTHING, t).left <==> LeftBefore(t, c) {
        LeftGrows(t, c);
      }
    }
  }

  lemma {:induction false} LeftGrows(t: seq<Message>, c: string)
    requires t != []
    ensures var n := |t| - 1;
      LeftBefore(t, c) <==>
      LeftBefore(t[..n], c) ||
      c in if t[n].role == Tool && |ResultIds(t[n].items)| <= |OpenCalls(t[..n])|
           then OpenCalls(t[..n])[|ResultIds(t[n].items)|..]
           else if t[n].role == Tool then [] else OpenCalls(t[..n])
  {
    hide CallIds, ResultIds;
    var n := |t| - 1;
    forall i | 0 <= i < n - 1 ensures LeftAt(t[..n], i, c) == LeftAt(t, i, c) {
      assert NextResults(t[..n], i) == NextResults(t, i);
    }
    if n > 0 && t[n - 1].role == Assistant {
      var calls, results := CallIds(t[n - 1].items), NextResults(t, n - 1);
      assert OpenCalls(t[..n]) == calls;
      if |results| <= |calls| {
        forall k | |results| <= k < |calls| ensures calls[k] == calls[|results|..][k - |results|] {
        }
      }
    }
    assert LeftBefore(t, c) <==> LeftBefore(t[..n], c) || (n > 0 && LeftAt(t, n - 1, c));
  }

  /** The condition on a thread in order, read off its tally. */
  lemma {:induction false} CleanIff(t: seq<Message>)
    requires InOrder(t)
    ensures NoUnansweredIdAnswered(t) <==> Clean(CountAll(NOTHING, t))
  {
    hide CallIds, ResultIds, InOrder, Answered, CountAll;
    TallyMeans(t);
    var s := CountAll(NOTHING, t);
    forall i | 0 <= i < |t| && t[i].role == Assistant
      ensures UnansweredStayUnanswered(t, i) <==> forall c :: LeftAt(t, i, c) ==> c !in Answered(t)
    {
      forall k | |NextResults(t, i)| <= k < |CallIds(t[i].items)| ensures LeftAt(t, i, CallIds(t[i].items)[k]) {
      }
    }
    LastLeft(t);
    if Clean(s) {
      forall i, c | 0 <= i < |t| && LeftAt(t, i, c) ensures c !in Answered(t) {
        if i < |t| - 1 {
          assert LeftBefore(t, c);
        }
      }
    }
  }

  lemma {:induction false} LastLeft(t: seq<Message>)
    ensures t != [] ==> forall c :: LeftAt(t, |t| - 1, c) <==> c in OpenCalls(t)
    ensures t == [] ==> OpenCalls(t) == []
  {
  }

  // ---------------------------------------------------------------- what compaction does to the tally

  /** `b` stands where `a` does, except that the calls open in `a` may all have been left in it. */
  ghost predicate Same(a: Tally, b: Tally) {
    && b.ok && a.answered == b.answered
    && (forall c :: c in a.left || c in a.open <==> c in b.left || c in b.open)
    && (a.open == [] || (a.open == b.open && a.left == b.left))
  }

  lemma {:induction false} SameClean(a: Tally, b: Tally)
    requires Same(a, b)
    ensures Clean(a) <==> Clean(b)
  {
  }

  /** The same calls and results in a message of the same role. */
  lemma {:induction false} CountsAlike(a: Tally, b: Tally, m: Message, m': Message)
    requires Same(a, b) && Count(a, m).ok && m.role == m'.role
    requires CallIds(m.items) == CallIds(m'.items) && ResultIds(m.items) == ResultIds(m'.items)
    ensures Same(Count(a, m), Count(b, m'))
  {
    hide CallIds, ResultIds;
  }

  /** A message without calls and results may be missing. */
  lemma {:induction false} CountsNothing(a: Tally, b: Tally, m: Message)
    requires Same(a, b) && Count(a, m).ok && CallIds(m.items) == [] && ResultIds(m.items) == []
    ensures Same(Count(a, m), b)
  {
    hide CallIds, ResultIds;
  }

  /** A text may be put in where no call is open. */
  lemma {:induction false} TextCountsNothing(a: Tally, b: Tally, text: string)
    requires Same(a, b) && a.open == []
    ensures Same(a, Count(b, TextMessage(MAX_ID, System, text)))
  {
    TextHasNoIds(text);
  }

  lemma {:induction false} TextHasNoIds(text: string)
    ensures CallIds([Text(text)]) == [] && ResultIds([Text(text)]) == []
  {
    assert [Text(text)][..0] == [];
  }

  lemma {:induction false} ShapedOneSame(a: Tally, b: Tally, t: seq<Message>, compact: bool, i: nat)
    requires i < |t| && Same(a, b) && Count(a, t[i]).ok
    ensures Same(Count(a, t[i]), CountAll(b, ShapedOne(t, compact, i)))
  {
    hide CallIds, ResultIds, Count, Same, Shrink, FirstUser, CountAll;
    var one := ShapedOne(t, compact, i);
    ShrinkKeepsIds(t[i].items);
    if one == [] {
      EmptyHasNoIds();
      CountsNothing(a, b, t[i]);
      CountOne(b, t[i]);
    } else {
      assert one == [one[0]];
      CountOne(b, one[0]);
      CountsAlike(a, b, t[i], one[0]);
    }
  }

  lemma {:induction false} EmptyHasNoIds()
    ensures CallIds([]) == [] && ResultIds([]) == []
  {
  }

  /** A stretch of the thread and what tier 1 makes of it. */
  lemma {:induction false} ShapedSame(a: Tally, b: Tally, t: seq<Message>, compact: bool, from: nat, n: nat)
    requires from <= n <= |t| && Same(a, b) && CountAll(a, t[from..n]).ok
    ensures Same(CountAll(a, t[from..n]), CountAll(b, ShapedFrom(t, compact, from, n)))
    decreases n
  {
    hide Count, Same, ShapedOne, CountAll;
    if from == n {
      assert t[from..n] == [];
      NothingCounted(a);
      NothingCounted(b);
    } else {
      var m := t[n - 1];
      assert t[from..n] == t[from..n - 1] + [m];
      CountJoin(a, t[from..n - 1], [m]);
      CountOne(CountAll(a, t[from..n - 1]), m);
      OkBefore(CountAll(a, t[from..n - 1]), m);
      ShapedSame(a, b, t, compact, from, n - 1);
      var rest := ShapedFrom(t, compact, from, n - 1);
      CountJoin(b, rest, ShapedOne(t, compact, n - 1));
      ShapedOneSame(CountAll(a, t[from..n - 1]), CountAll(b, rest), t, compact, n - 1);
    }
  }

  lemma {:induction false} OkBefore(s: Tally, m: Message)
    requires Count(s, m).ok
    ensures s.ok
  {
  }

  lemma {:induction false} ShapedIsFrom(t: seq<Message>, compact: bool, n: nat)
    requires n <= |t|
    ensures Shaped(t, compact, n) == ShapedFrom(t, compact, 0, n)
  {
    hide ShapedOne;
    if n > 0 {
      ShapedIsFrom(t, compact, n - 1);
      ShapedNext(t, compact, n - 1);
    }
  }

  // ---------------------------------------------------------------- the basis of a request

  /** The whole thread; without the span that a summary stands for. */
  function Basis(t: seq<Message>, cache: Option<Tier2Summary>, it: Iteration): seq<Message> {
    if Summarises(t, cache, it) then t[..SummarySpan(t).value.0] + t[SummarySpan(t).value.1..] else t
  }

  lemma {:induction false} BasisInOrder(t: seq<Message>, start: nat, end: nat)
    requires InOrder(t) && SummarySpan(t) == Some((start, end))
    ensures InOrder(t[..start] + t[end..])
    ensures start > 0 && t[start - 1].role == User
  {
    hide ResultIds, CallIds;
    var b := t[..start] + t[end..];
    forall i | 0 <= i < |b| ensures InOrderAt(b, i) {
      if i < start {
        assert InOrderAt(t, i) && b[..i] == t[..i];
      } else {
        var j := i + (end - start);
        assert InOrderAt(t, j) && b[i] == t[j];
        if i > start {
          assert b[..i][i - 1] == b[i - 1] == t[j - 1] == t[..j][j - 1];
        }
      }
    }
  }

  /** The thread tier 1 leaves. */
  lemma {:induction false} WorkingSetSame(t: seq<Message>, compact: bool)
    requires InOrder(t)
    ensures Same(CountAll(NOTHING, t), CountAll(NOTHING, WorkingSet(t, compact)))
  {
    hide Count, InOrder, Answered, OpenCalls;
    TallyMeans(t);
    assert t[..|t|] == t && t[0..|t|] == t;
    ShapedIsFrom(t, compact, |t|);
    ShapedSame(NOTHING, NOTHING, t, compact, 0, |t|);
  }

  /** The thread without the span, and what both tiers leave. */
  lemma {:induction false} Tier2Same(t: seq<Message>, compact: bool, summary: string)
    requires InOrder(t) && AscendingIds(t) && SummarySpan(t).Some?
    ensures var (start, end) := SummarySpan(t).value;
      Same(CountAll(NOTHING, t[..start] + t[end..]),
           CountAll(NOTHING, ApplyTier2(WorkingSet(t, compact), t[start - 1].id, t[end - 1].id, summary)))
  {
    hide Count, InOrder, Answered, OpenCalls, AscendingIds, AllEvaporate, ApplyTier2, CountAll, Same, Shaped,
      SummarySpan, ShapedFrom, WorkingSet;
    var (start, end) := SummarySpan(t).value;
    SummaryIsLostIff(t, compact, summary);
    BasisInOrder(t, start, end);
    var head, tail := t[..start], t[end..];
    HeadSame(t, compact, start, end);
    var a := CountAll(NOTHING, head);
    var gap := if compact && AllEvaporate(t, start, end) then [] else [SummaryMessage(summary)];
    var front := Shaped(t, compact, start) + gap;
    GapSame(a, Shaped(t, compact, start), gap, SUMMARY_PREFIX + summary);
    CountJoin(NOTHING, head, tail);
    CountJoin(NOTHING, front, ShapedFrom(t, compact, end, |t|));
    assert t[end..|t|] == tail;
    ShapedSame(a, CountAll(NOTHING, front), t, compact, end, |t|);
  }

  lemma {:induction false} GapSame(a: Tally, head: seq<Message>, gap: seq<Message>, text: string)
    requires Same(a, CountAll(NOTHING, head)) && a.open == []
    requires gap == [] || gap == [TextMessage(MAX_ID, System, text)]
    ensures Same(a, CountAll(NOTHING, head + gap))
  {
    hide Count, Same;
    if gap == [] {
      assert head + gap == head;
    } else {
      CountJoin(NOTHING, head, gap);
      CountOne(CountAll(NOTHING, head), gap[0]);
      TextCountsNothing(a, CountAll(NOTHING, head), text);
    }
  }

  lemma {:induction false} HeadSame(t: seq<Message>, compact: bool, start: nat, end: nat)
    requires 0 < start <= end <= |t| && t[start - 1].role == User && InOrder(t[..start] + t[end..])
    ensures Same(CountAll(NOTHING, t[..start]), CountAll(NOTHING, Shaped(t, compact, start)))
    ensures CountAll(NOTHING, t[..start]).open == []
    ensures CountAll(CountAll(NOTHING, t[..start]), t[end..]).ok
  {
    hide Count, InOrder, Answered, Same, Shaped, ShapedFrom, CountAll, LeftBefore, CallIds;
    var b := t[..start] + t[end..];
    TallyMeans(b);
    CountJoin(NOTHING, t[..start], t[end..]);
    OrderOfPrefix(b, start);
    assert b[..start] == t[..start] == t[0..start];
    TallyMeans(t[..start]);
    ShapedIsFrom(t, compact, start);
    NothingSame();
    ShapedSame(NOTHING, NOTHING, t, compact, 0, start);
  }

  lemma {:induction false} NothingSame()
    ensures Same(NOTHING, NOTHING)
  {
  }

  lemma {:induction false} OrderOfPrefix(t: seq<Message>, n: nat)
    requires InOrder(t) && n <= |t|
    ensures InOrder(t[..n])
  {
    forall i | 0 <= i < n ensures InOrderAt(t[..n], i) {
      assert InOrderAt(t, i) && t[..n][..i] == t[..i];
    }
  }

  lemma {:induction false} ContextSame(t: seq<Message>, cache: Option<Tier2Summary>, it: Iteration)
    requires InOrder(t) && AscendingIds(t)
    ensures Clean(CountAll(NOTHING, Basis(t, cache, it))) <==>
            Clean(CountAll(NOTHING, WithPrompt(it.prompt, Context(t, cache, it).0)))
  {
    hide InOrder, AscendingIds, CountAll, Same, SummarySpan, Summarise, ApplyTier2, WorkingSet, Observe, Clean,
      WithPrompt;
    var tier1 := WorkingSet(t, it.compactFull);
    WorkingSetSame(t, it.compactFull);
    SameClean(CountAll(NOTHING, t), CountAll(NOTHING, tier1));
    ObserveKeepsClean(tier1, it.observation);
    if Summarises(t, cache, it) {
      var (start, end) := SummarySpan(t).value;
      var text := Summarise(cache, t, start, end, it.summary).value.text + it.files;
      var tier2 := ApplyTier2(tier1, t[start - 1].id, t[end - 1].id, text);
      Tier2Same(t, it.compactFull, text);
      SameClean(CountAll(NOTHING, t[..start] + t[end..]), CountAll(NOTHING, tier2));
      ObserveKeepsClean(tier2, it.observation);
    }
    PromptKeepsTally(Context(t, cache, it).0, it.prompt);
  }

  lemma {:induction false} ObserveKeepsClean(t: seq<Message>, observation: string)
    ensures Clean(CountAll(NOTHING, Observe(t, observation))) <==> Clean(CountAll(NOTHING, t))
  {
    hide CountAll;
    var m := TextMessage(MAX_ID, System, "## Previous Turn Trace\n" + observation);
    CountJoin(NOTHING, t, [m]);
    CountOne(CountAll(NOTHING, t), m);
    TextHasNoIds("## Previous Turn Trace\n" + observation);
  }

  lemma {:induction false} PromptKeepsTally(t: seq<Message>, prompt: string)
    ensures CountAll(NOTHING, WithPrompt(prompt, t)) == CountAll(NOTHING, t)
  {
    hide CountAll;
    var m := TextMessage(MAX_ID, System, prompt);
    CountJoin(NOTHING, [m], t);
    CountOne(NOTHING, m);
    TextHasNoIds(prompt);
    assert Elements([]) == {};
    assert Count(NOTHING, m) == NOTHING;
  }

  // ---------------------------------------------------------------- main results

  /** One request, in any sound state: it is well paired if and only if, on the part of the thread
      it stands on, no call left unanswered has the id of an answered one. */
  lemma {:induction false} RequestIsPairedIff(s: State, it: Iteration, tokens: nat)
    requires Sound(false, s)
    ensures var d := Drained(s, it);
      var basis := Basis(Thread(d.tree), d.cache, it);
      InOrder(basis) && (WellPaired(RequestOf(s, it, tokens).wire) <==> NoUnansweredIdAnswered(basis))
  {
    hide InOrder, Thread, Context, Basis, WithPrompt, WellPaired, Sanitized, ToWire, AddTexts, CountAll, Clean, ReadAll,
      NoUnansweredIdAnswered, LogPrepared, TreeSound;
    var d := Drained(s, it);
    var t, m := Thread(d.tree), RequestOf(s, it, tokens).messages;
    DrainKeepsSound(s, it);
    RequestPaired(false, s, it, tokens);
    ThreadReady(d.tree, d.nextId);
    BasisReady(t, d.cache, it);
    OrderedIsInOrder(m);
    PairedIffNoUnansweredIdAnswered(m);
    CleanIff(m);
    CleanIff(Basis(t, d.cache, it));
    ContextSame(t, d.cache, it);
  }

  lemma {:induction false} ThreadReady(t: Tree, nextId: nat)
    requires TreeSound(false, t, nextId)
    ensures InOrder(Thread(t)) && AscendingIds(Thread(t))
  {
    hide InOrder, ReadAll, Thread;
    ThreadDisciplined(false, t, nextId);
    ThreadIdsAscend(t, nextId);
    OrderedIsInOrder(Thread(t));
  }

  lemma {:induction false} BasisReady(t: seq<Message>, cache: Option<Tier2Summary>, it: Iteration)
    requires InOrder(t)
    ensures InOrder(Basis(t, cache, it))
  {
    hide InOrder, SummarySpan, Summarise;
    if Summarises(t, cache, it) {
      BasisInOrder(t, SummarySpan(t).value.0, SummarySpan(t).value.1);
    }
  }

  lemma {:induction false} DrainKeepsSound(s: State, it: Iteration)
    requires Sound(false, s)
    ensures Sound(false, Drained(s, it))
  {
    hide Sound, ReadAll, Thread, AddTexts;
    AddTextsKeepsSound(false, s, User, it.steering);
    AddTextsKeepsSound(false, AddTexts(s, User, it.steering), System, it.notices);
    AddTextsKeepsSound(false, AddTexts(AddTexts(s, User, it.steering), System, it.notices), User, it.parentMessages);
  }

  /** Every round of every run finds a sound state. */
  lemma {:induction false} RoundIsSound(cfg: Config, cs: seq<Command>, i: nat, n: nat)
    requires AdmissibleRun(false, cfg, cs) && AsksAt(cfg, cs, i, n)
    ensures Sound(false, TurnBefore(cfg, cs, i, n).state)
  {
    hide Sound, ReadAll, Thread, TurnAfter, ScriptOk, ExecuteAll;
    forall j | 0 <= j < i ensures Admissible(false, ExecuteAll(cfg, INITIAL, cs[..i][..j]), cs[..i][j]) {
      assert cs[..i][..j] == cs[..j];
    }
    RunKeepsSound(false, cfg, cs[..i]);
    var s := ExecuteAll(cfg, INITIAL, cs[..i]);
    assert Admissible(false, s, cs[i]);
    AddTextKeepsSound(false, s, User, cs[i].text);
    TurnKeepsSound(false, cfg, StartTurn(cfg, s, cs[i].text), ReadAll(false, Thread(s.tree)).used, cs[i].script, n);
  }

  /** The same for every request of every run, call ids repeating or not. */
  lemma {:induction false} RequestOfRunIsPairedIff(cfg: Config, cs: seq<Command>, i: nat, n: nat)
    requires AdmissibleRun(false, cfg, cs) && AsksAt(cfg, cs, i, n)
    ensures var t, it := TurnBefore(cfg, cs, i, n), cs[i].script[n];
      var d := Drained(t.state, it);
      WellPaired(RequestOf(t.state, it, t.tokens).wire) <==>
      NoUnansweredIdAnswered(Basis(Thread(d.tree), d.cache, it))
  {
    hide Sound, RequestOf, Basis, Thread, WellPaired, NoUnansweredIdAnswered, TurnBefore;
    RoundIsSound(cfg, cs, i, n);
    var t := TurnBefore(cfg, cs, i, n);
    RequestIsPairedIff(t.state, cs[i].script[n], t.tokens);
  }
}
