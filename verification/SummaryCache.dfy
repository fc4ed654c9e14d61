/** The tier-2 cache (`AgentLoop::context_working_set` in `src/agent.rs`): an incremental summary
    must have seen exactly the messages that summarising from scratch would see.
 */
module SummaryCache {
  import opened Wrappers
  import opened Messages
  import opened SessionTree
  import opened Wire
  import opened Compaction
  import opened CompactionKeepsPairing
  import opened Agent
  import opened ScriptedRuns

  // ---------------------------------------------------------------- agreement

  /** The cache covers the thread from behind the anchor up to position `k`: those messages have
      been fed to the summariser, each once and in order, and the file sets are theirs. */
  ghost predicate CoversUpto(t: seq<Message>, c: Tier2Summary, k: int) {
    && FirstUser(t).Some? && FirstUser(t).value < k < |t|
    && t[k].id == c.coveredLastId
    && c.fed == t[FirstUser(t).value + 1..k + 1]
    && c.files == CollectFiles(NO_FILES, c.fed)
  }

  ghost predicate Agrees(t: seq<Message>, cache: Option<Tier2Summary>) {
    cache.None? || exists k :: CoversUpto(t, cache.value, k)
  }

  /** A summary made now is the summary of the whole span. */
  lemma {:induction false} SummaryIsWhole(cache: Option<Tier2Summary>, t: seq<Message>, summary: Option<string>)
    requires AscendingIds(t) && Agrees(t, cache) && SummarySpan(t).Some?
    ensures var (start, end) := SummarySpan(t).value;
      var r := Summarise(cache, t, start, end, summary);
      r.Some? ==>
        && r.value.coveredLastId == t[end - 1].id
        && r.value.fed == t[start..end]
        && r.value.files == CollectFiles(NO_FILES, t[start..end])
        && Agrees(t, r)
  {
    hide CollectFiles;
    var (start, end) := SummarySpan(t).value;
    var r := Summarise(cache, t, start, end, summary);
    if r.Some? {
      if cache.Some? && cache.value.coveredLastId <= t[end - 1].id {
        var k :| CoversUpto(t, cache.value, k);
        if cache.value.coveredLastId < t[end - 1].id {
          IncrementStartsAfter(t, start, end, k);
          assert t[start..k + 1] + t[k + 1..end] == t[start..end];
          CollectInPieces(NO_FILES, t[start..k + 1], t[k + 1..end]);
        }
      }
      assert CoversUpto(t, r.value, end - 1);
    }
  }

  /** The increment starts right behind the covered message. */
  lemma {:induction false} IncrementStartsAfter(t: seq<Message>, start: nat, end: nat, k: nat)
    requires AscendingIds(t) && start <= k && k + 1 < end <= |t|
    ensures IncrementStart(t, start, end, t[k].id) == k + 1
  {
    var r := FirstAbove(t, start, end, t[k].id);
    assert t[k + 1].id > t[k].id;
    assert r.Some?;
  }

  lemma {:induction false} FirstUserStays(t: seq<Message>, more: seq<Message>)
    requires FirstUser(t).Some?
    ensures FirstUser(t + more) == FirstUser(t)
  {
    var a, r := FirstUser(t).value, FirstUser(t + more);
    assert (t + more)[a] == t[a];
    assert r.Some?;
    assert forall i :: 0 <= i < a ==> (t + more)[i] == t[i];
  }

  lemma {:induction false} PrefixAgrees(a: seq<Message>, b: seq<Message>, c: Tier2Summary, k: nat)
    requires CoversUpto(a, c, k) && k < |b| && a[..k + 1] == b[..k + 1]
    ensures CoversUpto(b, c, k)
  {
    hide CollectFiles, FirstUser;
    FirstUserOfPrefix(a, k + 1);
    FirstUserStays(a[..k + 1], a[k + 1..]);
    FirstUserStays(b[..k + 1], b[k + 1..]);
    assert a == a[..k + 1] + a[k + 1..] && b == b[..k + 1] + b[k + 1..];
    var f := FirstUser(a).value;
    assert a[f + 1..k + 1] == a[..k + 1][f + 1..] == b[f + 1..k + 1];
    assert a[k] == a[..k + 1][k] == b[k];
  }

  lemma {:induction false} FirstUserOfPrefix(a: seq<Message>, n: nat)
    requires n <= |a| && FirstUser(a).Some? && FirstUser(a).value < n
    ensures FirstUser(a[..n]).Some?
  {
    assert a[..n][FirstUser(a).value].role == User;
  }

  // ---------------------------------------------------------------- the cache on its own path

  /** The cache summarises the path to its covered message, wherever the leaf has moved since. */
  ghost predicate CacheRight(s: State) {
    && SessionOk(s.tree, s.nextId)
    && (s.cache.Some? ==> RightOnPath(s.tree.entries, s.cache.value))
  }

  ghost predicate RightOnPath(entries: seq<SessionEntry>, c: Tier2Summary) {
    var p := Path(entries, Some(c.coveredLastId));
    HasId(entries, c.coveredLastId) && CoversUpto(p, c, |p| - 1)
  }

  /** The message with that id is on the thread. */
  ghost predicate OnThread(t: seq<Message>, id: nat) {
    exists k :: 0 <= k < |t| && t[k].id == id
  }

  /** A cache that is right on its own path agrees with a thread exactly when its covered message is
      on the thread. */
  lemma {:induction false} AgreesIff(entries: seq<SessionEntry>, id: nat, c: Tier2Summary)
    requires TreeOk(entries) && HasId(entries, id) && RightOnPath(entries, c)
    ensures Agrees(Path(entries, Some(id)), Some(c)) <==> OnThread(Path(entries, Some(id)), c.coveredLastId)
  {
    hide TreeOk, Path, CollectFiles, FirstUser;
    var t, p := Path(entries, Some(id)), Path(entries, Some(c.coveredLastId));
    if OnThread(t, c.coveredLastId) {
      var k :| 0 <= k < |t| && t[k].id == c.coveredLastId;
      PathPrefix(entries, id, k);
      assert p == t[..k + 1];
      assert p[..k + 1] == p;
      PrefixAgrees(p, t, c, k);
    }
    if Agrees(t, Some(c)) {
      var k :| CoversUpto(t, c, k);
      assert 0 <= k < |t| && t[k].id == c.coveredLastId;
    }
  }

  // ---------------------------------------------------------------- one summary

  /** What decides whether a summary made now will be whole: there is no cache; or what it covers is
      on the thread; or it covers more than the span, so that the summary starts over. */
  ghost predicate Fits(cache: Option<Tier2Summary>, t: seq<Message>, end: nat)
    requires 0 < end <= |t|
  {
    cache.Some? ==> OnThread(t, cache.value.coveredLastId) || cache.value.coveredLastId > t[end - 1].id
  }

  /** A summary is made of the whole span, each message once and in order, if and only if the cache
      fits; and then the cache is right again. */
  lemma {:induction false} SummaryIsWholeIff(s: State, start: nat, end: nat, summary: Option<string>)
    requires CacheRight(s) && SummarySpan(Thread(s.tree)) == Some((start, end))
    ensures var t := Thread(s.tree);
      var r := Summarise(s.cache, t, start, end, summary);
      && (r.Some? ==> (r.value.fed == t[start..end] <==> Fits(s.cache, t, end)))
      && (r.Some? && Fits(s.cache, t, end) ==>
            r.value.files == CollectFiles(NO_FILES, t[start..end]) && CacheRight(s.(cache := r)))
  {
    hide TreeOk, Path, CollectFiles, FirstUser, LastUser, RightOnPath, Fits, Thread;
    var t := Thread(s.tree);
    LeafKnown(s.tree, s.nextId);
    ThreadAscends(s.tree, s.nextId);
    var r := Summarise(s.cache, t, start, end, summary);
    if r.Some? {
      if s.cache.Some? && !OnThread(t, s.cache.value.coveredLastId) {
        StrangerIsFed(s, start, end, summary);
      } else {
        if s.cache.Some? {
          AgreesIff(s.tree.entries, s.tree.leaf.value, s.cache.value);
        }
        FitsOnThread(s.cache, t, end);
        SummaryIsWhole(s.cache, t, summary);
        SpanIsRight(s, start, end, r.value);
      }
    }
  }

  lemma {:induction false} LeafKnown(t: Tree, nextId: nat)
    requires SessionOk(t, nextId) && Thread(t) != []
    ensures t.leaf.Some? && HasId(t.entries, t.leaf.value) && Thread(t) == Path(t.entries, Some(t.leaf.value))
  {
  }

  lemma {:induction false} FitsOnThread(cache: Option<Tier2Summary>, t: seq<Message>, end: nat)
    requires 0 < end <= |t| && (cache.Some? ==> OnThread(t, cache.value.coveredLastId))
    ensures Fits(cache, t, end)
  {
  }

  /** The covered message is not on the thread: either it is fed all the same, or the cache covers
      more than the span and is given up. */
  lemma {:induction false} StrangerIsFed(s: State, start: nat, end: nat, summary: Option<string>)
    requires CacheRight(s) && SummarySpan(Thread(s.tree)) == Some((start, end)) && s.cache.Some?
    requires !OnThread(Thread(s.tree), s.cache.value.coveredLastId)
    ensures var t := Thread(s.tree);
      var r := Summarise(s.cache, t, start, end, summary);
      && (r.Some? ==> (r.value.fed == t[start..end] <==> Fits(s.cache, t, end)))
      && (r.Some? && Fits(s.cache, t, end) ==>
            r.value.files == CollectFiles(NO_FILES, t[start..end]) && CacheRight(s.(cache := r)))
  {
    hide TreeOk, Path, CollectFiles, FirstUser, LastUser, Thread, SessionOk;
    var t, c := Thread(s.tree), s.cache.value;
    var r := Summarise(s.cache, t, start, end, summary);
    assert t[end - 1].id != c.coveredLastId;
    if r.Some? {
      if c.coveredLastId < t[end - 1].id {
        LastFed(Path(s.tree.entries, Some(c.coveredLastId)), c);
        assert r.value.fed[|c.fed| - 1].id == c.coveredLastId;
        assert forall k :: 0 <= k < end - start ==> t[start..end][k].id != c.coveredLastId;
      } else {
        SpanIsRight(s, start, end, r.value);
      }
    }
  }

  lemma {:induction false} LastFed(p: seq<Message>, c: Tier2Summary)
    requires CoversUpto(p, c, |p| - 1)
    ensures c.fed != [] && c.fed[|c.fed| - 1].id == c.coveredLastId
  {
    hide CollectFiles, FirstUser;
  }

  /** A summary of the whole span is right on the path to the end of the span. */
  lemma {:induction false} SpanIsRight(s: State, start: nat, end: nat, c: Tier2Summary)
    requires SessionOk(s.tree, s.nextId) && SummarySpan(Thread(s.tree)) == Some((start, end))
    requires var t := Thread(s.tree);
      c.coveredLastId == t[end - 1].id && c.fed == t[start..end] && c.files == CollectFiles(NO_FILES, t[start..end])
    ensures CacheRight(s.(cache := Some(c)))
  {
    hide TreeOk, Path, CollectFiles, Thread, FirstUser, LastUser;
    var t := Thread(s.tree);
    LeafKnown(s.tree, s.nextId);
    PathPrefix(s.tree.entries, s.tree.leaf.value, end - 1);
    var p := t[..end];
    FirstUserOfPrefix(t, end);
    FirstUserStays(p, t[end..]);
    assert p + t[end..] == t;
    assert p[start..end] == t[start..end];
    assert CoversUpto(p, c, end - 1);
  }

  // ---------------------------------------------------------------- the turn machine

  lemma {:induction false} AddKeepsRight(s: State, role: Role, items: seq<Item>)
    requires CacheRight(s)
    ensures CacheRight(Add(s, role, items)) && Add(s, role, items).cache == s.cache
  {
    hide TreeOk, Path, CoversUpto;
    var m := Message(s.nextId, role, items);
    AppendKeepsOk(s.tree, s.nextId, m);
    if s.cache.Some? {
      var id := s.cache.value.coveredLastId;
      IdBelow(s.tree.entries, id, s.nextId);
      AppendKeepsPath(s.tree, m, id);
      HasIdPush(s.tree.entries, SessionEntry(m, s.tree.leaf), id);
    }
  }

  lemma {:induction false} AddTextsKeepsRight(s: State, role: Role, texts: seq<string>)
    requires CacheRight(s)
    ensures CacheRight(AddTexts(s, role, texts)) && AddTexts(s, role, texts).cache == s.cache
  {
    hide CacheRight, Add;
    if texts != [] {
      AddTextsKeepsRight(s, role, texts[..|texts| - 1]);
      AddKeepsRight(AddTexts(s, role, texts[..|texts| - 1]), role, [Text(texts[|texts| - 1])]);
    }
  }

  /** If the request of a round carries a summary, it was made of exactly the span. */
  ghost predicate WholeAt(s: State, it: Iteration) {
    var d := Drained(s, it);
    var t := Thread(d.tree);
    Summarises(t, d.cache, it) ==>
      var (start, end) := SummarySpan(t).value;
      Summarise(d.cache, t, start, end, it.summary).value.fed == t[start..end]
  }

  /** The condition for it, before the round. */
  ghost predicate FitsAt(s: State, it: Iteration) {
    var d := Drained(s, it);
    var t := Thread(d.tree);
    Summarises(t, d.cache, it) ==> Fits(d.cache, t, SummarySpan(t).value.1)
  }

  lemma {:induction false} DrainKeepsRight(s: State, it: Iteration)
    requires CacheRight(s)
    ensures CacheRight(Drained(s, it))
  {
    hide CacheRight, AddTexts;
    AddTextsKeepsRight(s, User, it.steering);
    AddTextsKeepsRight(AddTexts(s, User, it.steering), System, it.notices);
    AddTextsKeepsRight(AddTexts(AddTexts(s, User, it.steering), System, it.notices), User, it.parentMessages);
  }

  lemma {:induction false} AskIsWholeIff(s: State, it: Iteration, tokens: nat)
    requires CacheRight(s)
    ensures WholeAt(s, it) <==> FitsAt(s, it)
    ensures FitsAt(s, it) ==> CacheRight(Ask(s, it, tokens))
  {
    hide SummarySpan, Summarise, WorkingSet, ApplyTier2, Drained, Thread, Fits, ToWire, Sanitized, SessionOk,
      RightOnPath, CollectFiles, WithPrompt;
    DrainKeepsRight(s, it);
    var d := Drained(s, it);
    var t := Thread(d.tree);
    if Summarises(t, d.cache, it) {
      var (start, end) := SummarySpan(t).value;
      SummaryIsWholeIff(d, start, end, it.summary);
    }
  }

  lemma {:induction false} NoteKeepsRight(s: State, es: seq<Event>)
    requires CacheRight(s)
    ensures CacheRight(NoteAll(s, es))
  {
  }

  lemma {:induction false} IterationKeepsRight(cfg: Config, t: Turn, it: Iteration)
    requires CacheRight(t.state) && (it.cancelled || FitsAt(t.state, it))
    ensures CacheRight(OneIteration(cfg, t, it).state)
  {
    hide CacheRight, FitsAt, Add, Ask, AddTexts, ToolCallsOf, CallIds, AllExploration, AfterTruncation, AfterText,
      AfterCalls;
    if !it.cancelled {
      AskIsWholeIff(t.state, it, t.tokens);
      if it.reply.Answer? {
        var items := it.reply.items;
        var answered := Add(Ask(t.state, it, t.tokens), Assistant, items);
        AddKeepsRight(Ask(t.state, it, t.tokens), Assistant, items);
        var e := Replied(it.reply.stop, CallIds(items), AllExploration(ToolCallsOf(items)));
        NoteKeepsRight(answered, [e]);
        EndingsKeepRight(cfg, t, Note(answered, e), ToolCallsOf(items), it);
      }
    }
  }

  lemma {:induction false} EndingsKeepRight(cfg: Config, t: Turn, s: State, calls: seq<Item>, it: Iteration)
    requires CacheRight(s) && forall c :: c in calls ==> c.ToolCall?
    ensures CacheRight(AfterTruncation(cfg, t, s, calls).state)
    ensures CacheRight(AfterText(t, s, it).state)
    ensures CacheRight(AfterCalls(cfg, t, s, calls, it).state)
  {
    hide CacheRight, Add, AddTexts, AllExploration, DispatchAll;
    AddKeepsRight(s, Tool, TruncatedResults(calls));
    AddTextsKeepsRight(s, User, it.lateSteering);
    AddTextsKeepsRight(s, System, it.lateNotices);
    AddTextsKeepsRight(s, User, it.lateParentMessages);
    var b := DispatchAll(calls, it.outcomes);
    NoteKeepsRight(s, b.tried);
    AddKeepsRight(NoteAll(s, b.tried), Tool, b.results);
    var ran := NoteAll(s, b.tried);
    var s' := if b.results == [] then ran else Add(ran, Tool, b.results);
    AddKeepsRight(s', User, [Text(NUDGE_TEXT)]);
    NoteKeepsRight(Add(s', User, [Text(NUDGE_TEXT)]), [Nudged]);
  }

  /** The first `n` rounds of a turn that send a request meet the condition. */
  ghost predicate TurnFits(cfg: Config, t: Turn, script: seq<Iteration>, n: nat)
    requires n <= |script|
  {
    forall k :: 0 <= k < n && !TurnAfter(cfg, t, script, k).over && !script[k].cancelled ==>
      FitsAt(TurnAfter(cfg, t, script, k).state, script[k])
  }

  lemma {:induction false} TurnKeepsRight(cfg: Config, t: Turn, script: seq<Iteration>, n: nat)
    requires n <= |script| && CacheRight(t.state) && TurnFits(cfg, t, script, n)
    ensures CacheRight(TurnAfter(cfg, t, script, n).state)
  {
    hide CacheRight, OneIteration, FitsAt;
    if n > 0 {
      TurnKeepsRight(cfg, t, script, n - 1);
      var before := TurnAfter(cfg, t, script, n - 1);
      if !before.over {
        IterationKeepsRight(cfg, before, script[n - 1]);
      }
    }
  }

  // ---------------------------------------------------------------- navigation

  ghost predicate CacheOk(s: State) {
    SessionOk(s.tree, s.nextId) && Agrees(Thread(s.tree), s.cache)
  }

  /** Navigating does not clear the cache, so it agrees with the thread afterwards exactly when the
      covered message is on the new thread. Either way it stays right on its own path. */
  lemma {:induction false} NavigationKeepsCacheIff(cfg: Config, s: State, id: nat)
    requires CacheRight(s)
    ensures var r := Execute(cfg, s, Navigate(id));
      && CacheRight(r) && r.cache == s.cache
      && (CacheOk(r) <==> (s.cache.Some? ==> OnThread(Thread(r.tree), s.cache.value.coveredLastId)))
  {
    hide TreeOk, Path, RightOnPath, Agrees;
    NavigateKeepsOk(s.tree, s.nextId, id);
    var r := Execute(cfg, s, Navigate(id));
    NothingAgrees(Thread(r.tree));
    if s.cache.Some? {
      RightMeansSome(s.tree.entries, s.cache.value);
      AgreesIff(r.tree.entries, r.tree.leaf.value, s.cache.value);
    }
  }

  lemma {:induction false} NothingAgrees(t: seq<Message>)
    ensures Agrees(t, None)
  {
  }

  lemma {:induction false} RightMeansSome(entries: seq<SessionEntry>, c: Tier2Summary)
    requires RightOnPath(entries, c)
    ensures entries != []
  {
  }

  /** Once the covered message is off the thread and below the end of the span, the next summary is
      made from it all the same: a message that is not on the thread goes into the brief. */
  lemma {:induction false} StaleCacheLeaks(s: State, t: seq<Message>, start: nat, end: nat, summary: string)
    requires CacheRight(s) && s.cache.Some? && !OnThread(t, s.cache.value.coveredLastId)
    requires start < end <= |t| && s.cache.value.coveredLastId < t[end - 1].id
    ensures var r := Summarise(s.cache, t, start, end, Some(summary));
      r.Some? && exists m :: m in r.value.fed && m !in t
  {
    hide CollectFiles, Path, CoversUpto, SessionOk, HasId;
    var c := s.cache.value;
    LastFed(Path(s.tree.entries, Some(c.coveredLastId)), c);
    var r := Summarise(s.cache, t, start, end, Some(summary)).value;
    var m := c.fed[|c.fed| - 1];
    assert r.fed[|c.fed| - 1] == m;
    assert m in r.fed && m !in t;
  }

  // ---------------------------------------------------------------- runs

  /** A resumed file holds a valid session. */
  ghost predicate ResumesOk(cs: seq<Command>) {
    forall c :: c in cs && c.Resume? && c.saved.Some? ==>
      SessionOk(c.saved.value, NextMessageId(c.saved.value.entries))
  }

  /** Every request before round `n` of command `i` met the condition. */
  ghost predicate FitsBefore(cfg: Config, cs: seq<Command>, i: nat, n: nat) {
    forall j: nat, m: nat :: AsksAt(cfg, cs, j, m) && (j < i || (j == i && m < n)) ==>
      FitsAt(TurnBefore(cfg, cs, j, m).state, cs[j].script[m])
  }

  lemma {:induction false} CommandKeepsRight(cfg: Config, s: State, c: Command)
    requires CacheRight(s) && ResumesOk([c])
    requires c.ProcessMessage? ==> TurnFits(cfg, StartTurn(cfg, s, c.text), c.script, |c.script|)
    ensures CacheRight(Execute(cfg, s, c))
  {
    match c
    case ProcessMessage(text, script) => {
      hide CacheRight, TurnAfter, Add, FitsAt;
      AddKeepsRight(s, User, [Text(text)]);
      TurnKeepsRight(cfg, StartTurn(cfg, s, text), script, |script|);
      var last := TurnAfter(cfg, StartTurn(cfg, s, text), script, |script|);
      NoteKeepsRight(last.state, [TurnDone(!last.over)]);
    }
    case Navigate(id) => NavigationKeepsCacheIff(cfg, s, id);
    case Clear => EmptyOk();
    case Resume(saved) =>
      hide SessionOk;
      assert c in [c];
  }

  lemma {:induction false} FitsInTurn(cfg: Config, cs: seq<Command>, i: nat, n: nat)
    requires i < |cs| && cs[i].ProcessMessage? && n <= |cs[i].script| && FitsBefore(cfg, cs, i, n)
    ensures TurnFits(cfg, StartTurn(cfg, ExecuteAll(cfg, INITIAL, cs[..i]), cs[i].text), cs[i].script, n)
  {
    hide FitsAt, TurnAfter, StartTurn, ExecuteAll;
    var t := StartTurn(cfg, ExecuteAll(cfg, INITIAL, cs[..i]), cs[i].text);
    forall k | 0 <= k < n && !TurnAfter(cfg, t, cs[i].script, k).over && !cs[i].script[k].cancelled
      ensures FitsAt(TurnAfter(cfg, t, cs[i].script, k).state, cs[i].script[k])
    {
      assert AsksAt(cfg, cs, i, k);
    }
  }

  lemma {:induction false} RunKeepsRight(cfg: Config, cs: seq<Command>, i: nat)
    requires ResumesOk(cs) && i <= |cs| && FitsBefore(cfg, cs, i, 0)
    ensures CacheRight(ExecuteAll(cfg, INITIAL, cs[..i]))
  {
    hide CacheRight, FitsAt, TurnFits, Execute, AsksAt, SessionOk, NextMessageId;
    if i == 0 {
      NothingCached();
    } else {
      var k := i - 1;
      assert cs[..i] == cs[..k] + [cs[k]] && cs[..i][..k] == cs[..k];
      assert cs[k] in cs;
      RunKeepsRight(cfg, cs, k);
      if cs[k].ProcessMessage? {
        FitsInTurn(cfg, cs, k, |cs[k].script|) by { FitsThroughCommand(cfg, cs, k); }
      }
      CommandKeepsRight(cfg, ExecuteAll(cfg, INITIAL, cs[..k]), cs[k]);
    }
  }

  lemma {:induction false} FitsThroughCommand(cfg: Config, cs: seq<Command>, k: nat)
    requires k < |cs| && cs[k].ProcessMessage? && FitsBefore(cfg, cs, k + 1, 0)
    ensures FitsBefore(cfg, cs, k, |cs[k].script|)
  {
    hide FitsAt, TurnBefore;
  }

  lemma {:induction false} NothingCached()
    ensures CacheRight(INITIAL)
  {
    EmptyOk();
  }

  /** Up to the round at hand all went well: then the cache is right there. */
  lemma {:induction false} RoundIsRight(cfg: Config, cs: seq<Command>, i: nat, n: nat)
    requires ResumesOk(cs) && AsksAt(cfg, cs, i, n) && FitsBefore(cfg, cs, i, n)
    ensures CacheRight(TurnBefore(cfg, cs, i, n).state)
  {
    hide CacheRight, FitsAt, TurnFits, ExecuteAll, Add, TurnAfter, ResumesOk;
    FitsInTurn(cfg, cs, i, n);
    FitsUpto(cfg, cs, i, n);
    RunKeepsRight(cfg, cs, i);
    var s := ExecuteAll(cfg, INITIAL, cs[..i]);
    AddKeepsRight(s, User, [Text(cs[i].text)]);
    TurnKeepsRight(cfg, StartTurn(cfg, s, cs[i].text), cs[i].script, n);
  }

  lemma {:induction false} FitsUpto(cfg: Config, cs: seq<Command>, i: nat, n: nat)
    requires FitsBefore(cfg, cs, i, n)
    ensures FitsBefore(cfg, cs, i, 0)
  {
    hide FitsAt, TurnBefore, AsksAt;
  }

  /** Every summary of the run is whole. */
  ghost predicate RunIsWhole(cfg: Config, cs: seq<Command>) {
    forall i: nat, n: nat :: AsksAt(cfg, cs, i, n) ==> WholeAt(TurnBefore(cfg, cs, i, n).state, cs[i].script[n])
  }

  /** Every request of the run meets the condition. */
  ghost predicate RunFits(cfg: Config, cs: seq<Command>) {
    forall i: nat, n: nat :: AsksAt(cfg, cs, i, n) ==> FitsAt(TurnBefore(cfg, cs, i, n).state, cs[i].script[n])
  }

  lemma {:induction false} WholeMeansFits(cfg: Config, cs: seq<Command>, i: nat, n: nat)
    requires ResumesOk(cs) && RunIsWhole(cfg, cs) && AsksAt(cfg, cs, i, n)
    ensures FitsAt(TurnBefore(cfg, cs, i, n).state, cs[i].script[n])
    decreases i, n
  {
    hide FitsAt, WholeAt, TurnBefore, ResumesOk;
    forall j: nat, m: nat | AsksAt(cfg, cs, j, m) && (j < i || (j == i && m < n))
      ensures FitsAt(TurnBefore(cfg, cs, j, m).state, cs[j].script[m])
    {
      WholeMeansFits(cfg, cs, j, m);
    }
    RoundIsRight(cfg, cs, i, n);
    AskIsWholeIff(TurnBefore(cfg, cs, i, n).state, cs[i].script[n], 0);
  }

  /** Over every run of turns, navigations, clears and resumes: every summary is made of exactly the
      messages it stands for, if and only if whenever one is made there is no cache, or what the
      cache covers is on the thread, or it covers more than the span. */
  lemma {:induction false} RunIsWholeIff(cfg: Config, cs: seq<Command>)
    requires ResumesOk(cs)
    ensures RunIsWhole(cfg, cs) <==> RunFits(cfg, cs)
  {
    hide FitsAt, WholeAt, TurnBefore, ResumesOk;
    if RunIsWhole(cfg, cs) {
      forall i: nat, n: nat | AsksAt(cfg, cs, i, n) ensures FitsAt(TurnBefore(cfg, cs, i, n).state, cs[i].script[n]) {
        WholeMeansFits(cfg, cs, i, n);
      }
    }
    if RunFits(cfg, cs) {
      forall i: nat, n: nat | AsksAt(cfg, cs, i, n) ensures WholeAt(TurnBefore(cfg, cs, i, n).state, cs[i].script[n]) {
        RoundIsRight(cfg, cs, i, n);
        AskIsWholeIff(TurnBefore(cfg, cs, i, n).state, cs[i].script[n], 0);
      }
    }
  }

  // ---------------------------------------------------------------- a run with a stale cache

  /** Two turns; a third that summarises up to message 3 and fails; back to message 1; a turn from
      there; and one that summarises again. */
  const LEAKING := [PLAIN, PLAIN, ProcessMessage("", [COMPACTING]), Navigate(1), PLAIN,
                    ProcessMessage("", [COMPACTING])]

  function Two(): Tree {
    Append(Append(EMPTY, Say(0, User)), Say(1, Assistant))
  }

  function Four(): Tree {
    Append(Append(Two(), Say(2, User)), Say(3, Assistant))
  }

  function Five(): Tree {
    Append(Four(), Say(4, User))
  }

  function Branch(): Tree {
    Append(Append(NavigateTo(Five(), 1), Say(5, User)), Say(6, Assistant))
  }

  lemma {:induction false} TalkOk(t: Tree, nextId: nat)
    requires SessionOk(t, nextId)
    ensures var r := Append(Append(t, Say(nextId, User)), Say(nextId + 1, Assistant));
      SessionOk(r, nextId + 2) && Thread(r) == Thread(t) + [Say(nextId, User), Say(nextId + 1, Assistant)]
  {
    hide SessionOk, Thread, Append;
    var u := Append(t, Say(nextId, User));
    AppendKeepsOk(t, nextId, Say(nextId, User));
    AppendKeepsOk(u, nextId + 1, Say(nextId + 1, Assistant));
    AppendExtendsThread(t, Say(nextId, User));
    AppendExtendsThread(u, Say(nextId + 1, Assistant));
  }

  lemma {:induction false} FiveThread()
    ensures SessionOk(Five(), 5)
    ensures Thread(Five()) == [Say(0, User), Say(1, Assistant), Say(2, User), Say(3, Assistant), Say(4, User)]
  {
    hide SessionOk, Thread, Append;
    EmptyOk();
    TalkOk(EMPTY, 0);
    TalkOk(Two(), 2);
    AppendKeepsOk(Four(), 4, Say(4, User));
    AppendExtendsThread(Four(), Say(4, User));
  }

  lemma {:induction false} FiveLeaf()
    ensures Five().leaf == Some(4) && HasId(Five().entries, 4) && HasId(Five().entries, 1)
  {
    assert Five().entries[1].message == Say(1, Assistant) && Five().entries[4].message == Say(4, User);
  }

  lemma {:induction false} BranchThread()
    ensures Thread(Append(Branch(), Say(7, User))) ==
            [Say(0, User), Say(1, Assistant), Say(5, User), Say(6, Assistant), Say(7, User)]
  {
    hide Path, TreeOk, Five;
    FiveThread();
    FiveLeaf();
    PathPrefix(Five().entries, 4, 1);
    var n := NavigateTo(Five(), 1);
    AppendExtendsThread(n, Say(5, User));
    AppendExtendsThread(Append(n, Say(5, User)), Say(6, Assistant));
    AppendExtendsThread(Branch(), Say(7, User));
  }

  lemma {:induction false} FiveSpan(t: seq<Message>)
    requires |t| == 5 && t[0].role == User && t[4].role == User
    ensures SummarySpan(t) == Some((1, 4))
  {
    assert FirstUser(t).Some? && LastUser(t).Some?;
  }

  /** The turn that summarises and fails: the user's message, and a summary of the span. */
  lemma {:induction false} CompactingTurn(cfg: Config, s: State)
    requires var t := Thread(Append(s.tree, Say(s.nextId, User)));
      |t| == 5 && t[0].role == User && t[4].role == User
    ensures var r := Execute(cfg, s, ProcessMessage("", [COMPACTING]));
      var t := Thread(Append(s.tree, Say(s.nextId, User)));
      && r.tree == Append(s.tree, Say(s.nextId, User)) && r.nextId == s.nextId + 1
      && r.cache == Summarise(s.cache, t, 1, 4, Some(""))
  {
    hide Append, Thread, WorkingSet, ApplyTier2, Summarise, SummarySpan, ToWire, Sanitized;
    var start := StartTurn(cfg, s, "");
    FiveSpan(Thread(start.state.tree));
    SummariesCome(s.cache, Thread(start.state.tree), 1, 4);
    assert TurnAfter(cfg, start, [COMPACTING], 0) == start;
    assert TurnAfter(cfg, start, [COMPACTING], 1) == OneIteration(cfg, start, COMPACTING);
  }

  lemma {:induction false} SummariesCome(cache: Option<Tier2Summary>, t: seq<Message>, start: nat, end: nat)
    requires start < end <= |t|
    ensures Summarise(cache, t, start, end, Some("")).Some?
  {
  }

  lemma {:induction false} TwoTurns(cfg: Config)
    ensures var s := ExecuteAll(cfg, INITIAL, LEAKING[..2]);
      s.tree == Four() && s.nextId == 4 && s.cache == None
  {
    hide Execute, Append, Thread;
    var cs := LEAKING;
    assert cs[..0] + [cs[0]] == cs[..1] && cs[..1] + [cs[1]] == cs[..2];
    NextCommand(cfg, INITIAL, cs[..0], cs[0]);
    NextCommand(cfg, INITIAL, cs[..1], cs[1]);
    PlainTurn(cfg, INITIAL);
    PlainTurn(cfg, ExecuteAll(cfg, INITIAL, cs[..1]));
  }

  /** After the third turn the cache covers messages 1 to 3. */
  lemma {:induction false} ThreeTurns(cfg: Config)
    ensures var s := ExecuteAll(cfg, INITIAL, LEAKING[..3]);
      && s.tree == Five() && s.nextId == 5 && s.cache.Some? && s.cache.value.coveredLastId == 3
      && s.cache.value.fed == [Say(1, Assistant), Say(2, User), Say(3, Assistant)]
  {
    hide Execute, Append, Thread, ExecuteAll, CollectFiles, Four;
    var cs := LEAKING;
    assert cs[..2] + [cs[2]] == cs[..3];
    NextCommand(cfg, INITIAL, cs[..2], cs[2]);
    TwoTurns(cfg);
    FiveThread();
    CompactingTurn(cfg, ExecuteAll(cfg, INITIAL, cs[..2]));
    assert Thread(Five())[1..4] == [Say(1, Assistant), Say(2, User), Say(3, Assistant)];
  }

  /** Before the last turn the thread is another one, and the cache is still the same. */
  lemma {:induction false} FiveCommands(cfg: Config)
    ensures var s := ExecuteAll(cfg, INITIAL, LEAKING[..5]);
      && s.tree == Branch() && s.nextId == 7 && s.cache.Some? && s.cache.value.coveredLastId == 3
      && s.cache.value.fed == [Say(1, Assistant), Say(2, User), Say(3, Assistant)]
  {
    hide Append, Thread, Five, NavigateTo, ProcessTurn, ExecuteAll;
    var cs := LEAKING;
    assert cs[..3] + [cs[3]] == cs[..4] && cs[..4] + [cs[4]] == cs[..5];
    NextCommand(cfg, INITIAL, cs[..3], cs[3]);
    NextCommand(cfg, INITIAL, cs[..4], cs[4]);
    ThreeTurns(cfg);
    PlainTurn(cfg, ExecuteAll(cfg, INITIAL, cs[..4]));
  }

  /** The summary that the last turn makes of messages 1, 5 and 6 is fed 2 and 3 as well, which the
      navigation has left behind. */
  lemma {:induction false} BranchedSummaryLeaks(cfg: Config)
    ensures var t := TurnBefore(cfg, LEAKING, 5, 0);
      && AsksAt(cfg, LEAKING, 5, 0) && !FitsAt(t.state, COMPACTING) && !WholeAt(t.state, COMPACTING)
      && Thread(t.state.tree) == [Say(0, User), Say(1, Assistant), Say(5, User), Say(6, Assistant), Say(7, User)]
      && Summarise(t.state.cache, Thread(t.state.tree), 1, 4, Some("")).value.fed ==
           [Say(1, Assistant), Say(2, User), Say(3, Assistant), Say(5, User), Say(6, Assistant)]
    ensures !RunIsWhole(cfg, LEAKING)
  {
    hide Append, Thread, CollectFiles, ExecuteAll, SummarySpan;
    FiveCommands(cfg);
    BranchThread();
    var s := TurnBefore(cfg, LEAKING, 5, 0).state;
    var t := Thread(s.tree);
    assert s.tree == Append(Branch(), Say(7, User));
    FiveSpan(t);
    assert Drained(s, COMPACTING) == s;
    LeakedFeed(s.cache, t);
  }

  lemma {:induction false} LeakedFeed(cache: Option<Tier2Summary>, t: seq<Message>)
    requires t == [Say(0, User), Say(1, Assistant), Say(5, User), Say(6, Assistant), Say(7, User)]
    requires cache.Some? && cache.value.coveredLastId == 3
    requires cache.value.fed == [Say(1, Assistant), Say(2, User), Say(3, Assistant)]
    ensures var r := Summarise(cache, t, 1, 4, Some(""));
      && r.Some? && r.value.fed != t[1..4]
      && r.value.fed == [Say(1, Assistant), Say(2, User), Say(3, Assistant), Say(5, User), Say(6, Assistant)]
  {
    hide CollectFiles;
    assert t[2..4] == [Say(5, User), Say(6, Assistant)];
  }
}
