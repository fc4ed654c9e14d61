/** The end-to-end theorem: in every run of turns, navigations, clears and resumes, every
    request the agent sends is well paired.
 */
module RequestPairing {
  import opened Wrappers
  import opened Messages
  import opened SessionTree
  import opened Wire
  import opened Discipline
  import opened ReusedIds
  import opened Compaction
  import opened CompactionKeepsPairing
  import opened Agent
  import opened ScriptedRuns

  // ---------------------------------------------------------------- what is assumed of the provider

  /** The replies of a script carry no tool results. Strictly, the ids of their calls are also new
      to the thread: distinct within a reply, not in `used`, and not used by an earlier reply. */
  ghost predicate ScriptOk(strict: bool, used: set<string>, script: seq<Iteration>) {
    forall i :: 0 <= i < |script| && script[i].reply.Answer? ==>
      ReplyOk(strict, UsedAfter(used, script, i), script[i].reply.items)
  }

  ghost predicate ReplyOk(strict: bool, used: set<string>, items: seq<Item>) {
    ResultIds(items) == [] && (strict ==> FreshCalls(used, CallIds(items)))
  }

  ghost function UsedAfter(used: set<string>, script: seq<Iteration>, n: nat): set<string>
    requires n <= |script|
  {
    if n == 0 then used
    else
      UsedAfter(used, script, n - 1) +
      if script[n - 1].reply.Answer? then Elements(CallIds(script[n - 1].reply.items)) else {}
  }

  /** Every path of the tree is disciplined, so wherever one navigates, the thread is. */
  ghost predicate AllDisciplined(strict: bool, entries: seq<SessionEntry>) {
    forall e :: e in entries ==> Ordered(strict, Path(entries, Some(e.message.id)))
  }

  ghost predicate TreeSound(strict: bool, t: Tree, nextId: nat) {
    SessionOk(t, nextId) && AllDisciplined(strict, t.entries)
  }

  /** The messages of a request are in order, and it was made of them by sanitising and lowering. */
  ghost predicate Prepared(strict: bool, e: Event) {
    e.Requested? ==> Ordered(strict, e.messages) && e.wire == ToWire(Sanitized(e.messages))
  }

  ghost predicate LogPrepared(strict: bool, log: seq<Event>) {
    forall e :: e in log ==> Prepared(strict, e)
  }

  ghost predicate Sound(strict: bool, s: State) {
    TreeSound(strict, s.tree, s.nextId) && LogPrepared(strict, s.log)
  }

  /** The assumption on one command, in the state it meets. A resumed file was saved by an agent. */
  ghost predicate Admissible(strict: bool, s: State, c: Command) {
    match c
    case ProcessMessage(text, script) => ScriptOk(strict, ReadAll(strict, Thread(s.tree)).used, script)
    case Resume(Some(saved)) => TreeSound(strict, saved, NextMessageId(saved.entries))
    case _ => true
  }

  ghost predicate AdmissibleRun(strict: bool, cfg: Config, cs: seq<Command>) {
    forall i :: 0 <= i < |cs| ==> Admissible(strict, ExecuteAll(cfg, INITIAL, cs[..i]), cs[i])
  }

  // ---------------------------------------------------------------- appending

  lemma {:induction false} ThreadDisciplined(strict: bool, t: Tree, nextId: nat)
    requires TreeSound(strict, t, nextId)
    ensures Ordered(strict, Thread(t))
  {
    if t.entries != [] {
      var e :| e in t.entries && e.message.id == t.leaf.value;
    }
  }

  /** Appending a message that the thread's reading accepts keeps the tree sound. */
  lemma {:induction false} AddKeepsSound(strict: bool, s: State, role: Role, items: seq<Item>)
    requires Sound(strict, s)
    requires Read(strict, ReadAll(strict, Thread(s.tree)), Message(s.nextId, role, items)).ok
    ensures Sound(strict, Add(s, role, items))
    ensures ReadAll(strict, Thread(Add(s, role, items).tree)) ==
            Read(strict, ReadAll(strict, Thread(s.tree)), Message(s.nextId, role, items))
  {
    hide Read, ReadAll, Path, TreeOk;
    var m := Message(s.nextId, role, items);
    AppendKeepsOk(s.tree, s.nextId, m);
    AppendExtendsThread(s.tree, m);
    ReadNext(strict, Thread(s.tree), m);
    var r := Append(s.tree, m);
    forall e | e in r.entries ensures Ordered(strict, Path(r.entries, Some(e.message.id))) {
      if e in s.tree.entries {
        AppendKeepsPath(s.tree, m, e.message.id);
      }
    }
  }

  /** Texts from users and the system leave no call open and use no id. */
  lemma {:induction false} AddTextsKeepsSound(strict: bool, s: State, role: Role, texts: seq<string>)
    requires Sound(strict, s) && (role == User || role == System)
    ensures Sound(strict, AddTexts(s, role, texts))
    ensures ReadAll(strict, Thread(AddTexts(s, role, texts).tree)).used == ReadAll(strict, Thread(s.tree)).used
  {
    hide Read, ReadAll, Sound, Thread;
    if texts != [] {
      var n := |texts| - 1;
      var before := AddTexts(s, role, texts[..n]);
      AddTextsKeepsSound(strict, s, role, texts[..n]);
      AddTextKeepsSound(strict, before, role, texts[n]);
    }
  }

  lemma {:induction false} AddTextKeepsSound(strict: bool, s: State, role: Role, text: string)
    requires Sound(strict, s) && (role == User || role == System)
    ensures Sound(strict, Add(s, role, [Text(text)]))
    ensures ReadAll(strict, Thread(Add(s, role, [Text(text)]).tree)).used == ReadAll(strict, Thread(s.tree)).used
  {
    hide Read, ReadAll;
    ThreadDisciplined(strict, s.tree, s.nextId);
    ReadTextMessage(strict, ReadAll(strict, Thread(s.tree)), s.nextId, role, text);
    AddKeepsSound(strict, s, role, [Text(text)]);
  }

  // ---------------------------------------------------------------- the request

  /** Whatever the size tests and the summariser say, the messages of a request are disciplined. */
  lemma {:induction false} ContextKeepsDiscipline(strict: bool, t: seq<Message>, cache: Option<Tier2Summary>,
          it: Iteration)
    requires Ordered(strict, t) && AscendingIds(t)
    ensures Ordered(strict, WithPrompt(it.prompt, Context(t, cache, it).0))
  {
    hide ReadAll, ApplyTier2, WorkingSet, SummarySpan, Summarise;
    var working := Context(t, cache, it).0;
    WorkingSetKeepsDiscipline(strict, t, it.compactFull);
    var tier1 := WorkingSet(t, it.compactFull);
    NoteKeepsDiscipline(strict, tier1, "## Previous Turn Trace\n" + it.observation);
    var span := SummarySpan(t);
    if it.compactTier1 && span.Some? {
      var (start, end) := span.value;
      var r := Summarise(cache, t, start, end, it.summary);
      if r.Some? {
        var text := r.value.text + it.files;
        Tier2KeepsDiscipline(strict, t, it.compactFull, text);
        NoteKeepsDiscipline(strict, ApplyTier2(tier1, t[start - 1].id, t[end - 1].id, text),
                            "## Previous Turn Trace\n" + it.observation);
      }
    }
    PromptKeepsReading(strict, working, it.prompt);
  }

  lemma {:induction false} ThreadIdsAscend(t: Tree, nextId: nat)
    requires SessionOk(t, nextId)
    ensures AscendingIds(Thread(t))
  {
    ThreadAscends(t, nextId);
  }

  lemma {:induction false} AskKeepsSound(strict: bool, s: State, it: Iteration, tokens: nat)
    requires Sound(strict, s)
    ensures Sound(strict, Ask(s, it, tokens))
    ensures ReadAll(strict, Thread(Ask(s, it, tokens).tree)).used == ReadAll(strict, Thread(s.tree)).used
  {
    hide ReadAll, Context, Thread, TreeSound, Prepared, WithPrompt, AddTexts;
    AddTextsKeepsSound(strict, s, User, it.steering);
    AddTextsKeepsSound(strict, AddTexts(s, User, it.steering), System, it.notices);
    AddTextsKeepsSound(strict, AddTexts(AddTexts(s, User, it.steering), System, it.notices), User, it.parentMessages);
    var d := Drained(s, it);
    RequestPaired(strict, s, it, tokens);
  }

  lemma {:induction false} RequestPaired(strict: bool, s: State, it: Iteration, tokens: nat)
    requires TreeSound(strict, Drained(s, it).tree, Drained(s, it).nextId)
    ensures Prepared(strict, RequestOf(s, it, tokens))
    ensures Ask(s, it, tokens).log == Drained(s, it).log + [RequestOf(s, it, tokens)]
  {
    hide ReadAll, Context, Thread, WithPrompt, Sanitized, ToWire;
    var d := Drained(s, it);
    ThreadDisciplined(strict, d.tree, d.nextId);
    ThreadIdsAscend(d.tree, d.nextId);
    ContextKeepsDiscipline(strict, Thread(d.tree), d.cache, it);
  }

  // ---------------------------------------------------------------- replies and results

  lemma {:induction false} ToolCallsHaveCallIds(items: seq<Item>)
    ensures var calls := ToolCallsOf(items);
      |calls| == |CallIds(items)| && forall i :: 0 <= i < |calls| ==> calls[i].callId == CallIds(items)[i]
  {
    if items != [] {
      ToolCallsHaveCallIds(items[..|items| - 1]);
    }
  }

  /** Items that are all results answer the ids they carry. */
  lemma {:induction false} ResultIdsOfResults(rs: seq<Item>, ids: seq<string>)
    requires |rs| == |ids| && forall i :: 0 <= i < |rs| ==> rs[i].ToolResult? && rs[i].answers == ids[i]
    ensures ResultIds(rs) == ids
  {
    if rs != [] {
      var n := |rs| - 1;
      ResultIdsOfResults(rs[..n], ids[..n]);
      assert ids == ids[..n] + [ids[n]];
    }
  }

  /** Results come in call order and stop at the first cancelled call. */
  lemma {:induction false} DispatchAnswersPrefix(calls: seq<Item>, outcomes: seq<Outcome>)
    requires forall c :: c in calls ==> c.ToolCall?
    ensures var b := DispatchAll(calls, outcomes);
      && |b.results| <= |calls|
      && (forall i :: 0 <= i < |b.results| ==> b.results[i].ToolResult? && b.results[i].answers == calls[i].callId)
      && (!b.cancelled ==> |b.results| == |calls|)
  {
    if calls != [] {
      DispatchAnswersPrefix(calls[..|calls| - 1], outcomes);
    }
  }

  lemma {:induction false} AnswerKeepsSound(strict: bool, s: State, items: seq<Item>)
    requires Sound(strict, s) && ReplyOk(strict, ReadAll(strict, Thread(s.tree)).used, items)
    ensures Sound(strict, Add(s, Assistant, items))
    ensures ReadAll(strict, Thread(Add(s, Assistant, items).tree)) ==
            Reading(true, CallIds(items), ReadAll(strict, Thread(s.tree)).used + Elements(CallIds(items)))
  {
    ThreadDisciplined(strict, s.tree, s.nextId);
    AddKeepsSound(strict, s, Assistant, items);
  }

  /** A tool message whose results answer a non-empty prefix of the open calls. */
  lemma {:induction false} ResultsKeepSound(strict: bool, s: State, results: seq<Item>, ids: seq<string>)
    requires Sound(strict, s) && results != [] && ids <= ReadAll(strict, Thread(s.tree)).open
    requires |results| == |ids| && forall i :: 0 <= i < |ids| ==> results[i].ToolResult? && results[i].answers == ids[i]
    ensures Sound(strict, Add(s, Tool, results))
    ensures ReadAll(strict, Thread(Add(s, Tool, results).tree)).used == ReadAll(strict, Thread(s.tree)).used
  {
    ThreadDisciplined(strict, s.tree, s.nextId);
    ResultIdsOfResults(results, ids);
    AddKeepsSound(strict, s, Tool, results);
  }

  // ---------------------------------------------------------------- turns

  ghost predicate TurnSound(strict: bool, t: Turn, used: set<string>) {
    Sound(strict, t.state) && ReadAll(strict, Thread(t.state.tree)).used <= used
  }

  lemma {:induction false} NoteKeepsSound(strict: bool, s: State, es: seq<Event>)
    requires Sound(strict, s) && forall e :: e in es ==> !e.Requested?
    ensures Sound(strict, NoteAll(s, es)) && NoteAll(s, es).tree == s.tree
  {
  }

  lemma {:induction false} TruncationKeepsSound(strict: bool, cfg: Config, t: Turn, s: State, items: seq<Item>,
          used: set<string>)
    requires Sound(strict, s) && ReadAll(strict, Thread(s.tree)).open == CallIds(items)
    requires ReadAll(strict, Thread(s.tree)).used <= used
    ensures TurnSound(strict, AfterTruncation(cfg, t, s, ToolCallsOf(items)), used)
  {
    hide ReadAll, Sound, Thread, Add;
    var calls := ToolCallsOf(items);
    ToolCallsHaveCallIds(items);
    if calls != [] {
      ResultsKeepSound(strict, s, TruncatedResults(calls), CallIds(items));
    }
  }

  lemma {:induction false} TextKeepsSound(strict: bool, t: Turn, s: State, it: Iteration, used: set<string>)
    requires Sound(strict, s) && ReadAll(strict, Thread(s.tree)).used <= used
    ensures TurnSound(strict, AfterText(t, s, it), used)
  {
    hide ReadAll, Sound, Thread, AddTexts;
    AddTextsKeepsSound(strict, s, User, it.lateSteering);
    AddTextsKeepsSound(strict, s, System, it.lateNotices);
    AddTextsKeepsSound(strict, s, User, it.lateParentMessages);
  }

  lemma {:induction false} TriedAreDispatches(calls: seq<Item>, outcomes: seq<Outcome>)
    requires forall c :: c in calls ==> c.ToolCall?
    ensures forall e :: e in DispatchAll(calls, outcomes).tried ==> e.Dispatched?
  {
    if calls != [] {
      TriedAreDispatches(calls[..|calls| - 1], outcomes);
    }
  }

  lemma {:induction false} CallsKeepSound(strict: bool, cfg: Config, t: Turn, s: State, items: seq<Item>,
          it: Iteration, used: set<string>)
    requires Sound(strict, s) && ReadAll(strict, Thread(s.tree)).open == CallIds(items)
    requires ReadAll(strict, Thread(s.tree)).used <= used
    ensures TurnSound(strict, AfterCalls(cfg, t, s, ToolCallsOf(items), it), used)
  {
    hide ReadAll, Sound, Thread, Add, DispatchAll;
    var calls := ToolCallsOf(items);
    var b := DispatchAll(calls, it.outcomes);
    ToolCallsHaveCallIds(items);
    DispatchAnswersPrefix(calls, it.outcomes);
    TriedAreDispatches(calls, it.outcomes);
    NoteKeepsSound(strict, s, b.tried);
    var ran := NoteAll(s, b.tried);
    if b.results != [] {
      ResultsKeepSound(strict, ran, b.results, CallIds(items)[..|b.results|]);
    }
    var s' := if b.results == [] then ran else Add(ran, Tool, b.results);
    AddTextKeepsSound(strict, s', User, NUDGE_TEXT);
    NoteKeepsSound(strict, Add(s', User, [Text(NUDGE_TEXT)]), [Nudged]);
  }

  lemma {:induction false} IterationKeepsSound(strict: bool, cfg: Config, t: Turn, it: Iteration, used: set<string>)
    requires TurnSound(strict, t, used)
    requires it.reply.Answer? ==> ReplyOk(strict, used, it.reply.items)
    ensures TurnSound(strict, OneIteration(cfg, t, it),
                      used + if it.reply.Answer? then Elements(CallIds(it.reply.items)) else {})
  {
    hide ReadAll, Sound, Thread, Add, Ask, AfterTruncation, AfterText, AfterCalls;
    AskKeepsSound(strict, t.state, it, t.tokens);
    var asked := Ask(t.state, it, t.tokens);
    if it.reply.Answer? {
      var items := it.reply.items;
      AnswerKeepsSound(strict, asked, items);
      var answered := Add(asked, Assistant, items);
      var e := Replied(it.reply.stop, CallIds(items), AllExploration(ToolCallsOf(items)));
      NoteKeepsSound(strict, answered, [e]);
      var s := Note(answered, e);
      var used' := used + Elements(CallIds(items));
      TruncationKeepsSound(strict, cfg, t, s, items, used');
      TextKeepsSound(strict, t, s, it, used');
      CallsKeepSound(strict, cfg, t, s, items, it, used');
    }
  }

  lemma {:induction false} RoundKeepsSound(strict: bool, cfg: Config, before: Turn, used: set<string>, it: Iteration)
    requires TurnSound(strict, before, used)
    requires it.reply.Answer? ==> ReplyOk(strict, used, it.reply.items)
    ensures TurnSound(strict, if before.over then before else OneIteration(cfg, before, it),
                      used + if it.reply.Answer? then Elements(CallIds(it.reply.items)) else {})
  {
    hide TurnSound, OneIteration, CallIds, ResultIds;
    if before.over {
      MoreUsed(strict, before, used, used + if it.reply.Answer? then Elements(CallIds(it.reply.items)) else {});
    } else {
      IterationKeepsSound(strict, cfg, before, it, used);
    }
  }

  lemma {:induction false} TurnKeepsSound(strict: bool, cfg: Config, t: Turn, used: set<string>,
          script: seq<Iteration>, n: nat)
    requires n <= |script| && TurnSound(strict, t, used) && ScriptOk(strict, used, script)
    ensures TurnSound(strict, TurnAfter(cfg, t, script, n), UsedAfter(used, script, n))
  {
    hide TurnSound, OneIteration, CallIds, ReplyOk;
    if n > 0 {
      TurnKeepsSound(strict, cfg, t, used, script, n - 1);
      assert script[n - 1].reply.Answer? ==> ReplyOk(strict, UsedAfter(used, script, n - 1), script[n - 1].reply.items);
      RoundKeepsSound(strict, cfg, TurnAfter(cfg, t, script, n - 1), UsedAfter(used, script, n - 1), script[n - 1]);
    }
  }

  lemma {:induction false} MoreUsed(strict: bool, t: Turn, used: set<string>, more: set<string>)
    requires TurnSound(strict, t, used) && used <= more
    ensures TurnSound(strict, t, more)
  {
  }

  // ---------------------------------------------------------------- runs

  lemma {:induction false} ProcessTurnKeepsSound(strict: bool, cfg: Config, s: State, text: string,
          script: seq<Iteration>)
    requires Sound(strict, s) && ScriptOk(strict, ReadAll(strict, Thread(s.tree)).used, script)
    ensures Sound(strict, ProcessTurn(cfg, s, text, script))
  {
    hide ReadAll, Sound, Thread, Add, TurnAfter, ScriptOk;
    AddTextKeepsSound(strict, s, User, text);
    var t := StartTurn(cfg, s, text);
    var used := ReadAll(strict, Thread(s.tree)).used;
    TurnKeepsSound(strict, cfg, t, used, script, |script|);
    var last := TurnAfter(cfg, t, script, |script|);
    NoteKeepsSound(strict, last.state, [TurnDone(!last.over)]);
  }

  lemma {:induction false} CommandKeepsSound(strict: bool, cfg: Config, s: State, c: Command)
    requires Sound(strict, s) && Admissible(strict, s, c)
    ensures Sound(strict, Execute(cfg, s, c))
  {
    hide ReadAll, Thread, Path, TreeOk, ProcessTurn, ScriptOk, LogPrepared;
    match c
    case ProcessMessage(text, script) => ProcessTurnKeepsSound(strict, cfg, s, text, script);
    case Navigate(id) =>
    case Clear => EmptyTreeSound(strict);
    case Resume(saved) =>
  }

  lemma {:induction false} EmptyTreeSound(strict: bool)
    ensures TreeSound(strict, EMPTY, 0)
  {
  }

  lemma {:induction false} RunKeepsSound(strict: bool, cfg: Config, cs: seq<Command>)
    requires AdmissibleRun(strict, cfg, cs)
    ensures Sound(strict, ExecuteAll(cfg, INITIAL, cs))
  {
    if cs != [] {
      var n := |cs| - 1;
      forall i | 0 <= i < n ensures Admissible(strict, ExecuteAll(cfg, INITIAL, cs[..n][..i]), cs[..n][i]) {
        assert cs[..n][..i] == cs[..i];
      }
      RunKeepsSound(strict, cfg, cs[..n]);
      CommandKeepsSound(strict, cfg, ExecuteAll(cfg, INITIAL, cs[..n]), cs[n]);
    }
  }

  /** In every run, whatever is cancelled, truncated, steered, compacted, summarised or navigated,
      every request sent is well paired, provided that call ids are new to the thread. */
  lemma {:induction false} EveryRequestIsPaired(cfg: Config, cs: seq<Command>, e: Event)
    requires AdmissibleRun(true, cfg, cs)
    requires e in ExecuteAll(cfg, INITIAL, cs).log && e.Requested?
    ensures WellPaired(e.wire)
  {
    RunKeepsSound(true, cfg, cs);
    assert Prepared(true, e);
    DisciplinedRequestIsPaired(e.messages);
  }

  /** Without any assumption on call ids: the messages of every request of every run are in order,
      and it is well paired if and only if no unanswered call of them has the id of an answered one. */
  lemma {:induction false} EveryRequestIsPairedIff(cfg: Config, cs: seq<Command>, e: Event)
    requires AdmissibleRun(false, cfg, cs)
    requires e in ExecuteAll(cfg, INITIAL, cs).log && e.Requested?
    ensures InOrder(e.messages) && e.wire == ToWire(Sanitized(e.messages))
    ensures WellPaired(e.wire) <==> NoUnansweredIdAnswered(e.messages)
  {
    hide WellPaired, InOrder, Sanitized;
    RunKeepsSound(false, cfg, cs);
    assert Prepared(false, e);
    OrderedIsInOrder(e.messages);
    PairedIffNoUnansweredIdAnswered(e.messages);
  }

  // ---------------------------------------------------------------- a run that reuses an id

  const CALLED := Answer([CALL], CallTools)

  /** A call is cancelled; then a call with the same id is run, and the next request fails. */
  const REUSING := [
    ProcessMessage("", [Round(CALLED, [CancelledByUser])]),
    ProcessMessage("", [Round(CALLED, [Finished("", false)]), Round(Failure, [])])]

  /** One call, cancelled or run. */
  lemma {:induction false} CallRound(cfg: Config, t: Turn, outcome: Outcome)
    ensures var r := OneIteration(cfg, t, Round(CALLED, [outcome]));
      var asked := Append(t.state.tree, Message(t.state.nextId, Assistant, [CALL]));
      && r.tokens == t.tokens && Request(t.state.tree, t.tokens) in r.state.log
      && (if outcome.CancelledByUser? then r.over && r.state.tree == asked && r.state.nextId == t.state.nextId + 1
          else
            var result := Message(t.state.nextId + 1, Tool, [ToolResult("a", outcome.output, outcome.isError)]);
            !t.over ==> !r.over && r.state.tree == Append(asked, result))
  {
    hide Ask, Request, CallIds;
    RoundAsks(t.state, CALLED, [outcome], t.tokens);
    OneCall(outcome);
  }

  lemma {:induction false} OneCall(outcome: Outcome)
    ensures ToolCallsOf([CALL]) == [CALL] && !AllExploration([CALL])
    ensures var b := DispatchAll([CALL], [outcome]);
      b.cancelled == outcome.CancelledByUser? &&
      b.results == if outcome.Finished? then [ToolResult("a", outcome.output, outcome.isError)] else []
  {
    hide AllExploration, ToolCallsOf, DispatchAll;
    IsCall();
    IsDispatched(outcome);
  }

  lemma {:induction false} IsCall()
    ensures ToolCallsOf([CALL]) == [CALL] && !AllExploration([CALL])
  {
    hide DispatchAll;
    assert [CALL][..0] == [] && ToolCallsOf([]) == [];
    assert CALL in [CALL] && CALL.name == "bash";
  }

  lemma {:induction false} IsDispatched(outcome: Outcome)
    ensures var b := DispatchAll([CALL], [outcome]);
      b.cancelled == outcome.CancelledByUser? &&
      b.results == if outcome.Finished? then [ToolResult("a", outcome.output, outcome.isError)] else []
  {
    hide AllExploration, ToolCallsOf;
    assert [CALL][..0] == [] && DispatchAll([], [outcome]) == Batch([], [], false);
  }

  function Cancelled(): Tree {
    Append(Append(EMPTY, TextMessage(0, User, "")), Message(1, Assistant, [CALL]))
  }

  function Resumed(): Tree {
    Append(Append(Append(Cancelled(), TextMessage(2, User, "")), Message(3, Assistant, [CALL])),
           Message(4, Tool, [RESULT]))
  }

  lemma {:induction false} ResumedThread()
    ensures Thread(Resumed()) == REUSED
  {
    hide Thread, Append;
    EmptyOk();
    var u := Append(EMPTY, TextMessage(0, User, ""));
    AppendExtendsThread(EMPTY, TextMessage(0, User, ""));
    AppendExtendsThread(u, Message(1, Assistant, [CALL]));
    AppendExtendsThread(Cancelled(), TextMessage(2, User, ""));
    var v := Append(Cancelled(), TextMessage(2, User, ""));
    AppendExtendsThread(v, Message(3, Assistant, [CALL]));
    AppendExtendsThread(Append(v, Message(3, Assistant, [CALL])), Message(4, Tool, [RESULT]));
  }

  lemma {:induction false} FirstTurn(cfg: Config)
    ensures var s := Execute(cfg, INITIAL, REUSING[0]);
      s.tree == Cancelled() && s.nextId == 2
  {
    hide OneIteration;
    var start := StartTurn(cfg, INITIAL, "");
    CallRound(cfg, start, CancelledByUser);
    assert TurnAfter(cfg, start, REUSING[0].script, 0) == start;
    NextIdAfterCall(cfg, start);
  }

  lemma {:induction false} NextIdAfterCall(cfg: Config, t: Turn)
    ensures OneIteration(cfg, t, Round(CALLED, [CancelledByUser])).state.nextId == t.state.nextId + 1
  {
    CallRound(cfg, t, CancelledByUser);
  }

  lemma {:induction false} SecondTurn(cfg: Config, s: State)
    requires s.tree == Cancelled() && s.nextId == 2
    ensures Request(Resumed(), cfg.maxTokens) in Execute(cfg, s, REUSING[1]).log
  {
    hide OneIteration, Request;
    var start, script := StartTurn(cfg, s, ""), REUSING[1].script;
    CallRound(cfg, start, Finished("", false));
    assert TurnAfter(cfg, start, script, 0) == start;
    var t := TurnAfter(cfg, start, script, 1);
    assert t == OneIteration(cfg, start, script[0]);
    FailedRound(cfg, t);
    assert TurnAfter(cfg, start, script, 2) == OneIteration(cfg, t, script[1]);
  }

  lemma {:induction false} FailedRound(cfg: Config, t: Turn)
    ensures Request(t.state.tree, t.tokens) in OneIteration(cfg, t, Round(Failure, [])).state.log
  {
    hide Request, Ask;
    RoundAsks(t.state, Failure, [], t.tokens);
  }

  /** Both replies are admissible, and yet a request of the run is not well paired. */
  lemma {:induction false} ReusingRunFails(cfg: Config)
    ensures AdmissibleRun(false, cfg, REUSING)
    ensures exists e :: e in ExecuteAll(cfg, INITIAL, REUSING).log && e.Requested? && !WellPaired(e.wire)
  {
    hide Execute, WellPaired, Request, ToWire, Sanitized;
    ReusedIdsRead();
    FirstTurn(cfg);
    NextCommand(cfg, INITIAL, [], REUSING[0]);
    NextCommand(cfg, INITIAL, [REUSING[0]], REUSING[1]);
    assert [] + [REUSING[0]] == [REUSING[0]] && REUSING == [REUSING[0]] + [REUSING[1]];
    SecondTurn(cfg, Execute(cfg, INITIAL, REUSING[0]));
    ResumedThread();
    ReusedIdBreaksPairing();
    RequestIsOfThread(Resumed(), cfg.maxTokens);
  }
}
