/** The laws of one turn (`process_turn` in `src/agent.rs`), read off its trace of events: the
    iteration cap, the growth of the token budget, calls of truncated replies, the nudge.
 */
module TurnLaws {
  import opened Wrappers
  import opened Messages
  import opened SessionTree
  import opened Wire
  import opened Agent
  import opened RequestPairing

  // ---------------------------------------------------------------- reading a trace

  function Requests(es: seq<Event>): nat {
    if es == [] then 0 else Requests(es[..|es| - 1]) + if es[|es| - 1].Requested? then 1 else 0
  }

  /** Replies cut off at the token limit. */
  function Truncations(es: seq<Event>): nat {
    if es == [] then 0
    else
      var e := es[|es| - 1];
      Truncations(es[..|es| - 1]) + if e.Replied? && e.stop == Length then 1 else 0
  }

  function Nudges(es: seq<Event>): nat {
    if es == [] then 0 else Nudges(es[..|es| - 1]) + if es[|es| - 1].Nudged? then 1 else 0
  }

  /** How many of the latest replies with dispatched calls were exploration only, in a row. */
  function ExplorationRun(es: seq<Event>): nat {
    if es == [] then 0
    else
      var before, e := ExplorationRun(es[..|es| - 1]), es[|es| - 1];
      if !e.Replied? || e.stop == Length || e.calls == [] then before
      else if e.exploring then before + 1 else 0
  }

  /** The reply being worked on. */
  function LastReply(es: seq<Event>): (r: Option<Event>)
    ensures r.Some? ==> r.value.Replied?
  {
    if es == [] then None
    else
      var e := es[|es| - 1];
      if e.Replied? then Some(e) else if e.Requested? then None else LastReply(es[..|es| - 1])
  }

  function Doubled(tokens: nat, k: nat): nat {
    if k == 0 then tokens else 2 * Doubled(tokens, k - 1)
  }

  /** The budget after `k` truncations: the configured one doubled `k` times, cut at the
      ceiling; a configured budget at or above the ceiling never changes. */
  function Budget(cfg: Config, k: nat): nat {
    if cfg.maxTokens >= cfg.ceiling then cfg.maxTokens else Min(Doubled(cfg.maxTokens, k), cfg.ceiling)
  }

  /** What may be observed after `before`. */
  ghost predicate EventOk(cfg: Config, before: seq<Event>, e: Event) {
    match e
    case Requested(tokens, _, _) => tokens == Budget(cfg, Truncations(before))
    case Replied(_, _, _) => true
    case Dispatched(id) =>
      LastReply(before).Some? && LastReply(before).value.stop != Length && id in LastReply(before).value.calls
    case Nudged => Nudges(before) == 0 && 0 < cfg.nudgeThreshold <= ExplorationRun(before)
    case TurnDone(_) => false
  }

  ghost predicate Lawful(cfg: Config, es: seq<Event>) {
    es == [] || (Lawful(cfg, es[..|es| - 1]) && EventOk(cfg, es[..|es| - 1], es[|es| - 1]))
  }

  lemma {:induction false} LawfulAt(cfg: Config, es: seq<Event>, j: nat)
    requires Lawful(cfg, es) && j < |es|
    ensures EventOk(cfg, es[..j], es[j])
    decreases |es|
  {
    if j < |es| - 1 {
      LawfulAt(cfg, es[..|es| - 1], j);
      assert es[..|es| - 1][..j] == es[..j];
    }
  }

  // ---------------------------------------------------------------- one more event

  /** How the readings of a trace move with one more event. */
  lemma {:induction false} Push(es: seq<Event>, e: Event)
    ensures var es' := es + [e];
      && Requests(es') == Requests(es) + (if e.Requested? then 1 else 0)
      && Truncations(es') == Truncations(es) + (if e.Replied? && e.stop == Length then 1 else 0)
      && Nudges(es') == Nudges(es) + (if e.Nudged? then 1 else 0)
      && ExplorationRun(es') == (if !e.Replied? || e.stop == Length || e.calls == [] then ExplorationRun(es)
                                 else if e.exploring then ExplorationRun(es) + 1 else 0)
      && LastReply(es') == (if e.Replied? then Some(e) else if e.Requested? then None else LastReply(es))
  {
    assert (es + [e])[..|es|] == es;
  }

  lemma {:induction false} PushLawful(cfg: Config, es: seq<Event>, e: Event)
    requires Lawful(cfg, es) && EventOk(cfg, es, e)
    ensures Lawful(cfg, es + [e])
  {
    assert (es + [e])[..|es|] == es;
  }

  // ---------------------------------------------------------------- the loop invariant

  /** The events since the turn began, and how the loop variables follow from them. */
  ghost predicate Tracks(cfg: Config, base: seq<Event>, es: seq<Event>, t: Turn) {
    t.state.log == base + es && Follows(cfg, es, t)
  }

  ghost predicate Follows(cfg: Config, es: seq<Event>, t: Turn) {
    && Lawful(cfg, es)
    && t.tokens == Budget(cfg, Truncations(es))
    && t.explored == ExplorationRun(es)
    && Nudges(es) == (if t.nudged then 1 else 0)
  }

  lemma {:induction false} AddTextsKeepsLog(s: State, role: Role, texts: seq<string>)
    ensures AddTexts(s, role, texts).log == s.log
  {
    if texts != [] {
      AddTextsKeepsLog(s, role, texts[..|texts| - 1]);
    }
  }

  lemma {:induction false} AskNotesRequest(s: State, it: Iteration, tokens: nat)
    ensures Ask(s, it, tokens).log == s.log + [RequestOf(s, it, tokens)]
  {
    hide AddTexts, Context, ToWire, Sanitized, WithPrompt, Thread;
    AddTextsKeepsLog(s, User, it.steering);
    AddTextsKeepsLog(AddTexts(s, User, it.steering), System, it.notices);
    AddTextsKeepsLog(AddTexts(AddTexts(s, User, it.steering), System, it.notices), User, it.parentMessages);
  }

  lemma {:induction false} BudgetDoubles(cfg: Config, k: nat)
    ensures Budget(cfg, k + 1) ==
            if Budget(cfg, k) < cfg.ceiling then Min(2 * Budget(cfg, k), cfg.ceiling) else Budget(cfg, k)
  {
  }

  /** The dispatches of one batch are lawful after the reply that ordered them. */
  lemma {:induction false} BatchIsLawful(cfg: Config, es: seq<Event>, calls: seq<Item>, outcomes: seq<Outcome>)
    requires Lawful(cfg, es) && LastReply(es).Some? && LastReply(es).value.stop != Length
    requires forall c :: c in calls ==> c.ToolCall? && c.callId in LastReply(es).value.calls
    ensures Lawful(cfg, es + DispatchAll(calls, outcomes).tried)
    ensures Quiet(es, DispatchAll(calls, outcomes).tried)
  {
    hide Lawful, LastReply, Truncations, ExplorationRun, Nudges, Requests;
    if calls == [] {
      assert es + [] == es;
    } else {
      var n := |calls| - 1;
      BatchIsLawful(cfg, es, calls[..n], outcomes);
      var b := DispatchAll(calls[..n], outcomes);
      if !b.cancelled {
        assert calls[n] in calls;
        var e := Dispatched(calls[n].callId);
        Push(es + b.tried, e);
        PushLawful(cfg, es + b.tried, e);
        assert es + (b.tried + [e]) == es + b.tried + [e];
      }
    }
  }

  /** `more` changes none of the readings of `es`. */
  ghost predicate Quiet(es: seq<Event>, more: seq<Event>) {
    && Requests(es + more) == Requests(es) && Truncations(es + more) == Truncations(es)
    && Nudges(es + more) == Nudges(es) && ExplorationRun(es + more) == ExplorationRun(es)
    && LastReply(es + more) == LastReply(es)
  }

  lemma {:induction false} CallIdsAreIds(items: seq<Item>)
    ensures forall c :: c in ToolCallsOf(items) ==> c.callId in CallIds(items)
    ensures ToolCallsOf(items) == [] <==> CallIds(items) == []
  {
    ToolCallsHaveCallIds(items);
    forall c | c in ToolCallsOf(items) ensures c.callId in CallIds(items) {
      var i :| 0 <= i < |ToolCallsOf(items)| && ToolCallsOf(items)[i] == c;
      assert CallIds(items)[i] == c.callId;
    }
  }

  // ---------------------------------------------------------------- one iteration

  lemma {:induction false} RequestFollows(cfg: Config, es: seq<Event>, t: Turn, asked: Event)
    requires Follows(cfg, es, t) && asked.Requested? && asked.maxTokens == t.tokens
    ensures Follows(cfg, es + [asked], t)
    ensures Requests(es + [asked]) == Requests(es) + 1
  {
    hide Lawful, LastReply, Truncations, ExplorationRun, Nudges, Requests;
    Push(es, asked);
    PushLawful(cfg, es, asked);
  }

  lemma {:induction false} TruncationFollows(cfg: Config, es: seq<Event>, t: Turn, s: State, items: seq<Item>, e: Event)
    requires Follows(cfg, es, t)
    requires e == Replied(Length, CallIds(items), AllExploration(ToolCallsOf(items)))
    ensures Follows(cfg, es + [e], AfterTruncation(cfg, t, s, ToolCallsOf(items)))
    ensures AfterTruncation(cfg, t, s, ToolCallsOf(items)).state.log == s.log
    ensures Requests(es + [e]) == Requests(es)
  {
    hide Lawful, LastReply, Truncations, ExplorationRun, Nudges, Requests, Budget;
    Push(es, e);
    PushLawful(cfg, es, e);
    BudgetDoubles(cfg, Truncations(es));
  }

  lemma {:induction false} TextFollows(cfg: Config, es: seq<Event>, t: Turn, s: State, items: seq<Item>, it: Iteration,
          e: Event)
    requires Follows(cfg, es, t) && ToolCallsOf(items) == []
    requires e.Replied? && e.stop != Length && e.calls == CallIds(items)
    ensures Follows(cfg, es + [e], AfterText(t, s, it))
    ensures AfterText(t, s, it).state.log == s.log
    ensures Requests(es + [e]) == Requests(es)
  {
    hide Lawful, LastReply, Truncations, ExplorationRun, Nudges, Requests, AddTexts, ToolCallsOf, CallIds;
    CallIdsAreIds(items);
    Push(es, e);
    PushLawful(cfg, es, e);
    AddTextsKeepsLog(s, User, it.lateSteering);
    AddTextsKeepsLog(s, System, it.lateNotices);
    AddTextsKeepsLog(s, User, it.lateParentMessages);
  }

  /** The events of a reply whose calls are run: the dispatches, then perhaps the nudge. */
  lemma {:induction false} CallsFollow(cfg: Config, es: seq<Event>, t: Turn, s: State, items: seq<Item>, it: Iteration,
          e: Event)
    returns (more: seq<Event>)
    requires Follows(cfg, es, t) && ToolCallsOf(items) != []
    requires e.Replied? && e.stop != Length && e.calls == CallIds(items)
    requires e.exploring == AllExploration(ToolCallsOf(items))
    ensures Follows(cfg, es + [e] + more, AfterCalls(cfg, t, s, ToolCallsOf(items), it))
    ensures AfterCalls(cfg, t, s, ToolCallsOf(items), it).state.log == s.log + more
    ensures Requests(es + [e] + more) == Requests(es)
  {
    hide Lawful, LastReply, Truncations, ExplorationRun, Nudges, Requests, ToolCallsOf, CallIds, AllExploration,
      DispatchAll;
    var calls := ToolCallsOf(items);
    CallIdsAreIds(items);
    Push(es, e);
    PushLawful(cfg, es, e);
    BatchIsLawful(cfg, es + [e], calls, it.outcomes);
    more := DispatchAll(calls, it.outcomes).tried;
    var ran := es + [e] + more;
    var explored := if AllExploration(calls) then t.explored + 1 else 0;
    if cfg.nudgeThreshold > 0 && explored >= cfg.nudgeThreshold && !t.nudged {
      Push(ran, Nudged);
      PushLawful(cfg, ran, Nudged);
      assert es + [e] + (more + [Nudged]) == ran + [Nudged];
      more := more + [Nudged];
    }
  }

  /** One round of the loop adds lawful events with at most one request among them, and exactly
      one if the loop goes on. */
  lemma {:induction false} IterationTracks(cfg: Config, base: seq<Event>, es: seq<Event>, t: Turn, it: Iteration)
    returns (es': seq<Event>)
    requires Tracks(cfg, base, es, t) && !t.over
    ensures Tracks(cfg, base, es', OneIteration(cfg, t, it))
    ensures Requests(es') <= Requests(es) + 1
    ensures !OneIteration(cfg, t, it).over ==> Requests(es') == Requests(es) + 1
  {
    hide Lawful, LastReply, Truncations, ExplorationRun, Nudges, Requests, ToolCallsOf, CallIds, AllExploration, Ask,
      RequestOf, AfterTruncation, AfterText, AfterCalls;
    if it.cancelled {
      es' := es;
    } else {
      AskNotesRequest(t.state, it, t.tokens);
      var asked := RequestOf(t.state, it, t.tokens);
      RequestFollows(cfg, es, t, asked);
      es' := es + [asked];
      assert base + es + [asked] == base + es';
      if it.reply.Answer? {
        var items, stop := it.reply.items, it.reply.stop;
        var calls := ToolCallsOf(items);
        var e := Replied(stop, CallIds(items), AllExploration(calls));
        var s := Note(Add(Ask(t.state, it, t.tokens), Assistant, items), e);
        assert s.log == base + (es' + [e]);
        if stop == Length {
          TruncationFollows(cfg, es', t, s, items, e);
          es' := es' + [e];
        } else if calls == [] {
          TextFollows(cfg, es', t, s, items, it, e);
          es' := es' + [e];
        } else {
          var more := CallsFollow(cfg, es', t, s, items, it, e);
          assert base + (es' + [e]) + more == base + (es' + [e] + more);
          es' := es' + [e] + more;
        }
      }
    }
  }

  // ---------------------------------------------------------------- the turn

  lemma {:induction false} LoopTracks(cfg: Config, t: Turn, script: seq<Iteration>, n: nat) returns (es: seq<Event>)
    requires n <= |script| && !t.over && Tracks(cfg, t.state.log, [], t)
    ensures Tracks(cfg, t.state.log, es, TurnAfter(cfg, t, script, n))
    ensures Requests(es) <= n
    ensures !TurnAfter(cfg, t, script, n).over ==> Requests(es) == n
  {
    hide Tracks, OneIteration;
    es := [];
    if n > 0 {
      es := LoopTracks(cfg, t, script, n - 1);
      var before := TurnAfter(cfg, t, script, n - 1);
      if !before.over {
        es := IterationTracks(cfg, t.state.log, es, before, script[n - 1]);
      }
    }
  }

  /** The laws of `process_turn`, whatever the provider, the tools and the user do; `|script|` is
      the iteration cap. There are at most that many requests; a request after `k` truncated
      replies asks for the configured budget doubled `k` times, up to the ceiling; only calls of
      the latest reply are run, and only if it was not truncated; at most one nudge is given, and
      only after enough exploration-only rounds in a row; the turn ends with one `TurnDone`,
      which reports the cap only if every round made a request. */
  lemma {:induction false} TurnIsLawful(cfg: Config, s: State, text: string, script: seq<Iteration>)
    returns (es: seq<Event>, capped: bool)
    ensures ProcessTurn(cfg, s, text, script).log == s.log + es + [TurnDone(capped)]
    ensures capped <==> !TurnAfter(cfg, StartTurn(cfg, s, text), script, |script|).over
    ensures Requests(es) <= |script| && (capped ==> Requests(es) == |script|)
    ensures Nudges(es) <= 1
    ensures forall j :: 0 <= j < |es| ==> EventOk(cfg, es[..j], es[j])
  {
    hide Lawful, Truncations, ExplorationRun, Nudges, Requests, EventOk, Budget;
    var t := StartTurn(cfg, s, text);
    NothingYet(cfg);
    assert s.log + [] == s.log;
    es := LoopTracks(cfg, t, script, |script|);
    capped := !TurnAfter(cfg, t, script, |script|).over;
    forall j | 0 <= j < |es| ensures EventOk(cfg, es[..j], es[j]) {
      LawfulAt(cfg, es, j);
    }
  }

  lemma {:induction false} NothingYet(cfg: Config)
    ensures Lawful(cfg, []) && Budget(cfg, Truncations([])) == cfg.maxTokens
    ensures ExplorationRun([]) == 0 && Nudges([]) == 0
  {
  }

  /** A truncated reply: none of its calls is run, and its thread gets one tool message with one
      error result for each call, in call order (none if there are no calls). */
  lemma {:induction false} TruncatedReplyRunsNothing(cfg: Config, t: Turn, it: Iteration)
    requires !it.cancelled && it.reply.Answer? && it.reply.stop == Length
    ensures var items, before, after := it.reply.items, Ask(t.state, it, t.tokens), OneIteration(cfg, t, it).state;
      && after.log == before.log + [Replied(Length, CallIds(items), AllExploration(ToolCallsOf(items)))]
      && (if CallIds(items) == [] then after.tree == Append(before.tree, Message(before.nextId, Assistant, items))
          else exists results: seq<Item> ::
                 && after.tree == Append(Append(before.tree, Message(before.nextId, Assistant, items)),
                                          Message(before.nextId + 1, Tool, results))
                 && ResultIds(results) == CallIds(items)
                 && forall r :: r in results ==> r.ToolResult? && r.isError)
  {
    hide Ask, ToolCallsOf, CallIds, ResultIds, AllExploration;
    var items := it.reply.items;
    CallIdsAreIds(items);
    ToolCallsHaveCallIds(items);
    var results := TruncatedResults(ToolCallsOf(items));
    ResultIdsOfResults(results, CallIds(items));
  }
}
