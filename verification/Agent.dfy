/** The agent as a state machine (`src/agent.rs`): what each command does to the session tree,
    the id counter, the summary cache and the trace of observable events. Everything the
    outside world decides, from provider replies to cancellation, comes in as a script.
 */
module Agent {
  import opened Wrappers
  import opened Messages
  import opened SessionTree
  import opened Wire
  import opened Compaction

  // ---------------------------------------------------------------- the outside world

  datatype StopReason = Finish | CallTools | Length | OtherReason

  /** The outcome of `complete_retrying`: an error after its retries, or a completion. */
  datatype Reply = Failure | Answer(items: seq<Item>, stop: StopReason)

  datatype Outcome = Finished(output: string, isError: bool) | CancelledByUser

  /** All that one iteration of the turn loop reads from outside. `compactFull` and
      `compactTier1` are the two size tests, `summary` is the summariser's answer if it is
      asked, `files` the rendered file list, and the `late` queues are those drained when a
      reply without tool calls would end the turn. */
  datatype Iteration = Iteration(
    cancelled: bool, steering: seq<string>, notices: seq<string>, parentMessages: seq<string>,
    prompt: string, observation: string,
    compactFull: bool, compactTier1: bool, summary: Option<string>, files: string,
    reply: Reply, outcomes: seq<Outcome>,
    lateSteering: seq<string>, lateNotices: seq<string>, lateParentMessages: seq<string>)

  datatype Config = Config(maxTokens: nat, ceiling: nat, nudgeThreshold: nat)

  // ---------------------------------------------------------------- the state

  /** A request is recorded with the messages it was made of, before these were sanitised. */
  datatype Event =
    | Requested(maxTokens: nat, messages: seq<Message>, wire: seq<Entry>)
    | Replied(stop: StopReason, calls: seq<string>, exploring: bool)
    | Dispatched(callId: string)
    | Nudged
    | TurnDone(capped: bool)

  /** The in-memory tier-2 cache. `fed` records the messages whose text went into `text`. */
  datatype Tier2Summary = Tier2Summary(coveredLastId: nat, text: string, files: Files, fed: seq<Message>)

  datatype State = State(tree: Tree, nextId: nat, cache: Option<Tier2Summary>, log: seq<Event>)

  const INITIAL := State(EMPTY, 0, None, [])

  function Add(s: State, role: Role, items: seq<Item>): State {
    s.(tree := Append(s.tree, Message(s.nextId, role, items)), nextId := s.nextId + 1)
  }

  function AddTexts(s: State, role: Role, texts: seq<string>): State {
    if texts == [] then s
    else Add(AddTexts(s, role, texts[..|texts| - 1]), role, [Text(texts[|texts| - 1])])
  }

  function Note(s: State, e: Event): State {
    s.(log := s.log + [e])
  }

  function NoteAll(s: State, es: seq<Event>): State {
    s.(log := s.log + es)
  }

  // ---------------------------------------------------------------- the working set

  /** First position of the span whose id lies above the covered one; the span start if none. */
  function IncrementStart(t: seq<Message>, start: nat, end: nat, covered: nat): (r: nat)
    requires start <= end <= |t|
    ensures start <= r <= end
    decreases end - start
  {
    FirstAbove(t, start, end, covered).GetOr(start)
  }

  function FirstAbove(t: seq<Message>, from: nat, end: nat, covered: nat): (r: Option<nat>)
    requires from <= end <= |t|
    ensures r.Some? ==> from <= r.value < end && t[r.value].id > covered
    ensures r.Some? ==> forall i :: from <= i < r.value ==> t[i].id <= covered
    ensures r.None? ==> forall i :: from <= i < end ==> t[i].id <= covered
    decreases end - from
  {
    if from == end then None
    else if t[from].id > covered then Some(from)
    else FirstAbove(t, from + 1, end, covered)
  }

  const NO_FILES := Files({}, {})

  /** The cache after summarising the span `[start, end)`; None when the summariser fails. */
  function Summarise(cache: Option<Tier2Summary>, t: seq<Message>, start: nat, end: nat,
          summary: Option<string>): Option<Tier2Summary>
    requires start < end <= |t|
  {
    var last := t[end - 1].id;
    if cache.Some? && cache.value.coveredLastId == last then cache
    else if summary.None? then None
    else if cache.Some? && cache.value.coveredLastId < last then
      var slice := t[IncrementStart(t, start, end, cache.value.coveredLastId)..end];
      Some(Tier2Summary(last, summary.value, CollectFiles(cache.value.files, slice), cache.value.fed + slice))
    else
      var slice := t[start..end];
      Some(Tier2Summary(last, summary.value, CollectFiles(NO_FILES, slice), slice))
  }

  function Observe(t: seq<Message>, observation: string): seq<Message> {
    if observation == "" then t else t + [TextMessage(MAX_ID, System, "## Previous Turn Trace\n" + observation)]
  }

  /** `context_working_set`: the messages to send and the cache afterwards. */
  function Context(t: seq<Message>, cache: Option<Tier2Summary>, it: Iteration): (seq<Message>, Option<Tier2Summary>) {
    var tier1 := WorkingSet(t, it.compactFull);
    if !it.compactTier1 then (Observe(tier1, it.observation), cache)
    else
      var span := SummarySpan(t);
      if span.None? then (tier1, cache)
      else
        var (start, end) := span.value;
        var fresh' := Summarise(cache, t, start, end, it.summary);
        if fresh'.None? then (tier1, cache)
        else
          var tier2 := ApplyTier2(tier1, t[start - 1].id, t[end - 1].id, fresh'.value.text + it.files);
          (Observe(tier2, it.observation), fresh')
  }

  /** Whether the request carries a summary for the span. */
  predicate Summarises(t: seq<Message>, cache: Option<Tier2Summary>, it: Iteration) {
    && it.compactTier1 && SummarySpan(t).Some?
    && Summarise(cache, t, SummarySpan(t).value.0, SummarySpan(t).value.1, it.summary).Some?
  }

  function WithPrompt(prompt: string, working: seq<Message>): seq<Message> {
    if prompt == "" then working else [TextMessage(MAX_ID, System, prompt)] + working
  }

  // ---------------------------------------------------------------- one iteration

  function ToolCallsOf(items: seq<Item>): (r: seq<Item>)
    ensures forall c :: c in r ==> c.ToolCall?
  {
    if items == [] then []
    else
      var n := |items| - 1;
      ToolCallsOf(items[..n]) + if items[n].ToolCall? then [items[n]] else []
  }

  const EXPLORATION_TOOLS := {"read_file", "glob", "grep", "diff"}

  predicate AllExploration(calls: seq<Item>)
    requires forall c :: c in calls ==> c.ToolCall?
  {
    calls != [] && forall c :: c in calls ==> c.name in EXPLORATION_TOOLS
  }

  const TRUNCATION_NOTE :=
    "tool call truncated: the response hit max_tokens before the arguments finished. Not executed."

  /** One error result for each call of a truncated reply. */
  function TruncatedResults(calls: seq<Item>): (r: seq<Item>)
    requires forall c :: c in calls ==> c.ToolCall?
    ensures |r| == |calls| && forall i :: 0 <= i < |calls| ==>
              r[i] == ToolResult(calls[i].callId, TRUNCATION_NOTE, true)
  {
    seq(|calls|, i requires 0 <= i < |calls| => ToolResult(calls[i].callId, TRUNCATION_NOTE, true))
  }

  /** `tried` lists the calls handed to `dispatch_tool`; the last one is the cancelled one, if any. */
  datatype Batch = Batch(results: seq<Item>, tried: seq<Event>, cancelled: bool)

  function DispatchAll(calls: seq<Item>, outcomes: seq<Outcome>): Batch
    requires forall c :: c in calls ==> c.ToolCall?
  {
    if calls == [] then Batch([], [], false)
    else
      var n := |calls| - 1;
      var b := DispatchAll(calls[..n], outcomes);
      if b.cancelled then b
      else
        var tried := b.tried + [Dispatched(calls[n].callId)];
        if n < |outcomes| && outcomes[n].Finished?
        then Batch(b.results + [ToolResult(calls[n].callId, outcomes[n].output, outcomes[n].isError)], tried, false)
        else Batch(b.results, tried, true)
  }

  /** The variables of the turn loop. */
  datatype Turn = Turn(state: State, tokens: nat, explored: nat, nudged: bool, over: bool)

  function Min(a: nat, b: nat): nat {
    if a < b then a else b
  }

  function Drained(s: State, it: Iteration): State {
    AddTexts(AddTexts(AddTexts(s, User, it.steering), System, it.notices), User, it.parentMessages)
  }

  /** Drain the queues, build the request and send it. */
  function Ask(s: State, it: Iteration, tokens: nat): State {
    var d := Drained(s, it);
    var (working, cache) := Context(Thread(d.tree), d.cache, it);
    var messages := WithPrompt(it.prompt, working);
    Note(d.(cache := cache), Requested(tokens, messages, ToWire(Sanitized(messages))))
  }

  /** The request that `Ask` sends. */
  function RequestOf(s: State, it: Iteration, tokens: nat): (e: Event)
    ensures e.Requested? && e.maxTokens == tokens
  {
    var d := Drained(s, it);
    var messages := WithPrompt(it.prompt, Context(Thread(d.tree), d.cache, it).0);
    Requested(tokens, messages, ToWire(Sanitized(messages)))
  }

  const NUDGE_TEXT := "You have only explored for several tool steps without making a change."

  /** A reply cut off at the token limit: its calls are answered with errors, never run. */
  function AfterTruncation(cfg: Config, t: Turn, s: State, calls: seq<Item>): Turn
    requires forall c :: c in calls ==> c.ToolCall?
  {
    var s' := if calls == [] then s else Add(s, Tool, TruncatedResults(calls));
    if t.tokens < cfg.ceiling then t.(state := s', tokens := Min(2 * t.tokens, cfg.ceiling))
    else t.(state := s', over := calls == [])
  }

  /** A reply without calls ends the turn unless something arrived in the meantime. */
  function AfterText(t: Turn, s: State, it: Iteration): Turn {
    if it.lateSteering != [] then t.(state := AddTexts(s, User, it.lateSteering))
    else if it.lateNotices != [] then t.(state := AddTexts(s, System, it.lateNotices))
    else if it.lateParentMessages != [] then t.(state := AddTexts(s, User, it.lateParentMessages))
    else t.(state := s, over := true)
  }

  /** Run the calls, append their results, count exploration, nudge once. */
  function AfterCalls(cfg: Config, t: Turn, s: State, calls: seq<Item>, it: Iteration): Turn
    requires forall c :: c in calls ==> c.ToolCall?
  {
    var b := DispatchAll(calls, it.outcomes);
    var ran := NoteAll(s, b.tried);
    var s' := if b.results == [] then ran else Add(ran, Tool, b.results);
    var explored := if AllExploration(calls) then t.explored + 1 else 0;
    var nudge := cfg.nudgeThreshold > 0 && explored >= cfg.nudgeThreshold && !t.nudged;
    var s'' := if nudge then Note(Add(s', User, [Text(NUDGE_TEXT)]), Nudged) else s';
    Turn(s'', t.tokens, explored, t.nudged || nudge, b.cancelled)
  }

  function OneIteration(cfg: Config, t: Turn, it: Iteration): Turn {
    if it.cancelled then t.(over := true)
    else
      var asked := Ask(t.state, it, t.tokens);
      match it.reply
      case Failure => t.(state := asked, over := true)
      case Answer(items, stop) =>
        var calls := ToolCallsOf(items);
        var s := Note(Add(asked, Assistant, items), Replied(stop, CallIds(items), AllExploration(calls)));
        if stop == Length then AfterTruncation(cfg, t, s, calls)
        else if calls == [] then AfterText(t, s, it)
        else AfterCalls(cfg, t, s, calls, it)
  }

  // ---------------------------------------------------------------- turns and runs

  /** The turn after `n` rounds of its script; `|script|` is the iteration cap. */
  function TurnAfter(cfg: Config, t: Turn, script: seq<Iteration>, n: nat): Turn
    requires n <= |script|
  {
    if n == 0 then t
    else
      var before := TurnAfter(cfg, t, script, n - 1);
      if before.over then before else OneIteration(cfg, before, script[n - 1])
  }

  function StartTurn(cfg: Config, s: State, text: string): Turn {
    Turn(Add(s, User, [Text(text)]), cfg.maxTokens, 0, false, false)
  }

  /** `process_turn`. */
  function ProcessTurn(cfg: Config, s: State, text: string, script: seq<Iteration>): State {
    var t := TurnAfter(cfg, StartTurn(cfg, s, text), script, |script|);
    Note(t.state, TurnDone(!t.over))
  }

  /** Commands of the agent; a resume brings the tree of the latest session file, if there is one
      that can be loaded. */
  datatype Command =
    | ProcessMessage(text: string, script: seq<Iteration>)
    | Navigate(id: nat)
    | Clear
    | Resume(saved: Option<Tree>)

  function Execute(cfg: Config, s: State, c: Command): State {
    match c
    case ProcessMessage(text, script) => ProcessTurn(cfg, s, text, script)
    case Navigate(id) => s.(tree := NavigateTo(s.tree, id))
    case Clear => s.(tree := EMPTY, nextId := 0, cache := None)
    case Resume(None) => s
    case Resume(Some(saved)) => s.(tree := saved, nextId := NextMessageId(saved.entries), cache := None)
  }

  function ExecuteAll(cfg: Config, s: State, cs: seq<Command>): State {
    if cs == [] then s else Execute(cfg, ExecuteAll(cfg, s, cs[..|cs| - 1]), cs[|cs| - 1])
  }

  /** The turn as the `n`-th round of the `i`-th command of a run finds it. */
  function TurnBefore(cfg: Config, cs: seq<Command>, i: nat, n: nat): Turn
    requires i < |cs| && cs[i].ProcessMessage? && n <= |cs[i].script|
  {
    TurnAfter(cfg, StartTurn(cfg, ExecuteAll(cfg, INITIAL, cs[..i]), cs[i].text), cs[i].script, n)
  }

  /** That round is reached and sends a request. */
  predicate AsksAt(cfg: Config, cs: seq<Command>, i: nat, n: nat) {
    && i < |cs| && cs[i].ProcessMessage? && n < |cs[i].script|
    && !TurnBefore(cfg, cs, i, n).over && !cs[i].script[n].cancelled
  }
}
