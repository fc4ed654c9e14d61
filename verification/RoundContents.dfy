/** What one round of the turn loop says and writes down: the texts of a request, the results of a
    batch, the messages that go on the thread, and when the turn ends.
 */
module RoundContents {
  import opened Wrappers
  import opened Sequences
  import opened Messages
  import opened SessionTree
  import opened Wire
  import opened Compaction
  import opened CompactionKeepsPairing
  import opened Agent
  import RequestPairing

  // ---------------------------------------------------------------- the batch

  /** The calls of a reply, in order. */
  lemma {:induction false} CallsInOrder(items: seq<Item>)
    ensures Filtered(items, IsCall(), Itself(), ToolCallsOf(items))
  {
    if items == [] {
      FilteredNothing(IsCall(), Itself<Item>());
    } else {
      var n := |items| - 1;
      CallsInOrder(items[..n]);
      FilteredNext(items[..n], IsCall(), Itself(), ToolCallsOf(items[..n]), items[n]);
      assert items == items[..n] + [items[n]];
    }
  }

  /** A reply explores if it has calls and all of them are of the four tools that only look. */
  lemma {:induction false} ExploringMeans(items: seq<Item>)
    ensures AllExploration(ToolCallsOf(items)) <==>
            && (exists x :: x in items && x.ToolCall?)
            && (forall x :: x in items && x.ToolCall? ==> x.name in {"read_file", "glob", "grep", "diff"})
  {
    forall x ensures x in ToolCallsOf(items) <==> x in items && x.ToolCall? {
      CallsAreItems(items, x);
    }
    if x :| x in items && x.ToolCall? {
      assert x in ToolCallsOf(items);
    } else if ToolCallsOf(items) != [] {
      assert ToolCallsOf(items)[0] in ToolCallsOf(items);
    }
  }

  lemma {:induction false} CallsAreItems(items: seq<Item>, x: Item)
    ensures x in ToolCallsOf(items) <==> x in items && x.ToolCall?
  {
    if items != [] {
      var n := |items| - 1;
      CallsAreItems(items[..n], x);
      assert items == items[..n] + [items[n]];
    }
  }

  /** Each result carries the id of its own call and the output of its own outcome; the batch ends
      early exactly at the first call that does not finish, and nothing after it is tried. */
  lemma {:induction false} BatchIs(calls: seq<Item>, outcomes: seq<Outcome>)
    requires forall c :: c in calls ==> c.ToolCall?
    ensures var b := DispatchAll(calls, outcomes);
      var r := b.results;
      && |r| <= |calls| && |r| <= |outcomes|
      && (forall i :: 0 <= i < |r| ==> outcomes[i].Finished? &&
                                       r[i] == ToolResult(calls[i].callId, outcomes[i].output, outcomes[i].isError))
      && (b.cancelled <==> |r| < |calls|)
      && (b.cancelled ==> |r| == |outcomes| || outcomes[|r|].CancelledByUser?)
      && |b.tried| == |r| + (if b.cancelled then 1 else 0)
      && (forall i :: 0 <= i < |b.tried| ==> b.tried[i] == Dispatched(calls[i].callId))
  {
    if calls != [] {
      BatchIs(calls[..|calls| - 1], outcomes);
    }
  }

  // ---------------------------------------------------------------- the summary

  /** A summary of a span that the cache ends with stays as it is. Any other carries the text just
      given, and it was made of the span from position `k` on: behind what an older cache covers, which
      was fed before, or else from the start. */
  lemma {:induction false} SummaryIs(cache: Option<Tier2Summary>, t: seq<Message>, start: nat, end: nat,
          summary: Option<string>) returns (k: nat)
    requires start < end <= |t|
    ensures start <= k < end
    ensures var last := t[end - 1].id;
      var r := Summarise(cache, t, start, end, summary);
      if cache.Some? && cache.value.coveredLastId == last then r == cache
      else if summary.None? then r.None?
      else
        var older := cache.Some? && cache.value.coveredLastId < last;
        && r == Some(Tier2Summary(last, summary.value,
                                  CollectFiles(if older then cache.value.files else Files({}, {}), t[k..end]),
                                  (if older then cache.value.fed else []) + t[k..end]))
        && (if older
            then t[k].id > cache.value.coveredLastId &&
                 forall i :: start <= i < k ==> t[i].id <= cache.value.coveredLastId
            else k == start)
  {
    k := start;
    assert [] + t[start..end] == t[start..end];
    if cache.Some? && cache.value.coveredLastId < t[end - 1].id {
      k := IncrementStart(t, start, end, cache.value.coveredLastId);
      assert FirstAbove(t, start, end, cache.value.coveredLastId).Some?;
    }
  }

  /** The note on the previous turn, if there is one. */
  function NoteOf(observation: string): seq<Message> {
    if observation == "" then []
    else [Message(0xFFFF_FFFF_FFFF_FFFF, System, [Text("## Previous Turn Trace\n" + observation)])]
  }

  /** The messages to send: the thread shaped by tier 1; if a summary is wanted and there is one, its
      text with the file list in place of the span, unless nothing of the span is left. A note
      follows, except when a summary was wanted and could not be had. */
  lemma {:induction false} ContextIs(t: seq<Message>, cache: Option<Tier2Summary>, it: Iteration)
    requires AscendingIds(t)
    ensures var (sent, kept) := Context(t, cache, it);
      var span := SummarySpan(t);
      var note := NoteOf(it.observation);
      if !it.compactTier1 then sent == WorkingSet(t, it.compactFull) + note && kept == cache
      else if span.None? then sent == WorkingSet(t, it.compactFull) && kept == cache
      else
        var (start, end) := span.value;
        var r := Summarise(cache, t, start, end, it.summary);
        if r.None? then sent == WorkingSet(t, it.compactFull) && kept == cache
        else
          && kept == r
          && sent == Shaped(t, it.compactFull, start)
                     + (if it.compactFull && AllEvaporate(t, start, end) then []
                        else [Message(0xFFFF_FFFF_FFFF_FFFF, System,
                                      [Text("先前对话摘要：\n" + r.value.text + it.files)])])
                     + ShapedFrom(t, it.compactFull, end, |t|) + note
  {
    hide WorkingSet, SummarySpan, Summarise, ApplyTier2, Shaped, ShapedFrom, AllEvaporate, AscendingIds;
    assert WorkingSet(t, it.compactFull) + [] == WorkingSet(t, it.compactFull);
    if it.compactTier1 && SummarySpan(t).Some? {
      var (start, end) := SummarySpan(t).value;
      var r := Summarise(cache, t, start, end, it.summary);
      if r.Some? {
        SummaryIsLostIff(t, it.compactFull, r.value.text + it.files);
        SummaryMessageIs(r.value.text, it.files);
      }
    }
  }

  lemma {:induction false} SummaryMessageIs(text: string, files: string)
    ensures SummaryMessage(text + files) ==
            Message(0xFFFF_FFFF_FFFF_FFFF, System, [Text("先前对话摘要：\n" + text + files)])
  {
    assert SUMMARY_PREFIX + (text + files) == SUMMARY_PREFIX + text + files;
  }

  // ---------------------------------------------------------------- the queues

  /** The texts as messages of one role, with ids from `id` on. */
  function AsMessages(id: nat, role: Role, texts: seq<string>): (r: seq<Message>)
    ensures |r| == |texts| && forall k :: 0 <= k < |texts| ==> r[k] == Message(id + k, role, [Text(texts[k])])
  {
    seq(|texts|, k requires 0 <= k < |texts| => Message(id + k, role, [Text(texts[k])]))
  }

  lemma {:induction false} TextsJoin(s: State, role: Role, texts: seq<string>)
    ensures var r := AddTexts(s, role, texts);
      && Thread(r.tree) == Thread(s.tree) + AsMessages(s.nextId, role, texts)
      && r.nextId == s.nextId + |texts| && r.cache == s.cache && r.log == s.log
  {
    hide Thread, Append;
    if texts == [] {
      assert Thread(s.tree) + [] == Thread(s.tree);
    } else {
      var n := |texts| - 1;
      TextsJoin(s, role, texts[..n]);
      var before := AddTexts(s, role, texts[..n]);
      var m := Message(before.nextId, role, [Text(texts[n])]);
      AppendExtendsThread(before.tree, m);
      assert AsMessages(s.nextId, role, texts) == AsMessages(s.nextId, role, texts[..n]) + [m];
    }
  }

  /** What was queued, in the order in which it is drained: steering, notices, messages of the parent. */
  function Queued(id: nat, it: Iteration): seq<Message> {
    AsMessages(id, User, it.steering)
    + AsMessages(id + |it.steering|, System, it.notices)
    + AsMessages(id + |it.steering| + |it.notices|, User, it.parentMessages)
  }

  lemma {:induction false} DrainedIs(s: State, it: Iteration)
    ensures var d := Drained(s, it);
      Thread(d.tree) == Thread(s.tree) + Queued(s.nextId, it) && d.nextId == s.nextId + |Queued(s.nextId, it)| &&
      d.cache == s.cache && d.log == s.log
  {
    hide Thread, AddTexts, AsMessages;
    var a := AddTexts(s, User, it.steering);
    var b := AddTexts(a, System, it.notices);
    TextsJoin(s, User, it.steering);
    TextsJoin(a, System, it.notices);
    TextsJoin(b, User, it.parentMessages);
  }

  /** A request: everything queued goes on the thread, what is sent is the prompt and then the
      working set of that thread, and nothing else of the state changes but the summary cache. */
  lemma {:induction false} RequestIs(s: State, it: Iteration, tokens: nat)
    ensures var r := Ask(s, it, tokens);
      var t := Thread(s.tree) + Queued(s.nextId, it);
      var (sent, kept) := Context(t, s.cache, it);
      var prompt := if it.prompt == "" then []
                    else [Message(0xFFFF_FFFF_FFFF_FFFF, System, [Text(it.prompt)])];
      && Thread(r.tree) == t && r.nextId == s.nextId + |Queued(s.nextId, it)| && r.cache == kept
      && r.log == s.log + [Requested(tokens, prompt + sent, ToWire(Sanitized(prompt + sent)))]
  {
    hide Thread, Drained, Context, Queued, ToWire, Sanitized;
    DrainedIs(s, it);
    var sent := Context(Thread(s.tree) + Queued(s.nextId, it), s.cache, it).0;
    assert [] + sent == sent;
  }

  // ---------------------------------------------------------------- the round

  /** The first queue that is not empty when a reply without calls would end the turn. */
  function LateTexts(id: nat, it: Iteration): seq<Message> {
    if it.lateSteering != [] then AsMessages(id, User, it.lateSteering)
    else if it.lateNotices != [] then AsMessages(id, System, it.lateNotices)
    else AsMessages(id, User, it.lateParentMessages)
  }

  /** Whether the agent is told to stop exploring after this batch. */
  predicate NudgeDue(cfg: Config, t: Turn, calls: seq<Item>)
    requires forall c :: c in calls ==> c.ToolCall?
  {
    !t.nudged && cfg.nudgeThreshold > 0 && AllExploration(calls) && t.explored + 1 >= cfg.nudgeThreshold
  }

  function NudgeOf(cfg: Config, t: Turn, calls: seq<Item>, id: nat): seq<Message>
    requires forall c :: c in calls ==> c.ToolCall?
  {
    if NudgeDue(cfg, t, calls)
    then [Message(id, User, [Text("You have only explored for several tool steps without making a change.")])]
    else []
  }

  /** The results as one message, if there are any. */
  function ResultsOf(id: nat, results: seq<Item>): seq<Message> {
    if results == [] then [] else [Message(id, Tool, results)]
  }

  /** What goes on the thread after the reply. */
  function Aftermath(cfg: Config, t: Turn, it: Iteration, id: nat): seq<Message>
    requires it.reply.Answer?
  {
    var calls := ToolCallsOf(it.reply.items);
    if it.reply.stop == Length then ResultsOf(id, TruncatedResults(calls))
    else if calls == [] then LateTexts(id, it)
    else
      var results := ResultsOf(id, DispatchAll(calls, it.outcomes).results);
      results + NudgeOf(cfg, t, calls, id + |results|)
  }

  /** The events after the reply: the dispatches, and the nudge. */
  function EventsOf(cfg: Config, t: Turn, it: Iteration): seq<Event>
    requires it.reply.Answer?
  {
    var calls := ToolCallsOf(it.reply.items);
    if it.reply.stop == Length || calls == [] then []
    else DispatchAll(calls, it.outcomes).tried + if NudgeDue(cfg, t, calls) then [Nudged] else []
  }

  lemma {:induction false} AddJoins(s: State, role: Role, items: seq<Item>)
    ensures var r := Add(s, role, items);
      Thread(r.tree) == Thread(s.tree) + [Message(s.nextId, role, items)] && r.nextId == s.nextId + 1
  {
    hide Thread;
    AppendExtendsThread(s.tree, Message(s.nextId, role, items));
  }

  lemma {:induction false} AfterTruncationIs(cfg: Config, t: Turn, s: State, it: Iteration)
    requires it.reply.Answer? && it.reply.stop == Length
    ensures var r := AfterTruncation(cfg, t, s, ToolCallsOf(it.reply.items)).state;
      && Thread(r.tree) == Thread(s.tree) + Aftermath(cfg, t, it, s.nextId)
      && r.log == s.log + EventsOf(cfg, t, it) && r.cache == s.cache
  {
    hide Thread, Append, ToolCallsOf;
    AddJoins(s, Tool, TruncatedResults(ToolCallsOf(it.reply.items)));
    assert Thread(s.tree) + [] == Thread(s.tree) && s.log + [] == s.log;
  }

  lemma {:induction false} AfterTextIs(cfg: Config, t: Turn, s: State, it: Iteration)
    requires it.reply.Answer? && it.reply.stop != Length && ToolCallsOf(it.reply.items) == []
    ensures var r := AfterText(t, s, it).state;
      && Thread(r.tree) == Thread(s.tree) + Aftermath(cfg, t, it, s.nextId)
      && r.log == s.log + EventsOf(cfg, t, it) && r.cache == s.cache
  {
    hide Thread, AddTexts, ToolCallsOf, AsMessages;
    TextsJoin(s, User, it.lateSteering);
    TextsJoin(s, System, it.lateNotices);
    TextsJoin(s, User, it.lateParentMessages);
    assert Thread(s.tree) + [] == Thread(s.tree) && s.log + [] == s.log;
  }

  lemma {:induction false} AfterCallsIs(cfg: Config, t: Turn, s: State, it: Iteration)
    requires it.reply.Answer? && it.reply.stop != Length && ToolCallsOf(it.reply.items) != []
    ensures var r := AfterCalls(cfg, t, s, ToolCallsOf(it.reply.items), it).state;
      && Thread(r.tree) == Thread(s.tree) + Aftermath(cfg, t, it, s.nextId)
      && r.log == s.log + EventsOf(cfg, t, it) && r.cache == s.cache
  {
    hide Thread, Append, ToolCallsOf, DispatchAll, AllExploration;
    var calls := ToolCallsOf(it.reply.items);
    var b := DispatchAll(calls, it.outcomes);
    var ran := NoteAll(s, b.tried);
    AddJoins(ran, Tool, b.results);
    var s' := if b.results == [] then ran else Add(ran, Tool, b.results);
    var results := ResultsOf(s.nextId, b.results);
    assert Thread(s'.tree) == Thread(s.tree) + results && s'.nextId == s.nextId + |results|;
    AddJoins(s', User, [Text(NUDGE_TEXT)]);
    assert Thread(s'.tree) + [] == Thread(s'.tree) && s'.log + [] == s'.log;
  }

  /** One round writes on the thread what was queued, the reply, and then, in this order: an error for
      each truncated call; or the first queue found not empty; or the results and the nudge. A round
      that is cancelled writes nothing, one whose request fails nothing but what was queued. */
  lemma {:induction false} RoundWrites(cfg: Config, t: Turn, it: Iteration)
    ensures var r := OneIteration(cfg, t, it).state;
      var asked := Ask(t.state, it, t.tokens);
      if it.cancelled then r == t.state
      else if it.reply.Failure? then r == asked
      else
        var items, stop := it.reply.items, it.reply.stop;
        && Thread(r.tree) == Thread(asked.tree) + [Message(asked.nextId, Assistant, items)]
                             + Aftermath(cfg, t, it, asked.nextId + 1)
        && r.log == asked.log + [Replied(stop, CallIds(items), AllExploration(ToolCallsOf(items)))]
                    + EventsOf(cfg, t, it)
        && r.cache == asked.cache
  {
    hide Thread, Append, Ask, ToolCallsOf, CallIds, AllExploration, AfterTruncation, AfterText, AfterCalls, Aftermath,
      EventsOf;
    if !it.cancelled && it.reply.Answer? {
      var items := it.reply.items;
      var asked := Ask(t.state, it, t.tokens);
      AddJoins(asked, Assistant, items);
      var s := Note(Add(asked, Assistant, items),
                    Replied(it.reply.stop, CallIds(items), AllExploration(ToolCallsOf(items))));
      if it.reply.stop == Length {
        AfterTruncationIs(cfg, t, s, it);
      } else if ToolCallsOf(items) == [] {
        AfterTextIs(cfg, t, s, it);
      } else {
        AfterCallsIs(cfg, t, s, it);
      }
    }
  }

  /** The turn ends with a round exactly if it was cancelled, its request failed, its calls did not
      all finish, or its reply has no calls and nothing was queued meanwhile, or was truncated with
      the budget at the ceiling. */
  lemma {:induction false} TurnEndsIff(cfg: Config, t: Turn, it: Iteration)
    requires !t.over
    ensures OneIteration(cfg, t, it).over <==>
            || it.cancelled || it.reply.Failure?
            || (CallIds(it.reply.items) == [] &&
                if it.reply.stop == Length then t.tokens >= cfg.ceiling
                else it.lateSteering == [] && it.lateNotices == [] && it.lateParentMessages == [])
            || (CallIds(it.reply.items) != [] && it.reply.stop != Length &&
                |DispatchAll(ToolCallsOf(it.reply.items), it.outcomes).results| < |ToolCallsOf(it.reply.items)|)
  {
    hide Ask, AllExploration, DispatchAll, AddTexts, Append;
    if !it.cancelled && it.reply.Answer? {
      RequestPairing.ToolCallsHaveCallIds(it.reply.items);
      BatchIs(ToolCallsOf(it.reply.items), it.outcomes);
    }
  }

  /** A turn begins with the message of the user and the configured budget, takes one round of the
      script after the other as long as it is not over, and then reports whether it ran out of rounds. */
  lemma {:induction false} TurnIs(cfg: Config, s: State, text: string, script: seq<Iteration>)
    ensures var start := TurnAfter(cfg, StartTurn(cfg, s, text), script, 0);
      && Thread(start.state.tree) == Thread(s.tree) + [Message(s.nextId, User, [Text(text)])]
      && start.state.nextId == s.nextId + 1 && start.state.cache == s.cache && start.state.log == s.log
      && start == Turn(start.state, cfg.maxTokens, 0, false, false)
    ensures forall k :: 0 <= k < |script| ==>
              var t, next := TurnAfter(cfg, StartTurn(cfg, s, text), script, k),
                             TurnAfter(cfg, StartTurn(cfg, s, text), script, k + 1);
              next == if t.over then t else OneIteration(cfg, t, script[k])
    ensures var end := TurnAfter(cfg, StartTurn(cfg, s, text), script, |script|);
      ProcessTurn(cfg, s, text, script) == end.state.(log := end.state.log + [TurnDone(!end.over)])
  {
    hide Thread, OneIteration, Append;
    AddJoins(s, User, [Text(text)]);
  }

  // ---------------------------------------------------------------- the other commands

  /** What a navigation, a clear and a resume make of the thread, the next id and the cache: a known
      id becomes the end of the thread, which runs to it from the root; a clear starts over; a resume
      takes the saved thread and goes on above its ids. None of them sends anything. */
  lemma {:induction false} CommandsLead(cfg: Config, s: State, id: nat, saved: Tree)
    requires SessionOk(s.tree, s.nextId)
    ensures var r := Execute(cfg, s, Navigate(id));
      && r == s.(tree := r.tree) && r.tree.entries == s.tree.entries
      && (if HasId(s.tree.entries, id)
          then Thread(r.tree) != [] && Thread(r.tree)[|Thread(r.tree)| - 1].id == id
               && Thread(r.tree)[0] == s.tree.entries[0].message
          else Thread(r.tree) == Thread(s.tree))
    ensures var r := Execute(cfg, s, Command.Clear);
      Thread(r.tree) == [] && r.tree.entries == [] && r.nextId == 0 && r.cache.None? && r.log == s.log
    ensures var r := Execute(cfg, s, Resume(Some(saved)));
      && r.tree == saved && r.cache.None? && r.log == s.log
      && (forall e :: e in saved.entries ==> e.message.id < r.nextId)
      && (r.nextId == 0 || exists e :: e in saved.entries && e.message.id + 1 == r.nextId)
    ensures Execute(cfg, s, Resume(None)) == s
  {
    hide TreeOk, Descends;
    if HasId(s.tree.entries, id) {
      PathClimbs(s.tree.entries, id);
    }
  }
}
