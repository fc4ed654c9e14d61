/** The agent loop as the object it is in `src/agent.rs`: a session, an id counter, a summary
    cache and a trace, changed in place. Each method is proved against the state machine of
    module `Agent`, so the theorems about its runs are theorems about this object.
 */
module AgentLoops {
  import opened Wrappers
  import opened Messages
  import opened SessionTree
  import opened Wire
  import opened Compaction
  import opened Agent

  /** A file that is resumed holds a tree whose walks end. */
  ghost predicate CanServe(c: Command) {
    c.Resume? && c.saved.Some? ==> Loaded(c.saved.value, NextMessageId(c.saved.value.entries))
  }

  class AgentLoop {
    const cfg: Config
    var session: Session
    var nextId: nat
    var tier2: Option<Tier2Summary>
    var trace: seq<Event>

    ghost predicate Valid()
      reads this, session
    {
      Loaded(session.tree, nextId)
    }

    ghost function View(): State
      reads this, session
    {
      State(session.tree, nextId, tier2, trace)
    }

    constructor (cfg: Config)
      ensures this.cfg == cfg && fresh(session) && Valid() && View() == INITIAL
    {
      this.cfg, nextId, tier2, trace := cfg, 0, None, [];
      session := new Session();
    }

    method AppendItems(role: Role, items: seq<Item>)
      requires Valid()
      modifies this`nextId, session
      ensures Valid() && View() == Agent.Add(old(View()), role, items)
    {
      hide Descends;
      var m := Message(nextId, role, items);
      AppendKeepsLoaded(session.tree, nextId, m);
      nextId := nextId + 1;
      session.AppendMessage(m);
    }

    /** `drain_steer`, `drain_task_notifications` and `drain_parent_messages`, by role. */
    method DrainQueue(role: Role, queued: seq<string>) returns (drained: bool)
      requires Valid()
      modifies this`nextId, session
      ensures Valid() && View() == AddTexts(old(View()), role, queued) && drained == (queued != [])
    {
      hide Loaded, Agent.Add;
      for i := 0 to |queued|
        invariant Valid() && View() == AddTexts(old(View()), role, queued[..i])
        invariant tier2 == old(tier2) && trace == old(trace)
      {
        assert queued[..i + 1][..i] == queued[..i];
        AppendItems(role, [Text(queued[i])]);
      }
      assert queued[..|queued|] == queued;
      drained := queued != [];
    }

    method Observed(e: Event)
      modifies this`trace
      ensures trace == old(trace) + [e]
    {
      trace := trace + [e];
    }

    /** `context_working_set`. */
    method ContextWorkingSet(it: Iteration) returns (messages: seq<Message>)
      requires Valid()
      modifies this`tier2
      ensures (messages, tier2) == Context(Thread(session.tree), old(tier2), it)
    {
      hide Loaded, Path, WorkingSet, ApplyTier2, CollectFiles, SummarySpan, IncrementStart, Thread;
      var thread := session.ActiveThread(nextId);
      var tier1 := WorkingSetLoop(thread, it.compactFull);
      messages := tier1;
      if it.compactTier1 {
        var span := SummarySpan(thread);
        if span.None? {
          return tier1;
        }
        var (start, end) := span.value;
        var covered := thread[end - 1].id;
        if tier2.None? || tier2.value.coveredLastId != covered {
          var base, files, slice := [], NO_FILES, thread[start..end];
          if tier2.Some? && tier2.value.coveredLastId < covered {
            base, files := tier2.value.fed, tier2.value.files;
            slice := thread[IncrementStart(thread, start, end, tier2.value.coveredLastId)..end];
          }
          files := CollectFilePaths(slice, files);
          if it.summary.None? {
            return tier1;
          }
          assert [] + slice == slice;
          tier2 := Some(Tier2Summary(covered, it.summary.value, files, base + slice));
        }
        messages := ApplyTier2Loop(tier1, thread[start - 1].id, covered, tier2.value.text + it.files);
      }
      if it.observation != "" {
        messages := messages + [TextMessage(MAX_ID, System, "## Previous Turn Trace\n" + it.observation)];
      }
    }

    /** The request of one iteration: drain, shape, sanitise, lower, send. */
    method Request(it: Iteration, maxTokens: nat)
      requires Valid()
      modifies this`nextId, this`tier2, this`trace, session
      ensures Valid() && View() == Ask(old(View()), it, maxTokens)
    {
      hide Loaded, Context, AddTexts, Thread, Sanitized, ToWire;
      var _ := DrainQueue(User, it.steering);
      var _ := DrainQueue(System, it.notices);
      var _ := DrainQueue(User, it.parentMessages);
      var working := ContextWorkingSet(it);
      var messages := if it.prompt == "" then working else [TextMessage(MAX_ID, System, it.prompt)] + working;
      var copy := new Message[|messages|](i requires 0 <= i < |messages| => messages[i]);
      assert copy[..] == messages;
      SanitizeUnpairedToolCalls(copy);
      var wire := ToWireMessages(copy[..]);
      Observed(Requested(maxTokens, messages, wire));
    }

    /** Runs the calls in order; a cancelled one ends the batch without a result. */
    method DispatchTools(calls: seq<Item>, outcomes: seq<Outcome>) returns (results: seq<Item>, cancelled: bool)
      requires forall c :: c in calls ==> c.ToolCall?
      modifies this`trace
      ensures var b := DispatchAll(calls, outcomes);
        results == b.results && cancelled == b.cancelled && trace == old(trace) + b.tried
    {
      results, cancelled := [], false;
      var i := 0;
      while i < |calls|
        invariant i <= |calls| && !cancelled
        invariant old(trace) <= trace
        invariant DispatchAll(calls[..i], outcomes) == Batch(results, trace[|old(trace)|..], false)
      {
        assert calls[..i + 1][..i] == calls[..i];
        Observed(Dispatched(calls[i].callId));
        i := i + 1;
        if i <= |outcomes| && outcomes[i - 1].Finished? {
          results := results + [ToolResult(calls[i - 1].callId, outcomes[i - 1].output, outcomes[i - 1].isError)];
        } else {
          CancelEndsBatch(calls, outcomes, i);
          cancelled := true;
          return;
        }
      }
      assert calls[..|calls|] == calls;
    }
    /** One round of the loop of `process_turn`; `over` is a `break` with `hit_tool_cap` cleared. */
    method Iterate(it: Iteration, maxTokens: nat, explored: nat, nudged: bool)
      returns (maxTokens': nat, explored': nat, nudged': bool, over: bool)
      requires Valid()
      modifies this`nextId, this`tier2, this`trace, session
      ensures Valid()
      ensures Turn(View(), maxTokens', explored', nudged', over) ==
              OneIteration(cfg, Turn(old(View()), maxTokens, explored, nudged, false), it)
    {
      hide Loaded, Ask, Agent.Add, AddTexts, ToolCallsOf, CallIds, DispatchAll, AllExploration;
      maxTokens', explored', nudged', over := maxTokens, explored, nudged, false;
      if it.cancelled {
        over := true;
        return;
      }
      Request(it, maxTokens);
      if it.reply.Failure? {
        over := true;
        return;
      }
      var items, stop := it.reply.items, it.reply.stop;
      var calls := ToolCallsOf(items);
      AppendItems(Assistant, items);
      Observed(Replied(stop, CallIds(items), AllExploration(calls)));
      if stop == Length {
        if calls != [] {
          AppendItems(Tool, TruncatedResults(calls));
        }
        if maxTokens < cfg.ceiling {
          maxTokens' := Min(2 * maxTokens, cfg.ceiling);
          return;
        }
        over := calls == [];
        return;
      }
      if calls == [] {
        NothingQueued(View(), User);
        NothingQueued(View(), System);
        var steered := DrainQueue(User, it.lateSteering);
        if steered {
          return;
        }
        var notified := DrainQueue(System, it.lateNotices);
        if notified {
          return;
        }
        var told := DrainQueue(User, it.lateParentMessages);
        over := !told;
        return;
      }
      var results, cancelled := DispatchTools(calls, it.outcomes);
      if results != [] {
        AppendItems(Tool, results);
      }
      explored' := if AllExploration(calls) then explored + 1 else 0;
      if cfg.nudgeThreshold > 0 && explored' >= cfg.nudgeThreshold && !nudged {
        AppendItems(User, [Text(NUDGE_TEXT)]);
        Observed(Nudged);
        nudged' := true;
      }
      over := cancelled;
    }

    /** `process_turn`; the script is what happens in the rounds up to the iteration cap. */
    method ProcessTurn(text: string, script: seq<Iteration>)
      requires Valid()
      modifies this`nextId, this`tier2, this`trace, session
      ensures Valid() && View() == Agent.ProcessTurn(cfg, old(View()), text, script)
    {
      hide Loaded, OneIteration, Agent.Add;
      ghost var start := StartTurn(cfg, View(), text);
      AppendItems(User, [Text(text)]);
      var hitToolCap := true;
      var maxTokens, explored, nudged := cfg.maxTokens, 0, false;
      var i := 0;
      while i < |script|
        invariant i <= |script| && hitToolCap && Valid()
        invariant TurnAfter(cfg, start, script, i) == Turn(View(), maxTokens, explored, nudged, false)
      {
        var over;
        maxTokens, explored, nudged, over := Iterate(script[i], maxTokens, explored, nudged);
        i := i + 1;
        if over {
          hitToolCap := false;
          break;
        }
      }
      OverStays(cfg, start, script, i, |script|);
      Observed(TurnDone(hitToolCap));
    }

    /** `handle_navigate`: the ids left behind go to the brief, then the leaf moves. The summary
        cache stays as it is. */
    method HandleNavigate(id: nat) returns (abandoned: seq<nat>, found: bool)
      requires Valid()
      modifies session
      ensures Valid() && View() == Execute(cfg, old(View()), Navigate(id))
      ensures found == HasId(old(session.tree).entries, id)
      ensures abandoned ==
              if old(session.tree).leaf.Some? && old(session.tree).leaf != Some(0) && |old(session.tree).entries| > 1
              then
                var before := old(session.tree);
                Reversed(NotIn(Trail(before.entries, before.leaf), Trail(before.entries, Some(id))))
              else []
    {
      hide Loaded, Path, Trail;
      abandoned := [];
      if session.tree.leaf.Some? && session.tree.leaf != Some(0) && |session.tree.entries| > 1 {
        abandoned := session.AbandonedBranch(id, nextId);
      }
      NavigateKeepsLoaded(session.tree, nextId, id);
      found := session.Navigate(id);
    }

    method Clear()
      modifies this`nextId, this`tier2, session
      ensures Valid() && View() == Execute(cfg, old(View()), Command.Clear)
    {
      session.Clear();
      nextId, tier2 := 0, None;
    }

    /** `resume_latest`: the id counter goes on above what was saved. Without a session file, or
        with one that cannot be loaded, nothing changes. */
    method ResumeLatest(saved: Option<Tree>)
      requires Valid() && CanServe(Resume(saved))
      modifies this`session, this`nextId, this`tier2
      ensures Valid() && View() == Execute(cfg, old(View()), Resume(saved))
      ensures session == old(session) || fresh(session)
    {
      if saved.Some? {
        nextId := NextMessageId(saved.value.entries);
        session := new Session.Load(saved.value);
        tier2 := None;
      }
    }

    /** `run`: services the commands in order. */
    method Run(commands: seq<Command>)
      requires Valid()
      requires forall c :: c in commands ==> CanServe(c)
      modifies this, session
      ensures Valid() && View() == ExecuteAll(cfg, old(View()), commands)
    {
      hide Loaded, Execute, CanServe;
      for i := 0 to |commands|
        invariant Valid() && View() == ExecuteAll(cfg, old(View()), commands[..i])
        invariant session == old(session) || fresh(session)
      {
        assert commands[..i + 1][..i] == commands[..i];
        assert commands[i] in commands;
        Service(commands[i]);
      }
      assert commands[..|commands|] == commands;
    }

    method Service(c: Command)
      requires Valid() && CanServe(c)
      modifies this, session
      ensures Valid() && View() == Execute(cfg, old(View()), c)
      ensures session == old(session) || fresh(session)
    {
      match c
      case ProcessMessage(text, script) => ProcessTurn(text, script);
      case Navigate(id) => var _, _ := HandleNavigate(id);
      case Clear => Clear();
      case Resume(saved) => ResumeLatest(saved);
    }
  }

  lemma {:induction false} NothingQueued(s: State, role: Role)
    ensures AddTexts(s, role, []) == s
  {
  }

  /** Once a turn is over, the rest of its script is not looked at. */
  lemma {:induction false} OverStays(cfg: Config, t: Turn, script: seq<Iteration>, n: nat, m: nat)
    requires n <= m <= |script| && (TurnAfter(cfg, t, script, n).over || n == m)
    ensures TurnAfter(cfg, t, script, m) == TurnAfter(cfg, t, script, n)
  {
    hide OneIteration;
    if n < m {
      OverStays(cfg, t, script, n, m - 1);
    }
  }

  /** After a cancelled call nothing of the batch is run. */
  lemma {:induction false} CancelEndsBatch(calls: seq<Item>, outcomes: seq<Outcome>, n: nat)
    requires forall c :: c in calls ==> c.ToolCall?
    requires n <= |calls| && DispatchAll(calls[..n], outcomes).cancelled
    ensures DispatchAll(calls, outcomes) == DispatchAll(calls[..n], outcomes)
    decreases |calls|
  {
    if n < |calls| {
      assert calls[..|calls| - 1][..n] == calls[..n];
      CancelEndsBatch(calls[..|calls| - 1], outcomes, n);
    } else {
      assert calls[..n] == calls;
    }
  }
}
