/** Rounds and turns simple enough to be followed by hand, for concrete runs. */
module ScriptedRuns {
  import opened Wrappers
  import opened Messages
  import opened SessionTree
  import opened Wire
  import opened Compaction
  import opened Agent

  /** A round in which nothing but the reply and the outcomes of its calls arrives. */
  function Round(reply: Reply, outcomes: seq<Outcome>): Iteration {
    Iteration(false, [], [], [], "", "", false, false, None, "", reply, outcomes, [], [], [])
  }

  /** A plain round whose request makes a summary and fails. */
  const COMPACTING := Round(Failure, []).(compactTier1 := true, summary := Some(""))

  /** The turn in which the user says something and the model answers with a text. */
  const PLAIN := ProcessMessage("", [Round(Answer([Text("")], Finish), [])])

  lemma {:induction false} NextCommand(cfg: Config, s: State, cs: seq<Command>, c: Command)
    ensures ExecuteAll(cfg, s, cs + [c]) == Execute(cfg, ExecuteAll(cfg, s, cs), c)
    ensures ExecuteAll(cfg, s, []) == s
  {
    hide Execute;
    assert (cs + [c])[..|cs|] == cs;
  }

  function Request(t: Tree, tokens: nat): Event {
    Requested(tokens, Thread(t), ToWire(Sanitized(Thread(t))))
  }

  lemma {:induction false} RoundAsks(s: State, reply: Reply, outcomes: seq<Outcome>, tokens: nat)
    ensures Ask(s, Round(reply, outcomes), tokens) == Note(s, Request(s.tree, tokens))
  {
    hide Thread, ToWire, Sanitized, WorkingSet;
    PlainContext(Thread(s.tree), s.cache, Round(reply, outcomes));
  }

  lemma {:induction false} PlainContext(t: seq<Message>, cache: Option<Tier2Summary>, it: Iteration)
    requires !it.compactFull && !it.compactTier1 && it.observation == ""
    ensures Context(t, cache, it) == (t, cache)
  {
  }

  lemma {:induction false} RequestIsOfThread(t: Tree, tokens: nat)
    ensures Request(t, tokens).Requested? && Request(t, tokens).wire == ToWire(Sanitized(Thread(t)))
  {
  }

  function Say(id: nat, role: Role): Message {
    TextMessage(id, role, "")
  }

  lemma {:induction false} PlainTurn(cfg: Config, s: State)
    ensures var r := Execute(cfg, s, PLAIN);
      && r.tree == Append(Append(s.tree, Say(s.nextId, User)), Say(s.nextId + 1, Assistant))
      && r.nextId == s.nextId + 2 && r.cache == s.cache
  {
    hide Append, Ask, Request;
    var start := StartTurn(cfg, s, "");
    RoundAsks(start.state, PLAIN.script[0].reply, [], start.tokens);
    assert [Text("")][..0] == [] && ToolCallsOf([]) == [];
    assert ToolCallsOf([Text("")]) == [];
    assert TurnAfter(cfg, start, PLAIN.script, 0) == start;
  }
}
