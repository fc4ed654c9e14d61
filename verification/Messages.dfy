/** The provider-neutral message model (`src/message.rs`) and the removal of tool calls whose
    result is not on the active thread.
 */
module Messages {
  import opened Sequences
  import opened Wrappers

  datatype Role = User | Assistant | System | Tool

  /** Tool arguments: the JSON text, and its `path` member when that is a string. */
  datatype Args = Args(json: string, path: Option<string>)

  datatype Item =
    | Text(text: string)
    | Reasoning(thought: string)
    | ToolCall(callId: string, name: string, args: Args)
    | ToolResult(answers: string, output: string, isError: bool)

  datatype Message = Message(id: nat, role: Role, items: seq<Item>)

  function TextMessage(id: nat, role: Role, text: string): Message {
    Message(id, role, [Text(text)])
  }

  /** `MessageId::MAX`, the id of synthetic messages. */
  const MAX_ID: nat := 0xFFFF_FFFF_FFFF_FFFF

  /** The call ids among the items, in order. */
  function CallIds(items: seq<Item>): (r: seq<string>)
    ensures |r| <= |items|
  {
    if items == [] then []
    else
      var n := |items| - 1;
      CallIds(items[..n]) + if items[n].ToolCall? then [items[n].callId] else []
  }

  /** The call ids that the items answer, in order. */
  function ResultIds(items: seq<Item>): (r: seq<string>)
    ensures |r| <= |items|
  {
    if items == [] then []
    else
      var n := |items| - 1;
      ResultIds(items[..n]) + if items[n].ToolResult? then [items[n].answers] else []
  }

  function Elements(s: seq<string>): set<string> {
    set x | x in s
  }

  /** Every call id that some result of the thread answers. */
  function Answered(t: seq<Message>): set<string> {
    if t == [] then {}
    else Answered(t[..|t| - 1]) + Elements(ResultIds(t[|t| - 1].items))
  }

  /** The items without the calls that are not in `answered`. */
  function Retain(items: seq<Item>, answered: set<string>): seq<Item> {
    if items == [] then []
    else
      var n := |items| - 1;
      Retain(items[..n], answered) +
      if items[n].ToolCall? && items[n].callId !in answered then [] else [items[n]]
  }

  function SanitizeOne(m: Message, answered: set<string>): Message {
    if m.role == Assistant then m.(items := Retain(m.items, answered)) else m
  }

  function SanitizeAll(t: seq<Message>, answered: set<string>): (r: seq<Message>)
    ensures |r| == |t|
  {
    seq(|t|, i requires 0 <= i < |t| => SanitizeOne(t[i], answered))
  }

  /** What `sanitize_unpaired_tool_calls` leaves. */
  function Sanitized(t: seq<Message>): seq<Message> {
    SanitizeAll(t, Answered(t))
  }

  method CollectAnswered(messages: array<Message>) returns (answered: set<string>)
    ensures answered == Answered(messages[..])
  {
    answered := {};
    for i := 0 to messages.Length
      invariant answered == Answered(messages[..i])
    {
      assert messages[..i + 1][..i] == messages[..i];
      answered := answered + Elements(ResultIds(messages[i].items));
    }
    assert messages[..messages.Length] == messages[..];
  }

  method SanitizeUnpairedToolCalls(messages: array<Message>)
    modifies messages
    ensures messages[..] == Sanitized(old(messages[..]))
  {
    var answered := CollectAnswered(messages);
    for i := 0 to messages.Length
      invariant forall k :: 0 <= k < i ==> messages[k] == SanitizeOne(old(messages[k]), answered)
      invariant forall k :: i <= k < messages.Length ==> messages[k] == old(messages[k])
    {
      if messages[i].role == Assistant {
        messages[i] := messages[i].(items := Retain(messages[i].items, answered));
      }
    }
  }

  // ---------------------------------------------------------------- what sanitising leaves

  ghost function IsCall(): Item -> bool { (x: Item) => x.ToolCall? }

  ghost function IsResult(): Item -> bool { (x: Item) => x.ToolResult? }

  /** Only a call that no result answers has to go. */
  ghost function Stays(answered: set<string>): Item -> bool {
    (x: Item) => x.ToolCall? ==> x.callId in answered
  }

  lemma {:induction false} RetainLeaves(items: seq<Item>, answered: set<string>)
    ensures Filtered(items, Stays(answered), Itself(), Retain(items, answered))
  {
    if items == [] {
      FilteredNothing(Stays(answered), Itself<Item>());
    } else {
      var n := |items| - 1;
      RetainLeaves(items[..n], answered);
      FilteredNext(items[..n], Stays(answered), Itself(), Retain(items[..n], answered), items[n]);
      assert items == items[..n] + [items[n]];
    }
  }

  /** An id is answered exactly when some result of some message carries it. */
  lemma {:induction false} AnsweredMeans(t: seq<Message>, id: string)
    ensures id in Answered(t) <==>
            exists m, x :: m in t && x in m.items && x.ToolResult? && x.answers == id
  {
    if t != [] {
      var n := |t| - 1;
      AnsweredMeans(t[..n], id);
      ResultIdsMean(t[n].items, id);
      assert t == t[..n] + [t[n]];
    }
  }

  lemma {:induction false} ResultIdsMean(items: seq<Item>, id: string)
    ensures id in ResultIds(items) <==> exists x :: x in items && x.ToolResult? && x.answers == id
  {
    if items != [] {
      var n := |items| - 1;
      ResultIdsMean(items[..n], id);
      assert items == items[..n] + [items[n]];
    }
  }

  /** The whole effect of sanitising: message by message, everything but the items of assistants
      stays, and of these exactly the calls go that no result on the thread answers. */
  lemma {:induction false} SanitizedLeaves(t: seq<Message>, i: nat)
    requires i < |t|
    ensures var m := Sanitized(t)[i];
      && m.id == t[i].id && m.role == t[i].role
      && (t[i].role != Assistant ==> m.items == t[i].items)
      && (t[i].role == Assistant ==> Filtered(t[i].items, Stays(Answered(t)), Itself(), m.items))
  {
    RetainLeaves(t[i].items, Answered(t));
  }
}
