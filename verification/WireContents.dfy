/** What a request says: which texts, calls and results of the thread its entries carry, and in which
    order.
 */
module WireContents {
  import opened Sequences
  import opened Messages
  import opened Wire

  // ---------------------------------------------------------------- one message

  /** The text of a message: its text items one after another, and nothing else. */
  lemma {:induction false} TextJoins(a: seq<Item>, b: seq<Item>)
    ensures CollectText(a + b) == CollectText(a) + CollectText(b)
  {
    if b == [] {
      assert a + b == a;
    } else {
      var n := |b| - 1;
      TextJoins(a, b[..n]);
      assert (a + b)[..|a + b| - 1] == a + b[..n];
    }
  }

  lemma {:induction false} TextOfOne(x: Item)
    ensures CollectText([]) == "" && CollectText([x]) == if x.Text? then x.text else ""
  {
    assert [x][..0] == [];
  }

  ghost function AsCall(): Item -> Call {
    (x: Item) => if x.ToolCall? then Call(x.callId, x.name, x.args.json) else Call("", "", "")
  }

  ghost function AsEntry(): Item -> Entry {
    (x: Item) => if x.ToolResult? then ToolEntry(x.answers, x.output) else UserEntry("")
  }

  lemma {:induction false} CallsAre(items: seq<Item>)
    ensures Filtered(items, IsCall(), AsCall(), CollectCalls(items))
  {
    if items == [] {
      FilteredNothing(IsCall(), AsCall());
    } else {
      var n := |items| - 1;
      CallsAre(items[..n]);
      FilteredNext(items[..n], IsCall(), AsCall(), CollectCalls(items[..n]), items[n]);
      assert items == items[..n] + [items[n]];
    }
  }

  lemma {:induction false} ResultsAre(items: seq<Item>)
    ensures Filtered(items, IsResult(), AsEntry(), CollectResults(items))
  {
    if items == [] {
      FilteredNothing(IsResult(), AsEntry());
    } else {
      var n := |items| - 1;
      ResultsAre(items[..n]);
      FilteredNext(items[..n], IsResult(), AsEntry(), CollectResults(items[..n]), items[n]);
      assert items == items[..n] + [items[n]];
    }
  }

  // ---------------------------------------------------------------- the whole request

  /** What comes earlier in the thread comes earlier in the request. */
  lemma {:induction false} WireJoins(a: seq<Message>, b: seq<Message>)
    ensures ToWire(a + b) == ToWire(a) + ToWire(b)
  {
    hide Lower;
    if b == [] {
      assert a + b == a;
    } else {
      var n := |b| - 1;
      WireJoins(a, b[..n]);
      assert (a + b)[..|a + b| - 1] == a + b[..n];
    }
  }

  ghost function IsUser(): Message -> bool { (m: Message) => m.role == User }

  ghost function IsSystem(): Message -> bool { (m: Message) => m.role == System }

  /** An assistant message with something to say: reasoning alone is not sent. */
  ghost function Speaks(): Message -> bool {
    (m: Message) => m.role == Assistant && (CollectText(m.items) != "" || CollectCalls(m.items) != [])
  }

  ghost function TextOf(): Message -> string { (m: Message) => CollectText(m.items) }

  ghost function Said(): Message -> (string, seq<Call>) {
    (m: Message) => (CollectText(m.items), CollectCalls(m.items))
  }

  ghost function UserPart(): Entry -> bool { (e: Entry) => e.UserEntry? }

  ghost function SystemPart(): Entry -> bool { (e: Entry) => e.SystemEntry? }

  ghost function AssistantPart(): Entry -> bool { (e: Entry) => e.AssistantEntry? }

  ghost function ToolPart(): Entry -> bool { (e: Entry) => e.ToolEntry? }

  ghost function EntryText(): Entry -> string {
    (e: Entry) => if e.UserEntry? || e.SystemEntry? || e.AssistantEntry? then e.text else ""
  }

  ghost function EntrySaid(): Entry -> (string, seq<Call>) {
    (e: Entry) => if e.AssistantEntry? then (e.text, e.calls) else ("", [])
  }

  /** The entries of the request that `part` picks say what the messages that `whose` picks say, one
      for one and in order. */
  ghost predicate Match<T(!new)>(t: seq<Message>, whose: Message -> bool, what: Message -> T,
                                 part: Entry -> bool, says: Entry -> T) {
    exists r: seq<T> :: Filtered(t, whose, what, r) && Filtered(ToWire(t), part, says, r)
  }

  lemma {:induction false} MatchNext<T(!new)>(t: seq<Message>, whose: Message -> bool, what: Message -> T,
                                              part: Entry -> bool, says: Entry -> T, m: Message)
    requires Match(t, whose, what, part, says)
    requires whose(m) ==> |Lower(m)| == 1 && part(Lower(m)[0]) && says(Lower(m)[0]) == what(m)
    requires !whose(m) ==> forall e :: e in Lower(m) ==> !part(e)
    ensures Match(t + [m], whose, what, part, says)
  {
    hide Filtered, Lower;
    var r :| Filtered(t, whose, what, r) && Filtered(ToWire(t), part, says, r);
    FilteredNext(t, whose, what, r, m);
    assert (t + [m])[..|t|] == t;
    if whose(m) {
      FilteredNext(ToWire(t), part, says, r, Lower(m)[0]);
      assert Lower(m) == [Lower(m)[0]];
      assert Filtered(ToWire(t + [m]), part, says, r + [what(m)]);
    } else {
      NonePass(ToWire(t), Lower(m), part, says, r);
      assert r + [] == r;
    }
  }

  lemma {:induction false} NonePass<T(!new)>(w: seq<Entry>, more: seq<Entry>, part: Entry -> bool,
                                             says: Entry -> T, r: seq<T>)
    requires Filtered(w, part, says, r) && forall e :: e in more ==> !part(e)
    ensures Filtered(w + more, part, says, r)
  {
    hide Filtered;
    if more == [] {
      assert w + more == w;
    } else {
      var n := |more| - 1;
      NonePass(w, more[..n], part, says, r);
      FilteredNext(w + more[..n], part, says, r, more[n]);
      assert w + more == w + more[..n] + [more[n]] && r + [] == r;
      assert more[n] in more;
    }
  }

  lemma {:induction false} ResultsAreTool(items: seq<Item>)
    ensures forall e :: e in CollectResults(items) ==> e.ToolEntry?
  {
    if items != [] {
      ResultsAreTool(items[..|items| - 1]);
    }
  }

  /** The user entries carry the texts of the user messages, the system entries those of the system
      messages, and the assistant entries the texts and calls of the assistants that have any. */
  lemma {:induction false} SpeakersMatch(t: seq<Message>)
    ensures Match(t, IsUser(), TextOf(), UserPart(), EntryText())
    ensures Match(t, IsSystem(), TextOf(), SystemPart(), EntryText())
    ensures Match(t, Speaks(), Said(), AssistantPart(), EntrySaid())
  {
    hide Match, CollectText, CollectCalls;
    if t == [] {
      NothingMatches(IsUser(), TextOf(), UserPart(), EntryText());
      NothingMatches(IsSystem(), TextOf(), SystemPart(), EntryText());
      NothingMatches(Speaks(), Said(), AssistantPart(), EntrySaid());
    } else {
      var n := |t| - 1;
      SpeakersMatch(t[..n]);
      ResultsAreTool(t[n].items);
      MatchNext(t[..n], IsUser(), TextOf(), UserPart(), EntryText(), t[n]);
      MatchNext(t[..n], IsSystem(), TextOf(), SystemPart(), EntryText(), t[n]);
      MatchNext(t[..n], Speaks(), Said(), AssistantPart(), EntrySaid(), t[n]);
      assert t == t[..n] + [t[n]];
    }
  }

  lemma {:induction false} NothingMatches<T(!new)>(whose: Message -> bool, what: Message -> T,
                                                   part: Entry -> bool, says: Entry -> T)
    ensures Match([], whose, what, part, says)
  {
    FilteredNothing(whose, what);
    FilteredNothing(part, says);
  }

  /** All items of the tool messages, in order. */
  ghost function ToolItems(t: seq<Message>): seq<Item> {
    if t == [] then []
    else ToolItems(t[..|t| - 1]) + if t[|t| - 1].role == Tool then t[|t| - 1].items else []
  }

  /** The tool entries carry the results of the tool messages: the id that each answers and its output. */
  lemma {:induction false} ResultsMatch(t: seq<Message>) returns (r: seq<Entry>)
    ensures Filtered(ToolItems(t), IsResult(), AsEntry(), r)
    ensures Filtered(ToWire(t), ToolPart(), Itself(), r)
  {
    hide Filtered, CollectText, CollectCalls;
    if t == [] {
      FilteredNothing(IsResult(), AsEntry());
      FilteredNothing(ToolPart(), Itself<Entry>());
      r := [];
    } else {
      var n := |t| - 1;
      var m := t[n];
      r := ResultsMatch(t[..n]);
      if m.role == Tool {
        r := MoreResults(ToolItems(t[..n]), ToWire(t[..n]), r, m.items);
      } else {
        NonePass(ToWire(t[..n]), Lower(m), ToolPart(), Itself(), r);
        assert ToolItems(t[..n]) + [] == ToolItems(t[..n]);
      }
    }
  }

  lemma {:induction false} MoreResults(before: seq<Item>, w: seq<Entry>, r: seq<Entry>, items: seq<Item>)
    returns (r': seq<Entry>)
    requires Filtered(before, IsResult(), AsEntry(), r) && Filtered(w, ToolPart(), Itself(), r)
    ensures Filtered(before + items, IsResult(), AsEntry(), r')
    ensures Filtered(w + CollectResults(items), ToolPart(), Itself(), r')
  {
    hide Filtered;
    if items == [] {
      assert before + items == before && w + [] == w;
      r' := r;
    } else {
      var n := |items| - 1;
      var x, done := items[n], w + CollectResults(items[..n]);
      r' := MoreResults(before, w, r, items[..n]);
      FilteredNext(before + items[..n], IsResult(), AsEntry(), r', x);
      assert before + items == before + items[..n] + [x];
      if x.ToolResult? {
        var e := ToolEntry(x.answers, x.output);
        FilteredNext(done, ToolPart(), Itself(), r', e);
        assert w + CollectResults(items) == done + [e];
        r' := r' + [e];
      } else {
        assert w + CollectResults(items) == done && r' + [] == r';
      }
    }
  }
}
