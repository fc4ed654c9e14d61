/** Lowering to the chat-completions `messages` array (`to_wire_messages` in
    `src/provider/openai.rs`) and the pairing rule that the provider enforces on it.
 */
module Wire {
  import opened Messages

  datatype Call = Call(id: string, name: string, arguments: string)

  /** An assistant entry has a `content` key iff `text` is non-empty, a `tool_calls` key iff
      `calls` is. */
  datatype Entry =
    | UserEntry(text: string)
    | SystemEntry(text: string)
    | AssistantEntry(text: string, calls: seq<Call>)
    | ToolEntry(callId: string, output: string)

  function CollectText(items: seq<Item>): string {
    if items == [] then ""
    else
      var n := |items| - 1;
      CollectText(items[..n]) + if items[n].Text? then items[n].text else ""
  }

  function CollectCalls(items: seq<Item>): (r: seq<Call>)
    ensures IdsOf(r) == CallIds(items)
  {
    if items == [] then []
    else
      var n := |items| - 1;
      CollectCalls(items[..n]) +
      if items[n].ToolCall? then [Call(items[n].callId, items[n].name, items[n].args.json)] else []
  }

  function IdsOf(calls: seq<Call>): (r: seq<string>)
    ensures |r| == |calls| && forall i :: 0 <= i < |calls| ==> r[i] == calls[i].id
  {
    seq(|calls|, i requires 0 <= i < |calls| => calls[i].id)
  }

  function CollectResults(items: seq<Item>): seq<Entry> {
    if items == [] then []
    else
      var n := |items| - 1;
      CollectResults(items[..n]) +
      if items[n].ToolResult? then [ToolEntry(items[n].answers, items[n].output)] else []
  }

  /** The entries of one message. */
  function Lower(m: Message): seq<Entry> {
    match m.role
    case User => [UserEntry(CollectText(m.items))]
    case System => [SystemEntry(CollectText(m.items))]
    case Assistant =>
      var text, calls := CollectText(m.items), CollectCalls(m.items);
      if text == "" && calls == [] then [] else [AssistantEntry(text, calls)]
    case Tool => CollectResults(m.items)
  }

  function ToWire(t: seq<Message>): seq<Entry> {
    if t == [] then [] else ToWire(t[..|t| - 1]) + Lower(t[|t| - 1])
  }

  /** One tool entry for each result of a tool message. */
  method PushResults(before: seq<Entry>, items: seq<Item>) returns (out: seq<Entry>)
    ensures out == before + CollectResults(items)
  {
    out := before;
    for j := 0 to |items|
      invariant out == before + CollectResults(items[..j])
    {
      assert items[..j + 1][..j] == items[..j];
      if items[j].ToolResult? {
        out := out + [ToolEntry(items[j].answers, items[j].output)];
      }
    }
    assert items[..|items|] == items;
  }

  method ToWireMessages(messages: seq<Message>) returns (out: seq<Entry>)
    ensures out == ToWire(messages)
  {
    hide CollectText, CollectCalls, CollectResults;
    out := [];
    for i := 0 to |messages|
      invariant out == ToWire(messages[..i])
    {
      var m := messages[i];
      assert messages[..i + 1][..i] == messages[..i];
      match m.role {
        case User => out := out + [UserEntry(CollectText(m.items))];
        case System => out := out + [SystemEntry(CollectText(m.items))];
        case Assistant =>
          var text, calls := CollectText(m.items), CollectCalls(m.items);
          if text != "" || calls != [] {
            out := out + [AssistantEntry(text, calls)];
          }
        case Tool =>
          out := PushResults(out, m.items);
      }
    }
    assert messages[..|messages|] == messages;
  }

  // ---------------------------------------------------------------- the pairing rule

  /** Entry `i + 1 + k` answers the `k`-th call of the assistant entry `i`. */
  ghost predicate AnswersAt(w: seq<Entry>, i: int, k: int)
    requires 0 <= i < |w| && w[i].AssistantEntry? && 0 <= k < |w[i].calls|
  {
    i + 1 + k < |w| && w[i + 1 + k].ToolEntry? && w[i + 1 + k].callId == w[i].calls[k].id
  }

  /** Tool entry `j` lies in the block of results right after the assistant entry `i`. */
  ghost predicate InBlock(w: seq<Entry>, i: int, j: int) {
    0 <= i < j < |w| && w[i].AssistantEntry? && j <= i + |w[i].calls|
  }

  ghost predicate Owned(w: seq<Entry>, j: int) {
    exists i :: InBlock(w, i, j)
  }

  /** The rule of the provider: every assistant entry is followed at once by one result for
      each of its calls, in order, and there is no other tool entry. */
  ghost predicate WellPaired(w: seq<Entry>) {
    && (forall i, k :: 0 <= i < |w| && w[i].AssistantEntry? && 0 <= k < |w[i].calls| ==> AnswersAt(w, i, k))
    && (forall j :: 0 <= j < |w| && w[j].ToolEntry? ==> Owned(w, j))
  }

  /** The same rule as a scan from the left: the call ids still waiting for their result. */
  datatype Scan = Broken | Awaiting(ids: seq<string>)

  function ScanStep(s: Scan, e: Entry): Scan {
    if s.Broken? then Broken
    else
      match e
      case AssistantEntry(text, calls) => if s.ids == [] then Awaiting(IdsOf(calls)) else Broken
      case ToolEntry(callId, output) => if s.ids != [] && s.ids[0] == callId then Awaiting(s.ids[1..]) else Broken
      case _ => if s.ids == [] then Awaiting([]) else Broken
  }

  function ScanAll(w: seq<Entry>): Scan {
    if w == [] then Awaiting([]) else ScanStep(ScanAll(w[..|w| - 1]), w[|w| - 1])
  }

  /** Partial results of the scan: complete blocks everywhere but possibly at the end. */
  ghost predicate PairedSoFar(w: seq<Entry>, awaiting: seq<string>) {
    AnsweredSoFar(w) && AllOwned(w) && AwaitingFits(w, awaiting) && (awaiting != [] ==> OpenBlock(w))
  }

  ghost predicate AnsweredSoFar(w: seq<Entry>) {
    forall i, k :: 0 <= i < |w| && w[i].AssistantEntry? && 0 <= k < |w[i].calls| && i + 1 + k < |w| ==>
      AnswersAt(w, i, k)
  }

  ghost predicate AllOwned(w: seq<Entry>) {
    forall j :: 0 <= j < |w| && w[j].ToolEntry? ==> Owned(w, j)
  }

  /** An assistant whose block reaches beyond the end awaits exactly its remaining ids. */
  ghost predicate AwaitingFits(w: seq<Entry>, awaiting: seq<string>) {
    forall i :: 0 <= i < |w| && Unfinished(w, i) ==>
      |w| - 1 - i <= |w[i].calls| && awaiting == IdsOf(w[i].calls)[|w| - 1 - i..]
  }

  predicate Unfinished(w: seq<Entry>, i: int)
    requires 0 <= i < |w|
  {
    w[i].AssistantEntry? && |w| <= i + |w[i].calls|
  }

  ghost predicate OpenBlock(w: seq<Entry>) {
    exists i :: 0 <= i < |w| && Unfinished(w, i)
  }

  lemma {:induction false} OwnedStays(w: seq<Entry>, e: Entry)
    requires AllOwned(w)
    ensures forall j :: 0 <= j < |w| && w[j].ToolEntry? ==> Owned(w + [e], j)
  {
    forall j | 0 <= j < |w| && w[j].ToolEntry? ensures Owned(w + [e], j) {
      assert Owned(w, j);
      var i :| InBlock(w, i, j);
      assert InBlock(w + [e], i, j);
    }
  }

  lemma {:induction false} UnfinishedAwaits(w: seq<Entry>, awaiting: seq<string>, i: nat)
    requires AwaitingFits(w, awaiting) && i < |w|
    ensures Unfinished(w, i) ==> awaiting != []
  {
  }

  lemma {:induction false} NonToolKeepsPaired(w: seq<Entry>, e: Entry)
    requires PairedSoFar(w, []) && !e.ToolEntry?
    ensures PairedSoFar(w + [e], if e.AssistantEntry? then IdsOf(e.calls) else [])
  {
    hide Owned;
    var w' := w + [e];
    OwnedStays(w, e);
    forall i | 0 <= i < |w| ensures !Unfinished(w, i) && w'[i] == w[i] {
      UnfinishedAwaits(w, [], i);
    }
    forall i, k | 0 <= i < |w'| && w'[i].AssistantEntry? && 0 <= k < |w'[i].calls| && i + 1 + k < |w'|
      ensures AnswersAt(w', i, k)
    {
      assert !Unfinished(w, i) && AnswersAt(w, i, k);
    }
    if e.AssistantEntry? && e.calls != [] {
      assert Unfinished(w', |w|);
    }
  }

  lemma {:induction false} ToolKeepsAnswered(w: seq<Entry>, awaiting: seq<string>, e: Entry)
    requires AnsweredSoFar(w) && AwaitingFits(w, awaiting) && e.ToolEntry? && awaiting != [] && awaiting[0] == e.callId
    ensures AnsweredSoFar(w + [e])
  {
    var w' := w + [e];
    forall i, k | 0 <= i < |w'| && w'[i].AssistantEntry? && 0 <= k < |w'[i].calls| && i + 1 + k < |w'|
      ensures AnswersAt(w', i, k)
    {
      assert i < |w| && w'[i] == w[i];
      if i + 1 + k < |w| {
        assert AnswersAt(w, i, k);
      } else {
        assert Unfinished(w, i);
        assert awaiting[0] == IdsOf(w[i].calls)[|w| - 1 - i];
      }
    }
  }

  lemma {:induction false} ToolKeepsOwned(w: seq<Entry>, e: Entry)
    requires AllOwned(w) && OpenBlock(w) && e.ToolEntry?
    ensures AllOwned(w + [e])
  {
    OwnedStays(w, e);
    var o :| 0 <= o < |w| && Unfinished(w, o);
    assert InBlock(w + [e], o, |w|);
  }

  lemma {:induction false} ToolShiftsAwaiting(w: seq<Entry>, awaiting: seq<string>, e: Entry)
    requires AwaitingFits(w, awaiting) && OpenBlock(w) && e.ToolEntry? && awaiting != []
    ensures AwaitingFits(w + [e], awaiting[1..])
    ensures awaiting[1..] != [] ==> OpenBlock(w + [e])
  {
    var o :| 0 <= o < |w| && Unfinished(w, o);
    AwaitingShifts(w, awaiting, e, o);
    forall i | 0 <= i < |w + [e]| && Unfinished(w + [e], i)
      ensures |w + [e]| - 1 - i <= |(w + [e])[i].calls|
      ensures awaiting[1..] == IdsOf((w + [e])[i].calls)[|w + [e]| - 1 - i..]
    {
      assert i < |w| && (w + [e])[i] == w[i] && Unfinished(w, i);
      AwaitingShifts(w, awaiting, e, i);
    }
  }

  lemma {:induction false} AwaitingShifts(w: seq<Entry>, awaiting: seq<string>, e: Entry, i: nat)
    requires AwaitingFits(w, awaiting) && awaiting != [] && i < |w| && Unfinished(w, i)
    ensures |w| - i <= |w[i].calls| && awaiting[1..] == IdsOf(w[i].calls)[|w| - i..]
    ensures awaiting[1..] != [] ==> Unfinished(w + [e], i)
  {
    DropOneMore(IdsOf(w[i].calls), |w| - 1 - i);
  }

  lemma {:induction false} DropOneMore(ids: seq<string>, k: nat)
    requires k < |ids|
    ensures ids[k..][1..] == ids[k + 1..]
  {
  }

  lemma {:induction false} ToolKeepsPaired(w: seq<Entry>, awaiting: seq<string>, e: Entry)
    requires PairedSoFar(w, awaiting) && e.ToolEntry? && awaiting != [] && awaiting[0] == e.callId
    ensures PairedSoFar(w + [e], awaiting[1..])
  {
    hide AnsweredSoFar, AllOwned, AwaitingFits, OpenBlock;
    ToolKeepsAnswered(w, awaiting, e);
    ToolKeepsOwned(w, e);
    ToolShiftsAwaiting(w, awaiting, e);
  }

  lemma {:induction false} ScanIsSound(w: seq<Entry>)
    requires ScanAll(w).Awaiting?
    ensures PairedSoFar(w, ScanAll(w).ids)
  {
    if w != [] {
      var n := |w| - 1;
      ScanIsSound(w[..n]);
      assert w == w[..n] + [w[n]];
      if w[n].ToolEntry? {
        ToolKeepsPaired(w[..n], ScanAll(w[..n]).ids, w[n]);
      } else {
        NonToolKeepsPaired(w[..n], w[n]);
      }
    }
  }

  /** A scan that ends with nothing awaited has read a well-paired request. */
  lemma {:induction false} ScanMeansWellPaired(w: seq<Entry>)
    requires ScanAll(w) == Awaiting([])
    ensures WellPaired(w)
  {
    ScanIsSound(w);
  }

  /** Conversely, no prefix of a well-paired request breaks the scan. */
  lemma {:induction false} WellPairedScans(w: seq<Entry>, n: nat)
    requires WellPaired(w) && n <= |w|
    ensures ScanAll(w[..n]).Awaiting?
  {
    if n > 0 {
      var k := n - 1;
      WellPairedScans(w, k);
      ScanIsSound(w[..k]);
      assert w[..n][..k] == w[..k];
      var ids := ScanAll(w[..k]).ids;
      if w[k].ToolEntry? {
        assert Owned(w, k);
        var i :| InBlock(w, i, k);
        assert AnswersAt(w, i, k - 1 - i) && w[..k][i] == w[i];
        assert ids == IdsOf(w[i].calls)[k - 1 - i..];
      } else if OpenBlock(w[..k]) {
        OpenBlockGoesOn(w, k);
      }
    }
  }

  lemma {:induction false} OpenBlockGoesOn(w: seq<Entry>, k: nat)
    requires WellPaired(w) && k < |w| && OpenBlock(w[..k])
    ensures w[k].ToolEntry?
  {
    var i :| 0 <= i < k && w[..k][i].AssistantEntry? && k <= i + |w[..k][i].calls|;
    assert AnswersAt(w, i, k - 1 - i);
  }

  lemma {:induction false} NoOpenBlock(w: seq<Entry>)
    requires WellPaired(w)
    ensures !OpenBlock(w)
  {
    forall i | 0 <= i < |w| && w[i].AssistantEntry? ensures i + |w[i].calls| < |w| {
      if w[i].calls != [] {
        assert AnswersAt(w, i, |w[i].calls| - 1);
      }
    }
  }

  /** The scan decides the pairing rule. */
  lemma {:induction false} ScanDecidesPairing(w: seq<Entry>)
    ensures WellPaired(w) <==> ScanAll(w) == Awaiting([])
  {
    if WellPaired(w) {
      WellPairedScans(w, |w|);
      assert w[..|w|] == w;
      ScanIsSound(w);
      NoOpenBlock(w);
    } else if ScanAll(w) == Awaiting([]) {
      ScanMeansWellPaired(w);
    }
  }

  lemma {:induction false} NoAssistantInBlock(w: seq<Entry>, o: int, i: int)
    requires WellPaired(w) && 0 <= o < i < |w| && w[o].AssistantEntry? && w[i].AssistantEntry?
    ensures o + |w[o].calls| < i
  {
    assert i <= o + |w[o].calls| ==> AnswersAt(w, o, i - o - 1);
  }

  /** "Exactly": the entry after a block of results is not another tool entry. */
  lemma {:induction false} BlockEndsWithCalls(w: seq<Entry>, i: int)
    requires WellPaired(w) && 0 <= i < |w| && w[i].AssistantEntry?
    requires i + 1 + |w[i].calls| < |w|
    ensures !w[i + 1 + |w[i].calls|].ToolEntry?
  {
    var j := i + 1 + |w[i].calls|;
    forall o | i < o < j ensures w[o].ToolEntry? {
      assert AnswersAt(w, i, o - i - 1);
    }
    forall o | 0 <= o < i && w[o].AssistantEntry? ensures o + |w[o].calls| < i {
      NoAssistantInBlock(w, o, i);
    }
    assert forall o :: 0 <= o < j ==> !InBlock(w, o, j);
  }
}
