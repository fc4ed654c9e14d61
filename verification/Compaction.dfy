/** Shaping the working set (`src/compaction.rs`): tier 1 drops reasoning and elides old tool
    results, tier 2 replaces the oldest span by one summary message.
 */
module Compaction {
  import opened Wrappers
  import opened Strings
  import opened Messages

  const RECENT_TAIL: nat := 6

  // ---------------------------------------------------------------- tier 1

  /** UTF-8 length, which is what the elision marker reports. */
  function ByteLength(s: string): nat {
    if s == "" then 0
    else
      var c := s[|s| - 1] as int;
      ByteLength(s[..|s| - 1]) + if c < 0x80 then 1 else if c < 0x800 then 2 else if c < 0x1_0000 then 3 else 4
  }

  function ElidedResult(it: Item): Item
    requires it.ToolResult?
  {
    it.(output := "[elided by compaction: " + Decimal(ByteLength(it.output)) + " chars]")
  }

  /** The items of an old message: no reasoning, results without their bodies. */
  function Shrink(items: seq<Item>): seq<Item> {
    if items == [] then []
    else
      var n := |items| - 1;
      Shrink(items[..n]) +
      match items[n]
      case Reasoning(_) => []
      case ToolResult(_, _, _) => [ElidedResult(items[n])]
      case _ => [items[n]]
  }

  /** What shrinking leaves: texts and calls as they are, results without their bodies, and no
      reasoning. */
  lemma {:induction false} ShrinkLeaves(items: seq<Item>, x: Item)
    ensures x in Shrink(items) <==>
            || (x in items && (x.Text? || x.ToolCall?))
            || exists r :: r in items && r.ToolResult? && x == ElidedResult(r)
  {
    hide ElidedResult;
    if items != [] {
      var n := |items| - 1;
      ShrinkLeaves(items[..n], x);
      assert items == items[..n] + [items[n]];
      ElidedIsResult(items[n]);
    }
  }

  lemma {:induction false} ElidedIsResult(it: Item)
    ensures it.ToolResult? ==>
              ElidedResult(it).ToolResult? && ElidedResult(it).answers == it.answers &&
              ElidedResult(it).isError == it.isError
  {
  }

  /** Position of the first user message. */
  function FirstUser(t: seq<Message>): (r: Option<nat>)
    ensures r.Some? ==> r.value < |t| && t[r.value].role == User && forall i :: 0 <= i < r.value ==> t[i].role != User
    ensures r.None? ==> forall i :: 0 <= i < |t| ==> t[i].role != User
  {
    if t == [] then None
    else
      var n := |t| - 1;
      var earlier := FirstUser(t[..n]);
      if earlier.Some? then earlier else if t[n].role == User then Some(n) else None
  }

  /** Position of the last user message. */
  function LastUser(t: seq<Message>): (r: Option<nat>)
    ensures r.Some? ==> r.value < |t| && t[r.value].role == User && forall i :: r.value < i < |t| ==> t[i].role != User
    ensures r.None? ==> forall i :: 0 <= i < |t| ==> t[i].role != User
  {
    if t == [] then None
    else
      var n := |t| - 1;
      if t[n].role == User then Some(n) else LastUser(t[..n])
  }

  function TailStart(t: seq<Message>): nat {
    if |t| < RECENT_TAIL then 0 else |t| - RECENT_TAIL
  }

  /** What becomes of the message at position `i`: untouched if it is the anchor or recent,
      otherwise shrunk, and gone if nothing is left. */
  function Tier1One(t: seq<Message>, i: nat): seq<Message>
    requires i < |t|
  {
    if FirstUser(t) == Some(i) || i >= TailStart(t) then [t[i]]
    else
      var items := Shrink(t[i].items);
      if items == [] then [] else [t[i].(items := items)]
  }

  function Tier1Upto(t: seq<Message>, n: nat): seq<Message>
    requires n <= |t|
  {
    if n == 0 then [] else Tier1Upto(t, n - 1) + Tier1One(t, n - 1)
  }

  function WorkingSet(t: seq<Message>, compact: bool): seq<Message> {
    if compact then Tier1Upto(t, |t|) else t
  }

  method ShrinkItems(old_items: seq<Item>) returns (items: seq<Item>)
    ensures items == Shrink(old_items)
  {
    items := [];
    for j := 0 to |old_items|
      invariant items == Shrink(old_items[..j])
    {
      assert old_items[..j + 1][..j] == old_items[..j];
      match old_items[j] {
        case Reasoning(_) =>
        case ToolResult(_, _, _) => items := items + [ElidedResult(old_items[j])];
        case other => items := items + [old_items[j]];
      }
    }
    assert old_items[..|old_items|] == old_items;
  }

  /** `working_set` without its own tier 2; `compact` is the outcome of the size test. */
  method WorkingSetLoop(messages: seq<Message>, compact: bool) returns (out: seq<Message>)
    ensures out == WorkingSet(messages, compact)
  {
    hide Shrink, FirstUser, TailStart;
    if !compact {
      return messages;
    }
    var anchor, tailStart := FirstUser(messages), TailStart(messages);
    out := [];
    for i := 0 to |messages|
      invariant out == Tier1Upto(messages, i)
    {
      var m := messages[i];
      if anchor == Some(i) || i >= tailStart {
        out := out + [m];
        continue;
      }
      var items := ShrinkItems(m.items);
      if items != [] {
        out := out + [Message(m.id, m.role, items)];
      }
    }
  }

  // ---------------------------------------------------------------- tier 2

  /** `summary_span`: everything between the anchor and the last user message. */
  function SummarySpan(t: seq<Message>): (r: Option<(nat, nat)>)
    ensures r.Some? ==> 0 < r.value.0 < r.value.1 < |t|
    ensures r.Some? ==> t[r.value.0 - 1].role == User && forall i :: 0 <= i < r.value.0 - 1 ==> t[i].role != User
    ensures r.Some? ==> t[r.value.1].role == User && forall i :: r.value.1 < i < |t| ==> t[i].role != User
    ensures r.None? ==> forall i, j :: 0 <= i < j < |t| && t[i].role == User && t[j].role == User ==> j == i + 1
  {
    var anchor, last := FirstUser(t), LastUser(t);
    if anchor.None? || last.None? || anchor.value + 1 >= last.value then None
    else Some((anchor.value + 1, last.value))
  }

  const SUMMARY_PREFIX := "先前对话摘要：\n"

  function SummaryMessage(summary: string): Message {
    TextMessage(MAX_ID, System, SUMMARY_PREFIX + summary)
  }

  predicate Covered(m: Message, anchorId: nat, lastId: nat) {
    anchorId < m.id <= lastId
  }

  function Tier2Upto(t: seq<Message>, anchorId: nat, lastId: nat, summary: string): (seq<Message>, bool) {
    if t == [] then ([], false)
    else
      var n := |t| - 1;
      var (out, inserted) := Tier2Upto(t[..n], anchorId, lastId, summary);
      if Covered(t[n], anchorId, lastId) then (if inserted then out else out + [SummaryMessage(summary)], true)
      else (out + [t[n]], inserted)
  }

  /** `apply_tier2`: the covered ids are dropped and one summary takes the place of the first. */
  function ApplyTier2(t: seq<Message>, anchorId: nat, lastId: nat, summary: string): seq<Message> {
    Tier2Upto(t, anchorId, lastId, summary).0
  }

  method ApplyTier2Loop(tier1: seq<Message>, anchorId: nat, lastId: nat, summary: string) returns (out: seq<Message>)
    ensures out == ApplyTier2(tier1, anchorId, lastId, summary)
  {
    out := [];
    var inserted := false;
    for i := 0 to |tier1|
      invariant (out, inserted) == Tier2Upto(tier1[..i], anchorId, lastId, summary)
    {
      assert tier1[..i + 1][..i] == tier1[..i];
      if Covered(tier1[i], anchorId, lastId) {
        if !inserted {
          out := out + [SummaryMessage(summary)];
          inserted := true;
        }
        continue;
      }
      out := out + [tier1[i]];
    }
    assert tier1[..|tier1|] == tier1;
  }

  // ---------------------------------------------------------------- touched files

  datatype Files = Files(read: set<string>, modified: set<string>)

  /** What one item adds to the two file sets. */
  function FilesOfItem(f: Files, it: Item): Files {
    if !it.ToolCall? || it.args.path.None? then f
    else if it.name == "read_file" then f.(read := f.read + {it.args.path.value})
    else if it.name == "write_file" || it.name == "edit_file" then f.(modified := f.modified + {it.args.path.value})
    else f
  }

  function FilesOfItems(f: Files, items: seq<Item>): Files {
    if items == [] then f else FilesOfItem(FilesOfItems(f, items[..|items| - 1]), items[|items| - 1])
  }

  /** `collect_file_paths`, accumulating into `f`. */
  function CollectFiles(f: Files, span: seq<Message>): Files {
    if span == [] then f else FilesOfItems(CollectFiles(f, span[..|span| - 1]), span[|span| - 1].items)
  }

  const READERS := {"read_file"}
  const WRITERS := {"write_file", "edit_file"}

  /** Some call of one of the tools, in one of the messages, names the path. */
  ghost predicate Touches(span: seq<Message>, tools: set<string>, path: string) {
    exists m, it :: m in span && it in m.items && CallOn(it, tools, path)
  }

  ghost predicate CallOn(it: Item, tools: set<string>, path: string) {
    it.ToolCall? && it.name in tools && it.args.path == Some(path)
  }

  lemma {:induction false} PathsOfItems(f: Files, items: seq<Item>, path: string)
    ensures var r := FilesOfItems(f, items);
      && (path in r.read <==> path in f.read || exists it :: it in items && CallOn(it, READERS, path))
      && (path in r.modified <==> path in f.modified || exists it :: it in items && CallOn(it, WRITERS, path))
  {
    if items != [] {
      var n := |items| - 1;
      PathsOfItems(f, items[..n], path);
      assert items == items[..n] + [items[n]];
      assert items[n] in items;
    }
  }

  /** Which paths end up in the sets: those that were there, and those that a call of the span reads
      or writes. */
  lemma {:induction false} PathsOfSpan(f: Files, span: seq<Message>, path: string)
    ensures var r := CollectFiles(f, span);
      && (path in r.read <==> path in f.read || Touches(span, READERS, path))
      && (path in r.modified <==> path in f.modified || Touches(span, WRITERS, path))
  {
    hide FilesOfItems, CallOn;
    if span != [] {
      var n := |span| - 1;
      PathsOfSpan(f, span[..n], path);
      PathsOfItems(CollectFiles(f, span[..n]), span[n].items, path);
      TouchesNext(span, READERS, path);
      TouchesNext(span, WRITERS, path);
    }
  }

  lemma {:induction false} TouchesNext(span: seq<Message>, tools: set<string>, path: string)
    requires span != []
    ensures var n := |span| - 1;
      Touches(span, tools, path) <==>
      Touches(span[..n], tools, path) || exists it :: it in span[n].items && CallOn(it, tools, path)
  {
    hide CallOn;
    var n := |span| - 1;
    assert span == span[..n] + [span[n]];
    assert span[n] in span;
  }

  method CollectFilePaths(span: seq<Message>, f: Files) returns (r: Files)
    ensures r == CollectFiles(f, span)
  {
    r := f;
    for i := 0 to |span|
      invariant r == CollectFiles(f, span[..i])
    {
      assert span[..i + 1][..i] == span[..i];
      var before, items := r, span[i].items;
      for j := 0 to |items|
        invariant r == FilesOfItems(before, items[..j])
      {
        assert items[..j + 1][..j] == items[..j];
        r := FilesOfItem(r, items[j]);
      }
      assert items[..|items|] == items;
    }
    assert span[..|span|] == span;
  }

  /** Collecting a span in two pieces is collecting it at once. */
  lemma {:induction false} CollectInPieces(f: Files, a: seq<Message>, b: seq<Message>)
    ensures CollectFiles(f, a + b) == CollectFiles(CollectFiles(f, a), b)
  {
    if b == [] {
      assert a + b == a;
    } else {
      var n := |b| - 1;
      CollectInPieces(f, a, b[..n]);
      assert (a + b)[..|a + b| - 1] == a + b[..n];
    }
  }
}
