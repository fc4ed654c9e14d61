/** What tier 1 leaves of a thread: which messages go, what the others keep, and in which order. */
module WorkingSetContents {
  import opened Wrappers
  import opened Sequences
  import opened Strings
  import opened Messages
  import opened Compaction

  // ---------------------------------------------------------------- one message

  ghost function NotReasoning(): Item -> bool { (x: Item) => !x.Reasoning? }

  /** A result without its body; everything else as it is. */
  ghost function Elided(): Item -> Item {
    (x: Item) => if x.ToolResult? then ElidedResult(x) else x
  }

  /** Shrinking drops the reasoning and nothing else, and keeps the order. */
  lemma {:induction false} ShrinkIs(items: seq<Item>)
    ensures Filtered(items, NotReasoning(), Elided(), Shrink(items))
  {
    hide ElidedResult;
    if items == [] {
      FilteredNothing(NotReasoning(), Elided());
    } else {
      var n := |items| - 1;
      ShrinkIs(items[..n]);
      FilteredNext(items[..n], NotReasoning(), Elided(), Shrink(items[..n]), items[n]);
      assert items == items[..n] + [items[n]];
    }
  }

  // ---------------------------------------------------------------- the elision marker

  /** A marker keeps whose result it is and whether it failed, and names the length of what it
      replaces, in plain decimal. */
  lemma {:induction false} MarkerIs(x: Item) returns (digits: string)
    requires x.ToolResult?
    ensures ElidedResult(x) == ToolResult(x.answers, "[elided by compaction: " + digits + " chars]", x.isError)
    ensures Digits(digits) == Some(ByteLength(x.output)) && digits != [] && (|digits| > 1 ==> digits[0] != '0')
  {
    digits := Decimal(ByteLength(x.output));
    DecimalReadsBack(ByteLength(x.output));
  }

  /** The length counts the bytes of the UTF-8 encoding (section 3 of RFC 3629), character by
      character. */
  lemma {:induction false} LengthAdds(a: string, b: string)
    ensures ByteLength(a + b) == ByteLength(a) + ByteLength(b)
  {
    if b == [] {
      assert a + b == a;
    } else {
      var n := |b| - 1;
      LengthAdds(a, b[..n]);
      assert (a + b)[..|a + b| - 1] == a + b[..n];
    }
  }

  lemma {:induction false} LengthOfOne(c: char)
    ensures var n := ByteLength([c]);
      && (c <= '\U{7F}' ==> n == 1) && ('\U{80}' <= c <= '\U{7FF}' ==> n == 2)
      && ('\U{800}' <= c <= '\U{FFFF}' ==> n == 3) && ('\U{10000}' <= c ==> n == 4)
  {
    assert [c][..0] == [];
  }

  // ---------------------------------------------------------------- the whole thread

  /** One of the six most recent messages. */
  predicate Recent(t: seq<Message>, k: nat) {
    k + 6 >= |t|
  }

  /** The first message of the user. */
  predicate Anchor(t: seq<Message>, k: nat)
    requires k < |t|
  {
    t[k].role == User && forall i :: 0 <= i < k ==> t[i].role != User
  }

  /** `m` is what has to be left of message `k`. */
  ghost predicate LeftOf(t: seq<Message>, k: nat, m: Message)
    requires k < |t|
  {
    if Recent(t, k) || Anchor(t, k) then m == t[k]
    else m.id == t[k].id && m.role == t[k].role && m.items != [] &&
         Filtered(t[k].items, NotReasoning(), Elided(), m.items)
  }

  /** Nothing has to be left of it. */
  ghost predicate Vanishes(t: seq<Message>, k: nat)
    requires k < |t|
  {
    !Recent(t, k) && !Anchor(t, k) && forall x :: x in t[k].items ==> x.Reasoning?
  }

  /** `w` lists what is left of the messages at `ks`, and nothing is left of the others. */
  ghost predicate LeavesAt(t: seq<Message>, n: nat, w: seq<Message>, ks: seq<nat>)
    requires n <= |t|
  {
    && Positions(ks, n) && |w| == |ks|
    && (forall i :: 0 <= i < |ks| ==> LeftOf(t, ks[i], w[i]))
    && (forall k :: 0 <= k < n ==> k in ks || Vanishes(t, k))
  }

  lemma {:induction false} AnchorIsFirstUser(t: seq<Message>, k: nat)
    requires k < |t|
    ensures Anchor(t, k) <==> FirstUser(t) == Some(k)
  {
  }

  lemma {:induction false} OneLeft(t: seq<Message>, k: nat)
    requires k < |t|
    ensures var one := Tier1One(t, k);
      (one == [] && Vanishes(t, k)) || (|one| == 1 && LeftOf(t, k, one[0]))
  {
    hide FirstUser, Shrink, Filtered, Anchor;
    AnchorIsFirstUser(t, k);
    ShrinkIs(t[k].items);
    if Shrink(t[k].items) == [] {
      NothingFiltered(t[k].items);
    }
  }

  lemma {:induction false} NothingFiltered(items: seq<Item>)
    requires Filtered(items, NotReasoning(), Elided(), [])
    ensures forall x :: x in items ==> x.Reasoning?
  {
    var ks: seq<nat> :| FilteredAt(items, NotReasoning(), Elided(), [], ks);
    forall x | x in items ensures x.Reasoning? {
      var k :| 0 <= k < |items| && items[k] == x;
      assert !NotReasoning()(items[k]) || k in ks;
    }
  }

  lemma {:induction false} Tier1Leaves(t: seq<Message>, n: nat) returns (ks: seq<nat>)
    requires n <= |t|
    ensures LeavesAt(t, n, Tier1Upto(t, n), ks)
  {
    hide Tier1One, LeftOf, Vanishes;
    ks := [];
    if n > 0 {
      ks := Tier1Leaves(t, n - 1);
      OneLeft(t, n - 1);
      PositionsNext(ks, n - 1);
      if Tier1One(t, n - 1) == [] {
        assert Tier1Upto(t, n) == Tier1Upto(t, n - 1);
      } else {
        assert (ks + [n - 1])[|ks|] == n - 1;
        ks := ks + [n - 1];
      }
    }
  }

  /** Tier 1 exactly: the anchor and the last six messages stay as they are; of an older message all
      but the reasoning stays, in its order, with results elided; it goes exactly if it has nothing
      but reasoning; and the messages keep their order. */
  lemma {:induction false} WorkingSetLeaves(t: seq<Message>) returns (ks: seq<nat>)
    ensures LeavesAt(t, |t|, WorkingSet(t, true), ks)
    ensures WorkingSet(t, false) == t
  {
    ks := Tier1Leaves(t, |t|);
  }

  /** The end of the thread is the end of the working set. */
  lemma {:induction false} TailStays(t: seq<Message>, n: nat)
    requires n <= 6 && n <= |t|
    ensures var w := WorkingSet(t, true);
      n <= |w| && w[|w| - n..] == t[|t| - n..]
  {
    Tier1Tail(t, n, |t|);
    assert t[|t| - n..|t|] == t[|t| - n..];
  }

  lemma {:induction false} Tier1Tail(t: seq<Message>, n: nat, k: nat)
    requires n <= 6 && n <= |t| && |t| - n <= k <= |t|
    ensures Tier1Upto(t, k) == Tier1Upto(t, |t| - n) + t[|t| - n..k]
    decreases k
  {
    hide Tier1One;
    if k > |t| - n {
      Tier1Tail(t, n, k - 1);
      RecentStays(t, k - 1);
      assert t[|t| - n..k] == t[|t| - n..k - 1] + [t[k - 1]];
    }
  }

  lemma {:induction false} RecentStays(t: seq<Message>, k: nat)
    requires k < |t| && Recent(t, k)
    ensures Tier1One(t, k) == [t[k]]
  {
    hide FirstUser, Shrink;
  }
}
