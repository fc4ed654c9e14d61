/** What the listing of a session tree shows: every entry once, parents first, indented by depth,
    with exactly the active thread marked.
 */
module TreeViewLaws {
  import opened Wrappers
  import opened Sequences
  import opened SessionTree
  import opened TreeView

  // ---------------------------------------------------------------- subtrees

  /** The entry `x` lies in the subtree of the entry `k`. */
  ghost predicate Below(entries: seq<SessionEntry>, k: nat, x: nat) {
    HasId(entries, x) && k in MessageIds(Path(entries, Some(x)))
  }

  ghost predicate BelowSome(entries: seq<SessionEntry>, kids: seq<nat>, x: nat) {
    exists k :: k in kids && Below(entries, k, x)
  }

  /** The path of a child is one longer than its parent's, and continues it. */
  lemma {:induction false} ChildPath(entries: seq<SessionEntry>, parent: Option<nat>, k: nat)
    requires TreeOk(entries) && ChildOf(entries, parent, k)
    ensures HasId(entries, k) && |Path(entries, Some(k))| == |Path(entries, parent)| + 1
    ensures Path(entries, Some(k))[..|Path(entries, parent)|] == Path(entries, parent)
    ensures Path(entries, Some(k))[|Path(entries, parent)|].id == k
    ensures parent.Some? ==> HasId(entries, parent.value)
  {
    hide TreeOk, Path;
    var e :| e in entries && e.parent == parent && e.message.id == k;
    PathStep(entries, e);
  }

  /** If `k` is on the path to `x`, that path starts with the path to `k`. */
  lemma {:induction false} BelowMeansPrefix(entries: seq<SessionEntry>, k: nat, x: nat)
    requires TreeOk(entries) && Below(entries, k, x)
    ensures HasId(entries, k) && Path(entries, Some(k)) <= Path(entries, Some(x))
  {
    hide TreeOk, Path;
    var i :| 0 <= i < |Path(entries, Some(x))| && MessageIds(Path(entries, Some(x)))[i] == k;
    PathPrefix(entries, x, i);
  }

  lemma {:induction false} BelowItself(entries: seq<SessionEntry>, x: nat)
    requires TreeOk(entries) && HasId(entries, x)
    ensures Below(entries, x, x)
  {
    PathClimbs(entries, x);
    var p := Path(entries, Some(x));
    assert MessageIds(p)[|p| - 1] == x;
  }

  /** A subtree is its root and the subtrees of the root's children. */
  lemma {:induction false} SubtreeSplits(entries: seq<SessionEntry>, k: nat, x: nat)
    requires TreeOk(entries) && HasId(entries, k)
    ensures Below(entries, k, x) <==> x == k || BelowSome(entries, Children(entries, Some(k)), x)
  {
    hide TreeOk, Path, Children;
    BelowItself(entries, k);
    if Below(entries, k, x) && x != k {
      NextOnPath(entries, k, x);
    }
    if BelowSome(entries, Children(entries, Some(k)), x) {
      var c :| c in Children(entries, Some(k)) && Below(entries, c, x);
      ChildrenAre(entries, Some(k), c);
      ThroughChild(entries, k, c, x);
    }
  }

  lemma {:induction false} ThroughChild(entries: seq<SessionEntry>, k: nat, c: nat, x: nat)
    requires TreeOk(entries) && ChildOf(entries, Some(k), c) && Below(entries, c, x)
    ensures Below(entries, k, x)
  {
    hide TreeOk, Path;
    ChildPath(entries, Some(k), c);
    BelowMeansPrefix(entries, c, x);
    LastOfPath(entries, k);
    var i := |Path(entries, Some(k))| - 1;
    assert Path(entries, Some(k))[i] == Path(entries, Some(c))[i] == Path(entries, Some(x))[i];
    assert MessageIds(Path(entries, Some(x)))[i] == k;
  }

  lemma {:induction false} LastOfPath(entries: seq<SessionEntry>, k: nat)
    requires TreeOk(entries) && HasId(entries, k)
    ensures Path(entries, Some(k)) != [] && Path(entries, Some(k))[|Path(entries, Some(k))| - 1].id == k
  {
    PathClimbs(entries, k);
  }

  /** The entry after `k` on the path to `x` is a child of `k`. */
  lemma {:induction false} NextOnPath(entries: seq<SessionEntry>, k: nat, x: nat)
    requires TreeOk(entries) && Below(entries, k, x) && x != k
    ensures BelowSome(entries, Children(entries, Some(k)), x)
  {
    hide TreeOk, Path, Children;
    var p := Path(entries, Some(x));
    var i :| 0 <= i < |p| && MessageIds(p)[i] == k;
    LastOfPath(entries, x);
    var c := p[i + 1].id;
    PathPrefix(entries, x, i);
    PathPrefix(entries, x, i + 1);
    var e :| e in entries && e.message.id == c;
    PathStep(entries, e);
    assert Path(entries, e.parent) == p[..i + 1] by { assert p[..i + 2] == p[..i + 1] + [p[i + 1]]; }
    PathOfNone(entries);
    LastOfPath(entries, e.parent.value);
    assert e.parent == Some(k);
    ChildrenAre(entries, Some(k), c);
    assert MessageIds(p)[i + 1] == c;
  }

  /** The subtrees of two children of one parent are disjoint. */
  lemma {:induction false} SiblingsApart(entries: seq<SessionEntry>, parent: Option<nat>, k: nat, l: nat, x: nat)
    requires TreeOk(entries) && ChildOf(entries, parent, k) && ChildOf(entries, parent, l)
    requires Below(entries, k, x) && Below(entries, l, x)
    ensures k == l
  {
    hide TreeOk, Path;
    ChildPath(entries, parent, k);
    ChildPath(entries, parent, l);
    BelowMeansPrefix(entries, k, x);
    BelowMeansPrefix(entries, l, x);
    var n := |Path(entries, parent)|;
    assert Path(entries, Some(k))[n] == Path(entries, Some(x))[n] == Path(entries, Some(l))[n];
  }

  /** An entry is not in the subtree of its child. */
  lemma {:induction false} NotBelowChild(entries: seq<SessionEntry>, k: nat, c: nat)
    requires TreeOk(entries) && ChildOf(entries, Some(k), c)
    ensures !Below(entries, c, k)
  {
    hide TreeOk, Path;
    ChildPath(entries, Some(k), c);
    if Below(entries, c, k) {
      BelowMeansPrefix(entries, c, k);
    }
  }

  // ---------------------------------------------------------------- the walk

  function LineIds(lines: seq<Line>): (r: seq<nat>)
    ensures |r| == |lines| && forall i :: 0 <= i < |lines| ==> r[i] == lines[i].id
  {
    seq(|lines|, i requires 0 <= i < |lines| => lines[i].id)
  }

  /** A line shows its depth and whether its entry is active, and comes after its parent's line. */
  ghost predicate LineOk(entries: seq<SessionEntry>, active: set<nat>, parent: Option<nat>, lines: seq<Line>, j: nat)
    requires j < |lines|
  {
    && HasId(entries, lines[j].id)
    && lines[j].depth + 1 == |Path(entries, Some(lines[j].id))|
    && lines[j].marked == (lines[j].id in active)
    && (ChildOf(entries, parent, lines[j].id) || ParentListed(entries, lines, j))
  }

  ghost predicate ParentListed(entries: seq<SessionEntry>, lines: seq<Line>, j: nat)
    requires j < |lines|
  {
    exists i :: 0 <= i < j && ChildOf(entries, Some(lines[i].id), lines[j].id)
  }

  ghost predicate AllLinesOk(entries: seq<SessionEntry>, active: set<nat>, parent: Option<nat>, lines: seq<Line>) {
    forall j :: 0 <= j < |lines| ==> LineOk(entries, active, parent, lines, j)
  }

  /** The lines of a walk are those of the subtrees, each entry once. */
  ghost predicate ListsSubtrees(entries: seq<SessionEntry>, kids: seq<nat>, lines: seq<Line>) {
    Distinct(LineIds(lines)) && forall x :: x in LineIds(lines) <==> BelowSome(entries, kids, x)
  }

  lemma {:induction false} WalkIsRight(entries: seq<SessionEntry>, active: set<nat>, parent: Option<nat>,
          kids: seq<nat>, depth: nat)
    requires TreeOk(entries) && KidsOf(entries, parent, kids) && Distinct(kids) && depth == |Path(entries, parent)|
    ensures ListsSubtrees(entries, kids, Walk(entries, active, parent, kids, depth))
    ensures AllLinesOk(entries, active, parent, Walk(entries, active, parent, kids, depth))
    decreases Room(entries, parent), |kids|
  {
    hide TreeOk, Path, Children, Room, ListsSubtrees, AllLinesOk, LineOk;
    if kids == [] {
      NothingListed(entries, active, parent);
    } else {
      var n := |kids| - 1;
      var k := kids[n];
      assert k in kids && forall x :: x in kids[..n] ==> x in kids;
      LessRoomBelow(entries, parent, k);
      ChildrenAreKids(entries, Some(k));
      ChildrenDistinct(entries, Some(k));
      ChildPath(entries, parent, k);
      WalkIsRight(entries, active, parent, kids[..n], depth);
      WalkIsRight(entries, active, Some(k), Children(entries, Some(k)), depth + 1);
      var a := Walk(entries, active, parent, kids[..n], depth);
      var b := Walk(entries, active, Some(k), Children(entries, Some(k)), depth + 1);
      JoinSubtrees(entries, parent, kids, a, Line(k, depth, k in active), b);
      JoinLines(entries, active, parent, k, a, Line(k, depth, k in active), b);
    }
  }

  lemma {:induction false} NothingListed(entries: seq<SessionEntry>, active: set<nat>, parent: Option<nat>)
    ensures ListsSubtrees(entries, [], []) && AllLinesOk(entries, active, parent, [])
  {
  }

  lemma {:induction false} ChildrenDistinct(entries: seq<SessionEntry>, parent: Option<nat>)
    requires TreeOk(entries)
    ensures Distinct(Children(entries, parent))
  {
    ChildrenAscend(entries, parent);
  }

  lemma {:induction false} JoinSubtrees(entries: seq<SessionEntry>, parent: Option<nat>, kids: seq<nat>, a: seq<Line>,
          line: Line, b: seq<Line>)
    requires TreeOk(entries) && KidsOf(entries, parent, kids) && Distinct(kids) && kids != []
    requires line.id == kids[|kids| - 1]
    requires ListsSubtrees(entries, kids[..|kids| - 1], a)
    requires ListsSubtrees(entries, Children(entries, Some(line.id)), b)
    ensures ListsSubtrees(entries, kids, a + [line] + b)
  {
    hide TreeOk, Path, Children, Below;
    var n, k, all := |kids| - 1, line.id, a + [line] + b;
    assert k in kids && kids == kids[..n] + [k];
    ChildPath(entries, parent, k);
    assert LineIds(all) == LineIds(a) + [k] + LineIds(b);
    forall x ensures x in LineIds(all) <==> BelowSome(entries, kids, x) {
      SubtreeSplits(entries, k, x);
    }
    forall x | x in LineIds(a) ensures x != k && x !in LineIds(b) {
      EarlierApart(entries, parent, kids, x);
      SubtreeSplits(entries, k, x);
    }
    forall x | x in LineIds(b) ensures x != k {
      var c :| c in Children(entries, Some(k)) && Below(entries, c, x);
      ChildrenAre(entries, Some(k), c);
      NotBelowChild(entries, k, c);
    }
    DistinctJoin(LineIds(a), k, LineIds(b));
  }

  lemma {:induction false} EarlierApart(entries: seq<SessionEntry>, parent: Option<nat>, kids: seq<nat>, x: nat)
    requires TreeOk(entries) && KidsOf(entries, parent, kids) && Distinct(kids) && kids != []
    requires BelowSome(entries, kids[..|kids| - 1], x)
    ensures !Below(entries, kids[|kids| - 1], x)
  {
    hide TreeOk, Below;
    var n := |kids| - 1;
    var l :| l in kids[..n] && Below(entries, l, x);
    assert l in kids && kids[n] in kids && l != kids[n];
    if Below(entries, kids[n], x) {
      SiblingsApart(entries, parent, l, kids[n], x);
    }
  }

  lemma {:induction false} DistinctJoin(a: seq<nat>, k: nat, b: seq<nat>)
    requires Distinct(a) && Distinct(b)
    requires forall x :: x in a ==> x != k && x !in b
    requires forall x :: x in b ==> x != k
    ensures Distinct(a + [k] + b)
  {
    forall i | 0 <= i < |b| ensures b[i] in b {
    }
    forall i | 0 <= i < |a| ensures a[i] in a {
    }
  }

  lemma {:induction false} JoinLines(entries: seq<SessionEntry>, active: set<nat>, parent: Option<nat>, k: nat,
          a: seq<Line>, line: Line, b: seq<Line>)
    requires ChildOf(entries, parent, k) && HasId(entries, k) && line.depth + 1 == |Path(entries, Some(k))|
    requires line.id == k && line.marked == (k in active)
    requires AllLinesOk(entries, active, parent, a) && AllLinesOk(entries, active, Some(k), b)
    ensures AllLinesOk(entries, active, parent, a + [line] + b)
  {
    hide Path, ChildOf, HasId;
    var all := a + [line] + b;
    forall j | 0 <= j < |all| ensures LineOk(entries, active, parent, all, j) {
      if j < |a| {
        assert LineOk(entries, active, parent, a, j) && all[j] == a[j];
        if ParentListed(entries, a, j) {
          var i :| 0 <= i < j && ChildOf(entries, Some(a[i].id), a[j].id);
          assert all[i] == a[i];
        }
      } else if j > |a| {
        var m := j - |a| - 1;
        assert LineOk(entries, active, Some(k), b, m) && all[j] == b[m] && all[|a|] == line;
        if ParentListed(entries, b, m) {
          var i :| 0 <= i < m && ChildOf(entries, Some(b[i].id), b[m].id);
          assert all[|a| + 1 + i] == b[i];
        }
      }
    }
  }

  // ---------------------------------------------------------------- the order of the lines

  function IdsTo(entries: seq<SessionEntry>, x: nat): seq<nat> {
    MessageIds(Path(entries, Some(x)))
  }

  /** `p` is a proper part of the path `q`, or turns off to a lower id where the two part. */
  ghost predicate Precedes(p: seq<nat>, q: seq<nat>) {
    exists k :: PartsAt(p, q, k)
  }

  ghost predicate PartsAt(p: seq<nat>, q: seq<nat>, k: int) {
    0 <= k <= |p| && k < |q| && p[..k] == q[..k] && (k < |p| ==> p[k] < q[k])
  }

  ghost predicate InOrder(entries: seq<SessionEntry>, lines: seq<Line>) {
    forall i, j :: 0 <= i < j < |lines| ==> Precedes(IdsTo(entries, lines[i].id), IdsTo(entries, lines[j].id))
  }

  lemma {:induction false} SiblingsInOrder(entries: seq<SessionEntry>, parent: Option<nat>, l: nat, k: nat, x: nat,
          y: nat)
    requires TreeOk(entries) && ChildOf(entries, parent, l) && ChildOf(entries, parent, k) && l < k
    requires Below(entries, l, x) && Below(entries, k, y)
    ensures Precedes(IdsTo(entries, x), IdsTo(entries, y))
  {
    hide TreeOk, Path, ChildOf, Below;
    ChildPath(entries, parent, l);
    ChildPath(entries, parent, k);
    BelowMeansPrefix(entries, l, x);
    BelowMeansPrefix(entries, k, y);
    var n := |Path(entries, parent)|;
    var p, q := IdsTo(entries, x), IdsTo(entries, y);
    var above := Path(entries, parent);
    forall i | 0 <= i < n ensures p[i] == q[i] {
      assert Path(entries, Some(l))[i] == Path(entries, Some(l))[..n][i] == above[i];
      assert Path(entries, Some(k))[i] == Path(entries, Some(k))[..n][i] == above[i];
    }
    assert p[..n] == q[..n];
    assert PartsAt(p, q, n);
  }

  lemma {:induction false} AncestorFirst(entries: seq<SessionEntry>, k: nat, y: nat)
    requires TreeOk(entries) && Below(entries, k, y) && y != k
    ensures Precedes(IdsTo(entries, k), IdsTo(entries, y))
  {
    hide TreeOk, Path;
    BelowMeansPrefix(entries, k, y);
    LastOfPath(entries, k);
    LastOfPath(entries, y);
    var p, q := IdsTo(entries, k), IdsTo(entries, y);
    assert p[|p| - 1] != q[|q| - 1];
    assert p == q[..|p|] && p[..|p|] == p;
    assert PartsAt(p, q, |p|);
  }

  lemma {:induction false} WalkIsInOrder(entries: seq<SessionEntry>, active: set<nat>, parent: Option<nat>,
          kids: seq<nat>, depth: nat)
    requires TreeOk(entries) && KidsOf(entries, parent, kids) && depth == |Path(entries, parent)|
    requires forall i, j :: 0 <= i < j < |kids| ==> kids[i] < kids[j]
    ensures InOrder(entries, Walk(entries, active, parent, kids, depth))
    decreases Room(entries, parent), |kids|
  {
    hide TreeOk, Path, Children, Room, ListsSubtrees, AllLinesOk, LineOk, InOrder;
    if kids == [] {
      NothingInOrder(entries);
    } else {
      var n := |kids| - 1;
      var k := kids[n];
      assert k in kids && forall x :: x in kids[..n] ==> x in kids;
      LessRoomBelow(entries, parent, k);
      ChildrenAreKids(entries, Some(k));
      ChildrenAscend(entries, Some(k));
      ChildPath(entries, parent, k);
      WalkIsInOrder(entries, active, parent, kids[..n], depth);
      WalkIsInOrder(entries, active, Some(k), Children(entries, Some(k)), depth + 1);
      WalkIsRight(entries, active, parent, kids[..n], depth);
      WalkIsRight(entries, active, Some(k), Children(entries, Some(k)), depth + 1);
      var a := Walk(entries, active, parent, kids[..n], depth);
      var b := Walk(entries, active, Some(k), Children(entries, Some(k)), depth + 1);
      JoinInOrder(entries, parent, kids, a, Line(k, depth, k in active), b);
    }
  }

  lemma {:induction false} NothingInOrder(entries: seq<SessionEntry>)
    ensures InOrder(entries, [])
  {
  }

  lemma {:induction false} JoinInOrder(entries: seq<SessionEntry>, parent: Option<nat>, kids: seq<nat>, a: seq<Line>,
          line: Line, b: seq<Line>)
    requires TreeOk(entries) && KidsOf(entries, parent, kids) && kids != [] && line.id == kids[|kids| - 1]
    requires forall i, j :: 0 <= i < j < |kids| ==> kids[i] < kids[j]
    requires ListsSubtrees(entries, kids[..|kids| - 1], a) && InOrder(entries, a)
    requires ListsSubtrees(entries, Children(entries, Some(line.id)), b) && InOrder(entries, b)
    ensures InOrder(entries, a + [line] + b)
  {
    hide TreeOk, Path, Children, Below, Precedes, IdsTo, KidsOf;
    var k, all := line.id, a + [line] + b;
    assert k in kids;
    KidIsChild(entries, parent, kids, k);
    ChildPath(entries, parent, k);
    BelowItself(entries, k);
    forall j | |a| < j < |all| ensures Below(entries, k, all[j].id) && all[j].id != k {
      assert LineIds(b)[j - |a| - 1] == all[j].id;
      SubtreeSplits(entries, k, all[j].id);
      BelowSomeChild(entries, k, all[j].id);
    }
    forall i, j | 0 <= i < j < |all| ensures Precedes(IdsTo(entries, all[i].id), IdsTo(entries, all[j].id)) {
      if j < |a| {
        assert all[i] == a[i] && all[j] == a[j];
      } else if i > |a| {
        assert all[i] == b[i - |a| - 1] && all[j] == b[j - |a| - 1];
      } else if i == |a| {
        AncestorFirst(entries, k, all[j].id);
      } else {
        assert LineIds(a)[i] == all[i].id;
        assert BelowSome(entries, kids[..|kids| - 1], all[i].id);
        var l :| l in kids[..|kids| - 1] && Below(entries, l, all[i].id);
        assert l in kids;
        KidIsChild(entries, parent, kids, l);
        SiblingsInOrder(entries, parent, l, k, all[i].id, all[j].id);
      }
    }
  }

  lemma {:induction false} KidIsChild(entries: seq<SessionEntry>, parent: Option<nat>, kids: seq<nat>, k: nat)
    requires KidsOf(entries, parent, kids) && k in kids
    ensures ChildOf(entries, parent, k)
  {
  }

  lemma {:induction false} BelowSomeChild(entries: seq<SessionEntry>, k: nat, x: nat)
    requires TreeOk(entries) && BelowSome(entries, Children(entries, Some(k)), x)
    ensures x != k
  {
    hide TreeOk, Path, Children, Below;
    var c :| c in Children(entries, Some(k)) && Below(entries, c, x);
    ChildrenAre(entries, Some(k), c);
    if x == k {
      NotBelowChild(entries, k, c);
    }
  }

  /** Every entry of a valid session is listed exactly once; each line comes after the line of
      its parent and is indented by its depth; the marked entries are the active thread; and lines
      follow their paths: what lies below an entry comes right behind it, siblings by ascending id. */
  lemma {:induction false} ListingIsRight(t: Tree, nextId: nat)
    requires SessionOk(t, nextId)
    ensures Distinct(LineIds(Listing(t)))
    ensures forall x :: x in LineIds(Listing(t)) <==> HasId(t.entries, x)
    ensures AllLinesOk(t.entries, ActiveIds(t), None, Listing(t))
    ensures forall x :: x in ActiveIds(t) <==> x in MessageIds(Thread(t))
    ensures InOrder(t.entries, Listing(t))
  {
    hide TreeOk, Path, Children, Below, LineOk, InOrder;
    var entries := t.entries;
    ChildrenAreKids(entries, None);
    ChildrenDistinct(entries, None);
    PathOfNone(entries);
    NoTrail(entries);
    if t.leaf.Some? {
      TrailIsPath(entries, t.leaf.value);
    }
    WalkIsRight(entries, ActiveIds(t), None, Children(entries, None), 0);
    ChildrenAscend(entries, None);
    WalkIsInOrder(entries, ActiveIds(t), None, Children(entries, None), 0);
    forall x ensures BelowSome(entries, Children(entries, None), x) <==> HasId(entries, x) {
      AllBelowRoot(entries, x);
    }
  }

  lemma {:induction false} AllBelowRoot(entries: seq<SessionEntry>, x: nat)
    requires TreeOk(entries)
    ensures BelowSome(entries, Children(entries, None), x) <==> HasId(entries, x)
  {
    hide TreeOk, Path, Children;
    if HasId(entries, x) {
      LastOfPath(entries, x);
      PathPrefix(entries, x, 0);
      var p := Path(entries, Some(x));
      var e :| e in entries && e.message.id == p[0].id;
      PathStep(entries, e);
      assert |p[..1]| == 1;
      if e.parent.Some? {
        LastOfPath(entries, e.parent.value);
      }
      assert e.parent.None?;
      ChildrenAre(entries, None, p[0].id);
      assert MessageIds(p)[0] == p[0].id;
    }
  }

}
