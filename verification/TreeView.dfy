/** The listing of a session tree (`render_tree_with_children` in `src/session.rs`): a walk that
    emits every entry exactly once, parents first, and marks the active thread.
 */
module TreeView {
  import opened Wrappers
  import opened SessionTree

  /** One line of the listing: which entry, how far indented, and whether marked. */
  datatype Line = Line(id: nat, depth: nat, marked: bool)

  /** The ids of the entries with the given parent, in storage order. */
  function Children(entries: seq<SessionEntry>, parent: Option<nat>): (r: seq<nat>)
    ensures |r| <= |entries|
  {
    if entries == [] then []
    else
      var n := |entries| - 1;
      Children(entries[..n], parent) + if entries[n].parent == parent then [entries[n].message.id] else []
  }

  ghost predicate ChildOf(entries: seq<SessionEntry>, parent: Option<nat>, id: nat) {
    exists e :: e in entries && e.parent == parent && e.message.id == id
  }

  ghost predicate KidsOf(entries: seq<SessionEntry>, parent: Option<nat>, kids: seq<nat>) {
    forall k :: k in kids ==> ChildOf(entries, parent, k)
  }

  lemma {:induction false} ChildrenAre(entries: seq<SessionEntry>, parent: Option<nat>, id: nat)
    ensures id in Children(entries, parent) <==> ChildOf(entries, parent, id)
  {
    if entries != [] {
      var n := |entries| - 1;
      ChildrenAre(entries[..n], parent, id);
      assert entries == entries[..n] + [entries[n]];
    }
  }

  /** Children are listed by ascending id, so that sorting them changes nothing. */
  lemma {:induction false} ChildrenAscend(entries: seq<SessionEntry>, parent: Option<nat>)
    requires Descends(entries)
    ensures forall i, j :: 0 <= i < j < |Children(entries, parent)| ==>
              Children(entries, parent)[i] < Children(entries, parent)[j]
  {
    if entries != [] {
      var n := |entries| - 1;
      ChildrenAscend(entries[..n], parent);
      var rest := Children(entries[..n], parent);
      forall i | 0 <= i < |rest| ensures rest[i] < entries[n].message.id {
        ChildrenAre(entries[..n], parent, rest[i]);
      }
    }
  }

  /** A parent has a lower id than its children. */
  lemma {:induction false} ParentIsBelow(entries: seq<SessionEntry>, e: SessionEntry)
    requires Descends(entries) && e in entries
    ensures e.parent.Some? ==> e.parent.value < e.message.id
  {
    var n := |entries| - 1;
    assert entries == entries[..n] + [entries[n]];
    if e in entries[..n] {
      ParentIsBelow(entries[..n], e);
    }
  }

  /** Ranks of the recursion: ids grow downwards and stay below the bound. */
  function Room(entries: seq<SessionEntry>, parent: Option<nat>): nat {
    if parent.None? then NextMessageId(entries) + 1
    else if parent.value < NextMessageId(entries) then NextMessageId(entries) - parent.value else 0
  }

  lemma {:induction false} LessRoomBelow(entries: seq<SessionEntry>, parent: Option<nat>, kid: nat)
    requires Descends(entries) && ChildOf(entries, parent, kid)
    ensures Room(entries, Some(kid)) < Room(entries, parent)
  {
    var e :| e in entries && e.parent == parent && e.message.id == kid;
    ParentIsBelow(entries, e);
  }

  lemma {:induction false} ChildrenAreKids(entries: seq<SessionEntry>, parent: Option<nat>)
    ensures KidsOf(entries, parent, Children(entries, parent))
  {
    forall k | k in Children(entries, parent) ensures ChildOf(entries, parent, k) {
      ChildrenAre(entries, parent, k);
    }
  }

  /** The lines of the subtrees of some children of `parent`. */
  ghost function Walk(entries: seq<SessionEntry>, active: set<nat>, parent: Option<nat>, kids: seq<nat>,
          depth: nat): seq<Line>
    requires Descends(entries) && KidsOf(entries, parent, kids)
    decreases Room(entries, parent), |kids|
  {
    if kids == [] then []
    else
      var n := |kids| - 1;
      assert kids[n] in kids && forall k :: k in kids[..n] ==> k in kids;
      LessRoomBelow(entries, parent, kids[n]);
      ChildrenAreKids(entries, Some(kids[n]));
      Walk(entries, active, parent, kids[..n], depth) +
      [Line(kids[n], depth, kids[n] in active)] +
      Walk(entries, active, Some(kids[n]), Children(entries, Some(kids[n])), depth + 1)
  }

  function ActiveIds(t: Tree): set<nat> {
    set id | id in Trail(t.entries, t.leaf)
  }

  /** The whole listing. */
  ghost function Listing(t: Tree): seq<Line>
    requires Descends(t.entries)
  {
    ChildrenAreKids(t.entries, None);
    Walk(t.entries, ActiveIds(t), None, Children(t.entries, None), 0)
  }

  // ---------------------------------------------------------------- the code

  lemma {:induction false} WalkNothing(entries: seq<SessionEntry>, active: set<nat>, parent: Option<nat>, depth: nat)
    requires Descends(entries)
    ensures KidsOf(entries, parent, []) && Walk(entries, active, parent, [], depth) == []
  {
  }

  /** One more child: its line and its subtree. */
  lemma {:induction false} WalkNext(entries: seq<SessionEntry>, active: set<nat>, parent: Option<nat>, kids: seq<nat>,
          i: nat, depth: nat)
    requires Descends(entries) && KidsOf(entries, parent, kids) && i < |kids|
    ensures KidsOf(entries, parent, kids[..i]) && KidsOf(entries, parent, kids[..i + 1])
    ensures KidsOf(entries, Some(kids[i]), Children(entries, Some(kids[i])))
    ensures Room(entries, Some(kids[i])) < Room(entries, parent)
    ensures Walk(entries, active, parent, kids[..i + 1], depth) ==
            Walk(entries, active, parent, kids[..i], depth) + [Line(kids[i], depth, kids[i] in active)] +
            Walk(entries, active, Some(kids[i]), Children(entries, Some(kids[i])), depth + 1)
  {
    hide Descends, Room, Children;
    assert kids[..i + 1][..i] == kids[..i];
    assert kids[i] in kids && forall k :: k in kids[..i + 1] ==> k in kids;
    LessRoomBelow(entries, parent, kids[i]);
    ChildrenAreKids(entries, Some(kids[i]));
  }

  /** `walk`, which pushes lines onto `out`. */
  method WalkInto(entries: seq<SessionEntry>, active: set<nat>, parent: Option<nat>, depth: nat, out: seq<Line>)
    returns (out': seq<Line>)
    requires Descends(entries)
    ensures KidsOf(entries, parent, Children(entries, parent))
    ensures out' == out + Walk(entries, active, parent, Children(entries, parent), depth)
    decreases Room(entries, parent)
  {
    hide Descends, Room, Children, Walk, KidsOf;
    ChildrenAreKids(entries, parent);
    var kids := Children(entries, parent);
    WalkNothing(entries, active, parent, depth);
    out' := out;
    for i := 0 to |kids|
      invariant KidsOf(entries, parent, kids[..i])
      invariant out' == out + Walk(entries, active, parent, kids[..i], depth)
    {
      WalkNext(entries, active, parent, kids, i, depth);
      out' := out' + [Line(kids[i], depth, kids[i] in active)];
      out' := WalkInto(entries, active, Some(kids[i]), depth + 1, out');
    }
    assert kids[..|kids|] == kids;
  }

  /** `render_tree`, up to the formatting of its lines. */
  method RenderTree(t: Tree, ghost nextId: nat) returns (lines: seq<Line>)
    requires Loaded(t, nextId)
    ensures lines == Listing(t)
  {
    hide Descends, Path, Trail, ById;
    var byId := BuildIndex(t.entries);
    var active: set<nat>, cur := {}, t.leaf;
    while cur.Some?
      invariant ActiveIds(t) == active + set id | id in Trail(t.entries, cur)
      decreases if cur.None? then 0 else cur.value + 1
    {
      ByIdFinds(t.entries, cur.value);
      active := active + {cur.value};
      if cur.value in byId {
        StepUp(t.entries, byId[cur.value]);
        cur := byId[cur.value].parent;
      } else {
        UnknownEndsWalk(t.entries, cur.value);
        cur := None;
        NoTrail(t.entries);
      }
    }
    NoTrail(t.entries);
    assert active == ActiveIds(t);
    lines := WalkInto(t.entries, active, None, 0, []);
  }
}
