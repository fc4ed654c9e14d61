/** The session tree (`src/session.rs`): flat entries with parent pointers and a movable leaf. */
module SessionTree {
  import opened Wrappers
  import opened Messages

  datatype SessionEntry = SessionEntry(message: Message, parent: Option<nat>)

  /** What one session holds; `meta` marks and the model name play no part in the tree. */
  datatype Tree = Tree(entries: seq<SessionEntry>, leaf: Option<nat>)

  const EMPTY := Tree([], None)

  // ---------------------------------------------------------------- paths

  predicate HasId(entries: seq<SessionEntry>, id: nat) {
    exists e :: e in entries && e.message.id == id
  }

  /** The messages from the root to the entry `id`, found by scanning the storage backwards:
      parents are stored before their children. */
  function Path(entries: seq<SessionEntry>, id: Option<nat>): (r: seq<Message>)
    ensures |r| <= |entries|
  {
    if entries == [] || id.None? then []
    else
      var n := |entries| - 1;
      if entries[n].message.id == id.value then Path(entries[..n], entries[n].parent) + [entries[n].message]
      else Path(entries[..n], id)
  }

  function Thread(t: Tree): seq<Message> {
    Path(t.entries, t.leaf)
  }

  function Append(t: Tree, m: Message): Tree {
    Tree(t.entries + [SessionEntry(m, t.leaf)], Some(m.id))
  }

  function NavigateTo(t: Tree, id: nat): Tree {
    if HasId(t.entries, id) then t.(leaf := Some(id)) else t
  }

  /** `next_message_id`: one above the highest id, 0 for an empty session. */
  function NextMessageId(entries: seq<SessionEntry>): (r: nat)
    ensures forall e :: e in entries ==> e.message.id < r
    ensures r == 0 || exists e :: e in entries && e.message.id + 1 == r
  {
    if entries == [] then 0
    else
      var n := |entries| - 1;
      var rest := NextMessageId(entries[..n]);
      if entries[n].message.id < rest then rest else entries[n].message.id + 1
  }

  // ---------------------------------------------------------------- the tree invariant

  /** Ids ascend in storage, and a parent id is lower than its child's; there may be several roots
      and parents that are not stored. On such entries every walk to the root ends. */
  ghost predicate Descends(entries: seq<SessionEntry>) {
    entries == [] ||
    var n := |entries| - 1;
    var earlier, last := entries[..n], entries[n];
    && Descends(earlier)
    && (forall e :: e in earlier ==> e.message.id < last.message.id)
    && (last.parent.Some? ==> last.parent.value < last.message.id)
  }

  /** What a session file may hold for the code to work on it; ids go on from `nextId`. */
  ghost predicate Loaded(t: Tree, nextId: nat) {
    && Descends(t.entries)
    && (forall e :: e in t.entries ==> e.message.id < nextId)
    && (t.leaf.Some? ==> t.leaf.value < nextId)
  }

  /** What the agent itself writes: ids ascend in storage, the first entry is the only root, and
      every other parent is stored before its child. */
  ghost predicate TreeOk(entries: seq<SessionEntry>): (ok: bool)
    ensures ok ==> Descends(entries)
  {
    entries == [] ||
    var n := |entries| - 1;
    var earlier, last := entries[..n], entries[n];
    && TreeOk(earlier)
    && (forall e :: e in earlier ==> e.message.id < last.message.id)
    && (if n == 0 then last.parent == None else last.parent.Some? && HasId(earlier, last.parent.value))
  }

  ghost predicate SessionOk(t: Tree, nextId: nat): (ok: bool)
    ensures ok ==> Loaded(t, nextId)
  {
    && TreeOk(t.entries)
    && (forall e :: e in t.entries ==> e.message.id < nextId)
    && (if t.entries == [] then t.leaf == None else t.leaf.Some? && HasId(t.entries, t.leaf.value))
  }

  lemma {:induction false} EmptyOk()
    ensures SessionOk(EMPTY, 0) && Thread(EMPTY) == []
  {
  }

  lemma {:induction false} HasIdPush(entries: seq<SessionEntry>, e: SessionEntry, id: nat)
    ensures HasId(entries + [e], id) <==> HasId(entries, id) || e.message.id == id
  {
    assert (entries + [e])[|entries|] == e;
    assert forall x :: x in entries + [e] <==> x in entries || x == e;
  }

  lemma {:induction false} TreePush(entries: seq<SessionEntry>, e: SessionEntry)
    requires TreeOk(entries) && forall x :: x in entries ==> x.message.id < e.message.id
    requires if entries == [] then e.parent == None else e.parent.Some? && HasId(entries, e.parent.value)
    ensures TreeOk(entries + [e])
  {
    hide HasId;
    assert (entries + [e])[..|entries|] == entries;
  }

  lemma {:induction false} AppendKeepsLoaded(t: Tree, nextId: nat, m: Message)
    requires Loaded(t, nextId) && m.id == nextId
    ensures Loaded(Append(t, m), nextId + 1)
  {
    var e := SessionEntry(m, t.leaf);
    assert (t.entries + [e])[..|t.entries|] == t.entries;
    assert forall x :: x in t.entries + [e] <==> x in t.entries || x == e;
  }

  lemma {:induction false} NavigateKeepsLoaded(t: Tree, nextId: nat, id: nat)
    requires Loaded(t, nextId)
    ensures Loaded(NavigateTo(t, id), nextId)
  {
    hide Descends;
  }

  lemma {:induction false} AppendKeepsOk(t: Tree, nextId: nat, m: Message)
    requires SessionOk(t, nextId) && m.id == nextId
    ensures SessionOk(Append(t, m), nextId + 1)
  {
    hide TreeOk, HasId;
    var e := SessionEntry(m, t.leaf);
    TreePush(t.entries, e);
    HasIdPush(t.entries, e, m.id);
    assert forall x :: x in t.entries + [e] <==> x in t.entries || x == e;
  }

  lemma {:induction false} NavigateKeepsOk(t: Tree, nextId: nat, id: nat)
    requires SessionOk(t, nextId)
    ensures SessionOk(NavigateTo(t, id), nextId)
  {
  }

  /** Appending extends the active thread by exactly the new message. */
  lemma {:induction false} AppendExtendsThread(t: Tree, m: Message)
    ensures Thread(Append(t, m)) == Thread(t) + [m]
  {
    var e' := Append(t, m).entries;
    assert e'[..|t.entries|] == t.entries;
    assert t.leaf.None? ==> Thread(t) == [];
  }

  /** Appending leaves every other path alone. */
  lemma {:induction false} AppendKeepsPath(t: Tree, m: Message, id: nat)
    requires id != m.id
    ensures Path(Append(t, m).entries, Some(id)) == Path(t.entries, Some(id))
  {
    assert Append(t, m).entries[..|t.entries|] == t.entries;
  }

  ghost predicate Climbs(p: seq<Message>) {
    forall i :: 0 < i < |p| ==> p[i - 1].id < p[i].id
  }

  lemma {:induction false} IdOfLastOrEarlier(entries: seq<SessionEntry>, id: nat)
    requires entries != []
    ensures HasId(entries, id) <==> entries[|entries| - 1].message.id == id || HasId(entries[..|entries| - 1], id)
  {
    assert entries == entries[..|entries| - 1] + [entries[|entries| - 1]];
  }

  lemma {:induction false} IdBelow(entries: seq<SessionEntry>, id: nat, bound: nat)
    requires HasId(entries, id) && forall e :: e in entries ==> e.message.id < bound
    ensures id < bound
  {
  }

  /** A path starts at the root, ends at `id`, and its ids ascend from one to the next. */
  lemma {:induction false} PathClimbs(entries: seq<SessionEntry>, id: nat)
    requires TreeOk(entries) && HasId(entries, id)
    ensures var p := Path(entries, Some(id));
      p != [] && p[|p| - 1].id == id && p[0] == entries[0].message && Climbs(p)
  {
    hide HasId;
    SomeEntry(entries, id);
    var n := |entries| - 1;
    var earlier, last := entries[..n], entries[n];
    IdOfLastOrEarlier(entries, id);
    if last.message.id != id {
      SomeEntry(earlier, id);
      PathClimbs(earlier, id);
    } else if n > 0 {
      PathClimbs(earlier, last.parent.value);
      IdBelow(earlier, last.parent.value, last.message.id);
    }
  }

  lemma {:induction false} SomeEntry(entries: seq<SessionEntry>, id: nat)
    requires HasId(entries, id)
    ensures entries != []
  {
  }

  lemma {:induction false} ClimbingAscends(t: seq<Message>, i: nat, j: nat)
    requires forall k :: 0 < k < |t| ==> t[k - 1].id < t[k].id
    requires i < j < |t|
    ensures t[i].id < t[j].id
  {
    if i + 1 < j {
      ClimbingAscends(t, i, j - 1);
    }
  }

  /** The active thread of a session runs from the root to the leaf with ascending ids. */
  lemma {:induction false} ThreadAscends(t: Tree, nextId: nat)
    requires SessionOk(t, nextId)
    ensures Thread(t) == [] <==> t.entries == []
    ensures t.entries != [] ==> Thread(t)[0] == t.entries[0].message && Thread(t)[|Thread(t)| - 1].id == t.leaf.value
    ensures forall i, j :: 0 <= i < j < |Thread(t)| ==> Thread(t)[i].id < Thread(t)[j].id
  {
    if t.entries != [] {
      PathClimbs(t.entries, t.leaf.value);
      var p := Thread(t);
      forall i, j | 0 <= i < j < |p| ensures p[i].id < p[j].id {
        ClimbingAscends(p, i, j);
      }
    }
  }

  // ---------------------------------------------------------------- one step up

  /** The path of an entry is its parent's path and itself. */
  lemma {:induction false} StepUp(entries: seq<SessionEntry>, e: SessionEntry)
    requires Descends(entries) && e in entries
    ensures Path(entries, Some(e.message.id)) == Path(entries, e.parent) + [e.message]
    ensures Trail(entries, Some(e.message.id)) == Trail(entries, e.parent) + [e.message.id]
    ensures e.parent.Some? ==> e.parent.value < e.message.id
  {
    var n := |entries| - 1;
    var earlier, last := entries[..n], entries[n];
    assert entries == earlier + [last];
    if e != last {
      StepUp(earlier, e);
    }
  }

  lemma {:induction false} PathStep(entries: seq<SessionEntry>, e: SessionEntry)
    requires TreeOk(entries) && e in entries
    ensures Path(entries, Some(e.message.id)) == Path(entries, e.parent) + [e.message]
    ensures e.parent.Some? ==> HasId(entries, e.parent.value)
  {
    hide Path, Trail, Descends;
    StepUp(entries, e);
    ParentStored(entries, e);
  }

  lemma {:induction false} ParentStored(entries: seq<SessionEntry>, e: SessionEntry)
    requires TreeOk(entries) && e in entries
    ensures e.parent.Some? ==> HasId(entries, e.parent.value)
  {
    var n := |entries| - 1;
    var earlier, last := entries[..n], entries[n];
    assert entries == earlier + [last];
    if e != last {
      ParentStored(earlier, e);
    }
  }

  /** The ids a walk from `id` to the root visits, root first; an id that is not stored is visited
      and ends the walk. */
  function Trail(entries: seq<SessionEntry>, id: Option<nat>): seq<nat> {
    if id.None? then []
    else if entries == [] then [id.value]
    else
      var n := |entries| - 1;
      if entries[n].message.id == id.value then Trail(entries[..n], entries[n].parent) + [id.value]
      else Trail(entries[..n], id)
  }

  lemma {:induction false} UnknownEndsWalk(entries: seq<SessionEntry>, id: nat)
    requires !HasId(entries, id)
    ensures Path(entries, Some(id)) == [] && Trail(entries, Some(id)) == [id]
  {
    if entries != [] {
      var n := |entries| - 1;
      IdOfLastOrEarlier(entries, id);
      UnknownEndsWalk(entries[..n], id);
    }
  }

  /** On a valid tree the walk from a known id visits exactly its path. */
  lemma {:induction false} TrailIsPath(entries: seq<SessionEntry>, id: nat)
    requires TreeOk(entries)
    ensures Trail(entries, Some(id)) == PathIds(entries, id)
  {
    hide Descends;
    if !HasId(entries, id) {
      UnknownEndsWalk(entries, id);
    } else {
      SomeEntry(entries, id);
      var n := |entries| - 1;
      IdOfLastOrEarlier(entries, id);
      if entries[n].message.id != id {
        TrailIsPath(entries[..n], id);
      } else {
        if entries[n].parent.Some? {
          TrailIsPath(entries[..n], entries[n].parent.value);
        }
        MessageIdsPush(Path(entries[..n], entries[n].parent), entries[n].message);
      }
    }
  }

  /** `by_id`: entries keyed by message id, the last of equals winning. */
  function ById(entries: seq<SessionEntry>): map<nat, SessionEntry> {
    if entries == [] then map[]
    else ById(entries[..|entries| - 1])[entries[|entries| - 1].message.id := entries[|entries| - 1]]
  }

  lemma {:induction false} ByIdFinds(entries: seq<SessionEntry>, id: nat)
    ensures id in ById(entries) <==> HasId(entries, id)
    ensures id in ById(entries) ==> ById(entries)[id] in entries && ById(entries)[id].message.id == id
  {
    if entries != [] {
      var n := |entries| - 1;
      ByIdFinds(entries[..n], id);
      assert entries == entries[..n] + [entries[n]];
    }
  }

  method BuildIndex(entries: seq<SessionEntry>) returns (byId: map<nat, SessionEntry>)
    ensures byId == ById(entries)
  {
    byId := map[];
    for i := 0 to |entries|
      invariant byId == ById(entries[..i])
    {
      assert entries[..i + 1][..i] == entries[..i];
      byId := byId[entries[i].message.id := entries[i]];
    }
    assert entries[..|entries|] == entries;
  }

  function Reversed<T>(s: seq<T>): (r: seq<T>)
    ensures |r| == |s| && forall i :: 0 <= i < |s| ==> r[i] == s[|s| - 1 - i]
  {
    seq(|s|, i requires 0 <= i < |s| => s[|s| - 1 - i])
  }

  /** The ids from the root to `id`; an unknown id is a path of its own. */
  function PathIds(entries: seq<SessionEntry>, id: nat): seq<nat> {
    if HasId(entries, id) then MessageIds(Path(entries, Some(id))) else [id]
  }

  function MessageIds(t: seq<Message>): (r: seq<nat>)
    ensures |r| == |t| && forall i :: 0 <= i < |t| ==> r[i] == t[i].id
  {
    seq(|t|, i requires 0 <= i < |t| => t[i].id)
  }

  class Session {
    var tree: Tree

    constructor ()
      ensures tree == EMPTY
    {
      tree := EMPTY;
    }

    constructor Load(saved: Tree)
      ensures tree == saved
    {
      tree := saved;
    }

    method AppendMessage(m: Message)
      modifies this
      ensures tree == Append(old(tree), m)
    {
      var parent := tree.leaf;
      tree := Tree(tree.entries + [SessionEntry(m, parent)], Some(m.id));
    }

    method Clear()
      modifies this
      ensures tree == EMPTY
    {
      tree := Tree([], None);
    }

    method Navigate(id: nat) returns (found: bool)
      modifies this
      ensures found == HasId(old(tree).entries, id) && tree == NavigateTo(old(tree), id)
    {
      found := exists e :: e in tree.entries && e.message.id == id;
      if found {
        tree := tree.(leaf := Some(id));
      }
    }

    /** Walks from the leaf along parent pointers, to a root or to an id that is not stored. */
    method ActiveThread(ghost nextId: nat) returns (thread: seq<Message>)
      requires Loaded(tree, nextId)
      ensures thread == Thread(tree)
    {
      hide ById, Descends, Trail;
      var byId := BuildIndex(tree.entries);
      var out: seq<Message>, cur := [], tree.leaf;
      while cur.Some?
        invariant Thread(tree) == Path(tree.entries, cur) + Reversed(out)
        decreases if cur.None? then 0 else cur.value + 1
      {
        ByIdFinds(tree.entries, cur.value);
        if cur.value !in byId {
          UnknownEndsWalk(tree.entries, cur.value);
          break;
        }
        var e := byId[cur.value];
        StepUp(tree.entries, e);
        ghost var before := out;
        out := out + [e.message];
        assert Reversed(out) == [e.message] + Reversed(before);
        cur := e.parent;
      }
      thread := Reversed(out);
    }

    /** The ids of the current walk that are not on the walk from the target, leaf first. */
    method AbandonedBranch(target: nat, ghost nextId: nat) returns (abandoned: seq<nat>)
      requires Loaded(tree, nextId)
      ensures abandoned == Reversed(NotIn(Trail(tree.entries, tree.leaf), Trail(tree.entries, Some(target))))
    {
      hide ById, Descends, Path, Trail;
      var byId := BuildIndex(tree.entries);
      var targetPath := Climb(byId, tree.entries, Some(target));
      abandoned := [];
      var cur := tree.leaf;
      ghost var below, targetTrail: seq<nat> := [], Trail(tree.entries, Some(target));
      while cur.Some?
        invariant Trail(tree.entries, tree.leaf) == Trail(tree.entries, cur) + below
        invariant abandoned == Reversed(NotIn(below, targetTrail))
        decreases if cur.None? then 0 else cur.value + 1
      {
        var id := cur.value;
        ByIdFinds(tree.entries, id);
        NotInCons(id, below, targetTrail);
        if id !in targetPath {
          abandoned := abandoned + [id];
        }
        if id in byId {
          StepUp(tree.entries, byId[id]);
          cur := byId[id].parent;
        } else {
          UnknownEndsWalk(tree.entries, id);
          cur := None;
          NoTrail(tree.entries);
        }
        below := [id] + below;
      }
      NoTrail(tree.entries);
      assert [] + below == below;
    }
  }

  lemma {:induction false} NoTrail(entries: seq<SessionEntry>)
    ensures Trail(entries, None) == []
  {
  }

  /** The walk from an id up to the root, ids in the order visited. */
  method Climb(byId: map<nat, SessionEntry>, ghost entries: seq<SessionEntry>, start: Option<nat>)
    returns (ids: seq<nat>)
    requires Descends(entries) && byId == ById(entries)
    ensures forall x :: x in ids <==> x in Trail(entries, start)
    decreases if start.None? then 0 else start.value + 1
  {
    hide ById, Descends, Trail, Path;
    ids := [];
    NoTrail(entries);
    if start.Some? {
      var id := start.value;
      ByIdFinds(entries, id);
      ids := [id];
      if id in byId {
        var e := byId[id];
        StepUp(entries, e);
        var above := Climb(byId, entries, e.parent);
        ids := [id] + above;
      } else {
        UnknownEndsWalk(entries, id);
      }
    }
  }

  lemma {:induction false} MessageIdsPush(t: seq<Message>, m: Message)
    ensures MessageIds(t + [m]) == MessageIds(t) + [m.id]
  {
  }

  /** The elements of `a` that do not occur in `b`, in order. */
  function NotIn(a: seq<nat>, b: seq<nat>): seq<nat> {
    if a == [] then []
    else (if a[0] in b then [] else [a[0]]) + NotIn(a[1..], b)
  }

  lemma {:induction false} NotInCons(x: nat, a: seq<nat>, b: seq<nat>)
    ensures Reversed(NotIn([x] + a, b)) == Reversed(NotIn(a, b)) + if x in b then [] else [x]
  {
    hide Reversed;
    assert ([x] + a)[1..] == a;
    if x in b {
      assert [] + NotIn(a, b) == NotIn(a, b);
    } else {
      ReversedCons(x, NotIn(a, b));
    }
  }

  lemma {:induction false} ReversedCons(x: nat, a: seq<nat>)
    ensures Reversed([x] + a) == Reversed(a) + [x]
  {
  }

  // ---------------------------------------------------------------- where two paths part

  /** How many leading ids two paths share. */
  function Fork(p: seq<nat>, q: seq<nat>): (k: nat)
    ensures k <= |p| && k <= |q| && p[..k] == q[..k]
    ensures k < |p| && k < |q| ==> p[k] != q[k]
  {
    if p == [] || q == [] || p[0] != q[0] then 0
    else
      assert p == [p[0]] + p[1..] && q == [q[0]] + q[1..];
      1 + Fork(p[1..], q[1..])
  }

  /** The path to a message of a path is the part of the path up to it. */
  lemma {:induction false} PathPrefix(entries: seq<SessionEntry>, id: nat, i: nat)
    requires TreeOk(entries) && HasId(entries, id) && i < |Path(entries, Some(id))|
    ensures HasId(entries, Path(entries, Some(id))[i].id)
    ensures Path(entries, Some(Path(entries, Some(id))[i].id)) == Path(entries, Some(id))[..i + 1]
    decreases |Path(entries, Some(id))|
  {
    hide TreeOk, Path;
    var e :| e in entries && e.message.id == id;
    PathStep(entries, e);
    var above := Path(entries, e.parent);
    if i == |above| {
      assert (above + [e.message])[..i + 1] == above + [e.message];
    } else {
      PathOfNone(entries);
      PathPrefix(entries, e.parent.value, i);
      assert (above + [e.message])[..i + 1] == above[..i + 1];
    }
  }

  lemma {:induction false} PathOfNone(entries: seq<SessionEntry>)
    ensures Path(entries, None) == []
  {
  }

  /** Two paths that share an id agree up to it. */
  lemma {:induction false} SharedIdMeansSharedPrefix(entries: seq<SessionEntry>, a: nat, b: nat, i: nat, j: nat)
    requires TreeOk(entries) && HasId(entries, a) && HasId(entries, b)
    requires i < |Path(entries, Some(a))| && j < |Path(entries, Some(b))|
    requires Path(entries, Some(a))[i].id == Path(entries, Some(b))[j].id
    ensures i == j && Path(entries, Some(a))[..i + 1] == Path(entries, Some(b))[..i + 1]
  {
    hide TreeOk, Path;
    PathPrefix(entries, a, i);
    PathPrefix(entries, b, j);
    assert |Path(entries, Some(a))[..i + 1]| == i + 1 && |Path(entries, Some(b))[..j + 1]| == j + 1;
  }

  lemma {:induction false} NotInSplit(p: seq<nat>, q: seq<nat>, k: nat)
    requires k <= |p|
    requires forall i :: 0 <= i < k ==> p[i] in q
    requires forall i :: k <= i < |p| ==> p[i] !in q
    ensures NotIn(p, q) == p[k..]
    decreases |p|
  {
    if p != [] {
      NotInSplit(p[1..], q, if k == 0 then 0 else k - 1);
      if k > 0 {
        assert p[1..][k - 1..] == p[k..];
      } else {
        assert p == [p[0]] + p[1..];
      }
    }
  }

  /** `abandoned_branch` is the part of the current thread below the lowest common ancestor
      with the target; an unknown target abandons the whole thread. */
  lemma {:induction false} AbandonedIsBelowFork(t: Tree, nextId: nat, target: nat)
    requires SessionOk(t, nextId)
    ensures var p, q := Trail(t.entries, t.leaf), Trail(t.entries, Some(target));
      p == MessageIds(Thread(t)) && NotIn(p, q) == p[Fork(p, q)..]
  {
    hide Descends;
    var p, q := MessageIds(Thread(t)), PathIds(t.entries, target);
    TrailIsPath(t.entries, target);
    if t.leaf.Some? {
      TrailIsPath(t.entries, t.leaf.value);
    }
    var k := Fork(p, q);
    forall i | 0 <= i < k ensures p[i] in q {
      assert p[i] == p[..k][i] && q[i] == q[..k][i];
    }
    forall i | k <= i < |p| ensures p[i] !in q {
      AfterForkNotShared(t, nextId, target, i);
    }
    NotInSplit(p, q, k);
  }

  lemma {:induction false} AfterForkNotShared(t: Tree, nextId: nat, target: nat, i: nat)
    requires SessionOk(t, nextId) && i < |Thread(t)|
    requires Fork(MessageIds(Thread(t)), PathIds(t.entries, target)) <= i
    ensures Thread(t)[i].id !in PathIds(t.entries, target)
  {
    hide TreeOk, Path;
    var p, q := MessageIds(Thread(t)), PathIds(t.entries, target);
    PathOfNone(t.entries);
    EmptyTreeEmptyThread(t, nextId);
    PathPrefix(t.entries, t.leaf.value, i);
    if p[i] in q && HasId(t.entries, target) {
      var j :| 0 <= j < |q| && q[j] == p[i];
      SharedIdMeansSharedPrefix(t.entries, t.leaf.value, target, i, j);
      ForkAfter(p, q, i);
    }
  }

  lemma {:induction false} EmptyTreeEmptyThread(t: Tree, nextId: nat)
    requires SessionOk(t, nextId) && Thread(t) != []
    ensures t.leaf.Some? && HasId(t.entries, t.leaf.value)
  {
  }

  lemma {:induction false} ForkAfter(p: seq<nat>, q: seq<nat>, i: nat)
    requires i < |p| && i < |q| && forall k :: 0 <= k <= i ==> p[k] == q[k]
    ensures i < Fork(p, q)
  {
    if i > 0 {
      ForkAfter(p[1..], q[1..], i - 1);
    }
  }

  // ---------------------------------------------------------------- migration

  /** `migrate` from schema 1: each message becomes the child of the one before it. */
  function Migrate(messages: seq<Message>): Tree {
    if messages == [] then EMPTY else Append(Migrate(messages[..|messages| - 1]), messages[|messages| - 1])
  }

  method MigrateLoop(messages: seq<Message>) returns (t: Tree)
    ensures t == Migrate(messages)
  {
    var entries: seq<SessionEntry>, prev: Option<nat>, leaf: Option<nat> := [], None, None;
    for i := 0 to |messages|
      invariant prev == leaf && Tree(entries, leaf) == Migrate(messages[..i])
    {
      assert messages[..i + 1][..i] == messages[..i];
      entries := entries + [SessionEntry(messages[i], prev)];
      prev, leaf := Some(messages[i].id), Some(messages[i].id);
    }
    assert messages[..|messages|] == messages;
    t := Tree(entries, leaf);
  }

  lemma {:induction false} OkBelowNextId(t: Tree, nextId: nat)
    requires SessionOk(t, nextId)
    ensures SessionOk(t, NextMessageId(t.entries))
  {
  }

  lemma {:induction false} MigrationKeepsOk(messages: seq<Message>, nextId: nat)
    requires forall i, j :: 0 <= i < j < |messages| ==> messages[i].id < messages[j].id
    requires messages != [] ==> messages[|messages| - 1].id < nextId
    ensures SessionOk(Migrate(messages), nextId)
  {
    if messages != [] {
      var n := |messages| - 1;
      MigrationKeepsOk(messages[..n], messages[n].id);
      AppendKeepsOk(Migrate(messages[..n]), messages[n].id, messages[n]);
    }
  }

  /** For ids handed out by a counter, migrating a version-1 list gives a valid session whose
      active thread is that list again. */
  lemma {:induction false} MigrationRoundTrip(messages: seq<Message>)
    requires forall i, j :: 0 <= i < j < |messages| ==> messages[i].id < messages[j].id
    ensures Thread(Migrate(messages)) == messages
    ensures SessionOk(Migrate(messages), NextMessageId(Migrate(messages).entries))
  {
    hide Path, SessionOk, NextMessageId, Append;
    MigrationKeepsOk(messages, if messages == [] then 0 else messages[|messages| - 1].id + 1);
    OkBelowNextId(Migrate(messages), if messages == [] then 0 else messages[|messages| - 1].id + 1);
    if messages != [] {
      var n := |messages| - 1;
      MigrationRoundTrip(messages[..n]);
      AppendExtendsThread(Migrate(messages[..n]), messages[n]);
    }
  }
}
