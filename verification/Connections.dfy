/** The life of a connection (`handle_connection` and `ConnGuard` in `src/daemon/socket.rs`) on
    the event bus (`src/daemon/bus.rs`), as steps of any number of threads in any order: the guard
    joins its writer thread only when every sender of the channel is gone, so the join returns.
 */
module Connections {

  /** Where a connection thread is. */
  datatype Phase = Accepted | Numbered | Registered | Open | Unregistered | BodyDropped | Joining | Closed

  /** Senders of its channel that a connection itself holds; the bus may hold one more. */
  datatype Holder = Original | Argument | Body

  datatype Writer = NotSpawned | Running | Finished | Failed

  /** `sent` is every event put into the channel, `written` those the writer has written. */
  datatype Conn = Conn(phase: Phase, id: nat, holds: set<Holder>, queue: seq<string>, writer: Writer,
                       sent: seq<string>, written: seq<string>)

  datatype World = World(nextId: nat, subscribers: map<nat, nat>, conns: seq<Conn>)

  const START := World(0, map[], [])

  /** The reading half is alive until the writer thread has ended. */
  predicate Alive(c: Conn) {
    c.writer == NotSpawned || c.writer == Running
  }

  function Put(c: Conn, e: string): Conn {
    if Alive(c) then c.(queue := c.queue + [e], sent := c.sent + [e]) else c
  }

  ghost predicate Subscribed(w: World, c: nat) {
    exists id :: id in w.subscribers && w.subscribers[id] == c
  }

  /** The channel is closed: no sender is left anywhere. */
  ghost predicate NoSenders(w: World, c: nat)
    requires c < |w.conns|
  {
    w.conns[c].holds == {} && !Subscribed(w, c)
  }

  /** What a connection thread or its writer thread does next. */
  datatype Action =
    | TakeId | Insert                       // the two lock sections of `register`
    | SpawnWriter                           // and the guard takes over the senders
    | Send(event: string)
    | Write | FailWrite | EndWriter
    | Unregister | DropBody | DropOriginal | Join

  datatype Step = Accept | Broadcast(notice: string) | Act(c: nat, action: Action)

  ghost predicate CanAct(w: World, i: nat, a: Action)
    requires i < |w.conns|
  {
    var c := w.conns[i];
    match a
    case TakeId => c.phase == Accepted
    case Insert => c.phase == Numbered
    case SpawnWriter => c.phase == Registered
    case Send(_) => c.phase == Open
    case Write => c.writer == Running && c.queue != []
    case FailWrite => c.writer == Running && c.queue != []
    case EndWriter => c.writer == Running && c.queue == [] && NoSenders(w, i)
    case Unregister => c.phase == Open
    case DropBody => c.phase == Unregistered
    case DropOriginal => c.phase == BodyDropped
    case Join => c.phase == Joining && !Alive(c)
  }

  ghost predicate Enabled(w: World, s: Step) {
    s.Act? ==> s.c < |w.conns| && CanAct(w, s.c, s.action)
  }

  /** The connection after its action. */
  function Acted(w: World, c: Conn, a: Action): Conn
    requires a == Write ==> c.queue != []
  {
    match a
    case TakeId => c.(phase := Numbered, id := w.nextId + 1, holds := c.holds + {Argument})
    case Insert => c.(phase := Registered, holds := c.holds - {Argument})
    case SpawnWriter => c.(phase := Open, writer := Running, holds := c.holds + {Body})
    case Send(e) => Put(c, e)
    case Write => c.(queue := c.queue[1..], written := c.written + [c.queue[0]])
    case FailWrite => c.(queue := [], writer := Failed)
    case EndWriter => c.(writer := Finished)
    case Unregister => c.(phase := Unregistered)
    case DropBody => c.(phase := BodyDropped, holds := c.holds - {Body})
    case DropOriginal => c.(phase := Joining, holds := c.holds - {Original})
    case Join => c.(phase := Closed)
  }

  ghost function Next(w: World, s: Step): World
    requires Enabled(w, s)
  {
    match s
    case Accept => w.(conns := w.conns + [Conn(Accepted, 0, {Original}, [], NotSpawned, [], [])])
    case Broadcast(e) => Broadcasted(w, e)
    case Act(i, a) =>
      var c := w.conns[i];
      World(if a == TakeId then w.nextId + 1 else w.nextId,
            if a == Insert then w.subscribers[c.id := i]
            else if a == Unregister then w.subscribers - {c.id}
            else w.subscribers,
            w.conns[i := Acted(w, c, a)])
  }

  /** `broadcast`, under the lock of the subscriber map. */
  ghost function Broadcasted(w: World, e: string): World {
    World(w.nextId,
          map id | id in w.subscribers && w.subscribers[id] < |w.conns| && Alive(w.conns[w.subscribers[id]]) ::
            w.subscribers[id],
          seq(|w.conns|, i requires 0 <= i < |w.conns| => if Subscribed(w, i) then Put(w.conns[i], e) else w.conns[i]))
  }

  /** A broadcast puts the event once into the channel of every subscriber that still has a reader,
      drops the other subscriptions, and touches nothing else. */
  lemma {:induction false} BroadcastReaches(w: World, e: string)
    ensures var r := Next(w, Broadcast(e));
      && r.nextId == w.nextId && |r.conns| == |w.conns|
      && (forall i :: 0 <= i < |w.conns| ==>
            var c := w.conns[i];
            r.conns[i] == if (exists id :: id in w.subscribers && w.subscribers[id] == i) &&
                             c.writer != Finished && c.writer != Failed
                          then c.(queue := c.queue + [e], sent := c.sent + [e]) else c)
      && (forall id :: id in r.subscribers <==>
            id in w.subscribers && w.subscribers[id] < |w.conns| &&
            w.conns[w.subscribers[id]].writer != Finished && w.conns[w.subscribers[id]].writer != Failed)
      && (forall id :: id in r.subscribers ==> r.subscribers[id] == w.subscribers[id])
  {
  }

  // ---------------------------------------------------------------- the invariant

  function HoldsIn(p: Phase): set<Holder> {
    match p
    case Accepted => {Original}
    case Numbered => {Original, Argument}
    case Registered => {Original}
    case Open => {Original, Body}
    case Unregistered => {Original, Body}
    case BodyDropped => {Original}
    case _ => {}
  }

  ghost predicate ConnOk(w: World, i: nat)
    requires i < |w.conns|
  {
    var c := w.conns[i];
    && c.holds == HoldsIn(c.phase)
    && (c.phase != Accepted ==> 0 < c.id <= w.nextId)
    && (c.writer == NotSpawned <==> c.phase == Accepted || c.phase == Numbered || c.phase == Registered)
    && (Alive(c) ==> c.sent == c.written + c.queue)
    && (c.writer == Finished ==> c.sent == c.written && NoSenders(w, i))
    && c.written <= c.sent
  }

  ghost predicate DistinctIds(w: World) {
    forall i, j :: 0 <= i < j < |w.conns| && w.conns[i].phase != Accepted && w.conns[j].phase != Accepted ==>
      w.conns[i].id != w.conns[j].id
  }

  ghost predicate SubscribersOk(w: World) {
    forall id :: id in w.subscribers ==>
      && w.subscribers[id] < |w.conns|
      && w.conns[w.subscribers[id]].id == id
      && (w.conns[w.subscribers[id]].phase == Registered || w.conns[w.subscribers[id]].phase == Open)
  }

  ghost predicate Inv(w: World) {
    DistinctIds(w) && SubscribersOk(w) && forall i :: 0 <= i < |w.conns| ==> ConnOk(w, i)
  }

  lemma {:induction false} UnsubscribedStays(w: World, s: Step, i: nat)
    requires Inv(w) && Enabled(w, s) && i < |w.conns| && !Subscribed(w, i)
    requires (s.Act? && s.action == Insert ==> s.c != i)
    ensures !Subscribed(Next(w, s), i)
  {
  }

  /** A step of one connection leaves the others, and what they rely on, alone. */
  lemma {:induction false} ActKeepsOthers(w: World, i: nat, a: Action, k: nat)
    requires Inv(w) && i < |w.conns| && CanAct(w, i, a) && k < |w.conns| && k != i
    ensures ConnOk(Next(w, Act(i, a)), k)
  {
    hide DistinctIds, Subscribed;
    assert ConnOk(w, k);
    if !Subscribed(w, k) {
      UnsubscribedStays(w, Act(i, a), k);
    }
  }

  lemma {:induction false} ActKeepsOwn(w: World, i: nat, a: Action)
    requires Inv(w) && i < |w.conns| && CanAct(w, i, a)
    ensures ConnOk(Next(w, Act(i, a)), i)
  {
    hide DistinctIds, Subscribed;
    assert ConnOk(w, i);
    if a != Insert && !Subscribed(w, i) {
      UnsubscribedStays(w, Act(i, a), i);
    }
  }

  lemma {:induction false} ActKeepsSubscribers(w: World, i: nat, a: Action)
    requires Inv(w) && i < |w.conns| && CanAct(w, i, a)
    ensures SubscribersOk(Next(w, Act(i, a)))
  {
    assert ConnOk(w, i);
  }

  lemma {:induction false} ActKeepsIds(w: World, i: nat, a: Action)
    requires Inv(w) && i < |w.conns| && CanAct(w, i, a)
    ensures DistinctIds(Next(w, Act(i, a)))
  {
    forall k | 0 <= k < |w.conns| ensures w.conns[k].phase != Accepted ==> w.conns[k].id <= w.nextId {
      assert ConnOk(w, k);
    }
  }

  lemma {:induction false} BroadcastKeepsInv(w: World, e: string)
    requires Inv(w)
    ensures Inv(Broadcasted(w, e))
  {
    var w' := Broadcasted(w, e);
    forall k | 0 <= k < |w'.conns| ensures ConnOk(w', k) {
      assert ConnOk(w, k);
      if !Subscribed(w, k) {
        UnsubscribedStays(w, Broadcast(e), k);
      }
    }
  }

  lemma {:induction false} AcceptKeepsInv(w: World)
    requires Inv(w)
    ensures Inv(Next(w, Accept))
  {
    var w' := Next(w, Accept);
    forall k | 0 <= k < |w'.conns| ensures ConnOk(w', k) {
      if k < |w.conns| {
        assert ConnOk(w, k);
        if !Subscribed(w, k) {
          UnsubscribedStays(w, Accept, k);
        }
      }
    }
  }

  lemma {:induction false} StepKeepsInv(w: World, s: Step)
    requires Inv(w) && Enabled(w, s)
    ensures Inv(Next(w, s))
  {
    hide DistinctIds, SubscribersOk, ConnOk;
    match s
    case Accept => AcceptKeepsInv(w);
    case Broadcast(e) => BroadcastKeepsInv(w, e);
    case Act(i, a) => {
      ActKeepsIds(w, i, a);
      ActKeepsSubscribers(w, i, a);
      forall k | 0 <= k < |w.conns| ensures ConnOk(Next(w, s), k) {
        if k == i {
          ActKeepsOwn(w, i, a);
        } else {
          ActKeepsOthers(w, i, a, k);
        }
      }
    }
  }

  // ---------------------------------------------------------------- runs

  /** A run: each step is enabled in the world that the earlier ones lead to. */
  ghost predicate IsRun(w: World, steps: seq<Step>)
    decreases |steps|, 0
  {
    steps == [] || (IsRun(w, steps[..|steps| - 1]) && Enabled(After(w, steps[..|steps| - 1]), steps[|steps| - 1]))
  }

  ghost function After(w: World, steps: seq<Step>): World
    decreases |steps|, 1
  {
    if steps == [] || !IsRun(w, steps) then w else Next(After(w, steps[..|steps| - 1]), steps[|steps| - 1])
  }

  lemma {:induction false} RunKeepsInv(w: World, steps: seq<Step>)
    requires Inv(w) && IsRun(w, steps)
    ensures Inv(After(w, steps))
  {
    hide Inv, Next, Enabled;
    if steps != [] {
      var n := |steps| - 1;
      RunKeepsInv(w, steps[..n]);
      StepKeepsInv(After(w, steps[..n]), steps[n]);
    }
  }

  lemma {:induction false} StepAfter(w: World, steps: seq<Step>, s: Step)
    requires IsRun(w, steps) && Enabled(After(w, steps), s)
    ensures IsRun(w, steps + [s]) && After(w, steps + [s]) == Next(After(w, steps), s)
  {
    assert (steps + [s])[..|steps|] == steps;
  }

  /** In every interleaving, subscription ids are unique, and a guard that waits for its writer
      has left no sender of the channel behind, neither of its own nor on the bus. */
  lemma {:induction false} GuardJoinsClosedChannels(steps: seq<Step>)
    requires IsRun(START, steps)
    ensures var w := After(START, steps);
      && (forall i, j :: 0 <= i < j < |w.conns| && w.conns[i].phase != Accepted && w.conns[j].phase != Accepted ==>
            w.conns[i].id != w.conns[j].id)
      && (forall i :: 0 <= i < |w.conns| && (w.conns[i].phase == Joining || w.conns[i].phase == Closed) ==>
            NoSenders(w, i))
  {
    RunKeepsInv(START, steps);
    var w := After(START, steps);
    forall i | 0 <= i < |w.conns| && (w.conns[i].phase == Joining || w.conns[i].phase == Closed)
      ensures NoSenders(w, i)
    {
      assert ConnOk(w, i);
    }
  }

  // ---------------------------------------------------------------- the join returns

  /** Steps that the writer still has to take. */
  function Remaining(c: Conn): nat {
    if Alive(c) then |c.queue| + 1 else 0
  }

  /** While a guard waits, no step of any thread gives its writer more to do, every step of the
      writer brings the end nearer, and as long as the writer runs it has a step to take. */
  lemma {:induction false} WaitingOnlyShrinks(w: World, s: Step, i: nat)
    requires Inv(w) && Enabled(w, s) && i < |w.conns| && w.conns[i].phase == Joining
    ensures Remaining(Next(w, s).conns[i]) <= Remaining(w.conns[i])
    ensures (s == Act(i, Write) || s == Act(i, FailWrite) || s == Act(i, EndWriter)) ==>
              Remaining(Next(w, s).conns[i]) < Remaining(w.conns[i])
    ensures Remaining(w.conns[i]) > 0 ==> CanAct(w, i, Write) || CanAct(w, i, EndWriter)
    ensures Remaining(w.conns[i]) == 0 ==> CanAct(w, i, Join)
  {
    assert ConnOk(w, i);
  }

  /** Left alone, the writer ends after writing what is queued, and then the join returns. */
  lemma {:induction false} JoinReturns(w: World, i: nat) returns (steps: seq<Step>)
    requires Inv(w) && i < |w.conns| && w.conns[i].phase == Joining && w.conns[i].writer == Running
    ensures IsRun(w, steps) && |steps| == |w.conns[i].queue| + 1
    ensures forall s :: s in steps ==> s == Act(i, Write) || s == Act(i, EndWriter)
    ensures var c := After(w, steps).conns;
      |c| == |w.conns| && CanAct(After(w, steps), i, Join) && c[i].written == w.conns[i].sent
    decreases |w.conns[i].queue|
  {
    hide Inv;
    steps := WriteQueue(w, i, |w.conns[i].queue|);
    var w' := After(w, steps);
    RunKeepsInv(w, steps);
    Emptied(w', i);
    StepAfter(w, steps, Act(i, EndWriter));
    steps := steps + [Act(i, EndWriter)];
  }

  lemma {:induction false} Emptied(w: World, i: nat)
    requires Inv(w) && i < |w.conns| && w.conns[i].phase == Joining
    requires w.conns[i].writer == Running && w.conns[i].queue == []
    ensures CanAct(w, i, EndWriter) && w.conns[i].written == w.conns[i].sent
  {
    assert ConnOk(w, i);
  }

  lemma {:induction false} WriteQueue(w: World, i: nat, n: nat) returns (steps: seq<Step>)
    requires i < |w.conns| && w.conns[i].phase == Joining && w.conns[i].writer == Running && n <= |w.conns[i].queue|
    ensures IsRun(w, steps) && |steps| == n
    ensures forall s :: s in steps ==> s == Act(i, Write)
    ensures var c := After(w, steps).conns;
      |c| == |w.conns| && c[i].phase == Joining && c[i].writer == Running && c[i].sent == w.conns[i].sent &&
      c[i].queue == w.conns[i].queue[n..]
  {
    steps := [];
    if n > 0 {
      steps := WriteQueue(w, i, n - 1);
      StepAfter(w, steps, Act(i, Write));
      steps := steps + [Act(i, Write)];
    }
  }

  // ---------------------------------------------------------------- the order of events

  /** The events that a run puts into the channel of connection `i`, in order: its own and, while
      it is subscribed, the broadcasts, as long as its writer is there to read them. */
  ghost function SentTo(steps: seq<Step>, i: nat): seq<string>
    requires IsRun(START, steps)
  {
    if steps == [] then []
    else
      var n := |steps| - 1;
      var w := After(START, steps[..n]);
      var sent := SentTo(steps[..n], i);
      if i >= |w.conns| || !Alive(w.conns[i]) then sent
      else
        match steps[n]
        case Broadcast(e) => if Subscribed(w, i) then sent + [e] else sent
        case Act(k, Send(e)) => if k == i then sent + [e] else sent
        case _ => sent
  }

  lemma {:induction false} SentIsSentTo(steps: seq<Step>, i: nat)
    requires IsRun(START, steps)
    ensures var w := After(START, steps);
      if i < |w.conns| then w.conns[i].sent == SentTo(steps, i) else SentTo(steps, i) == []
  {
    if steps != [] {
      SentIsSentTo(steps[..|steps| - 1], i);
    }
  }

  /** In every interleaving, a writer writes the events of its channel in the order they were
      sent, skipping none; one that ends of its own accord has written them all. */
  lemma {:induction false} WrittenInOrder(steps: seq<Step>, i: nat)
    requires IsRun(START, steps) && i < |After(START, steps).conns|
    ensures After(START, steps).conns[i].written <= SentTo(steps, i)
    ensures After(START, steps).conns[i].writer == Finished ==> After(START, steps).conns[i].written == SentTo(steps, i)
  {
    RunKeepsInv(START, steps);
    SentIsSentTo(steps, i);
    assert ConnOk(After(START, steps), i);
  }
}
