/** The daemon's event bus (`src/daemon/bus.rs`): subscribers are channels keyed by ids that only
    grow.
 */
module EventBuses {
  /** The receiving half of a channel: `open` until its reader is gone. */
  class Channel {
    var open: bool
    var queue: seq<string>

    constructor ()
      ensures open && queue == []
    {
      open, queue := true, [];
    }

    /** `Sender::send`. */
    method Send(event: string) returns (ok: bool)
      modifies this
      ensures ok == old(open) && open == old(open)
      ensures queue == if old(open) then old(queue) + [event] else old(queue)
    {
      ok := open;
      if open {
        queue := queue + [event];
      }
    }
  }

  class EventBus {
    var nextId: nat
    var subscribers: map<nat, Channel>

    /** Ids in use were handed out, and no channel is subscribed twice. */
    ghost predicate Valid()
      reads this
    {
      && (forall id :: id in subscribers ==> 0 < id <= nextId)
      && (forall a, b :: a in subscribers && b in subscribers && subscribers[a] == subscribers[b] ==> a == b)
    }

    constructor ()
      ensures Valid() && subscribers == map[] && nextId == 0
    {
      nextId, subscribers := 0, map[];
    }

    method Register(channel: Channel) returns (id: nat)
      requires Valid() && channel !in subscribers.Values
      modifies this
      ensures Valid() && id > old(nextId) && id == nextId
      ensures id !in old(subscribers) && subscribers == old(subscribers)[id := channel]
    {
      nextId := nextId + 1;
      id := nextId;
      subscribers := subscribers[id := channel];
    }

    method Unregister(id: nat)
      requires Valid()
      modifies this`subscribers
      ensures Valid() && subscribers == old(subscribers) - {id}
    {
      subscribers := subscribers - {id};
    }

    /** Every subscriber with a reader gets the event once; those without are dropped. `order` is
        the order in which the hash map yields its keys. */
    method Broadcast(event: string, order: seq<nat>)
      requires Valid() && Enumerates(order)
      modifies this`subscribers, subscribers.Values
      ensures Valid()
      ensures forall id :: id in subscribers <==> id in old(subscribers) && old(subscribers[id].open)
      ensures forall id :: id in subscribers ==> subscribers[id] == old(subscribers)[id]
      ensures forall id :: id in old(subscribers) ==> Delivered(old(subscribers)[id], event)
    {
      var dead := SendAll(event, order);
      subscribers := subscribers - dead;
    }

    ghost predicate Enumerates(order: seq<nat>)
      reads this
    {
      && (forall id :: id in order <==> id in subscribers)
      && (forall i, j :: 0 <= i < j < |order| ==> order[i] != order[j])
    }

    method SendAll(event: string, order: seq<nat>) returns (dead: set<nat>)
      requires Valid() && Enumerates(order)
      modifies subscribers.Values
      ensures forall id :: id in dead <==> id in subscribers && !old(subscribers[id].open)
      ensures forall id :: id in subscribers ==> Delivered(subscribers[id], event)
    {
      dead := {};
      ghost var subs := subscribers;
      ghost var channels := seq(|order|, k requires 0 <= k < |order| => subs[order[k]]);
      assert Apart(channels) by { assert forall k :: 0 <= k < |order| ==> order[k] in subs; }
      for i := 0 to |order|
        invariant forall id :: id in dead <==> id in order[..i] && !old(subs[id].open)
        invariant forall k :: i <= k < |order| ==> Untouched(channels[k])
        invariant forall k :: 0 <= k < i ==> Delivered(channels[k], event)
      {
        var channel := subscribers[order[i]];
        assert channel == channels[i] && channel in subscribers.Values;
        var ok := channel.Send(event);
        if !ok {
          dead := dead + {order[i]};
        }
        assert forall k :: 0 <= k < |order| && k != i ==> channels[k] != channel;
      }
      assert order[..|order|] == order;
      assert forall k :: 0 <= k < |order| ==> subs[order[k]] == channels[k];
    }
  }

  ghost predicate Apart(channels: seq<Channel>) {
    forall i, j :: 0 <= i < j < |channels| ==> channels[i] != channels[j]
  }

  /** The channel has taken the event, if it is open, and nothing else. */
  twostate predicate Delivered(c: Channel, event: string)
    reads c
  {
    c.open == old(c.open) && c.queue == if old(c.open) then old(c.queue) + [event] else old(c.queue)
  }

  twostate predicate Untouched(c: Channel)
    reads c
  {
    c.open == old(c.open) && c.queue == old(c.queue)
  }
}
