/** Server, GatewayImpl and HelperImpl as the source has them: objects whose lists and maps are
    changed in place.  Each method is proved against the value-level function of Subscriptions or
    Dispatch that the all-runs theorems are about. */
module GatewayObjects {
  import opened Types
  import opened Routing
  import opened Subscriptions
  import D = Dispatch
  import opened DispatchTheorems
  import ClientObject

  class Server {
    var eventList: seq<Entry>
    var notificationQueue: seq<D.Batch>
    var stopNotificationWorker: bool
    var workerJoinable: bool
    /** Calls the worker has made. */
    var dispatched: seq<(Entry, Json)>

    constructor ()
      ensures eventList == [] && notificationQueue == [] && !stopNotificationWorker
      ensures !workerJoinable && dispatched == []
    {
      eventList, notificationQueue, dispatched := [], [], [];
      stopNotificationWorker, workerJoinable := false, false;
    }

    method FindEntry(event: string, usercb: Addr) returns (i: nat)
      ensures i == Find(eventList, event, usercb)
    {
      i := 0;
      while i < |eventList| && !Matches(eventList[i], event, usercb)
        invariant i <= |eventList|
        invariant forall j :: 0 <= j < i ==> !Matches(eventList[j], event, usercb)
      {
        i := i + 1;
      }
    }

    /** A worker that was stopped is started again by the next subscribe. */
    method Subscribe(e: Entry) returns (status: ErrorCode)
      modifies `eventList, `stopNotificationWorker, `workerJoinable
      ensures (eventList, status) == ServerSubscribe(old(eventList), e)
      ensures workerJoinable && stopNotificationWorker == (old(workerJoinable) && old(stopNotificationWorker))
    {
      if !workerJoinable {
        stopNotificationWorker, workerJoinable := false, true;
      }
      var i := FindEntry(e.event, e.usercb);
      if i < |eventList| {
        return ERR_GENERAL;
      }
      eventList := eventList + [e];
      status := ERR_NONE;
    }

    method Unsubscribe(event: string, usercb: Addr) returns (status: ErrorCode)
      modifies `eventList
      ensures (eventList, status) == ServerUnsubscribe(old(eventList), event, usercb)
    {
      var i := FindEntry(event, usercb);
      if i == |eventList| {
        return ERR_GENERAL;
      }
      eventList := eventList[..i] + eventList[i + 1..];
      status := ERR_NONE;
    }

    method IsAnySubscriber(name: string) returns (found: bool)
      ensures found <==> HasName(eventList, LowerModule(name))
    {
      var key := LowerModule(name);
      for i := 0 to |eventList|
        invariant forall j :: 0 <= j < i ==> eventList[j].event != key
      {
        if eventList[i].event == key {
          return true;
        }
      }
      found := false;
    }

    method Notify(event: string, parameters: Json)
      modifies `notificationQueue
      ensures notificationQueue ==
              var callbacks := D.SubscribersOf(old(eventList), event);
              if old(stopNotificationWorker) || callbacks == [] then old(notificationQueue)
              else old(notificationQueue) + [D.Batch(callbacks, Unwrapped(parameters))]
    {
      if stopNotificationWorker {
        return;
      }
      var callbacks := [];
      for i := 0 to |eventList|
        invariant callbacks == D.SubscribersOf(eventList[..i], event)
      {
        assert eventList[..i + 1][..i] == eventList[..i];
        if eventList[i].event == event {
          callbacks := callbacks + [eventList[i]];
        }
      }
      assert eventList[..|eventList|] == eventList;
      if callbacks != [] {
        notificationQueue := notificationQueue + [D.Batch(callbacks, Unwrapped(parameters))];
      }
    }

    /** A callback that throws is caught and skips no other. */
    method DispatchBatch(b: D.Batch, throwing: set<Entry>) returns (caught: nat)
      modifies `dispatched
      ensures dispatched == old(dispatched) + Pairs(b)
    {
      caught := 0;
      for i := 0 to |b.callbacks|
        invariant dispatched == old(dispatched) + Pairs(b)[..i]
      {
        dispatched := dispatched + [(b.callbacks[i], b.params)];
        if b.callbacks[i] in throwing {
          caught := caught + 1;
        }
      }
      assert Pairs(b)[..|b.callbacks|] == Pairs(b);
    }

    /** The worker from the moment the stop flag is set: it drains the queue, in order. */
    method ProcessQueuedNotifications(throwing: set<Entry>)
      requires stopNotificationWorker
      modifies `notificationQueue, `dispatched
      ensures notificationQueue == []
      ensures dispatched == old(dispatched) + Flatten(old(notificationQueue))
    {
      while notificationQueue != []
        invariant dispatched + Flatten(notificationQueue) == old(dispatched) + Flatten(old(notificationQueue))
        decreases |notificationQueue|
      {
        FlattenHead(notificationQueue);
        var notification := notificationQueue[0];
        notificationQueue := notificationQueue[1..];
        var caught := DispatchBatch(notification, throwing);
      }
    }
  }

  class GatewayImpl {
    const server: Server
    const legacyRPCv1: bool
    var rpcv1EventMap: map<MsgId, string>
    var issued: nat
    var sent: seq<Upstream>

    constructor (legacy: bool)
      ensures fresh(server) && View() == Gateway(legacy, [], map[], 0, [])
    {
      var s := new Server();
      server := s;
      legacyRPCv1 := legacy;
      rpcv1EventMap, issued, sent := map[], 0, [];
    }

    ghost function View(): Gateway
      reads this, server
    {
      Gateway(legacyRPCv1, server.eventList, rpcv1EventMap, issued, sent)
    }

    /** `ack` is what becomes of the listen request's future within its timeout. */
    method Subscribe(e: Entry, ack: Ack) returns (status: ErrorCode)
      modifies this, server
      ensures (View(), status) == GatewaySubscribe(old(View()), e, ack)
    {
      var alreadySubscribed := server.IsAnySubscriber(e.event);
      status := server.Subscribe(e);
      if status != ERR_NONE {
        return;
      }
      if alreadySubscribed {
        return;
      }
      var id := NextId(issued);
      issued := issued + 1;
      if legacyRPCv1 {
        rpcv1EventMap := rpcv1EventMap[id := e.event];
      }
      match ack {
        case NoReply => status := ERR_TIMEDOUT;
        case Reply(o) => if o.value.None? { status := o.error; }
      }
      sent := sent + [Listen(e.event, true, status == ERR_NONE)];
      if status != ERR_NONE {
        var ignored := server.Unsubscribe(e.event, e.usercb);
        if legacyRPCv1 {
          rpcv1EventMap := rpcv1EventMap - {id};
        }
      }
    }

    /** Iterate in id order; erase the first entry for the event and stop. */
    method EraseEvent(event: string)
      modifies `rpcv1EventMap
      ensures rpcv1EventMap == EraseFirst(old(rpcv1EventMap), event)
    {
      var todo := rpcv1EventMap.Keys;
      while todo != {}
        invariant todo <= rpcv1EventMap.Keys && rpcv1EventMap == old(rpcv1EventMap)
        invariant forall id :: id in rpcv1EventMap && id !in todo ==> rpcv1EventMap[id] != event
        decreases todo
      {
        var it := ClientObject.MinId(todo);
        if rpcv1EventMap[it] == event {
          assert forall id :: id in IdsOf(rpcv1EventMap, event) ==> id in todo;
          assert it in IdsOf(rpcv1EventMap, event) && Min(IdsOf(rpcv1EventMap, event)) == it;
          rpcv1EventMap := rpcv1EventMap - {it};
          return;
        }
        todo := todo - {it};
      }
      assert IdsOf(rpcv1EventMap, event) == {};
    }

    method Unsubscribe(event: string, usercb: Addr, ack: Ack) returns (status: ErrorCode)
      modifies this, server
      ensures (View(), status) == GatewayUnsubscribe(old(View()), event, usercb, ack)
    {
      status := server.Unsubscribe(event, usercb);
      if status != ERR_NONE {
        return;
      }
      var others := server.IsAnySubscriber(event);
      if others {
        return;
      }
      if legacyRPCv1 {
        EraseEvent(event);
      }
      issued := issued + 1;
      sent := sent + [Listen(event, false, true)];
      match ack {
        case NoReply =>
        case Reply(o) => if o.value.None? { status := o.error; }
      }
    }
  }

  lemma {:induction false} UnsubscribeEachAppend(s: System, ids: seq<nat>, id: nat, acks: nat -> Ack)
    ensures UnsubscribeEach(s, ids + [id], acks)
            == HelperUnsubscribe(UnsubscribeEach(s, ids, acks), id, acks(id)).0
    decreases |ids|
  {
    if ids == [] {
      assert [id][1..] == [];
    } else {
      UnsubscribeEachAppend(HelperUnsubscribe(s, ids[0], acks(ids[0])).0, ids[1..], id, acks);
      assert (ids + [id])[1..] == ids[1..] + [id];
    }
  }

  /** The ids below `todo` are done: the owner's are erased, in order, and the others are kept. */
  ghost predicate Swept(was: map<nat, SubData>, subs: map<nat, SubData>, todo: set<nat>, erased: seq<nat>, owner: nat) {
    todo <= subs.Keys <= was.Keys
    && (forall id :: id in subs ==> subs[id] == was[id])
    && (forall id :: id in was ==> (id in subs <==> id in todo || was[id].owner != owner))
    && (forall id :: id in erased <==> id in was && id !in subs)
    && (forall i, j :: 0 <= i < j < |erased| ==> erased[i] < erased[j])
    && (forall i, j :: 0 <= i < |erased| && j in todo ==> erased[i] < j)
  }

  lemma SweptStep(
    was: map<nat, SubData>, subs: map<nat, SubData>, todo: set<nat>, erased: seq<nat>, owner: nat, it: nat)
    requires Swept(was, subs, todo, erased, owner) && it in todo && forall j :: j in todo ==> it <= j
    ensures subs[it].owner == owner ==> Swept(was, subs - {it}, todo - {it}, erased + [it], owner)
    ensures subs[it].owner != owner ==> Swept(was, subs, todo - {it}, erased, owner)
  {
  }

  class HelperImpl {
    const gateway: GatewayImpl
    var subscriptions: map<nat, SubData>
    var currentId: nat

    constructor (gateway: GatewayImpl)
      ensures this.gateway == gateway && subscriptions == map[] && currentId == 0
    {
      this.gateway := gateway;
      subscriptions, currentId := map[], 0;
    }

    ghost function View(): System
      reads this, gateway, gateway.server
    {
      System(Helper(subscriptions, currentId), gateway.View())
    }

    /** `addr` is where make_shared puts the SubscriptionData. */
    method Subscribe(owner: nat, event: string, addr: Addr, ack: Ack) returns (id: nat, status: ErrorCode)
      modifies this, gateway, gateway.server
      ensures (View(), status) == HelperSubscribe(old(View()), owner, event, addr, ack)
      ensures id == old(currentId)
    {
      id := currentId;
      currentId := currentId + 1;
      subscriptions := subscriptions[id := SubData(owner, event, addr)];
      status := gateway.Subscribe(Entry(event, id, addr), ack);
      if status != ERR_NONE {
        subscriptions := subscriptions - {id};
        assert subscriptions == old(subscriptions) - {id};
      }
    }

    method Unsubscribe(id: nat, ack: Ack) returns (status: ErrorCode)
      modifies this, gateway, gateway.server
      ensures (View(), status) == HelperUnsubscribe(old(View()), id, ack)
    {
      if id !in subscriptions {
        return ERR_GENERAL;
      }
      var d := subscriptions[id];
      status := gateway.Unsubscribe(d.event, d.addr, ack);
      subscriptions := subscriptions - {id};
    }

    /** One iteration of unsubscribeAll, at id `it`. */
    method EraseIfOwned(it: nat, owner: nat, acks: nat -> Ack, ghost was: System, ghost erased: seq<nat>)
      returns (ghost erased': seq<nat>)
      requires it in subscriptions && View() == UnsubscribeEach(was, erased, acks)
      modifies this, gateway, gateway.server
      ensures View() == UnsubscribeEach(was, erased', acks)
      ensures if old(subscriptions)[it].owner == owner
              then subscriptions == old(subscriptions) - {it} && erased' == erased + [it]
              else subscriptions == old(subscriptions) && erased' == erased
    {
      erased' := erased;
      if subscriptions[it].owner == owner {
        UnsubscribeEachAppend(was, erased, it, acks);
        var ignored := Unsubscribe(it, acks(it));
        erased' := erased + [it];
      }
    }

    /** Erase while iterating; `erased` lists the removed ids in order. */
    method UnsubscribeAll(owner: nat, acks: nat -> Ack) returns (ghost erased: seq<nat>)
      modifies this, gateway, gateway.server
      ensures View() == UnsubscribeEach(old(View()), erased, acks)
      ensures forall id :: id in erased <==> id in old(subscriptions) && old(subscriptions)[id].owner == owner
      ensures forall i, j :: 0 <= i < j < |erased| ==> erased[i] < erased[j]
      ensures subscriptions == map id | id in old(subscriptions) && old(subscriptions)[id].owner != owner
                                      :: old(subscriptions)[id]
    {
      erased := [];
      ghost var was := View();
      var todo := subscriptions.Keys;
      while todo != {}
        invariant Swept(was.h.subs, subscriptions, todo, erased, owner)
        invariant View() == UnsubscribeEach(was, erased, acks)
        decreases todo
      {
        var it := ClientObject.MinId(todo);
        SweptStep(was.h.subs, subscriptions, todo, erased, owner, it);
        erased := EraseIfOwned(it, owner, acks, was, erased);
        todo := todo - {it};
      }
    }

    /** The destructor: every subscription is unsubscribed at the gateway, then the map is cleared. */
    method Close(acks: nat -> Ack) returns (ghost ids: seq<nat>)
      modifies this, gateway, gateway.server
      ensures View() == UnsubscribeEach(old(View()), ids, acks)
      ensures forall id :: id in ids <==> id in old(subscriptions)
      ensures forall i, j :: 0 <= i < j < |ids| ==> ids[i] < ids[j]
    {
      ids := [];
      ghost var was := View();
      var todo := subscriptions.Keys;
      while todo != {}
        invariant subscriptions == was.h.subs && currentId == was.h.nextId && todo <= subscriptions.Keys
        invariant Walked(was.h.subs.Keys, todo, ids)
        invariant UnsubscribeEach(was, ids, acks)
                  == System(Helper(subscriptions - Elements(ids), currentId), gateway.View())
        decreases todo
      {
        var it := ClientObject.MinId(todo);
        var d := subscriptions[it];
        UnsubscribeEachAppend(was, ids, it, acks);
        WalkedStep(was.h.subs.Keys, todo, ids, it);
        assert subscriptions - Elements(ids) - {it} == subscriptions - Elements(ids + [it]);
        var ignored := gateway.Unsubscribe(d.event, d.addr, acks(it));
        ids := ids + [it];
        todo := todo - {it};
      }
      assert subscriptions - Elements(ids) == map[];
      assert forall id :: id in ids <==> id in Elements(ids);
      subscriptions := map[];
    }
  }

  function Elements(ids: seq<nat>): set<nat> { set id | id in ids }

  /** `ids` lists, in order, the members of `all` that come before those in `todo`. */
  ghost predicate Walked(all: set<nat>, todo: set<nat>, ids: seq<nat>) {
    todo <= all && Elements(ids) == all - todo
    && (forall i, j :: 0 <= i < j < |ids| ==> ids[i] < ids[j])
    && (forall i, j :: 0 <= i < |ids| && j in todo ==> ids[i] < j)
  }

  lemma WalkedStep(all: set<nat>, todo: set<nat>, ids: seq<nat>, it: nat)
    requires Walked(all, todo, ids) && it in todo && forall j :: j in todo ==> it <= j
    ensures Walked(all, todo - {it}, ids + [it]) && Elements(ids + [it]) == Elements(ids) + {it} && it !in Elements(ids)
  {
    assert forall id :: id in Elements(ids + [it]) <==> id in Elements(ids) || id == it;
  }
}
