/** The helper's subscription ids and the gateway's event list agree after every operation, whatever
    the ACKs were and however the allocator reuses addresses. */
module HelperTheorems {
  import opened Types
  import opened Subscriptions
  import opened UpstreamTheorems

  datatype HelperOp =
    | HSubscribe(owner: nat, event: string, addr: Addr, ack: Ack)
    | HUnsubscribe(id: nat, ack: Ack)
    | HUnsubscribeEach(ids: seq<nat>, acks: nat -> Ack)
    | Direct(op: Op)   // another user of the gateway

  predicate Live(h: Helper, addr: Addr) { exists id :: id in h.subs && h.subs[id].addr == addr }

  /** make_shared returns heap memory that no live SubscriptionData occupies; memory of released
      data may be reused at once.  Other users of the gateway pass addresses of their own. */
  predicate Allowed(s: System, op: HelperOp) {
    match op
    case HSubscribe(owner, event, addr, ack) => addr.Heap? && !Live(s.h, addr)
    case HUnsubscribe(id, ack) => true
    case HUnsubscribeEach(ids, acks) => true
    case Direct(op) =>
      match op
      case Subscribe(e, ack) => e.usercb.Foreign?
      case Unsubscribe(event, usercb, ack) => usercb.Foreign?
      case ConnectionLost => true
  }

  ghost function Perform(s: System, op: HelperOp): System {
    match op
    case HSubscribe(owner, event, addr, ack) => HelperSubscribe(s, owner, event, addr, ack).0
    case HUnsubscribe(id, ack) => HelperUnsubscribe(s, id, ack).0
    case HUnsubscribeEach(ids, acks) => UnsubscribeEach(s, ids, acks)
    case Direct(op) => s.(g := Step(s.g, op))
  }

  /** The entry the helper registers for subscription `id`. */
  function EntryOf(h: Helper, id: nat): Entry
    requires id in h.subs
  {
    Entry(h.subs[id].event, id, h.subs[id].addr)
  }

  ghost predicate EntriesLive(s: System) {
    forall i :: 0 <= i < |s.g.list| && s.g.list[i].usercb.Heap? ==>
      s.g.list[i].lambda in s.h.subs && EntryOf(s.h, s.g.list[i].lambda) == s.g.list[i]
  }

  ghost predicate SubsRegistered(s: System) {
    forall id :: id in s.h.subs ==> s.h.subs[id].addr.Heap? && EntryOf(s.h, id) in s.g.list && id < s.h.nextId
  }

  ghost predicate AddrsDistinct(h: Helper) {
    forall id, j :: id in h.subs && j in h.subs && h.subs[id].addr == h.subs[j].addr ==> id == j
  }

  /** Live subscription ids and helper-made entries of the event list correspond one to one, so no
      entry names released SubscriptionData. */
  ghost predicate Agreement(s: System) {
    EntriesLive(s) && SubsRegistered(s) && AddrsDistinct(s.h) && Distinct(s.g.list)
  }

  // ----- list facts

  lemma DistinctAppend(list: seq<Entry>, e: Entry)
    requires Distinct(list) && Find(list, e.event, e.usercb) == |list|
    ensures Distinct(list + [e])
  {
  }

  lemma DistinctWithout(list: seq<Entry>, i: nat)
    requires Distinct(list) && i < |list|
    ensures Distinct(Without(list, i))
    ensures forall e :: e in Without(list, i) <==> e in list && e != list[i]
  {
  }

  /** What a gateway call does to the list. */
  lemma SubscribeList(g: Gateway, e: Entry, ack: Ack)
    ensures var r := GatewaySubscribe(g, e, ack);
            r.0.list == if r.1 == ERR_NONE then g.list + [e] else g.list
    ensures GatewaySubscribe(g, e, ack).1 == ERR_NONE ==> Find(g.list, e.event, e.usercb) == |g.list|
  {
    if Find(g.list, e.event, e.usercb) == |g.list| {
      FindAppended(g.list, e);
    }
  }

  lemma UnsubscribeList(g: Gateway, event: string, usercb: Addr, ack: Ack)
    ensures GatewayUnsubscribe(g, event, usercb, ack).0.list == ServerUnsubscribe(g.list, event, usercb).0
  {
  }

  // ----- preservation

  /** A fresh address never meets the duplicate check, and a subscribe that fails leaves the
      registries as they were. */
  lemma HelperSubscribeKeeps(s: System, owner: nat, event: string, addr: Addr, ack: Ack)
    requires Agreement(s) && addr.Heap? && !Live(s.h, addr)
    ensures Find(s.g.list, event, addr) == |s.g.list|
    ensures var r := HelperSubscribe(s, owner, event, addr, ack);
            Agreement(r.0) && r.0.h.nextId == s.h.nextId + 1
            && (r.1 != ERR_NONE ==> r.0.h.subs == s.h.subs && r.0.g.list == s.g.list)
            && (r.1 == ERR_NONE ==>
                  r.0.h.subs == s.h.subs[s.h.nextId := SubData(owner, event, addr)]
                  && r.0.g.list == s.g.list + [Entry(event, s.h.nextId, addr)])
  {
    assert Find(s.g.list, event, addr) == |s.g.list|;
    var e := Entry(event, s.h.nextId, addr);
    SubscribeList(s.g, e, ack);
    var r := HelperSubscribe(s, owner, event, addr, ack);
    if r.1 == ERR_NONE {
      DistinctAppend(s.g.list, e);
      AppendKeeps(s, r.0, e, owner);
    } else {
      assert s.h.nextId !in s.h.subs;
    }
  }

  lemma AppendKeeps(s: System, s': System, e: Entry, owner: nat)
    requires Agreement(s) && e.usercb.Heap? && !Live(s.h, e.usercb) && e.lambda == s.h.nextId
    requires s'.h == Helper(s.h.subs[e.lambda := SubData(owner, e.event, e.usercb)], s.h.nextId + 1)
    requires s'.g.list == s.g.list + [e] && Distinct(s'.g.list)
    ensures Agreement(s')
  {
  }

  /** An unsubscribe removes the id and its entry even when the ACK is an error. */
  lemma HelperUnsubscribeKeeps(s: System, id: nat, ack: Ack)
    requires Agreement(s)
    ensures Agreement(HelperUnsubscribe(s, id, ack).0)
    ensures HelperUnsubscribe(s, id, ack).0.h.subs == s.h.subs - {id}
    ensures id in s.h.subs ==>
              forall e :: e in HelperUnsubscribe(s, id, ack).0.g.list <==>
                e in s.g.list && e != EntryOf(s.h, id)
    ensures id !in s.h.subs ==> HelperUnsubscribe(s, id, ack) == (s, ERR_GENERAL)
  {
    if id in s.h.subs {
      var d := s.h.subs[id];
      UnsubscribeList(s.g, d.event, d.addr, ack);
      assert EntryOf(s.h, id) in s.g.list;
      var i := Find(s.g.list, d.event, d.addr);
      assert i < |s.g.list|;
      assert s.g.list[i] == EntryOf(s.h, id);
      DistinctWithout(s.g.list, i);
      RemoveKeeps(s, HelperUnsubscribe(s, id, ack).0, id, i);
    }
  }

  /** The statuses that the helper's callers see.  Its own checks never fail a subscribe, and an
      unsubscribe of a live id always finds its entry: what is left are the replies. */
  lemma HelperReturns(s: System, owner: nat, event: string, addr: Addr, id: nat, ack: Ack)
    requires Agreement(s)
    ensures addr.Heap? && !Live(s.h, addr) ==>
              var status := HelperSubscribe(s, owner, event, addr, ack).1;
              if HasName(s.g.list, LowerModule(event)) then status == ERR_NONE
              else match ack
                case NoReply => status == ERR_TIMEDOUT
                case Reply(o) => status == if o.value.Some? then ERR_NONE else o.error
    ensures id !in s.h.subs ==> HelperUnsubscribe(s, id, ack).1 == ERR_GENERAL
    ensures id in s.h.subs ==>
              var (s', status) := HelperUnsubscribe(s, id, ack);
              if HasName(s'.g.list, LowerModule(s.h.subs[id].event)) then status == ERR_NONE
              else match ack
                case NoReply => status == ERR_NONE
                case Reply(o) => status == if o.value.Some? then ERR_NONE else o.error
  {
    SubscribeReturns(s.g, Entry(event, s.h.nextId, addr), ack);
    if addr.Heap? && !Live(s.h, addr) {
      assert !HasEntry(s.g.list, event, addr);
    }
    if id in s.h.subs {
      var d := s.h.subs[id];
      UnsubscribeReturns(s.g, d.event, d.addr, ack);
      assert EntryOf(s.h, id) in s.g.list;
      assert HasEntry(s.g.list, d.event, d.addr);
    }
  }

  lemma RemoveKeeps(s: System, s': System, id: nat, i: nat)
    requires Agreement(s) && id in s.h.subs && i < |s.g.list| && s.g.list[i] == EntryOf(s.h, id)
    requires s'.h == Helper(s.h.subs - {id}, s.h.nextId)
    requires s'.g.list == Without(s.g.list, i) && Distinct(s'.g.list)
    requires forall e :: e in s'.g.list <==> e in s.g.list && e != s.g.list[i]
    ensures Agreement(s')
  {
    forall j | 0 <= j < |s'.g.list| && s'.g.list[j].usercb.Heap?
      ensures s'.g.list[j].lambda in s'.h.subs && EntryOf(s'.h, s'.g.list[j].lambda) == s'.g.list[j]
    {
      var e := s'.g.list[j];
      assert e in s.g.list && e != EntryOf(s.h, id);
    }
    forall k | k in s'.h.subs
      ensures EntryOf(s'.h, k) in s'.g.list
    {
      assert EntryOf(s.h, k) in s.g.list && EntryOf(s.h, k) != EntryOf(s.h, id);
    }
  }

  lemma {:induction false} UnsubscribeEachKeeps(s: System, ids: seq<nat>, acks: nat -> Ack)
    requires Agreement(s)
    ensures Agreement(UnsubscribeEach(s, ids, acks))
    ensures forall id :: id in UnsubscribeEach(s, ids, acks).h.subs <==> id in s.h.subs && id !in ids
    decreases |ids|
  {
    if ids != [] {
      var s1 := HelperUnsubscribe(s, ids[0], acks(ids[0])).0;
      HelperUnsubscribeKeeps(s, ids[0], acks(ids[0]));
      UnsubscribeEachKeeps(s1, ids[1..], acks);
      assert forall id :: id in s1.h.subs <==> id in s.h.subs && id != ids[0];
      assert forall id :: id in ids <==> id == ids[0] || id in ids[1..];
    }
  }

  /** Other users of the gateway neither remove nor imitate helper-made entries. */
  lemma DirectKeeps(s: System, op: Op)
    requires Agreement(s) && Allowed(s, Direct(op))
    ensures Agreement(s.(g := Step(s.g, op)))
  {
    var s' := s.(g := Step(s.g, op));
    match op
    case Subscribe(e, ack) =>
      SubscribeList(s.g, e, ack);
      if GatewaySubscribe(s.g, e, ack).1 == ERR_NONE {
        DistinctAppend(s.g.list, e);
        assert forall i :: 0 <= i < |s.g.list| ==> s'.g.list[i] == s.g.list[i];
        forall id | id in s.h.subs
          ensures EntryOf(s.h, id) in s'.g.list
        {
          assert EntryOf(s.h, id) in s.g.list;
        }
      }
    case Unsubscribe(event, usercb, ack) =>
      UnsubscribeList(s.g, event, usercb, ack);
      var i := Find(s.g.list, event, usercb);
      if i < |s.g.list| {
        DistinctWithout(s.g.list, i);
        forall j | 0 <= j < |s'.g.list|
          ensures s'.g.list[j] in s.g.list
        {
          assert s'.g.list[j] in Without(s.g.list, i);
        }
      }
    case ConnectionLost =>
  }

  ghost predicate HelperRun(ops: seq<HelperOp>, states: seq<System>) {
    |states| == |ops| + 1 && Start(states[0].g) && states[0].h == Helper(map[], 0)
    && forall i :: 0 <= i < |ops| ==> HelperRunStep(ops, states, i)
  }

  ghost predicate HelperRunStep(ops: seq<HelperOp>, states: seq<System>, i: nat)
    requires i < |ops| && |states| == |ops| + 1
  {
    Allowed(states[i], ops[i]) && states[i + 1] == Perform(states[i], ops[i])
  }

  /** After every operation of every run. */
  lemma {:induction false} HelperGatewayAgreement(ops: seq<HelperOp>, states: seq<System>, n: nat)
    requires HelperRun(ops, states) && n <= |ops|
    ensures Agreement(states[n])
  {
    if n > 0 {
      HelperGatewayAgreement(ops, states, n - 1);
      assert HelperRunStep(ops, states, n - 1);
      var s := states[n - 1];
      match ops[n - 1]
      case HSubscribe(owner, event, addr, ack) => HelperSubscribeKeeps(s, owner, event, addr, ack);
      case HUnsubscribe(id, ack) => HelperUnsubscribeKeeps(s, id, ack);
      case HUnsubscribeEach(ids, acks) => UnsubscribeEachKeeps(s, ids, acks);
      case Direct(op) => DirectKeeps(s, op);
    }
  }
}
