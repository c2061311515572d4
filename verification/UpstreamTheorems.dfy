/** What the gateway's subscribe and unsubscribe guarantee over every serialised run: the legacy id
    map and the peer's listen state agree with the local event list. */
module UpstreamTheorems {
  import opened Types
  import Routing
  import opened Subscriptions

  datatype Op =
    | Subscribe(e: Entry, ack: Ack)
    | Unsubscribe(event: string, usercb: Addr, ack: Ack)
    | ConnectionLost

  ghost function Step(g: Gateway, op: Op): Gateway {
    match op
    case Subscribe(e, ack) => GatewaySubscribe(g, e, ack).0
    case Unsubscribe(event, usercb, ack) => GatewayUnsubscribe(g, event, usercb, ack).0
    case ConnectionLost => g.(sent := g.sent + [Lost])
  }

  function EventOf(op: Op): Option<string> {
    match op
    case Subscribe(e, ack) => Some(e.event)
    case Unsubscribe(event, usercb, ack) => Some(event)
    case ConnectionLost => None
  }

  predicate Start(g: Gateway) { g.list == [] && g.eventMap == map[] && g.issued == 0 && g.sent == [] }

  /** Serialised calls; fewer than 2^32 message ids are issued. */
  ghost predicate Run(ops: seq<Op>, states: seq<Gateway>) {
    |states| == |ops| + 1 && Start(states[0])
    && forall i :: 0 <= i < |ops| ==> RunStep(ops, states, i)
  }

  ghost predicate RunStep(ops: seq<Op>, states: seq<Gateway>, i: nat)
    requires i < |ops| && |states| == |ops| + 1
  {
    states[i].issued + 1 < ID_SPACE && states[i + 1] == Step(states[i], ops[i])
  }

  // ----- facts about the list

  lemma FindAppended(list: seq<Entry>, e: Entry)
    requires Find(list, e.event, e.usercb) == |list|
    ensures ServerUnsubscribe(list + [e], e.event, e.usercb) == (list, ERR_NONE)
  {
    var i := Find(list + [e], e.event, e.usercb);
    assert (list + [e])[|list|] == e;
    assert forall j :: 0 <= j < |list| ==> (list + [e])[j] == list[j];
    assert i == |list|;
    assert Without(list + [e], |list|) == list;
  }

  lemma AppendNames(list: seq<Entry>, e: Entry, name: string)
    ensures HasName(list + [e], name) <==> HasName(list, name) || name == e.event
  {
    if HasName(list, name) {
      var i :| 0 <= i < |list| && list[i].event == name;
      assert (list + [e])[i].event == name;
    }
    assert (list + [e])[|list|] == e;
  }

  lemma WithoutNames(list: seq<Entry>, i: nat, name: string)
    requires i < |list|
    ensures HasName(Without(list, i), name) ==> HasName(list, name)
    ensures name != list[i].event && HasName(list, name) ==> HasName(Without(list, i), name)
  {
    var rest := Without(list, i);
    if j :| 0 <= j < |rest| && rest[j].event == name {
      assert rest[j] == if j < i then list[j] else list[j + 1];
    }
    if name != list[i].event && HasName(list, name) {
      var j :| 0 <= j < |list| && list[j].event == name;
      assert rest[if j < i then j else j - 1] == list[j];
    }
  }

  /** Effect of one call, for whatever event, on a canonical name. */
  lemma SubscribeNames(g: Gateway, e: Entry, ack: Ack, name: string)
    requires Canonical(name)
    ensures HasName(GatewaySubscribe(g, e, ack).0.list, name) <==>
              HasName(g.list, name)
              || (name == e.event && SubscribeStatus(ack) == ERR_NONE)
  {
    if ServerSubscribe(g.list, e).1 == ERR_NONE {
      AppendNames(g.list, e, name);
      FindAppended(g.list, e);
    } else {
      assert HasName(g.list, e.event);
    }
  }

  lemma UnsubscribeNames(g: Gateway, event: string, usercb: Addr, ack: Ack, name: string)
    ensures HasName(GatewayUnsubscribe(g, event, usercb, ack).0.list, name) ==> HasName(g.list, name)
    ensures name != event && HasName(g.list, name) ==>
              HasName(GatewayUnsubscribe(g, event, usercb, ack).0.list, name)
  {
    var i := Find(g.list, event, usercb);
    if i < |g.list| {
      WithoutNames(g.list, i, name);
    }
  }

  // ----- the legacy id map

  ghost predicate IdsBounded(g: Gateway) {
    forall id :: id in g.eventMap ==> 1 <= id <= g.issued && g.legacy
  }

  ghost predicate AtMostOne(ids: set<MsgId>) { forall i, j :: i in ids && j in ids ==> i == j }

  /** Between calls the map has one id for the event while it is in the list, and none otherwise. */
  ghost predicate ExactFor(g: Gateway, name: string) {
    AtMostOne(IdsOf(g.eventMap, name))
    && (IdsOf(g.eventMap, name) != {} <==> g.legacy && HasName(g.list, name))
  }

  /** m' is m without any entry for `event`. */
  ghost predicate IsErased(m: map<MsgId, string>, m': map<MsgId, string>, event: string) {
    (forall id :: id in m' <==> id in m && m[id] != event) && (forall id :: id in m' ==> m'[id] == m[id])
  }

  /** Where the event has at most one id the erase-and-break loop leaves no trace of it. */
  lemma EraseFirstErasesAll(m: map<MsgId, string>, event: string)
    requires AtMostOne(IdsOf(m, event))
    ensures IsErased(m, EraseFirst(m, event), event)
    ensures IdsOf(EraseFirst(m, event), event) == {}
  {
    assert forall id :: id in IdsOf(m, event) <==> id in m && m[id] == event;
  }

  lemma EraseFirstKeepsOthers(m: map<MsgId, string>, event: string, name: string)
    requires name != event
    ensures IdsOf(EraseFirst(m, event), name) == IdsOf(m, name)
  {
    assert forall id :: id in IdsOf(m, event) <==> id in m && m[id] == event;
  }

  lemma SubscribeMap(g: Gateway, e: Entry, ack: Ack)
    requires IdsBounded(g) && g.issued + 1 < ID_SPACE
    ensures var g' := GatewaySubscribe(g, e, ack).0;
            g'.legacy == g.legacy && g'.issued >= g.issued
            && (g'.eventMap == g.eventMap
                || (g.legacy && g'.issued == g.issued + 1 && g'.eventMap == g.eventMap[g'.issued := e.event]))
  {
    assert g.issued + 1 !in g.eventMap;
  }

  lemma UnsubscribeMap(g: Gateway, event: string, usercb: Addr, ack: Ack)
    ensures var g' := GatewayUnsubscribe(g, event, usercb, ack).0;
            g'.legacy == g.legacy && g'.issued >= g.issued
            && (g'.eventMap == g.eventMap || g'.eventMap == EraseFirst(g.eventMap, event))
  {
  }

  /** An id that the counter has passed is never mapped anew. */
  lemma StepMap(g: Gateway, op: Op)
    requires IdsBounded(g) && g.issued + 1 < ID_SPACE
    ensures var g' := Step(g, op);
            IdsBounded(g') && g'.legacy == g.legacy && g'.issued >= g.issued
            && forall id :: id in g'.eventMap && id <= g.issued ==>
                 id in g.eventMap && g'.eventMap[id] == g.eventMap[id]
  {
    match op
    case Subscribe(e, ack) => SubscribeMap(g, e, ack);
    case Unsubscribe(event, usercb, ack) => UnsubscribeMap(g, event, usercb, ack);
    case ConnectionLost =>
  }

  lemma {:induction false} RunIdsBounded(ops: seq<Op>, states: seq<Gateway>, n: nat)
    requires Run(ops, states) && n <= |ops|
    ensures IdsBounded(states[n])
  {
    if n > 0 {
      RunIdsBounded(ops, states, n - 1);
      assert RunStep(ops, states, n - 1);
      StepMap(states[n - 1], ops[n - 1]);
    }
  }

  /** Mapping a new id to the first subscriber's event. */
  lemma FirstSubscriberMap(g: Gateway, e: Entry, ack: Ack)
    requires IdsBounded(g) && g.issued + 1 < ID_SPACE && Canonical(e.event)
    ensures var m := GatewaySubscribe(g, e, ack).0.eventMap;
            if g.legacy && !HasName(g.list, e.event) && SubscribeStatus(ack) == ERR_NONE
            then m == g.eventMap[g.issued + 1 := e.event] else m == g.eventMap
  {
    assert g.issued + 1 !in g.eventMap;
  }

  lemma SubscribeKeepsMap(g: Gateway, e: Entry, ack: Ack, name: string)
    requires IdsBounded(g) && ExactFor(g, name) && Canonical(name) && g.issued + 1 < ID_SPACE
    ensures ExactFor(GatewaySubscribe(g, e, ack).0, name)
  {
    var g' := GatewaySubscribe(g, e, ack).0;
    SubscribeNames(g, e, ack, name);
    if e.event == name {
      FirstSubscriberMap(g, e, ack);
      if g.legacy && !HasName(g.list, name) && SubscribeStatus(ack) == ERR_NONE {
        assert IdsOf(g'.eventMap, name) == IdsOf(g.eventMap, name) + {g.issued + 1};
      } else {
        assert g'.eventMap == g.eventMap;
      }
    } else {
      SubscribeMap(g, e, ack);
      assert g.issued + 1 !in g.eventMap;
      assert IdsOf(g'.eventMap, name) == IdsOf(g.eventMap, name);
    }
  }

  lemma UnsubscribeKeepsMap(g: Gateway, event: string, usercb: Addr, ack: Ack, name: string)
    requires ExactFor(g, name) && IdsBounded(g) && Canonical(name)
    ensures ExactFor(GatewayUnsubscribe(g, event, usercb, ack).0, name)
  {
    UnsubscribeNames(g, event, usercb, ack, name);
    UnsubscribeMap(g, event, usercb, ack);
    if event == name {
      EraseFirstErasesAll(g.eventMap, name);
    } else {
      EraseFirstKeepsOthers(g.eventMap, event, name);
    }
  }

  /** For every canonical name and every run, whatever other names it uses, across failed subscribes,
      failed ACKs and reconnects. */
  lemma {:induction false} LegacyMapIsExact(ops: seq<Op>, states: seq<Gateway>, n: nat, name: string)
    requires Run(ops, states) && n <= |ops| && Canonical(name)
    ensures ExactFor(states[n], name)
  {
    if n > 0 {
      LegacyMapIsExact(ops, states, n - 1, name);
      RunIdsBounded(ops, states, n - 1);
      assert RunStep(ops, states, n - 1);
      match ops[n - 1]
      case Subscribe(e, ack) => SubscribeKeepsMap(states[n - 1], e, ack, name);
      case Unsubscribe(event, usercb, ack) => UnsubscribeKeepsMap(states[n - 1], event, usercb, ack, name);
      case ConnectionLost =>
    }
  }

  lemma {:induction false} OldIdsKeepTheirEvent(ops: seq<Op>, states: seq<Gateway>, i: nat, n: nat, id: MsgId)
    requires Run(ops, states) && i <= n <= |ops| && id <= states[i].issued && id in states[n].eventMap
    ensures id in states[i].eventMap && states[n].eventMap[id] == states[i].eventMap[id]
  {
    if i < n {
      IssuedGrows(ops, states, i, n - 1);
      RunIdsBounded(ops, states, n - 1);
      assert RunStep(ops, states, n - 1);
      StepMap(states[n - 1], ops[n - 1]);
      OldIdsKeepTheirEvent(ops, states, i, n - 1, id);
    }
  }

  lemma {:induction false} IssuedGrows(ops: seq<Op>, states: seq<Gateway>, i: nat, n: nat)
    requires Run(ops, states) && i <= n <= |ops|
    ensures states[i].issued <= states[n].issued
  {
    if i < n {
      IssuedGrows(ops, states, i, n - 1);
      RunIdsBounded(ops, states, n - 1);
      assert RunStep(ops, states, n - 1);
      StepMap(states[n - 1], ops[n - 1]);
    }
  }

  /** Once the event of a mapped id has lost its last subscriber, no frame with that id is taken for an
      event again, even if the event is subscribed anew. */
  lemma UnmappedForGood(ops: seq<Op>, states: seq<Gateway>, i: nat, j: nat, n: nat, id: MsgId, m: Message)
    requires Run(ops, states) && i <= j <= n <= |ops| && id in states[i].eventMap
    requires Canonical(states[i].eventMap[id]) && !HasName(states[j].list, states[i].eventMap[id])
    ensures id !in states[n].eventMap
    ensures m.id.Some? && Routing.ResponseId(m.id.value) == Some(id) ==>
              !Routing.RouteOf(states[n].legacy, states[n].eventMap, m).ToEvent?
  {
    RunIdsBounded(ops, states, i);
    IssuedGrows(ops, states, i, j);
    LegacyMapIsExact(ops, states, j, states[i].eventMap[id]);
    if id in states[n].eventMap {
      OldIdsKeepTheirEvent(ops, states, j, n, id);
      assert id !in IdsOf(states[j].eventMap, states[i].eventMap[id]);
      OldIdsKeepTheirEvent(ops, states, i, j, id);
    }
    if m.id.Some? && Routing.ResponseId(m.id.value) == Some(id) {
      Routing.RouteById(states[n].legacy, states[n].eventMap, m, id);
    }
  }

  // ----- upstream state

  /** The peer is listening for `name`: on this connection the last listen request for it was a
      listen=true whose subscribe returned None. */
  predicate Active(sent: seq<Upstream>, name: string) {
    if sent == [] then false
    else match sent[|sent| - 1]
      case Lost => false
      case Listen(event, on, ok) =>
        if event == name then on && ok else Active(sent[..|sent| - 1], name)
  }

  /** `name` has had a local subscriber at every call boundary since a connection was lost. */
  ghost predicate Stale(ops: seq<Op>, states: seq<Gateway>, n: nat, name: string)
    requires |states| == |ops| + 1 && n <= |ops|
  {
    exists j :: LostAt(ops, n, j) && forall i :: j < i <= n ==> HasName(states[i].list, name)
  }

  predicate LostAt(ops: seq<Op>, n: nat, j: int) { 0 <= j < n <= |ops| && ops[j].ConnectionLost? }

  lemma ActiveAppended(sent: seq<Upstream>, u: Upstream, name: string)
    ensures u.Lost? ==> !Active(sent + [u], name)
    ensures u.Listen? && u.event == name ==> (Active(sent + [u], name) <==> u.on && u.ok)
    ensures u.Listen? && u.event != name ==> (Active(sent + [u], name) <==> Active(sent, name))
  {
  }

  /** listen=true is sent exactly when there was no local subscriber, listen=false exactly when the
      last one leaves, and nothing else is ever sent. */
  lemma ListenOnlyAtEdges(g: Gateway, op: Op)
    requires EventOf(op).Some? && Canonical(EventOf(op).value)
    ensures op.Subscribe? && !HasName(g.list, op.e.event) ==>
              Step(g, op).sent == g.sent + [Listen(op.e.event, true, SubscribeStatus(op.ack) == ERR_NONE)]
    ensures op.Unsubscribe? && HasName(g.list, op.event) && !HasName(Step(g, op).list, op.event) ==>
              Step(g, op).sent == g.sent + [Listen(op.event, false, true)]
    ensures op.Subscribe? && HasName(g.list, op.e.event) ==> Step(g, op).sent == g.sent
    ensures op.Unsubscribe? && (!HasName(g.list, op.event) || HasName(Step(g, op).list, op.event)) ==>
              Step(g, op).sent == g.sent
  {
  }

  /** One call moves the peer's state for `name` in step with the local subscribers. */
  lemma StepKeepsAgreement(g: Gateway, op: Op, name: string)
    requires EventOf(op).Some? && Canonical(name)
    ensures !HasName(g.list, name) && HasName(Step(g, op).list, name) ==> Active(Step(g, op).sent, name)
    ensures HasName(g.list, name) && !HasName(Step(g, op).list, name) ==> !Active(Step(g, op).sent, name)
    ensures HasName(g.list, name) && HasName(Step(g, op).list, name) ==>
              (Active(Step(g, op).sent, name) <==> Active(g.sent, name))
    ensures !HasName(g.list, name) && !HasName(Step(g, op).list, name) && !Active(g.sent, name) ==>
              !Active(Step(g, op).sent, name)
  {
    if EventOf(op) == Some(name) { ListenOnlyAtEdges(g, op); }
    match op
    case Subscribe(e, ack) =>
      SubscribeNames(g, e, ack, name);
      ActiveAppended(g.sent, Listen(e.event, true, SubscribeStatus(ack) == ERR_NONE), name);
    case Unsubscribe(event, usercb, ack) =>
      UnsubscribeNames(g, event, usercb, ack, name);
      ActiveAppended(g.sent, Listen(event, false, true), name);
  }

  lemma StaleStep(ops: seq<Op>, states: seq<Gateway>, n: nat, name: string)
    requires Run(ops, states) && n < |ops| && HasName(states[n + 1].list, name)
    ensures ops[n].ConnectionLost? ==> Stale(ops, states, n + 1, name)
    ensures !ops[n].ConnectionLost? ==>
              (Stale(ops, states, n + 1, name) <==> HasName(states[n].list, name) && Stale(ops, states, n, name))
  {
    if ops[n].ConnectionLost? {
      assert LostAt(ops, n + 1, n);
    } else {
      if Stale(ops, states, n + 1, name) {
        var j :| LostAt(ops, n + 1, j) && forall i :: j < i <= n + 1 ==> HasName(states[i].list, name);
        assert LostAt(ops, n, j);
      }
      if HasName(states[n].list, name) && Stale(ops, states, n, name) {
        var j :| LostAt(ops, n, j) && forall i :: j < i <= n ==> HasName(states[i].list, name);
        assert LostAt(ops, n + 1, j);
      }
    }
  }

  /** For every canonical name and every run, whatever other names it uses and whenever connections are
      lost: the peer is listening for the event exactly when it has a local subscriber that is not left
      over from a lost connection. */
  lemma {:induction false} UpstreamAgreement(ops: seq<Op>, states: seq<Gateway>, n: nat, name: string)
    requires Run(ops, states) && n <= |ops| && Canonical(name)
    ensures Active(states[n].sent, name) <==> HasName(states[n].list, name) && !Stale(ops, states, n, name)
  {
    if n > 0 {
      UpstreamAgreement(ops, states, n - 1, name);
      assert RunStep(ops, states, n - 1);
      var g, op := states[n - 1], ops[n - 1];
      if HasName(states[n].list, name) {
        StaleStep(ops, states, n - 1, name);
      }
      if op.ConnectionLost? {
        ActiveAppended(g.sent, Lost, name);
      } else {
        assert EventOf(ops[n - 1]).Some?;
        StepKeepsAgreement(g, op, name);
      }
    }
  }

  ghost predicate NeverLost(ops: seq<Op>) { forall i :: 0 <= i < |ops| ==> !ops[i].ConnectionLost? }

  /** Within one connection there is nothing stale, so the agreement is exact. */
  lemma AgreementWithinOneConnection(ops: seq<Op>, states: seq<Gateway>, n: nat, name: string)
    requires Run(ops, states) && n <= |ops| && Canonical(name)
    requires NeverLost(ops[..n])
    ensures Active(states[n].sent, name) <==> HasName(states[n].list, name)
  {
    UpstreamAgreement(ops, states, n, name);
    assert forall j :: 0 <= j < n ==> ops[j] == ops[..n][j];
  }

  /** A subscriber that outlives its connection is silent: for every canonical name, a subscribe that
      the peer acknowledged, and the loss of the connection. */
  lemma SilentAfterLoss(name: string, legacy: bool) returns (ops: seq<Op>, states: seq<Gateway>)
    requires Canonical(name)
    ensures Run(ops, states) && ops == [Subscribe(Entry(name, 0, Foreign(0)), Reply(Success(Null))), ConnectionLost]
    ensures Active(states[1].sent, name)
    ensures HasName(states[2].list, name) && !Active(states[2].sent, name)
  {
    var e := Entry(name, 0, Foreign(0));
    ops, states := [], [Gateway(legacy, [], map[], 0, [])];
    ops, states := ExtendRun(ops, states, Subscribe(e, Reply(Success(Null))));
    assert states[1].list == [e] && [e][0].event == name;
    ActiveAppended([], Listen(name, true, true), name);
    ops, states := ExtendRun(ops, states, ConnectionLost);
    ActiveAppended(states[1].sent, Lost, name);
  }

  // ----- names that are not canonical

  /** In every run within one connection the peer listens for the event exactly while it has a local
      subscriber. */
  ghost predicate AlwaysAgrees(name: string) {
    forall ops: seq<Op>, states: seq<Gateway> | Run(ops, states) && NeverLost(ops) ::
      Active(states[|ops|].sent, name) <==> HasName(states[|ops|].list, name)
  }

  lemma ExtendRun(ops: seq<Op>, states: seq<Gateway>, op: Op) returns (ops': seq<Op>, states': seq<Gateway>)
    requires Run(ops, states) && states[|ops|].issued + 1 < ID_SPACE
    ensures Run(ops', states') && ops' == ops + [op] && states' == states + [Step(states[|ops|], op)]
  {
    ops', states' := ops + [op], states + [Step(states[|ops|], op)];
    forall i | 0 <= i < |ops'|
      ensures RunStep(ops', states', i)
    {
      if i < |ops| { assert RunStep(ops, states, i); }
    }
  }

  /** Under a name that is not its own key each of two subscribers sends a listen=true. */
  lemma TwoSubscribers(name: string, legacy: bool) returns (ops: seq<Op>, states: seq<Gateway>)
    requires !Canonical(name)
    ensures Run(ops, states) && NeverLost(ops)
    ensures var g := states[|ops|];
            g.list == [Entry(name, 0, Foreign(0)), Entry(name, 1, Foreign(1))] && g.issued == 2
            && g.legacy == legacy && (legacy ==> g.eventMap == map[1 := name, 2 := name])
  {
    var ok := Reply(Success(Null));
    var a, b := Entry(name, 0, Foreign(0)), Entry(name, 1, Foreign(1));
    ops, states := [], [Gateway(legacy, [], map[], 0, [])];
    ops, states := ExtendRun(ops, states, Subscribe(a, ok));
    var g := states[|ops|];
    assert g.list == [a] && g.issued == 1 && g.legacy == legacy && (legacy ==> g.eventMap == map[1 := name]);
    assert Find([a], name, Foreign(1)) == 1;
    ops, states := ExtendRun(ops, states, Subscribe(b, ok));
  }

  /** Two subscribers and one unsubscribe: the peer is told to stop while one subscriber remains. */
  lemma NonCanonicalBreaks(name: string) returns (ops: seq<Op>, states: seq<Gateway>)
    requires !Canonical(name)
    ensures Run(ops, states) && NeverLost(ops)
    ensures HasName(states[|ops|].list, name) && !Active(states[|ops|].sent, name)
  {
    ops, states := TwoSubscribers(name, false);
    var g, b := states[|ops|], Entry(name, 1, Foreign(1));
    assert Find(g.list, name, Foreign(0)) == 0 && Without(g.list, 0) == [b];
    ops, states := ExtendRun(ops, states, Unsubscribe(name, Foreign(0), NoReply));
    ActiveAppended(g.sent, Listen(name, false, true), name);
    assert [b][0].event == name;
  }

  /** The agreement holds on every run exactly for the names whose module part is lower case. */
  lemma AgreesExactlyWhenCanonical(name: string)
    ensures AlwaysAgrees(name) <==> Canonical(name)
  {
    if Canonical(name) {
      forall ops: seq<Op>, states: seq<Gateway> | Run(ops, states) && NeverLost(ops)
        ensures Active(states[|ops|].sent, name) <==> HasName(states[|ops|].list, name)
      {
        assert ops[..|ops|] == ops;
        AgreementWithinOneConnection(ops, states, |ops|, name);
      }
    } else {
      var ops, states := NonCanonicalBreaks(name);
    }
  }

  ghost predicate MapAlwaysExact(name: string) {
    forall ops: seq<Op>, states: seq<Gateway> | Run(ops, states) :: ExactFor(states[|ops|], name)
  }

  /** Two subscribers in legacy mode leave two ids for the one event. */
  lemma NonCanonicalBreaksMap(name: string) returns (ops: seq<Op>, states: seq<Gateway>)
    requires !Canonical(name)
    ensures Run(ops, states) && !ExactFor(states[|ops|], name)
  {
    ops, states := TwoSubscribers(name, true);
    assert 1 in IdsOf(states[|ops|].eventMap, name) && 2 in IdsOf(states[|ops|].eventMap, name);
  }

  /** Whichever of the two leaves, it is the older id that is unmapped, and that one alone. */
  lemma OlderIdGoes(name: string, leaver: nat) returns (ops: seq<Op>, states: seq<Gateway>)
    requires !Canonical(name) && leaver < 2
    ensures Run(ops, states) && |ops| > 0 && ops[|ops| - 1] == Unsubscribe(name, Foreign(leaver), NoReply)
    ensures states[|ops|].eventMap == map[2 := name] && |states[|ops|].list| == 1
  {
    ops, states := TwoSubscribers(name, true);
    var g := states[|ops|];
    assert Find(g.list, name, Foreign(leaver)) == leaver;
    var rest := Without(g.list, leaver);
    assert |rest| == 1 && rest[0].event == name;
    assert IdsOf(g.eventMap, name) == {1, 2} && Min({1, 2}) == 1;
    assert g.eventMap - {1} == map[2 := name];
    ops, states := ExtendRun(ops, states, Unsubscribe(name, Foreign(leaver), NoReply));
  }

  /** So does the exactness of the legacy map. */
  lemma MapExactlyWhenCanonical(name: string)
    ensures MapAlwaysExact(name) <==> Canonical(name)
  {
    if Canonical(name) {
      forall ops: seq<Op>, states: seq<Gateway> | Run(ops, states)
        ensures ExactFor(states[|ops|], name)
      {
        LegacyMapIsExact(ops, states, |ops|, name);
      }
    } else {
      var ops, states := NonCanonicalBreaksMap(name);
    }
  }

  /** In every run the ids of an event are unmapped, for good, when its last subscriber has left. */
  ghost predicate AlwaysUnmapped(name: string) {
    forall ops: seq<Op>, states: seq<Gateway>, i: nat, id: MsgId
      | Run(ops, states) && i <= |ops| && id in IdsOf(states[i].eventMap, name) && !HasName(states[|ops|].list, name) ::
      id !in states[|ops|].eventMap
  }

  /** A subscriber under a name that is not its own key, and one under that key: the first one leaves
      and its id stays mapped. */
  lemma IdOutlivesSubscriber(name: string) returns (ops: seq<Op>, states: seq<Gateway>)
    requires !Canonical(name)
    ensures Run(ops, states) && |ops| == 3
    ensures 1 in IdsOf(states[1].eventMap, name) && 1 in states[3].eventMap && !HasName(states[3].list, name)
  {
    ops, states := NameAndKey(name);
    var a, b := Entry(name, 0, Foreign(0)), Entry(LowerModule(name), 1, Foreign(1));
    assert Find([a, b], name, Foreign(0)) == 0 && Without([a, b], 0) == [b] && [b][0].event == b.event;
    ops, states := ExtendRun(ops, states, Unsubscribe(name, Foreign(0), NoReply));
  }

  lemma NameAndKey(name: string) returns (ops: seq<Op>, states: seq<Gateway>)
    ensures Run(ops, states) && |ops| == 2 && 1 in IdsOf(states[1].eventMap, name)
    ensures states[2].list == [Entry(name, 0, Foreign(0)), Entry(LowerModule(name), 1, Foreign(1))]
    ensures 1 in states[2].eventMap && states[2].issued <= 2 && states[2].legacy
  {
    var a, b, ok := Entry(name, 0, Foreign(0)), Entry(LowerModule(name), 1, Foreign(1)), Reply(Success(Null));
    ops, states := [], [Gateway(true, [], map[], 0, [])];
    ops, states := ExtendRun(ops, states, Subscribe(a, ok));
    assert states[1].list == [a] && states[1].eventMap == map[1 := name] && states[1].issued == 1;
    assert Find([a], b.event, b.usercb) == 1;
    ops, states := ExtendRun(ops, states, Subscribe(b, ok));
  }

  lemma UnmappedExactlyWhenCanonical(name: string)
    ensures AlwaysUnmapped(name) <==> Canonical(name)
  {
    if Canonical(name) {
      forall ops: seq<Op>, states: seq<Gateway>, i: nat, id: MsgId
        | Run(ops, states) && i <= |ops| && id in IdsOf(states[i].eventMap, name) && !HasName(states[|ops|].list, name)
        ensures id !in states[|ops|].eventMap
      {
        UnmappedForGood(ops, states, i, |ops|, |ops|, id, Message(None, None, None, None, None));
      }
    } else {
      var ops, states := IdOutlivesSubscriber(name);
      assert 1 in IdsOf(states[1].eventMap, name);
    }
  }

  predicate HasEntry(list: seq<Entry>, event: string, usercb: Addr) {
    exists i :: 0 <= i < |list| && list[i].event == event && list[i].usercb == usercb
  }

  /** What a peer's reply to a listen request amounts to: None for a result, the error's own code
      otherwise, and General when the error has none. */
  function ReplyCode(m: Message): ErrorCode {
    if m.error.None? then ERR_NONE
    else match m.error.value.code
      case Some(code) => code
      case None => ERR_GENERAL
  }

  /** The status that subscribe returns: General for a pair that is registered; None when the event had a
      subscriber; else Timedout without a reply, None for a reply with a value, the reply's error code. */
  lemma SubscribeReturns(g: Gateway, e: Entry, ack: Ack)
    ensures var status := GatewaySubscribe(g, e, ack).1;
            (HasEntry(g.list, e.event, e.usercb) ==> status == ERR_GENERAL && GatewaySubscribe(g, e, ack).0 == g)
            && (!HasEntry(g.list, e.event, e.usercb) && HasName(g.list, LowerModule(e.event)) ==> status == ERR_NONE)
            && (!HasEntry(g.list, e.event, e.usercb) && !HasName(g.list, LowerModule(e.event)) ==>
                  (ack.NoReply? ==> status == ERR_TIMEDOUT)
                  && (ack.Reply? && ack.o.value.Some? ==> status == ERR_NONE)
                  && (ack.Reply? && ack.o.value.None? ==> status == ack.o.error)
                  && (forall m :: ack == Reply(Routing.ReplyOutcome(m)) ==> status == ReplyCode(m)))
  {
    var i := Find(g.list, e.event, e.usercb);
    assert i < |g.list| <==> HasEntry(g.list, e.event, e.usercb);
  }

  /** The status that unsubscribe returns: General, and nothing done, for a pair that is not registered;
      None while the event keeps a subscriber, and also without a reply; else None for a reply with a
      value, the reply's error code otherwise. */
  lemma UnsubscribeReturns(g: Gateway, event: string, usercb: Addr, ack: Ack)
    ensures var (g', status) := GatewayUnsubscribe(g, event, usercb, ack);
            (!HasEntry(g.list, event, usercb) ==> status == ERR_GENERAL && g' == g)
            && (HasEntry(g.list, event, usercb) && HasName(g'.list, LowerModule(event)) ==> status == ERR_NONE)
            && (HasEntry(g.list, event, usercb) && !HasName(g'.list, LowerModule(event)) ==>
                  (ack.NoReply? ==> status == ERR_NONE)
                  && (ack.Reply? && ack.o.value.Some? ==> status == ERR_NONE)
                  && (ack.Reply? && ack.o.value.None? ==> status == ack.o.error)
                  && (forall m :: ack == Reply(Routing.ReplyOutcome(m)) ==> status == ReplyCode(m)))
  {
    var i := Find(g.list, event, usercb);
    assert i < |g.list| <==> HasEntry(g.list, event, usercb);
  }

  function Listens(sent: seq<Upstream>): nat {
    if sent == [] then 0 else Listens(sent[..|sent| - 1]) + (if sent[|sent| - 1].Listen? then 1 else 0)
  }

  lemma ListensAppended(sent: seq<Upstream>, u: Upstream)
    ensures Listens(sent + [u]) == Listens(sent) + (if u.Listen? then 1 else 0)
  {
  }

  /** Every listen request, and nothing else here, takes a message id. */
  lemma {:induction false} OneIdPerListen(ops: seq<Op>, states: seq<Gateway>, n: nat)
    requires Run(ops, states) && n <= |ops|
    ensures states[n].issued == Listens(states[n].sent)
  {
    if n > 0 {
      OneIdPerListen(ops, states, n - 1);
      assert RunStep(ops, states, n - 1);
      var g, g' := states[n - 1], states[n];
      if g'.sent != g.sent { ListensAppended(g.sent, g'.sent[|g.sent|]); }
    }
  }

  /** A missing ACK fails a subscribe but not an unsubscribe.  An error reply fails either exactly
      when its code is not 0: a reply with code 0 has no value and the error None, which counts as an
      acknowledgement. */
  lemma AckMeaning(m: Message)
    ensures SubscribeStatus(NoReply) == ERR_TIMEDOUT && UnsubscribeStatus(NoReply) == ERR_NONE
    ensures m.error.None? ==> SubscribeStatus(Reply(Routing.ReplyOutcome(m))) == ERR_NONE
    ensures m.error.Some? ==>
              (SubscribeStatus(Reply(Routing.ReplyOutcome(m))) != ERR_NONE <==> m.error.value.code != Some(0))
    ensures UnsubscribeStatus(Reply(Routing.ReplyOutcome(m))) == SubscribeStatus(Reply(Routing.ReplyOutcome(m)))
  {
  }
}
