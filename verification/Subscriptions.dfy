/** The subscription registries as values: the server's event list, the gateway's legacy id map
    with the listen requests it has sent, and the helper's map of subscription ids. */
module Subscriptions {
  import opened Types

  /** Addresses used as `usercb`: SubscriptionData allocated by the helper, or anything else. */
  datatype Addr = Heap(n: nat) | Foreign(n: nat)

  /** One registered callback; `lambda` names the callback object. */
  datatype Entry = Entry(event: string, lambda: nat, usercb: Addr)

  // ----- event names

  function Lower(c: char): char {
    if 'A' <= c <= 'Z' then 'a' + (c - 'A') else c
  }

  function LowerToDot(name: string): string {
    if name == "" || name[0] == '.' then name else [Lower(name[0])] + LowerToDot(name[1..])
  }

  /** isAnySubscriber's key: the part before the first dot, lower-cased. */
  function LowerModule(name: string): string {
    if '.' in name then LowerToDot(name) else name
  }

  predicate Canonical(name: string) { LowerModule(name) == name }

  predicate IsUpper(c: char) { 'A' <= c <= 'Z' }

  /** Character i comes before the first dot. */
  predicate InModule(name: string, i: nat) { i < |name| && '.' !in name[..i + 1] }

  lemma {:induction false} LowerToDotAt(name: string, i: nat)
    requires i < |name|
    ensures |LowerToDot(name)| == |name|
    ensures LowerToDot(name)[i] == if InModule(name, i) then Lower(name[i]) else name[i]
  {
    if name[0] == '.' {
      assert name[..i + 1][0] == '.';
    } else if i > 0 {
      LowerToDotAt(name[1..], i - 1);
      assert name[..i + 1] == [name[0]] + name[1..][..i];
    } else if |name| > 1 {
      LowerToDotAt(name[1..], 0);
    }
  }

  /** The lookup key of a name, letter by letter: the same, but for the ASCII capitals (codes 65 to 90)
      before the first dot, which become small letters (codes 97 to 122). */
  lemma KeyLetters(name: string, i: nat)
    requires i < |name|
    ensures |LowerModule(name)| == |name|
    ensures var c := name[i] as int;
            LowerModule(name)[i] as int == if '.' in name && InModule(name, i) && 65 <= c <= 90 then c + 32 else c
  {
    LowerToDotAt(name, i);
  }

  ghost predicate LowerCaseModule(name: string) {
    forall i: nat :: InModule(name, i) ==> !IsUpper(name[i])
  }

  lemma LowerCaseIsKept(name: string)
    requires LowerCaseModule(name)
    ensures LowerToDot(name) == name
  {
  }

  /** The names that are their own key: no upper-case letter before the first dot, or no dot. */
  lemma CanonicalMeansLowerCaseModule(name: string)
    ensures Canonical(name) <==> ('.' in name ==> LowerCaseModule(name))
  {
    if '.' in name {
      if LowerCaseModule(name) {
        LowerCaseIsKept(name);
      } else {
        var i: nat :| InModule(name, i) && IsUpper(name[i]);
        LowerToDotAt(name, i);
      }
    }
  }

  // ----- Server: the event list

  predicate HasName(list: seq<Entry>, name: string) {
    exists i :: 0 <= i < |list| && list[i].event == name
  }

  predicate Matches(e: Entry, event: string, usercb: Addr) { e.event == event && e.usercb == usercb }

  /** Index of the first entry with this event and usercb, or the length of the list. */
  function Find(list: seq<Entry>, event: string, usercb: Addr): (i: nat)
    ensures i <= |list|
    ensures i < |list| ==> Matches(list[i], event, usercb)
    ensures forall j :: 0 <= j < i ==> !Matches(list[j], event, usercb)
  {
    if list == [] || Matches(list[0], event, usercb) then 0 else 1 + Find(list[1..], event, usercb)
  }

  function Without(list: seq<Entry>, i: nat): seq<Entry>
    requires i < |list|
  {
    list[..i] + list[i + 1..]
  }

  function ServerSubscribe(list: seq<Entry>, e: Entry): (seq<Entry>, ErrorCode) {
    if Find(list, e.event, e.usercb) < |list| then (list, ERR_GENERAL) else (list + [e], ERR_NONE)
  }

  function ServerUnsubscribe(list: seq<Entry>, event: string, usercb: Addr): (seq<Entry>, ErrorCode) {
    var i := Find(list, event, usercb);
    if i == |list| then (list, ERR_GENERAL) else (Without(list, i), ERR_NONE)
  }

  ghost predicate Distinct(list: seq<Entry>) {
    forall i, j :: 0 <= i < j < |list| ==> !Matches(list[i], list[j].event, list[j].usercb)
  }

  // ----- GatewayImpl: subscribe and unsubscribe

  /** What becomes of the future of a listen request within its ACK timeout. */
  datatype Ack = NoReply | Reply(o: Outcome)

  /** Requests sent to the peer, and the loss of a connection.  `ok` records whether the subscribe
      that sent a listen=true returned None. */
  datatype Upstream = Listen(event: string, on: bool, ok: bool) | Lost

  datatype Gateway = Gateway(
    legacy: bool,
    list: seq<Entry>,
    eventMap: map<MsgId, string>,
    issued: nat,
    sent: seq<Upstream>)

  function SubscribeStatus(ack: Ack): ErrorCode {
    match ack
    case NoReply => ERR_TIMEDOUT
    case Reply(o) => if o.value.Some? then ERR_NONE else o.error
  }

  /** An unsubscribe whose ACK does not come is reported as done. */
  function UnsubscribeStatus(ack: Ack): ErrorCode {
    match ack
    case NoReply => ERR_NONE
    case Reply(o) => if o.value.Some? then ERR_NONE else o.error
  }

  function IdsOf(m: map<MsgId, string>, event: string): set<MsgId> {
    set id | id in m && m[id] == event
  }

  ghost predicate IsMin(ids: set<MsgId>, id: MsgId) { id in ids && forall j :: j in ids ==> id <= j }

  lemma {:induction false} MinExists(ids: set<MsgId>)
    requires ids != {}
    ensures exists id :: IsMin(ids, id)
    decreases ids
  {
    var x :| x in ids;
    var rest := ids - {x};
    assert ids == rest + {x};
    if rest == {} {
      assert IsMin(ids, x);
    } else {
      MinExists(rest);
      var m :| IsMin(rest, m);
      assert IsMin(ids, if x < m then x else m);
    }
  }

  ghost function Min(ids: set<MsgId>): (id: MsgId)
    requires ids != {}
    ensures IsMin(ids, id)
  {
    MinExists(ids);
    var id :| IsMin(ids, id);
    id
  }

  /** The erase-and-break loop: the first entry in id order with this event goes. */
  ghost function EraseFirst(m: map<MsgId, string>, event: string): map<MsgId, string> {
    if IdsOf(m, event) == {} then m else m - {Min(IdsOf(m, event))}
  }

  function GatewaySubscribe(g: Gateway, e: Entry, ack: Ack): (Gateway, ErrorCode) {
    var already := HasName(g.list, LowerModule(e.event));
    var (list, status) := ServerSubscribe(g.list, e);
    if status != ERR_NONE then (g, status)
    else if already then (g.(list := list), ERR_NONE)
    else
      var id := NextId(g.issued);
      var eventMap := if g.legacy then g.eventMap[id := e.event] else g.eventMap;
      var result := SubscribeStatus(ack);
      var g' := g.(list := list, eventMap := eventMap, issued := g.issued + 1,
                   sent := g.sent + [Listen(e.event, true, result == ERR_NONE)]);
      if result == ERR_NONE then (g', ERR_NONE)
      else (g'.(list := ServerUnsubscribe(list, e.event, e.usercb).0,
                eventMap := if g.legacy then eventMap - {id} else eventMap),
            result)
  }

  ghost function GatewayUnsubscribe(g: Gateway, event: string, usercb: Addr, ack: Ack): (Gateway, ErrorCode) {
    var (list, status) := ServerUnsubscribe(g.list, event, usercb);
    if status != ERR_NONE then (g, status)
    else if HasName(list, LowerModule(event)) then (g.(list := list), ERR_NONE)
    else
      (g.(list := list,
          eventMap := if g.legacy then EraseFirst(g.eventMap, event) else g.eventMap,
          issued := g.issued + 1,
          sent := g.sent + [Listen(event, false, true)]),
       UnsubscribeStatus(ack))
  }

  // ----- HelperImpl

  datatype SubData = SubData(owner: nat, event: string, addr: Addr)

  datatype Helper = Helper(subs: map<nat, SubData>, nextId: nat)

  datatype System = System(h: Helper, g: Gateway)

  function HelperSubscribe(s: System, owner: nat, event: string, addr: Addr, ack: Ack): (System, ErrorCode) {
    var id := s.h.nextId;
    var (g, status) := GatewaySubscribe(s.g, Entry(event, id, addr), ack);
    if status != ERR_NONE
    then (System(Helper(s.h.subs - {id}, id + 1), g), status)
    else (System(Helper(s.h.subs[id := SubData(owner, event, addr)], id + 1), g), ERR_NONE)
  }

  ghost function HelperUnsubscribe(s: System, id: nat, ack: Ack): (System, ErrorCode) {
    if id !in s.h.subs then (s, ERR_GENERAL)
    else
      var d := s.h.subs[id];
      var (g, status) := GatewayUnsubscribe(s.g, d.event, d.addr, ack);
      (System(s.h.(subs := s.h.subs - {id}), g), status)
  }

  /** unsubscribeAll and the destructor: the given ids one after the other. */
  ghost function UnsubscribeEach(s: System, ids: seq<nat>, acks: nat -> Ack): System
    decreases |ids|
  {
    if ids == [] then s
    else UnsubscribeEach(HelperUnsubscribe(s, ids[0], acks(ids[0])).0, ids[1..], acks)
  }
}
