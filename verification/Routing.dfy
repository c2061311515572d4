/** Classification of incoming messages: GatewayImpl::onMessage and the payload that
    Client::response stores in a promise. */
module Routing {
  import opened Types

  datatype Route = ToClient(id: MsgId) | ToEvent(name: string, params: Json) | Dropped

  /** Conversion of the "id" member to uint32; None when the conversion throws. */
  function ResponseId(f: IdField): Option<MsgId> {
    match f
    case Unsigned(v) => Some(v % ID_SPACE)
    case Negative(m) => Some((-(m as int)) % ID_SPACE)
    case Coerced(c) => Some(c % ID_SPACE)
    case NonNumeric => None
  }

  /** The event a legacy (RPCv1) frame is mapped to, if it is an event frame at all. */
  function LegacyEvent(eventMap: map<MsgId, string>, m: Message): Option<string>
    requires m.id.Some?
  {
    if m.result.Some? && !m.result.value.IsEmpty()
       && !(m.result.value.Obj? && "listening" in m.result.value.fields)
       && m.id.value.Unsigned?
       && m.id.value.v % ID_SPACE in eventMap
       && eventMap[m.id.value.v % ID_SPACE] != ""
    then Some(eventMap[m.id.value.v % ID_SPACE])
    else None
  }

  function RouteOf(legacy: bool, eventMap: map<MsgId, string>, m: Message): Route {
    if m.id.Some? && (m.result.Some? || m.error.Some?) then
      if legacy && LegacyEvent(eventMap, m).Some? then
        ToEvent(LegacyEvent(eventMap, m).value, m.result.value)
      else
        match ResponseId(m.id.value)
        case Some(id) => ToClient(id)
        case None => Dropped
    else if m.methodName.Some? && m.id.None? && m.params.Some? && m.methodName.value.Text? then
      ToEvent(m.methodName.value.s, m.params.value)
    else
      Dropped
  }

  /** What Client::response puts in the promise.  An absent "result" reads as null. */
  function ReplyOutcome(m: Message): Outcome {
    if m.error.None? then
      Success(if m.result.Some? then m.result.value else Null)
    else
      Outcome(None,
              if m.error.value.code.Some? then m.error.value.code.value else ERR_GENERAL,
              if m.error.value.message.Some? then m.error.value.message.value else "unknown error")
  }

  /** Section 5 of the JSON-RPC 2.0 Specification: a Response object has an id and exactly one of
      result and error. */
  predicate IsResponseObject(m: Message) {
    m.id.Some? && m.methodName.None? && (m.result.Some? <==> m.error.None?)
  }

  /** Section 4.1 of the JSON-RPC 2.0 Specification: a Notification has a method and no id. */
  predicate IsNotification(m: Message) {
    m.id.None? && m.methodName.Some? && m.methodName.value.Text?
    && m.result.None? && m.error.None?
  }

  /** Notify's unwrapping of a one-member {"value": scalar} object. */
  function Unwrapped(p: Json): Json {
    if p.Obj? && |p.fields| == 1 && "value" in p.fields && !p.fields["value"].Obj?
    then p.fields["value"] else p
  }

  /** The outcome that section 5 of the JSON-RPC 2.0 Specification gives a Response object; members of
      the error object that are missing or of the wrong type have defaults. */
  predicate IsOutcomeOf(m: Message, o: Outcome) {
    if m.error.None? then m.result.Some? && o == Success(m.result.value)
    else o.value == None
         && (m.error.value.code.Some? ==> o.error == m.error.value.code.value)
         && (m.error.value.message.Some? ==> o.text == m.error.value.message.value)
         && (m.error.value.code.None? ==> o.error == ERR_GENERAL)
         && (m.error.value.message.None? ==> o.text == "unknown error")
  }

  /** Apart from legacy event frames: a conforming Response object goes to the request it names with its
      result or its error, a Notification with params goes to the subscribers, and a Request object (an id
      with a method) is not acted on. */
  lemma RoutingFollowsJsonRpc(legacy: bool, eventMap: map<MsgId, string>, m: Message, id: MsgId)
    requires legacy && m.id.Some? ==> LegacyEvent(eventMap, m).None?
    ensures IsResponseObject(m) && ResponseId(m.id.value) == Some(id) ==> RouteOf(legacy, eventMap, m) == ToClient(id)
    ensures m.result.Some? || m.error.Some? ==> IsOutcomeOf(m, ReplyOutcome(m))
    ensures RouteOf(legacy, eventMap, m).ToClient? ==>
              m.id.Some? && ResponseId(m.id.value) == Some(RouteOf(legacy, eventMap, m).id)
    ensures IsNotification(m) ==>
              RouteOf(legacy, eventMap, m)
              == if m.params.Some? then ToEvent(m.methodName.value.s, m.params.value) else Dropped
    ensures m.id.Some? && m.methodName.Some? && m.result.None? && m.error.None? ==>
              RouteOf(legacy, eventMap, m) == Dropped
  {
  }

  /** In legacy mode a subscription's ACK, {"listening": ...}, still completes its request, while
      any other non-empty result under the same id is delivered as the event. */
  lemma LegacyAckIsNotAnEvent(eventMap: map<MsgId, string>, m: Message, id: MsgId)
    requires id < ID_SPACE && id in eventMap && eventMap[id] != "" && m.id == Some(Unsigned(id))
    requires m.result.Some? && !m.result.value.IsEmpty()
    ensures RouteOf(true, eventMap, m)
            == if m.result.value.Obj? && "listening" in m.result.value.fields
               then ToClient(id) else ToEvent(eventMap[id], m.result.value)
  {
  }

  /** Where a frame with a convertible id goes: to the pending request of that id, unless it is neither
      a result nor an error, or is an event frame under a mapped id. */
  lemma RouteById(legacy: bool, eventMap: map<MsgId, string>, m: Message, id: MsgId)
    requires m.id.Some? && ResponseId(m.id.value) == Some(id)
    ensures RouteOf(legacy, eventMap, m) ==
            if m.result.None? && m.error.None? then Dropped
            else if legacy && LegacyEvent(eventMap, m).Some? then ToEvent(eventMap[id], m.result.value)
            else ToClient(id)
    ensures id !in eventMap ==> !RouteOf(legacy, eventMap, m).ToEvent?
  {
  }

  /** The integer in a numeric "id" member. */
  function IdNumber(f: IdField): int
    requires !f.NonNumeric?
  {
    match f
    case Unsigned(v) => v
    case Negative(m) => -(m as int)
    case Coerced(c) => c
  }

  /** An id is the one 32-bit number that is congruent to the member's value; anything that is not a
      number has none. */
  lemma IdIsLow32Bits(f: IdField, id: MsgId)
    ensures ResponseId(f) == Some(id) <==>
              !f.NonNumeric? && id < ID_SPACE && exists q: int :: IdNumber(f) == q * ID_SPACE + id
  {
    if !f.NonNumeric? {
      var n := IdNumber(f);
      assert n == (n / ID_SPACE) * ID_SPACE + n % ID_SPACE;
      forall q: int | id < ID_SPACE && n == q * ID_SPACE + id
        ensures n % ID_SPACE == id
      {
        Low32Bits(q, id);
      }
    }
  }

  lemma Low32Bits(q: int, id: nat)
    requires id < ID_SPACE
    ensures (q * ID_SPACE + id) % ID_SPACE == id
  {
  }

  /** Unwrapping undoes exactly the wrapping of a non-object as {"value": x}. */
  lemma UnwrapUndoesWrap(x: Json, p: Json)
    ensures !x.Obj? ==> Unwrapped(Obj(map["value" := x])) == x
    ensures Unwrapped(p) != p ==> p == Obj(map["value" := Unwrapped(p)]) && !Unwrapped(p).Obj?
  {
    assert |map["value" := x]| == 1;
    if Unwrapped(p) != p {
      var m := p.fields;
      assert m.Keys == {"value"} by {
        assert |m.Keys - {"value"}| == 0;
      }
      assert m == map["value" := m["value"]];
    }
  }
}
