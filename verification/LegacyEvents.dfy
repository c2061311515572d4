/** Subscribe and unsubscribe calls, one after the other, over the running request protocol: their
    blocks on the event list and the legacy id map are steps between the steps of all other threads.
    The listen=false request of an unsubscribe is one of the other calls. */
module LegacyEvents {
  import opened Types
  import opened Routing
  import opened Subscriptions
  import R = Requests
  import I = RequestInvariants
  import T = RequestTheorems
  import U = UpstreamTheorems

  /** Where the thread in subscribe() or unsubscribe() is. */
  datatype Phase =
    | Free
    | Adding(e: Entry)            // first subscriber listed
    | Numbered(e: Entry, k: R.Key)  // id of the listen=true request taken
    | Asking(e: Entry, k: R.Key)    // id mapped; the request and the wait for its ACK
    | Undoing(e: Entry, k: R.Key)   // subscriber taken off the list again
    | Removing(event: string)     // last subscriber taken off the list

  datatype State = State(r: R.State, list: seq<Entry>, phase: Phase)

  datatype Step =
    | Other(step: R.Step)
    | Subscribe(e: Entry)
    | TakeId
    | MapId
    | Acked
    | NotAcked
    | Undo
    | Unsubscribe(event: string, usercb: Addr)
    | Unmap

  predicate Init(s: State) { R.Init(s.r) && s.list == [] && s.phase == Free }

  /** The promise holds what subscribe takes for an acknowledgement. */
  predicate Acknowledged(c: R.Call) { |c.sets| > 0 && SubscribeStatus(Reply(c.sets[0])) == ERR_NONE }

  predicate AtReturn(s: State) {
    s.phase.Asking? && s.phase.k < |s.r.calls| && s.r.calls[s.phase.k].pc == R.Returned
  }

  predicate Enabled(s: State, step: Step) {
    match step
    // the map belongs to the subscribe thread, and so does the call it has numbered but not yet made
    case Other(rs) =>
      R.Enabled(s.r, rs) && !rs.MapEvent? && !rs.MapErase? && !(s.phase.Numbered? && rs == R.Make(s.phase.k))
    case Subscribe(e) => s.phase == Free
    case TakeId => s.phase.Adding? && R.Enabled(s.r, R.Issue)
    case MapId => s.phase.Numbered? && s.phase.k < |s.r.calls|
    case Acked => AtReturn(s) && Acknowledged(s.r.calls[s.phase.k])
    // an error reply, or no reply in time
    case NotAcked => AtReturn(s) && !Acknowledged(s.r.calls[s.phase.k])
    case Undo => s.phase.Undoing? && s.phase.k < |s.r.calls|
    case Unsubscribe(event, usercb) => s.phase == Free
    case Unmap => s.phase.Removing?
  }

  ghost function Apply(s: State, step: Step): State
    requires Enabled(s, step)
  {
    match step
    case Other(rs) => s.(r := R.Apply(s.r, rs))
    case Subscribe(e) =>
      var (list, status) := ServerSubscribe(s.list, e);
      if status != ERR_NONE then s
      else s.(list := list, phase := if HasName(s.list, LowerModule(e.event)) then Free else Adding(e))
    case TakeId => s.(r := R.Apply(s.r, R.Issue), phase := Numbered(s.phase.e, |s.r.calls|))
    case MapId =>
      s.(r := if s.r.legacy then s.r.(eventMap := s.r.eventMap[s.r.calls[s.phase.k].id := s.phase.e.event]) else s.r,
         phase := Asking(s.phase.e, s.phase.k))
    case Acked => s.(phase := Free)
    case NotAcked =>
      s.(list := ServerUnsubscribe(s.list, s.phase.e.event, s.phase.e.usercb).0,
         phase := Undoing(s.phase.e, s.phase.k))
    case Undo =>
      s.(r := if s.r.legacy then s.r.(eventMap := s.r.eventMap - {s.r.calls[s.phase.k].id}) else s.r, phase := Free)
    case Unsubscribe(event, usercb) =>
      var (list, status) := ServerUnsubscribe(s.list, event, usercb);
      if status != ERR_NONE then s
      else s.(list := list, phase := if HasName(list, LowerModule(event)) then Free else Removing(event))
    case Unmap =>
      s.(r := if s.r.legacy then s.r.(eventMap := EraseFirst(s.r.eventMap, s.phase.event)) else s.r, phase := Free)
  }

  ghost predicate Next(s: State, step: Step, s': State) { Enabled(s, step) && s' == Apply(s, step) }

  ghost predicate Run(steps: seq<Step>, states: seq<State>) {
    |states| == |steps| + 1 && Init(states[0])
    && forall i :: 0 <= i < |steps| ==> RunStep(steps, states, i)
  }

  ghost predicate RunStep(steps: seq<Step>, states: seq<State>, i: nat)
    requires i < |steps| && |states| == |steps| + 1
  {
    Next(states[i], steps[i], states[i + 1])
  }

  // ----- the request protocol goes on underneath

  /** The step of the request protocol that a step of a subscribe or unsubscribe call amounts to. */
  ghost function Underlying(s: State, step: Step): Option<R.Step>
    requires Enabled(s, step)
  {
    match step
    case Other(rs) => Some(rs)
    case TakeId => Some(R.Issue)
    case MapId => if s.r.legacy then Some(R.MapEvent(s.phase.k, s.phase.e.event)) else None
    case Undo => if s.r.legacy then Some(R.MapErase(s.r.calls[s.phase.k].id)) else None
    case Unmap =>
      if s.r.legacy && IdsOf(s.r.eventMap, s.phase.event) != {}
      then Some(R.MapErase(Min(IdsOf(s.r.eventMap, s.phase.event)))) else None
    case _ => None
  }

  /** Every run of these steps is a run of the request protocol. */
  lemma UnderlyingStep(s: State, step: Step, s': State)
    requires Next(s, step, s') && Inv(s)
    ensures match Underlying(s, step)
            case Some(rs) => R.Next(s.r, rs, s'.r)
            case None => s'.r == s.r
  {
  }

  // ----- invariant

  /** The subscriber that the present call has appended, the only one of its lookup key. */
  predicate AddedLast(list: seq<Entry>, e: Entry) {
    |list| > 0 && list[|list| - 1] == e
    && Find(list[..|list| - 1], e.event, e.usercb) == |list| - 1
    && !HasName(list[..|list| - 1], LowerModule(e.event))
  }

  predicate MapsTo(m: map<MsgId, string>, id: MsgId, event: string) { id in m ==> m[id] == event }

  predicate PhaseInv(s: State) {
    match s.phase
    case Adding(e) => AddedLast(s.list, e)
    case Numbered(e, k) => AddedLast(s.list, e) && R.AtPc(s.r, k, R.Issued) && k + 1 !in s.r.eventMap
    case Asking(e, k) => AddedLast(s.list, e) && k < |s.r.calls| && MapsTo(s.r.eventMap, k + 1, e.event)
    case Undoing(e, k) => k < |s.r.calls| && MapsTo(s.r.eventMap, k + 1, e.event)
    case _ => true
  }

  predicate Underway(s: State, k: R.Key) { (s.phase.Asking? || s.phase.Undoing?) && s.phase.k == k }

  /** A mapped id belongs to the subscribe under way or to one whose reply has come. */
  ghost predicate MapInv(s: State) {
    forall id :: id in s.r.eventMap ==>
      s.r.legacy && 1 <= id <= |s.r.calls| && (Underway(s, id - 1) || s.r.calls[id - 1].sets != [])
  }

  ghost predicate Inv(s: State) { I.Inv(s.r) && PhaseInv(s) && MapInv(s) }

  lemma OthersKeepMap(s: R.State, rs: R.Step, s': R.State)
    requires R.Next(s, rs, s') && !rs.MapEvent? && !rs.MapErase?
    ensures s'.eventMap == s.eventMap && s'.legacy == s.legacy
  {
    match rs
    case Receive(t, msg) => I.ReceivedFrame(s, t, msg);
    case Take(t) => I.MatchedFrame(s, t, s.threads[t].msg);
    case _ =>
  }

  lemma CallsForward(s: R.State, rs: R.Step, s': R.State)
    requires R.Next(s, rs, s')
    ensures |s.calls| <= |s'.calls|
    ensures forall k :: 0 <= k < |s.calls| ==> T.Forward(s.calls[k], s'.calls[k])
  {
    forall k | 0 <= k < |s.calls|
      ensures k < |s'.calls| && T.Forward(s.calls[k], s'.calls[k])
    {
      T.StepForward(s, rs, s', k);
    }
    if |s.calls| > 0 { T.StepForward(s, rs, s', |s.calls| - 1); }
  }

  lemma OtherKeepsInv(s: State, rs: R.Step, s': State)
    requires Inv(s) && Next(s, Other(rs), s')
    ensures PhaseInv(s') && MapInv(s')
  {
    OthersKeepMap(s.r, rs, s'.r);
    CallsForward(s.r, rs, s'.r);
    if s.phase.Numbered? { NumberedIsLeftAlone(s, rs, s'); }
    SameMapKeepsInv(s, s');
  }

  lemma SameMapKeepsInv(s: State, s': State)
    requires PhaseInv(s) && MapInv(s) && s'.list == s.list && s'.phase == s.phase
    requires s'.r.eventMap == s.r.eventMap && s'.r.legacy == s.r.legacy && |s.r.calls| <= |s'.r.calls|
    requires forall k :: 0 <= k < |s.r.calls| ==> T.Forward(s.r.calls[k], s'.r.calls[k])
    requires s.phase.Numbered? ==> R.AtPc(s'.r, s.phase.k, R.Issued)
    ensures PhaseInv(s') && MapInv(s')
  {
    forall id | id in s'.r.eventMap
      ensures 1 <= id <= |s'.r.calls| && (Underway(s', id - 1) || s'.r.calls[id - 1].sets != [])
    {
      assert T.Forward(s.r.calls[id - 1], s'.r.calls[id - 1]);
    }
  }

  lemma NumberedIsLeftAlone(s: State, rs: R.Step, s': State)
    requires Inv(s) && Next(s, Other(rs), s') && s.phase.Numbered?
    ensures R.AtPc(s'.r, s.phase.k, R.Issued)
  {
    if rs.Fulfil? { assert I.Holds(s.r, rs.t, rs.k); }
    T.OtherStepKeeps(s.r, rs, s'.r, s.phase.k);
  }

  /** The steps of the subscribe or unsubscribe call itself. */
  lemma OwnStepKeepsPhase(s: State, step: Step, s': State)
    requires Inv(s) && Next(s, step, s') && !step.Other?
    ensures PhaseInv(s')
  {
    match step
    case Subscribe(e) => assert s'.list != s.list ==> s'.list[..|s.list|] == s.list;
    case TakeId => assert |s.r.calls| + 1 !in s.r.eventMap;
    case MapId => assert s.r.calls[s.phase.k].id == s.phase.k + 1;
    case _ =>
  }

  lemma IssueKeepsMap(s: State, s': State)
    requires Inv(s) && Next(s, TakeId, s')
    ensures MapInv(s')
  {
    assert forall k :: 0 <= k < |s.r.calls| ==> s'.r.calls[k] == s.r.calls[k];
  }

  lemma MapIdKeepsMap(s: State, s': State)
    requires Inv(s) && Next(s, MapId, s')
    ensures MapInv(s')
  {
    assert s.r.calls[s.phase.k].id == s.phase.k + 1 && Underway(s', s.phase.k);
  }

  lemma OwnStepKeepsMap(s: State, step: Step, s': State)
    requires Inv(s) && Next(s, step, s') && !step.Other?
    ensures MapInv(s')
  {
    match step
    case TakeId => IssueKeepsMap(s, s');
    case MapId => MapIdKeepsMap(s, s');
    case Acked => assert Underway(s, s.phase.k);
    case Undo => assert s.r.calls[s.phase.k].id == s.phase.k + 1;
    case _ =>
  }

  lemma StepKeepsInv(s: State, step: Step, s': State)
    requires Inv(s) && Next(s, step, s')
    ensures Inv(s')
  {
    UnderlyingStep(s, step, s');
    if Underlying(s, step).Some? { I.StepKeeps(s.r, Underlying(s, step).value); }
    if step.Other? {
      OtherKeepsInv(s, step.step, s');
    } else {
      OwnStepKeepsPhase(s, step, s');
      OwnStepKeepsMap(s, step, s');
    }
  }

  lemma {:induction false} RunInv(steps: seq<Step>, states: seq<State>, n: nat)
    requires Run(steps, states) && n <= |steps|
    ensures Inv(states[n])
  {
    if n == 0 {
      I.InitInv(states[0].r);
    } else {
      RunInv(steps, states, n - 1);
      assert RunStep(steps, states, n - 1);
      StepKeepsInv(states[n - 1], steps[n - 1], states[n]);
    }
  }

  // ----- the map is exact for canonical names

  /** The call under way has changed the list for `name` and not yet the map. */
  predicate MapToFollow(s: State, name: string) {
    match s.phase
    case Adding(e) => e.event == name
    case Numbered(e, k) => e.event == name
    case Undoing(e, k) => e.event == name
    case Removing(event) => event == name
    case _ => false
  }

  ghost predicate ExactFor(s: State, name: string) {
    var ids := IdsOf(s.r.eventMap, name);
    U.AtMostOne(ids)
    && (if !MapToFollow(s, name) then ids != {} <==> s.r.legacy && HasName(s.list, name)
        else if s.phase.Undoing? || s.phase.Removing? then !HasName(s.list, name)
        else ids == {} && HasName(s.list, name))
    && (s.phase.Undoing? && s.phase.e.event == name ==> ids <= {s.phase.k + 1})
    && (s.phase.Asking? && s.phase.e.event == name ==> ids <= {s.phase.k + 1})
  }

  lemma ListStepKeepsExact(s: State, step: Step, s': State, name: string)
    requires Inv(s) && Next(s, step, s') && ExactFor(s, name) && Canonical(name)
    requires step.Subscribe? || step.Unsubscribe?
    ensures ExactFor(s', name)
  {
    match step
    case Subscribe(e) => U.AppendNames(s.list, e, name);
    case Unsubscribe(event, usercb) =>
      var i := Find(s.list, event, usercb);
      if i < |s.list| { U.WithoutNames(s.list, i, name); }
  }

  lemma NotAckedKeepsExact(s: State, s': State, name: string)
    requires Inv(s) && Next(s, NotAcked, s') && ExactFor(s, name) && Canonical(name)
    ensures ExactFor(s', name)
  {
    var e, front := s.phase.e, s.list[..|s.list| - 1];
    assert s.list == front + [e];
    U.FindAppended(front, e);
    U.AppendNames(front, e, name);
  }

  lemma MapStepKeepsExact(s: State, step: Step, s': State, name: string)
    requires Inv(s) && Next(s, step, s') && ExactFor(s, name) && Canonical(name)
    requires step.MapId? || step.Undo? || step.Unmap?
    ensures ExactFor(s', name)
  {
    match step
    case MapId =>
      assert s.r.calls[s.phase.k].id == s.phase.k + 1;
      var more := if s.r.legacy && s.phase.e.event == name then {s.phase.k + 1} else {};
      assert IdsOf(s'.r.eventMap, name) == IdsOf(s.r.eventMap, name) + more;
    case Undo =>
      assert s.r.calls[s.phase.k].id == s.phase.k + 1;
      assert IdsOf(s'.r.eventMap, name) == IdsOf(s.r.eventMap, name) - if s.r.legacy then {s.phase.k + 1} else {};
    case Unmap =>
      if s.phase.event == name {
        U.EraseFirstErasesAll(s.r.eventMap, name);
      } else {
        U.EraseFirstKeepsOthers(s.r.eventMap, s.phase.event, name);
      }
  }

  lemma StepKeepsExact(s: State, step: Step, s': State, name: string)
    requires Inv(s) && Next(s, step, s') && ExactFor(s, name) && Canonical(name)
    ensures ExactFor(s', name)
  {
    match step
    case Other(rs) => OthersKeepMap(s.r, rs, s'.r);
    case TakeId => OthersKeepMap(s.r, R.Issue, s'.r);
    case Acked =>
    case MapId => MapStepKeepsExact(s, step, s', name);
    case Undo => MapStepKeepsExact(s, step, s', name);
    case Unmap => MapStepKeepsExact(s, step, s', name);
    case NotAcked => NotAckedKeepsExact(s, s', name);
    case _ => ListStepKeepsExact(s, step, s', name);
  }

  /** In every reachable state, whatever the other threads do: a canonical name has at most one mapped
      id, and between calls it has one exactly in legacy mode and while it has a subscriber. */
  lemma {:induction false} RunExact(steps: seq<Step>, states: seq<State>, n: nat, name: string)
    requires Run(steps, states) && n <= |steps| && Canonical(name)
    ensures ExactFor(states[n], name)
  {
    if n > 0 {
      RunExact(steps, states, n - 1, name);
      RunInv(steps, states, n - 1);
      assert RunStep(steps, states, n - 1);
      StepKeepsExact(states[n - 1], steps[n - 1], states[n], name);
    }
  }

  // ----- late frames

  /** The reply to the call's request has come: its caller is out of the queue for good. */
  predicate Answered(s: State, k: R.Key) { k < |s.r.calls| && !I.Early(s.r, k) && !I.Pending(s.r, k) }

  lemma StepKeepsAnswered(s: State, step: Step, s': State, id: MsgId)
    requires Inv(s) && Next(s, step, s') && id > 0 && Answered(s, id - 1)
    ensures Answered(s', id - 1)
    ensures id in s'.r.eventMap ==> id in s.r.eventMap && s'.r.eventMap[id] == s.r.eventMap[id]
  {
    UnderlyingStep(s, step, s');
    if Underlying(s, step).Some? { T.StepKeepsOut(s.r, Underlying(s, step).value, s'.r, id - 1); }
    match step
    case Other(rs) => OthersKeepMap(s.r, rs, s'.r);
    case TakeId => OthersKeepMap(s.r, R.Issue, s'.r);
    case MapId => assert s.r.calls[s.phase.k].id != id;
    case _ =>
  }

  lemma {:induction false} RunKeepsAnswered(steps: seq<Step>, states: seq<State>, i: nat, n: nat, id: MsgId)
    requires Run(steps, states) && i <= n <= |steps| && id > 0 && Answered(states[i], id - 1)
    ensures Answered(states[n], id - 1)
    ensures id in states[n].r.eventMap ==>
              id in states[i].r.eventMap && states[n].r.eventMap[id] == states[i].r.eventMap[id]
  {
    if i < n {
      RunKeepsAnswered(steps, states, i, n - 1, id);
      RunInv(steps, states, n - 1);
      assert RunStep(steps, states, n - 1);
      StepKeepsAnswered(states[n - 1], steps[n - 1], states[n], id);
    }
  }

  /** The id that a returned subscribe has mapped. */
  lemma MappedIsAnswered(s: State, id: MsgId)
    requires Inv(s) && s.phase == Free && id in s.r.eventMap
    ensures id > 0 && Answered(s, id - 1)
  {
  }

  lemma UnmappedForGood(steps: seq<Step>, states: seq<State>, i: nat, j: nat, n: nat, id: MsgId)
    requires Run(steps, states) && i <= j <= n <= |steps|
    requires states[i].phase == Free && id in states[i].r.eventMap && Canonical(states[i].r.eventMap[id])
    requires states[j].phase == Free && !HasName(states[j].list, states[i].r.eventMap[id])
    ensures id > 0 && T.Gone(states[n].r, id - 1)
  {
    var name := states[i].r.eventMap[id];
    RunInv(steps, states, i);
    MappedIsAnswered(states[i], id);
    RunKeepsAnswered(steps, states, i, j, id);
    RunExact(steps, states, j, name);
    assert id !in IdsOf(states[j].r.eventMap, name);
    RunKeepsAnswered(steps, states, j, n, id);
  }

  /** After a successful subscribe of an event and the unsubscribe of its last subscriber, at any later
      time and whatever the other threads and later subscribes do: a frame with the id of that subscribe
      notifies nobody and completes no request. */
  lemma LateFrameIsHarmless(
    steps: seq<Step>, states: seq<State>, i: nat, j: nat, n: nat, id: MsgId, t: R.Tid, msg: Message)
    requires Run(steps, states) && i <= j <= n <= |steps|
    requires states[i].phase == Free && id in states[i].r.eventMap && Canonical(states[i].r.eventMap[id])
    requires states[j].phase == Free && !HasName(states[j].list, states[i].r.eventMap[id])
    requires msg.id.Some? && ResponseId(msg.id.value) == Some(id)
    ensures Enabled(states[n], Other(R.Receive(t, msg))) ==>
              Apply(states[n], Other(R.Receive(t, msg))) == states[n]
              || Apply(states[n], Other(R.Receive(t, msg)))
                 == states[n].(r := states[n].r.(threads := states[n].r.threads[t := R.Routed(msg)]))
    ensures Enabled(states[n], Other(R.Take(t))) && states[n].r.threads[t] == R.Routed(msg) ==>
              Apply(states[n], Other(R.Take(t)))
              == states[n].(r := states[n].r.(threads := states[n].r.threads - {t}))
  {
    UnmappedForGood(steps, states, i, j, n, id);
    RunInv(steps, states, n);
    T.FrameIsHarmless(states[n].r, id - 1, t, msg);
  }

  /** Until then such a frame is the event: it reaches notify, and touches neither queue nor calls. */
  lemma MappedFrameIsTheEvent(steps: seq<Step>, states: seq<State>, n: nat, id: MsgId, t: R.Tid, msg: Message)
    requires Run(steps, states) && n <= |steps| && id in states[n].r.eventMap && states[n].r.eventMap[id] != ""
    requires msg.id == Some(Unsigned(id)) && msg.result.Some? && !msg.result.value.IsEmpty()
    requires !(msg.result.value.Obj? && "listening" in msg.result.value.fields)
    requires t !in states[n].r.threads
    ensures Enabled(states[n], Other(R.Receive(t, msg)))
    ensures Apply(states[n], Other(R.Receive(t, msg)))
            == states[n].(r := states[n].r.(notified := states[n].r.notified
                                                        + [(states[n].r.eventMap[id], msg.result.value)]))
  {
    RunInv(steps, states, n);
    LegacyAckIsNotAnEvent(states[n].r.eventMap, msg, id);
  }

  // ----- whole calls

  predicate OnlyOthers(steps: seq<Step>, i: nat, n: nat) {
    n <= |steps| && forall x :: i <= x < n ==> steps[x].Other?
  }

  lemma {:induction false} OthersKeepRegistry(steps: seq<Step>, states: seq<State>, i: nat, n: nat)
    requires Run(steps, states) && i <= n && OnlyOthers(steps, i, n)
    ensures states[n].list == states[i].list && states[n].phase == states[i].phase
    ensures states[n].r.eventMap == states[i].r.eventMap && states[n].r.legacy == states[i].r.legacy
  {
    if i < n {
      OthersKeepRegistry(steps, states, i, n - 1);
      assert RunStep(steps, states, n - 1);
      OthersKeepMap(states[n - 1].r, steps[n - 1].step, states[n].r);
    }
  }

  /** The registries, with `issued` ids taken so far, as subscribe and unsubscribe calls see them. */
  function View(s: State, issued: nat): Gateway { Gateway(s.r.legacy, s.list, s.r.eventMap, issued, []) }

  predicate SameRegistries(s: State, g: Gateway) { s.list == g.list && s.r.eventMap == g.eventMap }

  /** A first subscriber's call up to the wait for its ACK: list, id and map. */
  ghost predicate AsksAt(steps: seq<Step>, a: nat, b: nat, c: nat, d: nat, e: Entry) {
    a < b < c < d < |steps| && steps[a] == Subscribe(e) && steps[b] == TakeId && steps[c] == MapId
    && OnlyOthers(steps, a + 1, b) && OnlyOthers(steps, b + 1, c) && OnlyOthers(steps, c + 1, d)
  }

  lemma ListedState(steps: seq<Step>, states: seq<State>, a: nat, b: nat, e: Entry)
    requires Run(steps, states) && a < b < |steps| && steps[a] == Subscribe(e) && steps[b] == TakeId
    requires OnlyOthers(steps, a + 1, b)
    ensures ServerSubscribe(states[a].list, e).1 == ERR_NONE && !HasName(states[a].list, LowerModule(e.event))
    ensures states[b].r.legacy == states[a].r.legacy && states[b].r.eventMap == states[a].r.eventMap
    ensures states[b].list == states[a].list + [e] && states[b].phase == Adding(e)
  {
    assert RunStep(steps, states, a) && RunStep(steps, states, b);
    OthersKeepRegistry(steps, states, a + 1, b);
  }

  lemma AskingState(steps: seq<Step>, states: seq<State>, a: nat, b: nat, c: nat, d: nat, e: Entry)
    requires Run(steps, states) && AsksAt(steps, a, b, c, d, e)
    ensures var k, s := |states[b].r.calls|, states[d];
            ServerSubscribe(states[a].list, e).1 == ERR_NONE
            && !HasName(states[a].list, LowerModule(e.event))
            && s.r.legacy == states[a].r.legacy && s.phase == Asking(e, k) && k + 1 < ID_SPACE
            && s.list == states[a].list + [e] && k + 1 !in states[a].r.eventMap
            && s.r.eventMap == if s.r.legacy then states[a].r.eventMap[k + 1 := e.event] else states[a].r.eventMap
  {
    ListedState(steps, states, a, b, e);
    assert RunStep(steps, states, b) && RunStep(steps, states, c);
    OthersKeepRegistry(steps, states, b + 1, c);
    OthersKeepRegistry(steps, states, c + 1, d);
    RunInv(steps, states, b);
    RunInv(steps, states, c);
  }

  /** Interleaved with anything else, an acknowledged subscribe call does to list and map what
      GatewaySubscribe says. */
  lemma AckedCallIsGatewaySubscribe(steps: seq<Step>, states: seq<State>, a: nat, b: nat, c: nat, d: nat, e: Entry)
    requires Run(steps, states) && AsksAt(steps, a, b, c, d, e) && steps[d] == Acked
    ensures var k := |states[b].r.calls|;
            k < |states[d].r.calls| && states[d].r.calls[k].sets != []
            && SameRegistries(states[d + 1],
                              GatewaySubscribe(View(states[a], k), e, Reply(states[d].r.calls[k].sets[0])).0)
  {
    AskingState(steps, states, a, b, c, d, e);
    assert RunStep(steps, states, d);
  }

  /** A failed first subscribe leaves list and map as they were. */
  lemma RollbackRestores(g: Gateway, e: Entry, ack: Ack)
    requires ServerSubscribe(g.list, e).1 == ERR_NONE && !HasName(g.list, LowerModule(e.event))
    requires SubscribeStatus(ack) != ERR_NONE && g.issued + 1 < ID_SPACE && g.issued + 1 !in g.eventMap
    ensures ServerUnsubscribe(g.list + [e], e.event, e.usercb).0 == g.list
    ensures var g' := GatewaySubscribe(g, e, ack).0; g'.list == g.list && g'.eventMap == g.eventMap
  {
    U.FindAppended(g.list, e);
  }

  /** The same for the steps of the call. */
  lemma RolledBack(steps: seq<Step>, states: seq<State>, d: nat, f: nat, list: seq<Entry>)
    requires Run(steps, states) && d < f < |steps| && steps[d] == NotAcked && steps[f] == Undo
    requires OnlyOthers(steps, d + 1, f) && states[d].phase.Asking?
    requires ServerUnsubscribe(states[d].list, states[d].phase.e.event, states[d].phase.e.usercb).0 == list
    ensures states[f + 1].list == list
    ensures states[f + 1].r.eventMap
            == if states[d].r.legacy then states[d].r.eventMap - {states[d].phase.k + 1} else states[d].r.eventMap
  {
    assert RunStep(steps, states, d) && RunStep(steps, states, f);
    OthersKeepRegistry(steps, states, d + 1, f);
    RunInv(steps, states, f);
  }

  /** So does one that is refused or times out, at the end of its rollback. */
  lemma FailedCallIsGatewaySubscribe(
    steps: seq<Step>, states: seq<State>, a: nat, b: nat, c: nat, d: nat, f: nat, e: Entry, ack: Ack)
    requires Run(steps, states) && AsksAt(steps, a, b, c, d, e) && steps[d] == NotAcked
    requires d < f < |steps| && OnlyOthers(steps, d + 1, f) && steps[f] == Undo
    requires SubscribeStatus(ack) != ERR_NONE
    ensures SameRegistries(states[f + 1], GatewaySubscribe(View(states[a], |states[b].r.calls|), e, ack).0)
  {
    AskingState(steps, states, a, b, c, d, e);
    RollbackRestores(View(states[a], |states[b].r.calls|), e, ack);
    RolledBack(steps, states, d, f, states[a].list);
    assert states[f + 1].r.eventMap == states[a].r.eventMap;
  }

  /** And an unsubscribe call what GatewayUnsubscribe says. */
  lemma CallIsGatewayUnsubscribe(
    steps: seq<Step>, states: seq<State>, a: nat, b: nat, event: string, usercb: Addr, ack: Ack)
    requires Run(steps, states) && a < b < |steps| && steps[a] == Unsubscribe(event, usercb)
    requires OnlyOthers(steps, a + 1, b) && steps[b] == Unmap
    ensures SameRegistries(states[b + 1], GatewayUnsubscribe(View(states[a], 0), event, usercb, ack).0)
  {
    assert RunStep(steps, states, a) && RunStep(steps, states, b);
    OthersKeepRegistry(steps, states, a + 1, b);
  }

  /** Calls that change nothing upstream are over with their first step. */
  lemma RepeatCallIsGatewayCall(s: State, step: Step, s': State, issued: nat, ack: Ack)
    requires Next(s, step, s') && s'.phase == Free
    ensures step.Subscribe? ==> s'.r == s.r && SameRegistries(s', GatewaySubscribe(View(s, issued), step.e, ack).0)
    ensures step.Unsubscribe? ==>
              s'.r == s.r
              && SameRegistries(s', GatewayUnsubscribe(View(s, issued), step.event, step.usercb, ack).0)
  {
  }

  // ----- a run that gets there

  lemma ExtendRun(steps: seq<Step>, states: seq<State>, step: Step) returns (steps': seq<Step>, states': seq<State>)
    requires Run(steps, states) && Enabled(states[|steps|], step)
    ensures Run(steps', states') && steps' == steps + [step]
    ensures states' == states + [Apply(states[|steps|], step)]
  {
    steps', states' := steps + [step], states + [Apply(states[|steps|], step)];
    forall i | 0 <= i < |steps'|
      ensures RunStep(steps', states', i)
    {
      if i < |steps| { assert RunStep(steps, states, i); }
    }
  }

  /** An open legacy connection at time 0. */
  function Online(calls: seq<R.Call>, queue: map<MsgId, R.Key>, eventMap: map<MsgId, string>): R.State {
    R.State(true, 0, 0, 0, R.Connected, true, R.Idle, R.Idle, true, calls, queue, eventMap, map[], [])
  }

  lemma Dialled() returns (steps: seq<Step>, states: seq<State>)
    ensures Run(steps, states)
    ensures var r := Online([], map[], map[]);
            states[|steps|] == State(r.(status := R.Connecting, ctl := R.Dialled, watchdog := false), [], Free)
  {
    var r := R.State(true, 0, 0, 0, R.NotStarted, false, R.Idle, R.Idle, false, [], map[], map[], map[], []);
    steps, states := [], [State(r, [], Free)];
    steps, states := ExtendRun(steps, states, Other(R.Start));
    steps, states := ExtendRun(steps, states, Other(R.Dial));
  }

  lemma Opened() returns (steps: seq<Step>, states: seq<State>)
    ensures Run(steps, states) && states[|steps|] == State(Online([], map[], map[]), [], Free)
  {
    steps, states := Dialled();
    steps, states := ExtendRun(steps, states, Other(R.StartWatchdog));
    steps, states := ExtendRun(steps, states, Other(R.Open));
  }

  lemma Asked(e: Entry) returns (steps: seq<Step>, states: seq<State>)
    ensures Run(steps, states)
    ensures states[|steps|]
            == State(Online([R.Call(1, R.Issued, 0, 0, [])], map[], map[1 := e.event]), [e], Asking(e, 0))
  {
    steps, states := Opened();
    steps, states := ExtendRun(steps, states, Subscribe(e));
    steps, states := ExtendRun(steps, states, TakeId);
    steps, states := ExtendRun(steps, states, MapId);
  }

  lemma Queued(e: Entry) returns (steps: seq<Step>, states: seq<State>)
    ensures Run(steps, states)
    ensures states[|steps|]
            == State(Online([R.Call(1, R.Enqueued, 0, 0, [])], map[1 := 0], map[1 := e.event]), [e], Asking(e, 0))
  {
    steps, states := Asked(e);
    steps, states := ExtendRun(steps, states, Other(R.Make(0)));
    steps, states := ExtendRun(steps, states, Other(R.Enqueue(0)));
  }

  lemma Sent(e: Entry) returns (steps: seq<Step>, states: seq<State>)
    ensures Run(steps, states)
    ensures states[|steps|]
            == State(Online([R.Call(1, R.Returned, 0, 0, [])], map[1 := 0], map[1 := e.event]), [e], Asking(e, 0))
  {
    steps, states := Queued(e);
    steps, states := ExtendRun(steps, states, Other(R.Check(0)));
    steps, states := ExtendRun(steps, states, Other(R.Send(0, ERR_NONE)));
  }

  /** The ACK of a listen=true request. */
  function AckResult(): Json { Obj(map["listening" := Bool(true)]) }

  function AckFrame(): Message { Message(Some(Unsigned(1)), Some(AckResult()), None, None, None) }

  lemma Received(e: Entry) returns (steps: seq<Step>, states: seq<State>)
    ensures Run(steps, states)
    ensures states[|steps|]
            == State(Online([R.Call(1, R.Returned, 0, 0, [])], map[1 := 0], map[1 := e.event])
                     .(threads := map[0 := R.Routed(AckFrame())]), [e], Asking(e, 0))
  {
    steps, states := Sent(e);
    steps, states := ExtendRun(steps, states, Other(R.Receive(0, AckFrame())));
  }

  lemma Taken(e: Entry) returns (steps: seq<Step>, states: seq<State>)
    ensures Run(steps, states)
    ensures states[|steps|]
            == State(Online([R.Call(1, R.Returned, 0, 0, [])], map[], map[1 := e.event])
                     .(threads := map[0 := R.Holding({0}, Success(AckResult()))]), [e], Asking(e, 0))
  {
    steps, states := Received(e);
    assert R.KeysOf(map[1 := 0], {1}) == {0};
    steps, states := ExtendRun(steps, states, Other(R.Take(0)));
  }

  lemma Replied(e: Entry) returns (steps: seq<Step>, states: seq<State>)
    ensures Run(steps, states)
    ensures states[|steps|]
            == State(Online([R.Call(1, R.Returned, 0, 0, [Success(AckResult())])], map[], map[1 := e.event]),
                     [e], Asking(e, 0))
  {
    steps, states := Taken(e);
    assert [] + [Success(AckResult())] == [Success(AckResult())] && {0} - {0} == {};
    steps, states := ExtendRun(steps, states, Other(R.Fulfil(0, 0)));
    assert states[|steps|].r.calls == [R.Call(1, R.Returned, 0, 0, [Success(AckResult())])];
    assert states[|steps|].r.threads == map[0 := R.Holding({}, Success(AckResult()))];
    steps, states := ExtendRun(steps, states, Other(R.Finish(0)));
  }

  /** For every event name: an acknowledged subscribe maps its id, and an unsubscribe follows. */
  lemma SubscribedAndLeft(name: string) returns (steps: seq<Step>, states: seq<State>, i: nat)
    ensures Run(steps, states) && i < |steps|
    ensures states[i].phase == Free && 1 in states[i].r.eventMap && states[i].r.eventMap[1] == name
    ensures states[|steps|].phase == Free && states[|steps|].list == []
  {
    var e := Entry(name, 0, Foreign(0));
    steps, states := Replied(e);
    steps, states := ExtendRun(steps, states, Acked);
    i := |steps|;
    assert Find([e], name, Foreign(0)) == 0 && Without([e], 0) == [];
    steps, states := ExtendRun(steps, states, Unsubscribe(name, Foreign(0)));
    steps, states := ExtendRun(steps, states, Unmap);
  }
}
