/** From a received message to the callbacks: which messages are events, whom notify hands them to,
    and with what. */
module NotifyTheorems {
  import opened Types
  import opened Routing
  import opened Subscriptions
  import opened Dispatch
  import opened DispatchTheorems
  import R = Requests
  import I = RequestInvariants
  import H = HelperTheorems

  // ----- the event list is the history of subscribes

  /** e was registered at step i and has not been taken off since. */
  ghost predicate RegisteredAt(steps: seq<Step>, n: nat, i: nat, e: Entry) {
    i < n <= |steps| && steps[i] == Register(e)
    && forall u :: i < u < n ==> steps[u] != Unregister(e.event, e.usercb)
  }

  /** ix gives, in increasing order, the step that registered each entry of the list. */
  ghost predicate IsHistory(steps: seq<Step>, n: nat, list: seq<Entry>, ix: seq<nat>) {
    |ix| == |list| && Distinct(list)
    && (forall p, q :: 0 <= p < q < |ix| ==> ix[p] < ix[q])
    && (forall p :: 0 <= p < |ix| ==> RegisteredAt(steps, n, ix[p], list[p]))
    && (forall i: nat, e :: RegisteredAt(steps, n, i, e) ==> e in list)
  }

  lemma RegisteredBefore(steps: seq<Step>, n: nat, i: nat, e: Entry)
    requires n < |steps|
    ensures RegisteredAt(steps, n + 1, i, e) <==>
              (i == n && steps[n] == Register(e))
              || (RegisteredAt(steps, n, i, e) && steps[n] != Unregister(e.event, e.usercb))
  {
  }

  lemma HistoryAppend(steps: seq<Step>, n: nat, list: seq<Entry>, ix: seq<nat>, e: Entry)
    requires n < |steps| && IsHistory(steps, n, list, ix) && steps[n] == Register(e)
    requires Find(list, e.event, e.usercb) == |list|
    ensures IsHistory(steps, n + 1, list + [e], ix + [n])
  {
    var m := n + 1;
    forall i: nat, x | RegisteredAt(steps, m, i, x)
      ensures x in list + [e]
    {
      RegisteredBefore(steps, n, i, x);
    }
    forall p | 0 <= p < |ix| + 1
      ensures RegisteredAt(steps, n + 1, (ix + [n])[p], (list + [e])[p])
    {
      if p < |ix| { RegisteredBefore(steps, n, ix[p], list[p]); }
    }
  }

  lemma HistoryKept(steps: seq<Step>, n: nat, list: seq<Entry>, ix: seq<nat>)
    requires n < |steps| && IsHistory(steps, n, list, ix) && !steps[n].Register?
    requires steps[n].Unregister? ==> Find(list, steps[n].event, steps[n].usercb) == |list|
    ensures IsHistory(steps, n + 1, list, ix)
  {
    var m := n + 1;
    forall i: nat, x | RegisteredAt(steps, m, i, x)
      ensures x in list
    {
      RegisteredBefore(steps, n, i, x);
    }
    forall p | 0 <= p < |ix|
      ensures RegisteredAt(steps, n + 1, ix[p], list[p])
    {
      RegisteredBefore(steps, n, ix[p], list[p]);
    }
  }

  lemma HistoryWithout(steps: seq<Step>, n: nat, list: seq<Entry>, ix: seq<nat>, i: nat)
    requires n < |steps| && IsHistory(steps, n, list, ix) && i < |list|
    requires steps[n] == Unregister(list[i].event, list[i].usercb)
    ensures IsHistory(steps, n + 1, Without(list, i), ix[..i] + ix[i + 1..])
  {
    var rest, jx, m := Without(list, i), ix[..i] + ix[i + 1..], n + 1;
    H.DistinctWithout(list, i);
    forall p | 0 <= p < |jx|
      ensures RegisteredAt(steps, m, jx[p], rest[p])
    {
      KeptInHistory(steps, n, list, ix, i, p);
    }
    forall j: nat, x | RegisteredAt(steps, m, j, x)
      ensures x in rest
    {
      RegisteredBefore(steps, n, j, x);
      assert x in list && x != list[i];
    }
  }

  /** An entry that stays keeps its place in the history. */
  lemma KeptInHistory(steps: seq<Step>, n: nat, list: seq<Entry>, ix: seq<nat>, i: nat, p: nat)
    requires n < |steps| && IsHistory(steps, n, list, ix) && i < |list| && p < |list| - 1
    requires steps[n] == Unregister(list[i].event, list[i].usercb)
    ensures RegisteredAt(steps, n + 1, (ix[..i] + ix[i + 1..])[p], Without(list, i)[p])
  {
    var q := if p < i then p else p + 1;
    assert Without(list, i)[p] == list[q] && (ix[..i] + ix[i + 1..])[p] == ix[q];
    assert !Matches(list[q], list[i].event, list[i].usercb);
    RegisteredBefore(steps, n, ix[q], list[q]);
  }

  /** In every state the event list is exactly the entries that were registered and not taken off
      since, in the order in which they were registered. */
  lemma {:induction false} ListIsHistory(steps: seq<Step>, states: seq<State>, n: nat) returns (ix: seq<nat>)
    requires Run(steps, states) && n <= |steps|
    ensures IsHistory(steps, n, states[n].list, ix)
  {
    if n == 0 {
      ix := [];
    } else {
      ix := ListIsHistory(steps, states, n - 1);
      assert RunStep(steps, states, n - 1);
      ix := HistoryStep(steps, n - 1, states[n - 1], states[n], ix);
    }
  }

  lemma HistoryStep(steps: seq<Step>, n: nat, s: State, s': State, ix: seq<nat>) returns (jx: seq<nat>)
    requires n < |steps| && IsHistory(steps, n, s.list, ix) && Enabled(s, steps[n]) && s' == Apply(s, steps[n])
    ensures IsHistory(steps, n + 1, s'.list, jx)
  {
    var step := steps[n];
    var i := if step.Unregister? then Find(s.list, step.event, step.usercb) else 0;
    if step.Register? {
      assert s'.list == s.list + [step.e];
      HistoryAppend(steps, n, s.list, ix, step.e);
      jx := ix + [n];
    } else if step.Unregister? && i < |s.list| {
      assert s'.list == Without(s.list, i);
      HistoryWithout(steps, n, s.list, ix, i);
      jx := ix[..i] + ix[i + 1..];
    } else {
      assert s'.list == s.list;
      HistoryKept(steps, n, s.list, ix);
      jx := ix;
    }
  }

  // ----- what notify hands over

  /** What subscribers get of params p: x when p is {"value": x} with x not an object, else p itself. */
  ghost predicate IsHandedOver(p: Json, q: Json) {
    (forall x :: p == Obj(map["value" := x]) && !x.Obj? ==> q == x)
    && ((forall x :: p == Obj(map["value" := x]) ==> x.Obj?) ==> q == p)
  }

  lemma UnwrappedIsHandedOver(p: Json)
    ensures IsHandedOver(p, Unwrapped(p))
  {
    UnwrapUndoesWrap(p, p);
    forall x | p == Obj(map["value" := x]) && !x.Obj?
      ensures Unwrapped(p) == x
    {
      UnwrapUndoesWrap(x, p);
    }
  }

  /** The batch of a notification of `event` with params p to the subscribers in `list`. */
  ghost predicate IsBatchFor(list: seq<Entry>, event: string, p: Json, b: Batch) {
    b.callbacks != [] && IsHandedOver(p, b.params) && exists ix :: SelectsAll(list, event, b.callbacks, ix)
  }

  predicate OfNote(step: Step, t: Tid) {
    match step
    case Begin(u, event, params) => u == t
    case Snapshot(u) => u == t
    case Push(u) => u == t
    case _ => false
  }

  /** The note of thread t has been left alone between i and n. */
  ghost predicate NoteIdle(steps: seq<Step>, t: Tid, i: nat, n: nat) {
    n <= |steps| && forall u :: i < u < n ==> !OfNote(steps[u], t)
  }

  /** A notify call that was not ignored began at step i, on thread t. */
  ghost predicate BeganAt(steps: seq<Step>, states: seq<State>, i: nat, t: Tid, event: string, p: Json) {
    i < |steps| && i < |states| && steps[i] == Begin(t, event, p) && !states[i].stop
  }

  lemma NoteKept(s: State, step: Step, t: Tid)
    requires Enabled(s, step) && !OfNote(step, t)
    ensures (t in Apply(s, step).notes <==> t in s.notes)
            && (t in s.notes ==> Apply(s, step).notes[t] == s.notes[t])
  {
  }

  lemma {:induction false} CheckedOrigin(steps: seq<Step>, states: seq<State>, n: nat, t: Tid) returns (i: nat, p: Json)
    requires Run(steps, states) && n <= |steps| && t in states[n].notes && states[n].notes[t].Checked?
    ensures i < n && BeganAt(steps, states, i, t, states[n].notes[t].event, p) && NoteIdle(steps, t, i, n)
    ensures IsHandedOver(p, states[n].notes[t].params)
  {
    assert n > 0;
    assert RunStep(steps, states, n - 1);
    if OfNote(steps[n - 1], t) {
      i, p := n - 1, steps[n - 1].params;
      UnwrappedIsHandedOver(p);
    } else {
      NoteKept(states[n - 1], steps[n - 1], t);
      i, p := CheckedOrigin(steps, states, n - 1, t);
    }
  }

  /** A thread's batch comes from its notify call at step i and its snapshot at step j. */
  lemma {:induction false} SnappedOrigin(steps: seq<Step>, states: seq<State>, n: nat, t: Tid)
    returns (i: nat, j: nat, event: string, p: Json)
    requires Run(steps, states) && n <= |steps| && t in states[n].notes && states[n].notes[t].Snapped?
    ensures i < j < n && BeganAt(steps, states, i, t, event, p) && steps[j] == Snapshot(t)
    ensures NoteIdle(steps, t, i, j) && NoteIdle(steps, t, j, n)
    ensures IsBatchFor(states[j].list, event, p, states[n].notes[t].batch)
  {
    assert n > 0;
    assert RunStep(steps, states, n - 1);
    if OfNote(steps[n - 1], t) {
      j := n - 1;
      event := states[j].notes[t].event;
      i, p := CheckedOrigin(steps, states, j, t);
      var ix := SubscribersInOrder(states[j].list, event);
    } else {
      NoteKept(states[n - 1], steps[n - 1], t);
      i, j, event, p := SnappedOrigin(steps, states, n - 1, t);
    }
  }

  /** Where the q-th accepted batch comes from: a notify call on some thread that was not ignored, its
      snapshot and its push, in this order and with no other step of that note between them.  It goes to
      all the event's entries at the snapshot, in order, with the unwrapped params of the call. */
  lemma {:induction false} AcceptedAreSnapshots(steps: seq<Step>, states: seq<State>, n: nat, q: nat)
    returns (t: Tid, i: nat, j: nat, m: nat, event: string, p: Json)
    requires Run(steps, states) && n <= |steps| && q < |states[n].accepted|
    ensures i < j < m < n && BeganAt(steps, states, i, t, event, p)
    ensures steps[j] == Snapshot(t) && NoteIdle(steps, t, i, j)
    ensures steps[m] == Push(t) && NoteIdle(steps, t, j, m) && |states[m].accepted| == q
    ensures IsBatchFor(states[j].list, event, p, states[n].accepted[q])
  {
    assert n > 0;
    assert RunStep(steps, states, n - 1);
    var s := states[n - 1];
    if q < |s.accepted| {
      t, i, j, m, event, p := AcceptedAreSnapshots(steps, states, n - 1, q);
      assert states[n].accepted[q] == s.accepted[q];
    } else {
      t, m := steps[n - 1].t, n - 1;
      i, j, event, p := SnappedOrigin(steps, states, m, t);
    }
  }

  function WithNote(s: State, t: Tid, note: Note): State { s.(notes := s.notes[t := note]) }

  lemma SnapshotOfNote(s: State, t: Tid, event: string, q: Json)
    requires t !in s.notes
    ensures var s1 := WithNote(s, t, Checked(event, q));
            Enabled(s1, Snapshot(t))
            && Apply(s1, Snapshot(t)) ==
               if !HasName(s.list, event) then s
               else WithNote(s, t, Snapped(Batch(SubscribersOf(s.list, event), q)))
  {
    SubscribersOfName(s.list, event);
    var notes := s.notes[t := Checked(event, q)];
    assert notes - {t} == s.notes;
    var snapped := Snapped(Batch(SubscribersOf(s.list, event), q));
    assert notes[t := snapped] == s.notes[t := snapped];
  }

  lemma PushOfNote(s: State, t: Tid, b: Batch)
    requires t !in s.notes
    ensures var s2 := WithNote(s, t, Snapped(b));
            Enabled(s2, Push(t))
            && Apply(s2, Push(t)) == s.(queue := s.queue + [b], accepted := s.accepted + [b])
  {
    assert s.notes[t := Snapped(b)] - {t} == s.notes;
  }

  /** Undisturbed, the three steps are Server::notify: an ignored notification and one without
      subscribers leave no trace, any other one queues its batch. */
  lemma NotifyInSteps(s: State, t: Tid, event: string, p: Json)
    requires t !in s.notes
    ensures var b := Batch(SubscribersOf(s.list, event), Unwrapped(p));
            var s1 := Apply(s, Begin(t, event, p));
            if s.stop then s1 == s
            else Enabled(s1, Snapshot(t))
                 && var s2 := Apply(s1, Snapshot(t));
                    if !HasName(s.list, event) then s2 == s
                    else Enabled(s2, Push(t)) && IsBatchFor(s.list, event, p, b)
                         && Apply(s2, Push(t)) == s.(queue := s.queue + [b], accepted := s.accepted + [b])
  {
    if !s.stop {
      assert Apply(s, Begin(t, event, p)) == WithNote(s, t, Checked(event, Unwrapped(p)));
      SnapshotOfNote(s, t, event, Unwrapped(p));
      PushOfNote(s, t, Batch(SubscribersOf(s.list, event), Unwrapped(p)));
      if HasName(s.list, event) { BatchOfSubscribers(s.list, event, p); }
    }
  }

  lemma BatchOfSubscribers(list: seq<Entry>, event: string, p: Json)
    requires HasName(list, event)
    ensures IsBatchFor(list, event, p, Batch(SubscribersOf(list, event), Unwrapped(p)))
  {
    SubscribersOfName(list, event);
    UnwrappedIsHandedOver(p);
    var ix := SubscribersInOrder(list, event);
  }

  // ----- which messages are events

  /** A legacy event frame: an unsigned id that is mapped to a name, and a result that is neither empty
      nor the ACK of a subscription. */
  predicate IsLegacyFrame(eventMap: map<MsgId, string>, m: Message) {
    m.id.Some? && m.id.value.Unsigned? && m.id.value.v % ID_SPACE in eventMap
    && eventMap[m.id.value.v % ID_SPACE] != ""
    && m.result.Some? && m.result.value != Null && m.result.value != Arr([]) && m.result.value != Obj(map[])
    && (m.result.value.Obj? ==> "listening" !in m.result.value.fields)
  }

  /** The event that a message carries: a method with params and no id, or a legacy frame. */
  function EventIn(legacy: bool, eventMap: map<MsgId, string>, m: Message): seq<(string, Json)> {
    if m.id.None? && m.methodName.Some? && m.methodName.value.Text? && m.params.Some?
    then [(m.methodName.value.s, m.params.value)]
    else if legacy && IsLegacyFrame(eventMap, m)
    then [(eventMap[m.id.value.v % ID_SPACE], m.result.value)]
    else []
  }

  /** Every Notification of section 4.1 of the JSON-RPC 2.0 Specification that has params is an event,
      and no Response object of section 5 is one outside legacy mode. */
  lemma EventsAndJsonRpc(legacy: bool, eventMap: map<MsgId, string>, m: Message)
    ensures IsNotification(m) && m.params.Some? ==>
              EventIn(legacy, eventMap, m) == [(m.methodName.value.s, m.params.value)]
    ensures IsResponseObject(m) && !legacy ==> EventIn(legacy, eventMap, m) == []
    ensures m.id.Some? && m.methodName.Some? && m.result.None? ==> EventIn(legacy, eventMap, m) == []
  {
  }

  /** The events among the messages received in the first n steps, in order. */
  function EventsReceived(steps: seq<R.Step>, states: seq<R.State>, n: nat): seq<(string, Json)>
    requires n <= |steps| <= |states|
  {
    if n == 0 then []
    else EventsReceived(steps, states, n - 1)
         + (if steps[n - 1].Receive?
            then EventIn(states[n - 1].legacy, states[n - 1].eventMap, steps[n - 1].msg) else [])
  }

  lemma EmptyJson(j: Json)
    ensures j.IsEmpty() <==> j == Null || j == Arr([]) || j == Obj(map[])
  {
  }

  lemma ReceivedEvent(s: R.State, t: R.Tid, m: Message)
    ensures R.Received(s, t, m).notified == s.notified + EventIn(s.legacy, s.eventMap, m)
  {
    if m.result.Some? { EmptyJson(m.result.value); }
    assert s.notified + [] == s.notified;
  }

  lemma OthersKeepNotified(s: R.State, step: R.Step, s': R.State)
    requires R.Next(s, step, s') && !step.Receive?
    ensures s'.notified == s.notified
  {
    match step
    case Take(t) => I.MatchedFrame(s, t, s.threads[t].msg);
    case Make(k) =>
    case Enqueue(k) =>
    case Check(k) =>
    case Send(k, e) =>
    case Erase(k) =>
    case SetOwn(k) =>
    case Fulfil(t, k) =>
    case _ =>
  }

  /** In every run the calls of notify are exactly the events among the received messages, in order. */
  lemma {:induction false} NotifiedExactly(steps: seq<R.Step>, states: seq<R.State>, n: nat)
    requires R.Run(steps, states) && n <= |steps|
    ensures states[n].notified == EventsReceived(steps, states, n)
  {
    if n > 0 {
      NotifiedExactly(steps, states, n - 1);
      assert R.RunStep(steps, states, n - 1);
      if steps[n - 1].Receive? {
        ReceivedEvent(states[n - 1], steps[n - 1].t, steps[n - 1].msg);
      } else {
        OthersKeepNotified(states[n - 1], steps[n - 1], states[n]);
      }
    }
  }

  // ----- from the wire to the callbacks

  /** The notify calls of a dispatcher run, in order. */
  function NotifyCalls(steps: seq<Step>): seq<(string, Json)> {
    if steps == [] then []
    else NotifyCalls(steps[..|steps| - 1])
         + (match steps[|steps| - 1]
            case Begin(t, event, params) => [(event, params)]
            case _ => [])
  }

  lemma {:induction false} CallIsListed(steps: seq<Step>, i: nat) returns (q: nat)
    requires i < |steps| && steps[i].Begin?
    ensures q < |NotifyCalls(steps)| && NotifyCalls(steps)[q] == (steps[i].event, steps[i].params)
  {
    var n := |steps| - 1;
    if i == n {
      q := |NotifyCalls(steps[..n])|;
    } else {
      q := CallIsListed(steps[..n], i);
    }
  }

  lemma {:induction false} EventWasReceived(steps: seq<R.Step>, states: seq<R.State>, n: nat, q: nat) returns (r: nat)
    requires n <= |steps| <= |states| && q < |EventsReceived(steps, states, n)|
    ensures r < n && steps[r].Receive?
    ensures EventIn(states[r].legacy, states[r].eventMap, steps[r].msg) == [EventsReceived(steps, states, n)[q]]
  {
    if q < |EventsReceived(steps, states, n - 1)| {
      r := EventWasReceived(steps, states, n - 1, q);
    } else {
      r := n - 1;
    }
  }

  /** A gateway whose dispatcher is called for the events that onMessage has found, in order: every batch
      that the worker gets goes back to one received message.  It has the subscribers of that message's
      event at the snapshot and its unwrapped params. */
  lemma BatchesComeFromMessages(
    rsteps: seq<R.Step>, rstates: seq<R.State>, steps: seq<Step>, states: seq<State>, q: nat)
    returns (r: nat, j: nat, event: string, p: Json)
    requires R.Run(rsteps, rstates) && Run(steps, states) && q < |states[|steps|].accepted|
    requires NotifyCalls(steps) <= rstates[|rsteps|].notified
    ensures r < |rsteps| && rsteps[r].Receive?
    ensures EventIn(rstates[r].legacy, rstates[r].eventMap, rsteps[r].msg) == [(event, p)]
    ensures j < |steps| && steps[j].Snapshot? && IsBatchFor(states[j].list, event, p, states[|steps|].accepted[q])
  {
    var t, i, m;
    t, i, j, m, event, p := AcceptedAreSnapshots(steps, states, |steps|, q);
    var c := CallIsListed(steps, i);
    NotifiedExactly(rsteps, rstates, |rsteps|);
    r := EventWasReceived(rsteps, rstates, |rsteps|, c);
  }
}
