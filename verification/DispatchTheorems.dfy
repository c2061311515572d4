/** What every run of the dispatcher guarantees: ordered, complete fan-out and no call through
    released subscription data. */
module DispatchTheorems {
  import opened Types
  import opened Routing
  import opened Subscriptions
  import opened Dispatch

  // ----- ordered fan-out

  /** The (subscriber, params) pairs of a batch, in order. */
  function Pairs(b: Batch): seq<(Entry, Json)> {
    seq(|b.callbacks|, i requires 0 <= i < |b.callbacks| => (b.callbacks[i], b.params))
  }

  function Flatten(bs: seq<Batch>): seq<(Entry, Json)> {
    if bs == [] then [] else Flatten(bs[..|bs| - 1]) + Pairs(bs[|bs| - 1])
  }

  function Dispatched(trace: seq<Delivery>): seq<(Entry, Json)> {
    seq(|trace|, i requires 0 <= i < |trace| => (trace[i].entry, trace[i].params))
  }

  /** What the worker still has to call of its present batch. */
  function Rest(w: Worker): seq<(Entry, Json)> {
    if w.Busy? && w.i <= |w.batch.callbacks| then Pairs(w.batch)[w.i..] else []
  }

  /** Dispatched, being dispatched and queued together are the accepted notifications, in order. */
  ghost predicate Conserved(s: State) {
    (s.worker.Busy? ==> s.worker.i <= |s.worker.batch.callbacks|)
    && (!s.joinable ==> s.worker.Off?)
    && Dispatched(s.trace) + Rest(s.worker) + Flatten(s.queue) == Flatten(s.accepted)
  }

  lemma {:induction false} FlattenHead(bs: seq<Batch>)
    requires bs != []
    ensures Flatten(bs) == Pairs(bs[0]) + Flatten(bs[1..])
  {
    var n := |bs| - 1;
    if n > 0 {
      var front := bs[..n];
      FlattenHead(front);
      assert front[1..] == bs[1..][..n - 1];
      assert Flatten(bs[1..]) == Flatten(front[1..]) + Pairs(bs[n]);
    }
  }

  lemma FlattenAppend(bs: seq<Batch>, b: Batch)
    ensures Flatten(bs + [b]) == Flatten(bs) + Pairs(b)
  {
  }

  lemma PushConserves(s: State, t: Tid)
    requires Conserved(s) && Enabled(s, Push(t))
    ensures Conserved(Apply(s, Push(t)))
  {
    var b := s.notes[t].batch;
    FlattenAppend(s.queue, b);
    FlattenAppend(s.accepted, b);
    Assoc(Dispatched(s.trace) + Rest(s.worker), Flatten(s.queue), Pairs(b));
  }

  lemma DequeueConserves(s: State)
    requires Conserved(s) && Enabled(s, Dequeue)
    ensures Conserved(Apply(s, Dequeue))
  {
    FlattenHead(s.queue);
    var d, head, tail := Dispatched(s.trace), Pairs(s.queue[0]), Flatten(s.queue[1..]);
    assert head[0..] == head && d + [] == d;
    Assoc(d, head, tail);
  }

  lemma DispatchedAppend(trace: seq<Delivery>, d: Delivery)
    ensures Dispatched(trace + [d]) == Dispatched(trace) + [(d.entry, d.params)]
  {
  }

  lemma CallConserves(s: State)
    requires Conserved(s) && Enabled(s, Call)
    ensures Conserved(Called(s))
  {
    var w, s' := s.worker, Called(s);
    var pair := (w.batch.callbacks[w.i], w.batch.params);
    assert Rest(w) == [pair] + Rest(s'.worker);
    DispatchedAppend(s.trace, s'.trace[|s.trace|]);
    Assoc(Dispatched(s.trace), [pair], Rest(s'.worker));
  }

  lemma StepConserves(s: State, step: Step)
    requires Conserved(s) && Enabled(s, step)
    ensures Conserved(Apply(s, step))
  {
    if step.Push? {
      PushConserves(s, step.t);
    } else if step.Dequeue? {
      DequeueConserves(s);
    } else if step.Call? {
      CallConserves(s);
    }
  }

  lemma {:induction false} RunConserves(steps: seq<Step>, states: seq<State>, n: nat)
    requires Run(steps, states) && n <= |steps|
    ensures Conserved(states[n])
  {
    if n > 0 {
      RunConserves(steps, states, n - 1);
      assert RunStep(steps, states, n - 1);
      StepConserves(states[n - 1], steps[n - 1]);
    }
  }

  /** The dispatched pairs are always a prefix of the flattened accepted notifications, whether or
      not callbacks threw, and all of it whenever the worker exits. */
  lemma OrderedFanOut(steps: seq<Step>, states: seq<State>, n: nat)
    requires Run(steps, states) && n <= |steps|
    ensures Dispatched(states[n].trace) <= Flatten(states[n].accepted)
    ensures n < |steps| && steps[n].Exit? ==> Dispatched(states[n].trace) == Flatten(states[n].accepted)
  {
    RunConserves(steps, states, n);
    if n < |steps| { assert RunStep(steps, states, n); }
  }

  /** Positions, in increasing order, of the entries for an event. */
  ghost predicate SelectsAll(list: seq<Entry>, event: string, picked: seq<Entry>, ix: seq<nat>) {
    |ix| == |picked|
    && (forall i :: 0 <= i < |ix| ==> ix[i] < |list| && picked[i] == list[ix[i]])
    && (forall i, j :: 0 <= i < j < |ix| ==> ix[i] < ix[j])
    && (forall p :: 0 <= p < |list| ==> (list[p].event == event <==> p in ix))
  }

  /** One more entry at the end of the list. */
  lemma SelectsMore(list: seq<Entry>, event: string, picked: seq<Entry>, ix: seq<nat>, e: Entry)
    requires SelectsAll(list, event, picked, ix)
    ensures e.event == event ==> SelectsAll(list + [e], event, picked + [e], ix + [|list|])
    ensures e.event != event ==> SelectsAll(list + [e], event, picked, ix)
  {
  }

  lemma {:induction false} SubscribersInOrder(list: seq<Entry>, event: string) returns (ix: seq<nat>)
    ensures SelectsAll(list, event, SubscribersOf(list, event), ix)
  {
    if list == [] {
      ix := [];
    } else {
      var n := |list| - 1;
      var front := SubscribersInOrder(list[..n], event);
      SelectsMore(list[..n], event, SubscribersOf(list[..n], event), front, list[n]);
      assert list == list[..n] + [list[n]];
      ix := if list[n].event == event then front + [n] else front;
    }
  }

  // ----- no late delivery

  /** An entry made by the helper names its own object while that is alive. */
  predicate Faithful(s: State, e: Entry) {
    e.usercb.Heap? ==> e.lambda < s.nextObj && (e.lambda in s.data ==> s.data[e.lambda] == e.usercb)
  }

  ghost predicate BatchFaithful(s: State, b: Batch) {
    forall i :: 0 <= i < |b.callbacks| ==> Faithful(s, b.callbacks[i])
  }

  ghost predicate SafeInv(s: State) {
    (forall o :: o in s.data ==> o < s.nextObj && s.data[o].Heap?)
    && (forall o, p :: o in s.data && p in s.data && s.data[o] == s.data[p] ==> o == p)
    && (forall i :: 0 <= i < |s.list| ==> Faithful(s, s.list[i]))
    && (forall t :: t in s.notes && s.notes[t].Snapped? ==> BatchFaithful(s, s.notes[t].batch))
    && (forall i :: 0 <= i < |s.queue| ==> BatchFaithful(s, s.queue[i]))
    && (s.worker.Busy? ==> BatchFaithful(s, s.worker.batch))
    && UsingInv(s)
  }

  /** While user code runs on an object, its address belongs to no other object. */
  ghost predicate UsingInv(s: State) {
    s.worker.Busy? && s.worker.using.Some? ==>
      var (obj, addr) := s.worker.using.value;
      obj < s.nextObj && forall o :: o in s.data ==> (s.data[o] == addr <==> o == obj)
  }

  lemma {:induction false} SubscribersFrom(list: seq<Entry>, event: string)
    ensures forall e :: e in SubscribersOf(list, event) ==> e in list
  {
    if list != [] { SubscribersFrom(list[..|list| - 1], event); }
  }

  /** Faithfulness of entries survives new data and the release of data. */
  lemma DataKeepsSafe(s: State, s': State)
    requires SafeInv(s) && s'.list == s.list && s'.notes == s.notes && s'.queue == s.queue
    requires s'.worker == s.worker && s.nextObj <= s'.nextObj
    requires forall o :: o in s'.data && o < s.nextObj ==> o in s.data && s'.data[o] == s.data[o]
    requires forall o :: o in s'.data ==> o < s'.nextObj && s'.data[o].Heap?
    requires forall o, p :: o in s'.data && p in s'.data && s'.data[o] == s'.data[p] ==> o == p
    requires UsingInv(s')
    ensures SafeInv(s')
  {
    forall b: Batch | BatchFaithful(s, b)
      ensures BatchFaithful(s', b)
    {
      assert forall i :: 0 <= i < |b.callbacks| ==> Faithful(s, b.callbacks[i]);
    }
  }

  lemma RegisterKeepsSafe(s: State, e: Entry)
    requires SafeInv(s) && Enabled(s, Register(e))
    ensures SafeInv(Apply(s, Register(e)))
  {
    if e.usercb.Heap? {
      var s1 := s.(data := s.data[e.lambda := e.usercb], nextObj := s.nextObj + 1);
      DataKeepsSafe(s, s1);
      ListKeepsSafe(s1, Apply(s, Register(e)));
    } else {
      ListKeepsSafe(s, Apply(s, Register(e)));
    }
  }

  lemma ListKeepsSafe(s: State, s': State)
    requires SafeInv(s) && s'.data == s.data && s'.nextObj == s.nextObj && s'.worker == s.worker
    requires s'.notes == s.notes && s'.queue == s.queue
    requires forall i :: 0 <= i < |s'.list| ==> s'.list[i] in s.list || Faithful(s, s'.list[i])
    ensures SafeInv(s')
  {
  }

  /** Faithfulness depends on the live objects only. */
  lemma SameObjects(s: State, s': State)
    requires s'.data == s.data && s'.nextObj == s.nextObj
    ensures forall e: Entry :: Faithful(s', e) <==> Faithful(s, e)
    ensures forall b: Batch :: BatchFaithful(s', b) <==> BatchFaithful(s, b)
  {
  }

  lemma UnregisterKeepsSafe(s: State, event: string, usercb: Addr)
    requires SafeInv(s)
    ensures SafeInv(Apply(s, Unregister(event, usercb)))
  {
    var s' := Apply(s, Unregister(event, usercb));
    var i := Find(s.list, event, usercb);
    forall j | 0 <= j < |s'.list|
      ensures s'.list[j] in s.list
    {
      if i < |s.list| { assert s'.list[j] == s.list[if j < i then j else j + 1]; }
    }
    ListKeepsSafe(s, s');
  }

  lemma SnapshotKeepsSafe(s: State, t: Tid)
    requires SafeInv(s) && Enabled(s, Snapshot(t))
    ensures SafeInv(Snapped'(s, t))
  {
    SubscribersFrom(s.list, s.notes[t].event);
    SameObjects(s, Snapped'(s, t));
    var cs := SubscribersOf(s.list, s.notes[t].event);
    assert forall i :: 0 <= i < |cs| ==> cs[i] in s.list;
    assert BatchFaithful(s, Batch(cs, s.notes[t].params));
  }

  lemma WorkerKeepsSafe(s: State, step: Step)
    requires SafeInv(s) && Enabled(s, step)
    requires !step.Register? && !step.Unregister? && !step.Release? && !step.Snapshot?
    ensures SafeInv(Apply(s, step))
  {
    SameObjects(s, Apply(s, step));
  }

  lemma StepKeepsSafe(s: State, step: Step)
    requires SafeInv(s) && Enabled(s, step)
    ensures SafeInv(Apply(s, step))
  {
    match step
    case Register(e) => RegisterKeepsSafe(s, e);
    case Unregister(event, usercb) => UnregisterKeepsSafe(s, event, usercb);
    case Release(obj) => DataKeepsSafe(s, Apply(s, step));
    case Snapshot(t) => SnapshotKeepsSafe(s, t);
    case _ => WorkerKeepsSafe(s, step);
  }

  lemma {:induction false} RunSafe(steps: seq<Step>, states: seq<State>, n: nat)
    requires Run(steps, states) && n <= |steps|
    ensures SafeInv(states[n])
  {
    if n > 0 {
      RunSafe(steps, states, n - 1);
      assert RunStep(steps, states, n - 1);
      StepKeepsSafe(states[n - 1], steps[n - 1]);
    }
  }

  lemma {:induction false} ReleasedForGood(steps: seq<Step>, states: seq<State>, i: nat, j: nat, obj: ObjId)
    requires Run(steps, states) && i <= j <= |steps| && obj !in states[i].data && obj < states[i].nextObj
    ensures obj !in states[j].data && obj < states[j].nextObj
  {
    if i < j {
      ReleasedForGood(steps, states, i, j - 1, obj);
      assert RunStep(steps, states, j - 1);
    }
  }

  /** The entry whose turn it is. */
  function Current(s: State): Entry
    requires Enabled(s, Call)
  {
    s.worker.batch.callbacks[s.worker.i]
  }

  /** A dispatch that starts after the subscription's data was released never enters user code,
      although the snapshot still names it, and even if its address has been reused. */
  lemma NoLateDelivery(steps: seq<Step>, states: seq<State>, i: nat, j: nat, obj: ObjId)
    requires Run(steps, states) && i < j < |steps| && steps[i] == Release(obj) && steps[j] == Call
    requires Enabled(states[j], Call) && Current(states[j]).usercb.Heap? && Current(states[j]).lambda == obj
    ensures states[j + 1].trace
            == states[j].trace + [Delivery(Current(states[j]), states[j].worker.batch.params, false)]
    ensures states[j + 1].worker.Busy? && states[j + 1].worker.using == None
  {
    assert RunStep(steps, states, i) && RunStep(steps, states, j);
    RunSafe(steps, states, i);
    ReleasedForGood(steps, states, i + 1, j, obj);
  }

  /** Step i of the run released the object. */
  predicate ReleasedBefore(steps: seq<Step>, n: nat, obj: ObjId) {
    exists i :: 0 <= i < n <= |steps| && steps[i] == Release(obj)
  }

  lemma {:induction false} LiveUntilReleased(steps: seq<Step>, states: seq<State>, n: nat, obj: ObjId)
    requires Run(steps, states) && n <= |steps| && obj < states[n].nextObj
    ensures obj in states[n].data <==> !ReleasedBefore(steps, n, obj)
  {
    if n > 0 {
      var s, step := states[n - 1], steps[n - 1];
      assert RunStep(steps, states, n - 1);
      if obj < s.nextObj {
        LiveUntilReleased(steps, states, n - 1, obj);
        assert ReleasedBefore(steps, n, obj) <==> ReleasedBefore(steps, n - 1, obj) || step == Release(obj);
      } else {
        NotReleasedYet(steps, states, n, obj);
      }
    }
  }

  /** An object is released only after it was allocated. */
  lemma NotReleasedYet(steps: seq<Step>, states: seq<State>, n: nat, obj: ObjId)
    requires Run(steps, states) && 0 < n <= |steps| && obj >= states[n - 1].nextObj && obj < states[n].nextObj
    ensures obj in states[n].data && !ReleasedBefore(steps, n, obj)
  {
    assert RunStep(steps, states, n - 1);
    forall i | 0 <= i < n
      ensures steps[i] != Release(obj)
    {
      assert RunStep(steps, states, i);
      RunSafe(steps, states, i);
      ObjectsGrow(steps, states, i, n - 1);
    }
  }

  lemma {:induction false} ObjectsGrow(steps: seq<Step>, states: seq<State>, i: nat, j: nat)
    requires Run(steps, states) && i <= j <= |steps|
    ensures states[i].nextObj <= states[j].nextObj
  {
    if i < j {
      ObjectsGrow(steps, states, i, j - 1);
      assert RunStep(steps, states, j - 1);
    }
  }

  /** Every dispatch is recorded, and it enters user code exactly when the entry is not the helper's or
      its object has not been released; in the latter case it keeps that object, and only then. */
  lemma CalledExactly(steps: seq<Step>, states: seq<State>, j: nat)
    requires Run(steps, states) && j < |steps| && steps[j] == Call && Enabled(states[j], Call)
    ensures var e := Current(states[j]);
            states[j + 1].trace
            == states[j].trace + [Delivery(e, states[j].worker.batch.params,
                                           e.usercb.Foreign? || !ReleasedBefore(steps, j, e.lambda))]
    ensures var e := Current(states[j]);
            states[j + 1].worker.Busy?
            && states[j + 1].worker.using
               == if e.usercb.Heap? && !ReleasedBefore(steps, j, e.lambda) then Some((e.lambda, e.usercb)) else None
  {
    assert RunStep(steps, states, j);
    RunSafe(steps, states, j);
    var e := Current(states[j]);
    assert Faithful(states[j], e);
    if e.usercb.Heap? { LiveUntilReleased(steps, states, j, e.lambda); }
  }

  /** When user code is entered through the helper, the pointer it gets is the live object's own
      address, the one registered as usercb; and until it returns no other live object has it. */
  lemma CallsUseLiveData(steps: seq<Step>, states: seq<State>, n: nat)
    requires Run(steps, states) && n <= |steps|
    ensures n < |steps| && steps[n] == Call && Enabled(states[n], Call) && Current(states[n]).usercb.Heap?
              && Calls(states[n], Current(states[n])) ==>
              states[n + 1].worker.Busy?
              && states[n + 1].worker.using == Some((Current(states[n]).lambda, Current(states[n]).usercb))
    ensures states[n].worker.Busy? && states[n].worker.using.Some? ==>
              forall o :: o in states[n].data && o != states[n].worker.using.value.0 ==>
                states[n].data[o] != states[n].worker.using.value.1
  {
    RunSafe(steps, states, n);
    if n < |steps| { assert RunStep(steps, states, n); }
  }

  // ----- stopping

  lemma ExtendRun(steps: seq<Step>, states: seq<State>, step: Step) returns (steps': seq<Step>, states': seq<State>)
    requires Run(steps, states) && Enabled(states[|steps|], step)
    ensures Run(steps', states') && steps' == steps + [step]
    ensures states' == states + [Apply(states[|steps|], step)]
  {
    steps', states' := steps + [step], states + [Apply(states[|steps|], step)];
    forall i | 0 <= i < |steps'|
      ensures RunStep(steps', states', i)
    {
      if i < |steps| { assert RunStep(steps, states, i); }
    }
  }

  /** A subscriber, a running worker, and a notify that has passed its stop check. */
  lemma NotifyInFlight() returns (steps: seq<Step>, states: seq<State>)
    ensures Run(steps, states)
    ensures states[|steps|] == State([Entry("a", 0, Foreign(0))], map[], 0, false, true, Waiting,
                                     map[0 := Checked("a", Null)], [], [], [])
  {
    var e := Entry("a", 0, Foreign(0));
    steps, states := [], [State([], map[], 0, false, false, Off, map[], [], [], [])];
    steps, states := ExtendRun(steps, states, Register(e));
    steps, states := ExtendRun(steps, states, StartWorker);
    steps, states := ExtendRun(steps, states, Begin(0, "a", Null));
  }

  /** A notify that has passed its stop check can queue a batch after the worker has exited: it
      stays there until the next subscribe starts a worker. */
  lemma LeftoverAfterStop() returns (steps: seq<Step>, states: seq<State>)
    ensures Run(steps, states) && |steps| > 0 && steps[|steps| - 1].Push?
    ensures states[|steps|].stop && states[|steps|].worker.Off? && states[|steps|].queue != []
  {
    steps, states := NotifyInFlight();
    var e := Entry("a", 0, Foreign(0));
    assert SubscribersOf([e], "a") == [e] by { assert [e][..0] == []; }
    steps, states := ExtendRun(steps, states, SetStop);
    steps, states := ExtendRun(steps, states, Exit);
    steps, states := ExtendRun(steps, states, Snapshot(0));
    assert 0 in states[|steps|].notes && states[|steps|].notes[0].Snapped?;
    steps, states := ExtendRun(steps, states, Push(0));
  }

  /** Nothing was in flight: an exited worker's queue stays empty, and everything accepted stays
      dispatched, until a worker is started again. */
  lemma {:induction false} StoppedStaysDrained(steps: seq<Step>, states: seq<State>, i: nat, j: nat)
    requires Run(steps, states) && i <= j <= |steps|
    requires states[i].stop && states[i].worker.Off? && states[i].queue == [] && states[i].notes == map[]
    requires forall k :: i <= k < j ==> !steps[k].StartWorker?
    ensures states[j].stop && states[j].worker.Off? && states[j].queue == [] && states[j].notes == map[]
    ensures Dispatched(states[j].trace) == Flatten(states[j].accepted)
  {
    RunConserves(steps, states, j);
    if i < j {
      StoppedStaysDrained(steps, states, i, j - 1);
      assert RunStep(steps, states, j - 1);
    }
  }

  /** A notify in flight that has a batch to queue, or will have one. */
  predicate Loaded(s: State) {
    exists t :: t in s.notes && (s.notes[t].Checked? ==> HasName(s.list, s.notes[t].event))
  }

  predicate Drained(s: State) { s.stop && s.worker.Off? && s.queue == [] }

  /** The run goes on without a new subscribe. */
  ghost predicate NoSubscribeSince(steps: seq<Step>, states: seq<State>, more: seq<Step>, states': seq<State>) {
    Run(more, states') && steps <= more && states <= states'
    && forall j :: |steps| <= j < |more| ==> !more[j].Register? && !more[j].StartWorker?
  }

  ghost predicate StaysDrained(steps: seq<Step>, states: seq<State>) {
    forall more: seq<Step>, states': seq<State> | NoSubscribeSince(steps, states, more, states') ::
      states'[|more|].queue == []
  }

  lemma {:induction false} SubscribersOfName(list: seq<Entry>, event: string)
    ensures SubscribersOf(list, event) != [] <==> HasName(list, event)
  {
    if list != [] {
      var n := |list| - 1;
      SubscribersOfName(list[..n], event);
      if HasName(list, event) && list[n].event != event {
        var i :| 0 <= i < |list| && list[i].event == event;
        assert list[..n][i].event == event;
      }
    }
  }

  lemma UnregisterUnloads(list: seq<Entry>, event: string, usercb: Addr, name: string)
    requires HasName(ServerUnsubscribe(list, event, usercb).0, name)
    ensures HasName(list, name)
  {
    var i := Find(list, event, usercb);
    if i < |list| {
      var j :| 0 <= j < |Without(list, i)| && Without(list, i)[j].event == name;
      assert Without(list, i)[j] == list[if j < i then j else j + 1];
    }
  }

  lemma StepKeepsUnloaded(s: State, step: Step)
    requires Drained(s) && !Loaded(s) && Enabled(s, step) && !step.Register? && !step.StartWorker?
    ensures Drained(Apply(s, step)) && !Loaded(Apply(s, step))
  {
    if step.Snapshot? {
      SubscribersOfName(s.list, s.notes[step.t].event);
    } else if step.Unregister? {
      forall name | HasName(Apply(s, step).list, name)
        ensures HasName(s.list, name)
      {
        UnregisterUnloads(s.list, step.event, step.usercb, name);
      }
    }
  }

  lemma {:induction false} UnloadedStaysDrained(steps: seq<Step>, states: seq<State>, i: nat, j: nat)
    requires Run(steps, states) && i <= j <= |steps| && Drained(states[i]) && !Loaded(states[i])
    requires forall k :: i <= k < j ==> !steps[k].Register? && !steps[k].StartWorker?
    ensures Drained(states[j]) && !Loaded(states[j])
  {
    if i < j {
      UnloadedStaysDrained(steps, states, i, j - 1);
      assert RunStep(steps, states, j - 1);
      StepKeepsUnloaded(states[j - 1], steps[j - 1]);
    }
  }

  /** A loaded notify ends with its batch in the queue. */
  lemma LoadedNotifyQueues(steps: seq<Step>, states: seq<State>) returns (more: seq<Step>, states': seq<State>)
    requires Run(steps, states) && Loaded(states[|steps|])
    ensures NoSubscribeSince(steps, states, more, states') && states'[|more|].queue != []
  {
    var s := states[|steps|];
    var t :| t in s.notes && (s.notes[t].Checked? ==> HasName(s.list, s.notes[t].event));
    more, states' := steps, states;
    if s.notes[t].Checked? {
      SubscribersOfName(s.list, s.notes[t].event);
      more, states' := ExtendRun(more, states', Snapshot(t));
    }
    more, states' := ExtendRun(more, states', Push(t));
  }

  /** After the worker has exited with an empty queue, the queue is sure to stay empty until the next
      subscribe exactly when no notify in flight has, or will find, a subscriber. */
  lemma StaysDrainedExactlyWhen(steps: seq<Step>, states: seq<State>)
    requires Run(steps, states) && Drained(states[|steps|])
    ensures StaysDrained(steps, states) <==> !Loaded(states[|steps|])
  {
    if Loaded(states[|steps|]) {
      var more, states' := LoadedNotifyQueues(steps, states);
    } else {
      forall more: seq<Step>, states': seq<State> | NoSubscribeSince(steps, states, more, states')
        ensures states'[|more|].queue == []
      {
        assert states'[|steps|] == states[|steps|];
        UnloadedStaysDrained(more, states', |steps|, |more|);
      }
    }
  }

  predicate StartedBetween(steps: seq<Step>, i: nat, j: nat) {
    exists k :: i <= k < j <= |steps| && steps[k].StartWorker?
  }

  /** A closed connection stops the worker and only a subscribe starts it again, also on a new
      connection: until the next close a notification is ignored, whoever is registered, exactly when
      no subscribe has started the worker since. */
  lemma {:induction false} IgnoredUntilNextSubscribe(steps: seq<Step>, states: seq<State>, i: nat, j: nat)
    requires Run(steps, states) && i <= j <= |steps| && states[i].stop
    requires forall k :: i <= k < j ==> !steps[k].SetStop?
    ensures states[j].stop <==> !StartedBetween(steps, i, j)
    ensures j < |steps| && steps[j].Begin? ==> (states[j + 1] == states[j] <==> !StartedBetween(steps, i, j))
  {
    if i < j {
      IgnoredUntilNextSubscribe(steps, states, i, j - 1);
      assert RunStep(steps, states, j - 1);
      assert StartedBetween(steps, i, j) <==> StartedBetween(steps, i, j - 1) || steps[j - 1].StartWorker?;
    }
    if j < |steps| { assert RunStep(steps, states, j); }
  }

  /** Whatever is registered: after a close has stopped and joined the worker, a notification is
      ignored. */
  lemma SilentAfterStop(e: Entry, params: Json) returns (steps: seq<Step>, states: seq<State>)
    requires e.usercb.Heap? ==> e.lambda == 0
    ensures Run(steps, states) && |steps| > 0 && steps[|steps| - 1] == Begin(0, e.event, params)
    ensures e in states[|steps|].list && states[|steps|] == states[|steps| - 1]
  {
    steps, states := StoppedAndJoined(e);
    steps, states := ExtendRun(steps, states, Begin(0, e.event, params));
  }

  lemma StoppedAndJoined(e: Entry) returns (steps: seq<Step>, states: seq<State>)
    requires e.usercb.Heap? ==> e.lambda == 0
    ensures Run(steps, states)
    ensures var s := states[|steps|]; s.list == [e] && s.stop && !s.joinable && s.worker.Off? && s.notes == map[]
  {
    steps, states := OneSubscriber(e);
    steps, states := ExtendRun(steps, states, SetStop);
    steps, states := ExtendRun(steps, states, Exit);
    steps, states := ExtendRun(steps, states, JoinWorker);
  }

  /** One subscriber and a waiting worker. */
  lemma OneSubscriber(e: Entry) returns (steps: seq<Step>, states: seq<State>)
    requires e.usercb.Heap? ==> e.lambda == 0
    ensures Run(steps, states)
    ensures var s := states[|steps|];
            s.list == [e] && s.worker == Waiting && s.joinable && s.queue == [] && s.notes == map[]
  {
    steps, states := [], [State([], map[], 0, false, false, Off, map[], [], [], [])];
    steps, states := ExtendRun(steps, states, Register(e));
    steps, states := ExtendRun(steps, states, StartWorker);
  }

  /** The worker ran from StartWorker to the Exit at step x, and nothing has moved it since. */
  ghost predicate ExitedAt(steps: seq<Step>, states: seq<State>, n: nat, x: nat)
    requires |states| == |steps| + 1
  {
    x < n <= |steps| && steps[x] == Exit && states[x].stop && states[x].queue == []
    && forall u :: x < u < n ==> !steps[u].StartWorker? && !steps[u].Dequeue? && !steps[u].Call?
  }

  lemma {:induction false} OffAfterExit(steps: seq<Step>, states: seq<State>, n: nat) returns (x: nat)
    requires Run(steps, states) && n <= |steps| && states[n].joinable && states[n].worker.Off?
    ensures ExitedAt(steps, states, n, x)
  {
    assert n > 0;
    assert RunStep(steps, states, n - 1);
    if steps[n - 1].Exit? {
      x := n - 1;
    } else {
      x := OffAfterExit(steps, states, n - 1);
    }
  }

  /** stopNotificationWorker's join returns only after the worker has exited with nothing left: all that
      was accepted by then had been dispatched. */
  lemma JoinedAfterDrain(steps: seq<Step>, states: seq<State>, n: nat) returns (x: nat)
    requires Run(steps, states) && n < |steps| && steps[n] == JoinWorker
    ensures ExitedAt(steps, states, n, x) && Dispatched(states[x].trace) == Flatten(states[x].accepted)
  {
    assert RunStep(steps, states, n);
    x := OffAfterExit(steps, states, n);
    OrderedFanOut(steps, states, x);
  }

  predicate WorkerStep(step: Step) {
    step.Dequeue? || step.Call? || step.Return? || step.EndBatch? || step.Exit?
  }

  function BatchWork(b: Batch): nat { 2 * |b.callbacks| + 2 }

  function QueueWork(bs: seq<Batch>): nat {
    if bs == [] then 0 else BatchWork(bs[0]) + QueueWork(bs[1..])
  }

  /** An upper bound on the moves of the worker before it exits. */
  function WorkerWork(s: State): nat {
    QueueWork(s.queue)
    + (match s.worker
       case Off => 0
       case Waiting => 1
       case Busy(b, i, using) =>
         if i <= |b.callbacks| then 2 * (|b.callbacks| - i) + 2 + (if using.Some? then 1 else 0) else 0)
  }

  lemma WorkerMoveWork(s: State, step: Step, s': State)
    requires Conserved(s) && Enabled(s, step) && s' == Apply(s, step) && WorkerStep(step)
    ensures WorkerWork(s') < WorkerWork(s)
  {
  }

  lemma OtherMoveWork(s: State, step: Step, s': State)
    requires Enabled(s, step) && s' == Apply(s, step)
    requires !WorkerStep(step) && !step.Push? && !step.StartWorker?
    ensures WorkerWork(s') == WorkerWork(s)
  {
    assert s'.queue == s.queue && s'.worker == s.worker;
  }

  /** Once the stop flag is set the worker can always move until it has exited, whether callbacks throw
      or not, and each of its moves shortens what is left: only a notify in flight can add to it. */
  lemma StopTerminates(steps: seq<Step>, states: seq<State>, n: nat, step: Step)
    requires Run(steps, states) && n <= |steps| && states[n].stop
    ensures !states[n].worker.Off? ==> exists w :: WorkerStep(w) && Enabled(states[n], w)
    ensures Enabled(states[n], step) && WorkerStep(step) ==>
              WorkerWork(Apply(states[n], step)) < WorkerWork(states[n])
    ensures Enabled(states[n], step) && !WorkerStep(step) && !step.Push? && !step.StartWorker? ==>
              WorkerWork(Apply(states[n], step)) == WorkerWork(states[n])
  {
    RunConserves(steps, states, n);
    var s := states[n];
    if Enabled(s, step) {
      if WorkerStep(step) {
        WorkerMoveWork(s, step, Apply(s, step));
      } else if !step.Push? && !step.StartWorker? {
        OtherMoveWork(s, step, Apply(s, step));
      }
    }
    if !s.worker.Off? {
      var w := match s.worker
        case Busy(b, i, using) => if using.Some? then Return(false) else if i < |b.callbacks| then Call else EndBatch
        case _ => if s.queue == [] then Exit else Dequeue;
      assert WorkerStep(w) && Enabled(s, w);
    }
  }

  /** A subscribe after the close brings the notifications back. */
  lemma RevivedBySubscribe(e: Entry, params: Json) returns (steps: seq<Step>, states: seq<State>)
    requires e.usercb.Heap? ==> e.lambda == 0
    ensures Run(steps, states) && |steps| > 1 && steps[|steps| - 2] == StartWorker
    ensures steps[|steps| - 1] == Begin(0, e.event, params) && 0 in states[|steps|].notes
  {
    steps, states := StoppedAndJoined(e);
    steps, states := ExtendRun(steps, states, StartWorker);
    steps, states := ExtendRun(steps, states, Begin(0, e.event, params));
  }

  // ----- a call already running

  /** A subscription of the helper, and a notify for it past its stop check. */
  lemma HelperNotifyInFlight() returns (steps: seq<Step>, states: seq<State>)
    ensures Run(steps, states)
    ensures states[|steps|] == State([Entry("a", 0, Heap(0))], map[0 := Heap(0)], 1, false, true, Waiting,
                                     map[0 := Checked("a", Null)], [], [], [])
  {
    var e := Entry("a", 0, Heap(0));
    steps, states := [], [State([], map[], 0, false, false, Off, map[], [], [], [])];
    steps, states := ExtendRun(steps, states, Register(e));
    assert states[|steps|] == State([e], map[0 := Heap(0)], 1, false, false, Off, map[], [], [], []);
    steps, states := ExtendRun(steps, states, StartWorker);
    steps, states := ExtendRun(steps, states, Begin(0, "a", Null));
  }

  /** The snapshot of that notification. */
  lemma HelperSnapshot() returns (steps: seq<Step>, states: seq<State>)
    ensures Run(steps, states)
    ensures var e := Entry("a", 0, Heap(0));
            states[|steps|] == State([e], map[0 := Heap(0)], 1, false, true, Waiting,
                                     map[0 := Snapped(Batch([e], Null))], [], [], [])
  {
    steps, states := HelperNotifyInFlight();
    var e := Entry("a", 0, Heap(0));
    assert SubscribersOf([e], "a") == [e] by { assert [e][..0] == []; }
    steps, states := ExtendRun(steps, states, Snapshot(0));
  }

  /** The batch reaches the worker. */
  lemma HelperBatchAtWorker() returns (steps: seq<Step>, states: seq<State>)
    ensures Run(steps, states)
    ensures var e := Entry("a", 0, Heap(0));
            states[|steps|] == State([e], map[0 := Heap(0)], 1, false, true, Busy(Batch([e], Null), 0, None),
                                     map[], [], [Batch([e], Null)], [])
  {
    steps, states := HelperSnapshot();
    steps, states := ExtendRun(steps, states, Push(0));
    assert states[|steps|].notes == map[];
    steps, states := ExtendRun(steps, states, Dequeue);
  }

  /** A call that has started is not waited for: it can still be running when unsubscribe has
      released the data (the worker's own shared_ptr keeps the object). */
  lemma CallMayOutliveUnsubscribe() returns (steps: seq<Step>, states: seq<State>)
    ensures Run(steps, states)
    ensures var s := states[|steps|];
            s.worker.Busy? && s.worker.using == Some((0, Heap(0))) && 0 !in s.data && s.list == []
  {
    steps, states := HelperBatchAtWorker();
    steps, states := ExtendRun(steps, states, Call);
    steps, states := ExtendRun(steps, states, Unregister("a", Heap(0)));
    steps, states := ExtendRun(steps, states, Release(0));
  }

  /** User code of this object is running. */
  predicate Inside(s: State, obj: ObjId) {
    s.worker.Busy? && s.worker.using.Some? && s.worker.using.value.0 == obj
  }

  predicate ReturnedBetween(steps: seq<Step>, i: nat, j: nat) {
    exists k :: i < k < j <= |steps| && steps[k].Return?
  }

  lemma StepInside(s: State, step: Step, obj: ObjId)
    requires Enabled(s, step) && obj !in s.data && Conserved(s)
    ensures Inside(Apply(s, step), obj) <==> Inside(s, obj) && !step.Return?
  {
    if step.StartWorker? { assert s.worker.Off?; }
  }

  /** User code of a released subscription is running exactly when it was running at the release and
      has not returned since. */
  lemma {:induction false} OutlivesExactlyWhen(steps: seq<Step>, states: seq<State>, i: nat, j: nat, obj: ObjId)
    requires Run(steps, states) && i < j <= |steps| && steps[i] == Release(obj)
    ensures Inside(states[j], obj) <==> Inside(states[i], obj) && !ReturnedBetween(steps, i, j)
  {
    assert RunStep(steps, states, i) && RunStep(steps, states, j - 1);
    if i < j - 1 {
      OutlivesExactlyWhen(steps, states, i, j - 1, obj);
      RunSafe(steps, states, i);
      ReleasedForGood(steps, states, i + 1, j - 1, obj);
      RunConserves(steps, states, j - 1);
      StepInside(states[j - 1], steps[j - 1], obj);
      assert ReturnedBetween(steps, i, j) <==> ReturnedBetween(steps, i, j - 1) || steps[j - 1].Return?;
    }
  }

  /** A released subscription's entry does reach the worker, and is passed over. */
  lemma StaleEntryIsPassedOver() returns (steps: seq<Step>, states: seq<State>)
    ensures Run(steps, states) && |steps| > 0 && steps[|steps| - 1] == Call
    ensures states[|steps|].trace == [Delivery(Entry("a", 0, Heap(0)), Null, false)]
  {
    steps, states := HelperBatchAtWorker();
    steps, states := ExtendRun(steps, states, Unregister("a", Heap(0)));
    steps, states := ExtendRun(steps, states, Release(0));
    steps, states := ExtendRun(steps, states, Call);
  }
}
