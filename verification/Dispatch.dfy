/** Asynchronous delivery of notifications as a step-level state machine: Server::notify snapshots
    the subscribers and queues them, one worker calls them later, and meanwhile the helper may
    unsubscribe and release the SubscriptionData that a snapshot still names. */
module Dispatch {
  import opened Types
  import opened Routing
  import opened Subscriptions

  type Tid = nat
  /** Identity of one SubscriptionData object (never reused, unlike its address). */
  type ObjId = nat

  datatype Batch = Batch(callbacks: seq<Entry>, params: Json)

  /** A thread inside notify(): past the stop check, or past the snapshot. */
  datatype Note = Checked(event: string, params: Json) | Snapped(batch: Batch)

  /** The worker: not running, waiting, or at callback `i` of a batch.  `using` is the object whose
      shared_ptr the wrapped callback has locked, with the address it passes on. */
  datatype Worker =
    | Off
    | Waiting
    | Busy(batch: Batch, i: nat, using: Option<(ObjId, Addr)>)

  /** One dispatch of a registered callback; `called` tells whether user code was entered. */
  datatype Delivery = Delivery(entry: Entry, params: Json, called: bool)

  datatype State = State(
    list: seq<Entry>,
    data: map<ObjId, Addr>,
    nextObj: ObjId,
    stop: bool,
    joinable: bool,
    worker: Worker,
    notes: map<Tid, Note>,
    queue: seq<Batch>,
    accepted: seq<Batch>,
    trace: seq<Delivery>)

  datatype Step =
    | Register(e: Entry)
    | Unregister(event: string, usercb: Addr)
    | Release(obj: ObjId)
    | Begin(t: Tid, event: string, params: Json)
    | Snapshot(t: Tid)
    | Push(t: Tid)
    | Dequeue
    | Call
    | Return(threw: bool)
    | EndBatch
    | StartWorker
    | SetStop
    | Exit
    | JoinWorker

  function SubscribersOf(list: seq<Entry>, event: string): seq<Entry> {
    if list == [] then []
    else SubscribersOf(list[..|list| - 1], event)
         + (if list[|list| - 1].event == event then [list[|list| - 1]] else [])
  }

  predicate InUse(s: State, addr: Addr) {
    (exists o :: o in s.data && s.data[o] == addr)
    || (s.worker.Busy? && s.worker.using.Some? && s.worker.using.value.1 == addr)
  }

  predicate Init(s: State) {
    s.list == [] && s.data == map[] && s.nextObj == 0 && !s.stop && !s.joinable && s.worker == Off
    && s.notes == map[] && s.queue == [] && s.accepted == [] && s.trace == []
  }

  predicate Enabled(s: State, step: Step) {
    match step
    // a helper-made entry comes with newly allocated data
    case Register(e) =>
      Find(s.list, e.event, e.usercb) == |s.list|
      && (e.usercb.Heap? ==> e.lambda == s.nextObj && !InUse(s, e.usercb))
    case Unregister(event, usercb) => true
    case Release(obj) => obj in s.data
    case Begin(t, event, params) => t !in s.notes
    case Snapshot(t) => t in s.notes && s.notes[t].Checked?
    case Push(t) => t in s.notes && s.notes[t].Snapped?
    case Dequeue => s.worker.Waiting? && s.queue != []
    case Call => s.worker.Busy? && s.worker.using.None? && s.worker.i < |s.worker.batch.callbacks|
    case Return(threw) => s.worker.Busy? && s.worker.using.Some?
    case EndBatch => s.worker.Busy? && s.worker.using.None? && s.worker.i == |s.worker.batch.callbacks|
    case StartWorker => !s.joinable
    case SetStop => true
    case Exit => s.worker.Waiting? && s.queue == [] && s.stop
    case JoinWorker => s.joinable && s.worker.Off?
  }

  /** The wrapped callback runs user code only if its weak_ptr can still be locked. */
  predicate Calls(s: State, e: Entry) { e.usercb.Heap? ==> e.lambda in s.data }

  function Called(s: State): State
    requires Enabled(s, Call)
  {
    var e := s.worker.batch.callbacks[s.worker.i];
    s.(trace := s.trace + [Delivery(e, s.worker.batch.params, Calls(s, e))],
       worker := s.worker.(i := s.worker.i + 1,
                           using := if e.usercb.Heap? && e.lambda in s.data
                                    then Some((e.lambda, s.data[e.lambda])) else None))
  }

  function Snapped'(s: State, t: Tid): State
    requires Enabled(s, Snapshot(t))
  {
    var callbacks := SubscribersOf(s.list, s.notes[t].event);
    if callbacks == [] then s.(notes := s.notes - {t})
    else s.(notes := s.notes[t := Snapped(Batch(callbacks, s.notes[t].params))])
  }

  function Apply(s: State, step: Step): State
    requires Enabled(s, step)
  {
    match step
    case Register(e) =>
      if e.usercb.Heap?
      then s.(list := s.list + [e], data := s.data[e.lambda := e.usercb], nextObj := s.nextObj + 1)
      else s.(list := s.list + [e])
    case Unregister(event, usercb) => s.(list := ServerUnsubscribe(s.list, event, usercb).0)
    case Release(obj) => s.(data := s.data - {obj})
    case Begin(t, event, params) =>
      if s.stop then s else s.(notes := s.notes[t := Checked(event, Unwrapped(params))])
    case Snapshot(t) => Snapped'(s, t)
    case Push(t) =>
      s.(notes := s.notes - {t}, queue := s.queue + [s.notes[t].batch],
         accepted := s.accepted + [s.notes[t].batch])
    case Dequeue => s.(queue := s.queue[1..], worker := Busy(s.queue[0], 0, None))
    case Call => Called(s)
    case Return(threw) => s.(worker := s.worker.(using := None))
    case EndBatch => s.(worker := Waiting)
    case StartWorker => s.(stop := false, joinable := true, worker := Waiting)
    case SetStop => s.(stop := true)
    case Exit => s.(worker := Off)
    case JoinWorker => s.(joinable := false)
  }

  ghost predicate Run(steps: seq<Step>, states: seq<State>) {
    |states| == |steps| + 1 && Init(states[0])
    && forall i :: 0 <= i < |steps| ==> RunStep(steps, states, i)
  }

  ghost predicate RunStep(steps: seq<Step>, states: seq<State>, i: nat)
    requires i < |steps| && |states| == |steps| + 1
  {
    Enabled(states[i], steps[i]) && states[i + 1] == Apply(states[i], steps[i])
  }
}
