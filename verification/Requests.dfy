/** The pending-request protocol as a step-level state machine.

    Every `lock_guard` block of Client, every atomic store or load of the connection status and
    every `set_value` is one step; any number of request() calls and of threads that run
    onMessage, checkPromises or cancelAll interleave freely.  The k-th issued message id belongs
    to the k-th call, so a call is named by its index. */
module Requests {
  import opened Types
  import opened Routing

  type Key = nat
  type Tid = nat

  /** Program counter of one request() call (or of the subscribe that issues its id). */
  datatype Pc =
    | Issued                    // id taken from the transport
    | Made                      // Caller object constructed, timestamp taken
    | Enqueued                  // caller stored in the queue
    | Passed                    // send() has seen the status Connected
    | Failing(error: ErrorCode) // send() failed
    | Owning(error: ErrorCode)  // erase(id) returned 1: this call must set its own promise
    | Returned

  /** One call.  `sets` lists the values given to promise.set_value, in order. */
  datatype Call = Call(id: MsgId, pc: Pc, madeAt: Time, queuedAt: Time, sets: seq<Outcome>)

  datatype Status = NotStarted | Connecting | Connected | Disconnected

  /** Local state of a thread: a message handed to Client::response, or the callers taken out of
      the queue whose promises are still to be set. */
  datatype Local = Routed(msg: Message) | Holding(keys: set<Key>, outcome: Outcome)

  /** Where the IO or the control thread is: in connect() between the dial and the block that starts
      the watchdog, in disconnect() past the join of the IO thread, about to run
      cleanupInternalState, or in it, setting the promises cancelAll took. */
  datatype Cleaner = Idle | Dialled | Joined | Due | Draining(t: Tid)

  datatype State = State(
    legacy: bool,
    waitMs: nat,
    now: Time,
    lastPass: Time,
    status: Status,
    ioAlive: bool,
    io: Cleaner,
    ctl: Cleaner,
    watchdog: bool,
    calls: seq<Call>,
    queue: map<MsgId, Key>,
    eventMap: map<MsgId, string>,
    threads: map<Tid, Local>,
    notified: seq<(string, Json)>)

  datatype Step =
    // request() and the id bookkeeping of subscribe()/unsubscribe()
    | Issue
    | MapEvent(k: Key, event: string)
    | MapErase(id: MsgId)
    | Make(k: Key)
    | Enqueue(k: Key)
    | Check(k: Key)
    | Send(k: Key, error: ErrorCode)
    | Erase(k: Key)
    | SetOwn(k: Key)
    // message worker, watchdog
    | Receive(t: Tid, msg: Message)
    | Take(t: Tid)
    | Expire(t: Tid)
    | Fulfil(t: Tid, k: Key)
    | Finish(t: Tid)
    // connection control and IO thread
    | Start
    | Dial
    | StartWatchdog
    | Open
    | Close
    | IoCancel(t: Tid)
    | Join
    | Reset
    | CtlCancel(t: Tid)
    // passage of time
    | Tick(d: nat)

  predicate Init(s: State) {
    s.now == s.lastPass && s.status == NotStarted && !s.ioAlive && s.io == Idle && s.ctl == Idle
    && !s.watchdog
    && s.calls == [] && s.queue == map[] && s.eventMap == map[] && s.threads == map[]
    && s.notified == []
  }

  /** Strict comparison of the age, truncated to milliseconds, with the wait time. */
  predicate Expired(now: Time, madeAt: Time, waitMs: nat) {
    now >= madeAt && (now - madeAt) / NS_PER_MS > waitMs
  }

  function ExpiredIds(s: State): set<MsgId> {
    set id | id in s.queue && s.queue[id] < |s.calls|
             && Expired(s.now, s.calls[s.queue[id]].madeAt, s.waitMs)
  }

  function KeysOf(q: map<MsgId, Key>, ids: set<MsgId>): set<Key> {
    set id | id in ids && id in q :: q[id]
  }

  predicate AtPc(s: State, k: Key, pc: Pc) { k < |s.calls| && s.calls[k].pc == pc }

  predicate Enabled(s: State, step: Step) {
    match step
    // fewer than 2^32 ids are issued
    case Issue => |s.calls| + 1 < ID_SPACE
    case MapEvent(k, event) => s.legacy && AtPc(s, k, Issued)
    case MapErase(id) => true
    case Make(k) => AtPc(s, k, Issued)
    case Enqueue(k) => AtPc(s, k, Made)
    case Check(k) => AtPc(s, k, Enqueued)
    case Send(k, error) => AtPc(s, k, Passed)
    case Erase(k) => k < |s.calls| && s.calls[k].pc.Failing?
    case SetOwn(k) => k < |s.calls| && s.calls[k].pc.Owning?
    case Receive(t, msg) => t !in s.threads
    case Take(t) => t in s.threads && s.threads[t].Routed?
    case Expire(t) => t !in s.threads && s.watchdog
    case Fulfil(t, k) =>
      t in s.threads && s.threads[t].Holding? && k in s.threads[t].keys && k < |s.calls|
    case Finish(t) => t in s.threads && s.threads[t].Holding? && s.threads[t].keys == {}
    case Start => s.ctl == Idle && s.status == NotStarted
    case Dial => s.ctl == Idle && s.status == Disconnected && s.ioAlive
    // cleanup_mtx is free: no cleanupInternalState is under way
    case StartWatchdog => s.ctl == Dialled && !s.io.Draining?
    case Open => s.ioAlive && s.io == Idle && s.status == Connecting
    case Close => s.ioAlive && s.io == Idle
    case IoCancel(t) => s.io == Due && t !in s.threads
    case Join => s.ctl == Idle && s.io == Idle
    case Reset => s.ctl == Joined
    case CtlCancel(t) => s.ctl == Due && t !in s.threads
    case Tick(d) => true
  }

  function WithPc(s: State, k: Key, pc: Pc): State
    requires k < |s.calls|
  {
    s.(calls := s.calls[k := s.calls[k].(pc := pc)])
  }

  function WithSet(s: State, k: Key, o: Outcome): State
    requires k < |s.calls|
  {
    s.(calls := s.calls[k := s.calls[k].(sets := s.calls[k].sets + [o])])
  }

  /** Thread t takes the callers with the given ids out of the queue, under the lock. */
  function Taken(s: State, t: Tid, ids: set<MsgId>, o: Outcome): State {
    s.(queue := s.queue - ids, threads := s.threads[t := Holding(KeysOf(s.queue, ids), o)])
  }

  /** onMessage: classification of one message on thread t. */
  function Received(s: State, t: Tid, msg: Message): State {
    match RouteOf(s.legacy, s.eventMap, msg)
    case ToClient(id) => s.(threads := s.threads[t := Routed(msg)])
    case ToEvent(name, params) => s.(notified := s.notified + [(name, params)])
    case Dropped => s
  }

  /** The locked block of Client::response. */
  function Matched(s: State, t: Tid, msg: Message): State {
    var id := if msg.id.Some? then ResponseId(msg.id.value) else None;
    if id.Some? && id.value in s.queue
    then Taken(s, t, {id.value}, ReplyOutcome(msg))
    else s.(threads := s.threads - {t})
  }

  /** A cleaner whose cancelAll ran on thread t is done when t has set all its promises. */
  function Settled(c: Cleaner, t: Tid): Cleaner { if c == Draining(t) then Idle else c }

  function Apply(s: State, step: Step): State
    requires Enabled(s, step)
  {
    match step
    case Issue => s.(calls := s.calls + [Call(NextId(|s.calls|), Issued, s.now, s.now, [])])
    case MapEvent(k, event) => s.(eventMap := s.eventMap[s.calls[k].id := event])
    case MapErase(id) => s.(eventMap := s.eventMap - {id})
    case Make(k) => s.(calls := s.calls[k := s.calls[k].(pc := Made, madeAt := s.now)])
    case Enqueue(k) =>
      s.(calls := s.calls[k := s.calls[k].(pc := Enqueued, queuedAt := s.now)],
         queue := s.queue[s.calls[k].id := k])
    case Check(k) => WithPc(s, k, if s.status == Connected then Passed else Failing(ERR_NOT_CONNECTED))
    case Send(k, error) => WithPc(s, k, if error == ERR_NONE then Returned else Failing(error))
    case Erase(k) =>
      if s.calls[k].id in s.queue
      then WithPc(s, k, Owning(s.calls[k].pc.error)).(queue := s.queue - {s.calls[k].id})
      else WithPc(s, k, Returned)
    case SetOwn(k) => WithPc(WithSet(s, k, Failure(s.calls[k].pc.error)), k, Returned)
    case Receive(t, msg) => Received(s, t, msg)
    case Take(t) => Matched(s, t, s.threads[t].msg)
    case Expire(t) => Taken(s, t, ExpiredIds(s), Failure(ERR_TIMEDOUT)).(lastPass := s.now)
    case Fulfil(t, k) =>
      WithSet(s, k, s.threads[t].outcome)
      .(threads := s.threads[t := s.threads[t].(keys := s.threads[t].keys - {k})])
    case Finish(t) =>
      s.(threads := s.threads - {t}, io := Settled(s.io, t), ctl := Settled(s.ctl, t))
    case Start => s.(status := Disconnected, ioAlive := true)
    case Dial => s.(status := Connecting, ctl := Dialled)
    case StartWatchdog => s.(watchdog := true, ctl := Idle)
    case Open => s.(status := Connected)
    case Close => s.(status := Disconnected, io := Due)
    case IoCancel(t) => Taken(s, t, s.queue.Keys, Failure(ERR_NOT_CONNECTED)).(io := Draining(t), watchdog := false)
    case Join => s.(ioAlive := false, ctl := if s.status == NotStarted then Due else Joined)
    case Reset => s.(status := NotStarted, ctl := Due)
    case CtlCancel(t) => Taken(s, t, s.queue.Keys, Failure(ERR_NOT_CONNECTED)).(ctl := Draining(t), watchdog := false)
    case Tick(d) => s.(now := s.now + d)
  }

  predicate Next(s: State, step: Step, s': State) { Enabled(s, step) && s' == Apply(s, step) }

  /** A run: a finite sequence of steps with the states between them. */
  ghost predicate Run(steps: seq<Step>, states: seq<State>) {
    |states| == |steps| + 1 && Init(states[0])
    && forall i :: 0 <= i < |steps| ==> RunStep(steps, states, i)
  }

  ghost predicate RunStep(steps: seq<Step>, states: seq<State>, i: nat)
    requires i < |steps| && |states| == |steps| + 1
  {
    Next(states[i], steps[i], states[i + 1])
  }
}
