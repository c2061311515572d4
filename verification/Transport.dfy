/** Transport lifecycle as a step-level state machine: the control thread in connect/disconnect,
    the IO thread that receives frames, and the message worker. */
module Transport {
  import opened Types

  type Payload = string

  datatype Status = NotStarted | Connecting | Connected | Disconnected

  /** Where the control thread is in start() or disconnect(). */
  datatype Control = Idle | IoStarted | WorkerStarted | Closing | IoJoined | Stopping | WorkerJoined

  /** The IO thread, possibly past the stop check of onMessage. */
  datatype Io = Free | Accepting(payload: Payload)

  datatype Worker = Off | Waiting | Handing(payload: Payload)

  datatype State = State(
    status: Status,
    control: Control,
    ioRunning: bool,
    live: bool,              // a connection is open and may deliver frames
    io: Io,
    stop: bool,
    joinable: bool,
    worker: Worker,
    queue: seq<Payload>,
    arrived: seq<Payload>,   // text payloads received, in order
    handed: seq<Payload>,    // payloads given to the parse and dispatch step, in order
    dropped: nat)            // payloads lost to the "stopping" branch

  datatype Step =
    | StartIo
    | StartWorker
    | StartDone
    | Dial
    | Open
    | Close
    | Frame(payload: Payload, text: bool)
    | Enqueue
    | Dequeue
    | Hand
    | Exit
    | BeginDisconnect
    | JoinIo
    | SetStop
    | JoinWorker
    | Reset

  predicate Init(s: State) {
    s == State(NotStarted, Idle, false, false, Free, false, false, Off, [], [], [], 0)
  }

  predicate Enabled(s: State, step: Step) {
    match step
    case StartIo => s.control == Idle && s.status == NotStarted
    case StartWorker => s.control == IoStarted
    case StartDone => s.control == WorkerStarted
    case Dial => s.control == Idle && s.status == Disconnected
    case Open => s.ioRunning && s.io == Free && s.status == Connecting
    case Close => s.ioRunning && s.io == Free && (s.status == Connecting || s.status == Connected)
    case Frame(payload, text) => s.ioRunning && s.io == Free && s.live
    case Enqueue => s.io.Accepting?
    case Dequeue => s.worker == Waiting && s.queue != []
    case Hand => s.worker.Handing?
    case Exit => s.worker == Waiting && s.queue == [] && s.stop
    case BeginDisconnect => s.control == Idle && s.status != NotStarted
    // the join returns when the IO thread is out of its handlers and its connection is gone
    case JoinIo => s.control == Closing && s.io == Free
    case SetStop => s.control == IoJoined
    case JoinWorker => s.control == Stopping && (s.joinable ==> s.worker == Off)
    case Reset => s.control == WorkerJoined
  }

  function Apply(s: State, step: Step): State
    requires Enabled(s, step)
  {
    match step
    case StartIo => s.(ioRunning := true, control := IoStarted)
    case StartWorker =>
      if s.joinable then s.(control := WorkerStarted)
      else s.(control := WorkerStarted, stop := false, joinable := true, worker := Waiting)
    case StartDone => s.(control := Idle, status := Disconnected)
    case Dial => s.(status := Connecting)
    case Open => s.(status := Connected, live := true)
    case Close => s.(status := Disconnected, live := false)
    case Frame(payload, text) =>
      if !text then s
      else if s.stop then s.(arrived := s.arrived + [payload], dropped := s.dropped + 1)
      else s.(arrived := s.arrived + [payload], io := Accepting(payload))
    case Enqueue => s.(queue := s.queue + [s.io.payload], io := Free)
    case Dequeue => s.(queue := s.queue[1..], worker := Handing(s.queue[0]))
    case Hand => s.(handed := s.handed + [s.worker.payload], worker := Waiting)
    case Exit => s.(worker := Off)
    case BeginDisconnect => s.(control := Closing)
    case JoinIo => s.(control := IoJoined, ioRunning := false, live := false)
    case SetStop => s.(control := Stopping, stop := true)
    case JoinWorker => s.(control := WorkerJoined, joinable := false)
    case Reset => s.(control := Idle, status := NotStarted)
  }

  ghost predicate Run(steps: seq<Step>, states: seq<State>) {
    |states| == |steps| + 1 && Init(states[0])
    && forall i :: 0 <= i < |steps| ==> RunStep(steps, states, i)
  }

  ghost predicate RunStep(steps: seq<Step>, states: seq<State>, i: nat)
    requires i < |steps| && |states| == |steps| + 1
  {
    Enabled(states[i], steps[i]) && states[i + 1] == Apply(states[i], steps[i])
  }

  /** These steps, one after the other, lead from s to s'. */
  predicate Path(s: State, steps: seq<Step>, s': State)
    decreases |steps|
  {
    if steps == [] then s' == s
    else Enabled(s, steps[0]) && Path(Apply(s, steps[0]), steps[1..], s')
  }

  lemma {:induction false} PathMore(s: State, steps: seq<Step>, s': State, step: Step)
    requires Path(s, steps, s') && Enabled(s', step)
    ensures Path(s, steps + [step], Apply(s', step))
    decreases |steps|
  {
    if steps == [] {
      assert [step][1..] == [];
    } else {
      PathMore(Apply(s, steps[0]), steps[1..], s', step);
      assert (steps + [step])[1..] == steps[1..] + [step];
    }
  }

  // ----- invariant

  function InWorker(s: State): seq<Payload> { if s.worker.Handing? then [s.worker.payload] else [] }
  function InIo(s: State): seq<Payload> { if s.io.Accepting? then [s.io.payload] else [] }

  function InFlight(s: State): seq<Payload> { InWorker(s) + s.queue + InIo(s) }

  /** Every text payload is, in arrival order, handed over, with the worker, queued, or with the IO
      thread; none is dropped. */
  predicate Conserved(s: State) {
    s.dropped == 0 && s.handed + InFlight(s) == s.arrived
  }

  predicate Started(s: State) { s.ioRunning && s.joinable && s.worker != Off && !s.stop }

  predicate Empty(s: State) { s.worker == Off && s.queue == [] && s.io == Free && !s.live && !s.joinable }

  /** What holds at each point of start() and disconnect(). */
  predicate PhaseInv(s: State) {
    match s.control
    case Idle => if s.status == NotStarted then Empty(s) && !s.ioRunning else Started(s)
    case IoStarted => s.status == NotStarted && Empty(s) && s.ioRunning
    case WorkerStarted => s.status == NotStarted && Started(s) && !s.live && s.io == Free
    case Closing => s.status != NotStarted && Started(s)
    case IoJoined => s.status != NotStarted && !s.ioRunning && s.io == Free && !s.live
                     && s.joinable && s.worker != Off && !s.stop
    case Stopping => s.status != NotStarted && !s.ioRunning && s.io == Free && !s.live
                     && s.joinable && s.stop && (s.worker == Off ==> s.queue == [])
    case WorkerJoined => !s.ioRunning && Empty(s)
  }

  predicate Inv(s: State) { Conserved(s) && PhaseInv(s) }

  lemma StepKeepsPhase(s: State, step: Step)
    requires PhaseInv(s) && Enabled(s, step)
    ensures PhaseInv(Apply(s, step))
  {
  }

  /** Steps that move a payload on within the transport, or none at all. */
  lemma InFlightSame(s: State, step: Step)
    requires PhaseInv(s) && Enabled(s, step) && !step.Hand? && !step.Frame?
    ensures InFlight(Apply(s, step)) == InFlight(s)
  {
    if step.Dequeue? {
      assert s.queue == [s.queue[0]] + s.queue[1..];
    } else if step.Enqueue? {
      assert s.queue + InIo(s) == s.queue + [s.io.payload];
    } else {
      assert InWorker(Apply(s, step)) == InWorker(s) && InIo(Apply(s, step)) == InIo(s);
    }
  }

  lemma InFlightHanded(s: State)
    requires Enabled(s, Hand)
    ensures InFlight(s) == [s.worker.payload] + InFlight(Apply(s, Hand))
  {
  }

  lemma InFlightArrived(s: State, payload: Payload)
    requires Enabled(s, Frame(payload, true)) && !s.stop
    ensures InFlight(Apply(s, Frame(payload, true))) == InFlight(s) + [payload]
  {
  }

  lemma StepConserves(s: State, step: Step)
    requires Inv(s) && Enabled(s, step)
    ensures Conserved(Apply(s, step))
  {
    var s' := Apply(s, step);
    if step.Hand? {
      InFlightHanded(s);
      Assoc(s.handed, [s.worker.payload], InFlight(s'));
    } else if step.Frame? && step.text {
      InFlightArrived(s, step.payload);
      Assoc(s.handed, InFlight(s), [step.payload]);
    } else if !step.Frame? {
      InFlightSame(s, step);
    }
  }

  lemma StepKeeps(s: State, step: Step)
    requires Inv(s) && Enabled(s, step)
    ensures Inv(Apply(s, step))
  {
    StepKeepsPhase(s, step);
    StepConserves(s, step);
  }

  lemma {:induction false} RunInv(steps: seq<Step>, states: seq<State>, n: nat)
    requires Run(steps, states) && n <= |steps|
    ensures Inv(states[n])
  {
    if n > 0 {
      RunInv(steps, states, n - 1);
      assert RunStep(steps, states, n - 1);
      StepKeeps(states[n - 1], steps[n - 1]);
    }
  }

  // ----- theorems

  /** In every run: no payload is dropped, payloads are handed over in arrival order, each once, and
      when disconnect has returned all of them have been. */
  lemma CompleteDrain(steps: seq<Step>, states: seq<State>, n: nat)
    requires Run(steps, states) && n <= |steps|
    ensures states[n].dropped == 0
    ensures states[n].handed <= states[n].arrived
    ensures states[n].control == Idle && states[n].status == NotStarted ==>
              states[n].queue == [] && states[n].handed == states[n].arrived
  {
    RunInv(steps, states, n);
  }

  /** Frames can arrive exactly while the connection is open, until disconnect has joined the IO thread. */
  lemma {:induction false} LiveExactlyWhenConnected(steps: seq<Step>, states: seq<State>, n: nat)
    requires Run(steps, states) && n <= |steps|
    ensures states[n].live <==> states[n].status == Connected && states[n].ioRunning
  {
    if n > 0 {
      LiveExactlyWhenConnected(steps, states, n - 1);
      RunInv(steps, states, n - 1);
      assert RunStep(steps, states, n - 1);
    }
  }

  lemma ExtendRun(steps: seq<Step>, states: seq<State>, step: Step) returns (steps': seq<Step>, states': seq<State>)
    requires Run(steps, states) && Enabled(states[|steps|], step)
    ensures Run(steps', states') && steps' == steps + [step]
    ensures states' == states + [Apply(states[|steps|], step)]
  {
    steps', states' := steps + [step], states + [Apply(states[|steps|], step)];
    forall i | 0 <= i < |steps'|
      ensures RunStep(steps', states', i)
    {
      if i < |steps| { assert RunStep(steps, states, i); }
    }
  }

  /** Start, dial and open. */
  lemma Opened(steps: seq<Step>, states: seq<State>) returns (steps': seq<Step>, states': seq<State>)
    requires Run(steps, states) && states[|steps|].control == Idle && states[|steps|].status == NotStarted
    ensures Run(steps', states') && steps <= steps' && states <= states'
    ensures var s, s' := states[|steps|], states'[|steps'|];
            s' == State(Connected, Idle, true, true, Free, false, true, Waiting, [], s.arrived, s.handed, s.dropped)
  {
    RunInv(steps, states, |steps|);
    steps', states' := ExtendRun(steps, states, StartIo);
    steps', states' := ExtendRun(steps', states', StartWorker);
    steps', states' := ExtendRun(steps', states', StartDone);
    steps', states' := ExtendRun(steps', states', Dial);
    steps', states' := ExtendRun(steps', states', Open);
  }

  /** Close by disconnect, with everything handed over. */
  lemma Closed(steps: seq<Step>, states: seq<State>) returns (steps': seq<Step>, states': seq<State>)
    requires Run(steps, states) && states[|steps|].control == Idle && states[|steps|].status == Connected
    requires states[|steps|].queue == [] && states[|steps|].worker == Waiting && states[|steps|].io == Free
    ensures Run(steps', states') && steps <= steps' && states <= states'
    ensures var s' := states'[|steps'|];
            s'.control == Idle && s'.status == NotStarted && s'.arrived == states[|steps|].arrived
  {
    RunInv(steps, states, |steps|);
    steps', states' := ExtendRun(steps, states, BeginDisconnect);
    steps', states' := ExtendRun(steps', states', JoinIo);
    steps', states' := ExtendRun(steps', states', SetStop);
    steps', states' := ExtendRun(steps', states', Exit);
    steps', states' := ExtendRun(steps', states', JoinWorker);
    steps', states' := ExtendRun(steps', states', Reset);
  }

  /** From every stopped state a connection can be opened, a payload received and handed over, and the
      transport stopped again. */
  lemma OnePayload(steps: seq<Step>, states: seq<State>, payload: Payload)
    returns (steps': seq<Step>, states': seq<State>)
    requires Run(steps, states) && states[|steps|].control == Idle && states[|steps|].status == NotStarted
    ensures Run(steps', states') && steps <= steps' && states <= states'
    ensures var s' := states'[|steps'|];
            s'.control == Idle && s'.status == NotStarted && s'.handed == states[|steps|].handed + [payload]
  {
    CompleteDrain(steps, states, |steps|);
    steps', states' := Opened(steps, states);
    steps', states' := ExtendRun(steps', states', Frame(payload, true));
    steps', states' := ExtendRun(steps', states', Enqueue);
    steps', states' := ExtendRun(steps', states', Dequeue);
    steps', states' := ExtendRun(steps', states', Hand);
    steps', states' := Closed(steps', states');
    CompleteDrain(steps', states', |steps'|);
  }

  /** Between calls the message worker's handle is joinable exactly when the transport is started,
      so start() never meets a joinable handle. */
  lemma WorkerHandleConsistent(steps: seq<Step>, states: seq<State>, n: nat)
    requires Run(steps, states) && n <= |steps|
    ensures states[n].control == Idle ==> (states[n].joinable <==> states[n].status != NotStarted)
    ensures n < |steps| && steps[n] == StartWorker ==> !states[n].joinable
  {
    RunInv(steps, states, n);
    if n < |steps| { assert RunStep(steps, states, n); }
  }

  predicate WorkerStep(step: Step) { step.Dequeue? || step.Hand? || step.Exit? }

  function WorkLeft(s: State): nat {
    2 * |s.queue| + (match s.worker case Off => 0 case Waiting => 1 case Handing(p) => 2)
  }

  /** Once the stop flag is set the worker can always move until it has exited, each of its moves
      shortens what is left, and no other thread adds to it: the join returns. */
  lemma StopTerminates(s: State, step: Step)
    requires Inv(s) && s.control == Stopping
    ensures s.worker != Off ==> exists w :: WorkerStep(w) && Enabled(s, w)
    ensures Enabled(s, step) && WorkerStep(step) ==> WorkLeft(Apply(s, step)) < WorkLeft(s)
    ensures Enabled(s, step) && !WorkerStep(step) ==> WorkLeft(Apply(s, step)) == WorkLeft(s)
    ensures WorkLeft(s) == 0 <==> Enabled(s, JoinWorker)
  {
    if s.worker != Off {
      var w := if s.worker.Handing? then Hand else if s.queue == [] then Exit else Dequeue;
      assert WorkerStep(w) && Enabled(s, w);
    }
  }
}
