/** When a watchdog runs: connect() starts it after the dial and a close stops it again, so a new
    connection has one exactly when the close of the old one had stopped it first. */
module WatchdogTheorems {
  import opened Types
  import opened Requests
  import opened RequestInvariants
  import opened RequestTheorems
  import RequestDrain

  /** A dial is under way or has succeeded, and the connect() that made it has returned. */
  predicate Linked(s: State) { (s.status == Connecting || s.status == Connected) && s.ctl != Dialled }

  /** An open connection whose connect() has returned. */
  predicate Up(s: State) { s.status == Connected && s.ctl != Dialled }

  /** Steps of connect, disconnect and the connection handlers. */
  predicate OfLink(step: Step) {
    step.Start? || step.Dial? || step.StartWatchdog? || step.Open? || step.Close? || step.IoCancel?
    || step.Join? || step.Reset? || step.CtlCancel? || step.Finish?
  }

  predicate SameLink(s: State, s': State) {
    s'.status == s.status && s'.ioAlive == s.ioAlive && s'.io == s.io && s'.ctl == s.ctl
    && s'.watchdog == s.watchdog
  }

  lemma OthersKeepLink(s: State, step: Step, s': State)
    requires Next(s, step, s') && !OfLink(step)
    ensures SameLink(s, s')
  {
    match step
    case Receive(t, msg) => ReceivedFrame(s, t, msg);
    case Take(t) => MatchedFrame(s, t, s.threads[t].msg);
    case Expire(t) =>
    case Fulfil(t, k) =>
    case Make(k) =>
    case Enqueue(k) =>
    case Check(k) =>
    case Send(k, e) =>
    case Erase(k) =>
    case SetOwn(k) =>
    case _ =>
  }

  /** Where the two cleaning threads can be. */
  predicate LinkInv(s: State) {
    RequestDrain.CleanerInv(s)
    && (s.status == Connected ==> s.io == Idle)
    && (s.ctl == Joined || s.ctl == Due || s.ctl.Draining? ==> !s.ioAlive)
    && (s.ctl == Due || s.ctl.Draining? ==> s.status == NotStarted)
  }

  lemma StepKeepsLink(s: State, step: Step, s': State)
    requires LinkInv(s) && Next(s, step, s') && RequestDrain.CleanerInv(s')
    ensures LinkInv(s')
  {
    if !OfLink(step) { OthersKeepLink(s, step, s'); }
  }

  lemma {:induction false} RunLink(steps: seq<Step>, states: seq<State>, n: nat)
    requires Run(steps, states) && n <= |steps|
    ensures LinkInv(states[n])
  {
    RequestDrain.RunCleaners(steps, states, n);
    if n > 0 {
      RunLink(steps, states, n - 1);
      assert RunStep(steps, states, n - 1);
      StepKeepsLink(states[n - 1], steps[n - 1], states[n]);
    }
  }

  /** After the block that starts the watchdog ran, with the last close's cleanup done or not. */
  predicate Since(settled: bool, s: State) {
    Linked(s) ==>
      if settled then s.watchdog && s.io == Idle
      else !s.watchdog || (s.io == Due && s.status == Connecting)
  }

  lemma LinkedBefore(s: State, step: Step, s': State)
    requires Next(s, step, s') && Linked(s') && !step.StartWatchdog?
    ensures Linked(s)
  {
    if !OfLink(step) { OthersKeepLink(s, step, s'); }
  }

  lemma StepKeepsSince(settled: bool, s: State, step: Step, s': State)
    requires LinkInv(s) && Linked(s) && Since(settled, s) && Next(s, step, s') && !step.StartWatchdog?
    ensures Since(settled, s')
  {
    if !OfLink(step) { OthersKeepLink(s, step, s'); }
  }

  /** Step i is the last one before n that ran the block. */
  predicate LastStart(steps: seq<Step>, n: nat, i: int) {
    0 <= i < n <= |steps| && steps[i].StartWatchdog? && forall j :: i < j < n ==> !steps[j].StartWatchdog?
  }

  lemma StartedSince(s: State, s': State)
    requires LinkInv(s) && Next(s, StartWatchdog, s')
    ensures Since(s.io != Due, s')
  {
  }

  lemma {:induction false} SinceLastStart(steps: seq<Step>, states: seq<State>, n: nat) returns (i: nat)
    requires Run(steps, states) && n <= |steps| && Linked(states[n])
    ensures LastStart(steps, n, i) && Since(states[i].io != Due, states[n])
  {
    assert n > 0;
    assert RunStep(steps, states, n - 1);
    RunLink(steps, states, n - 1);
    if steps[n - 1].StartWatchdog? {
      i := n - 1;
      StartedSince(states[i], states[n]);
    } else {
      LinkedBefore(states[n - 1], steps[n - 1], states[n]);
      i := SinceLastStart(steps, states, n - 1);
      StepKeepsSince(states[i].io != Due, states[n - 1], steps[n - 1], states[n]);
    }
  }

  /** In every run, an open connection has a watchdog exactly when no cleanup of an earlier close was
      still to come at the moment the last connect() made sure that one was running. */
  lemma WatchedExactlyWhen(steps: seq<Step>, states: seq<State>, n: nat)
    requires Run(steps, states) && n <= |steps| && Up(states[n])
    ensures exists i :: LastStart(steps, n, i) && (states[n].watchdog <==> states[i].io != Due)
  {
    var i := SinceLastStart(steps, states, n);
    RunLink(steps, states, n);
    assert LastStart(steps, n, i) && (states[n].watchdog <==> states[i].io != Due);
  }

  // ----- what a caller of connect() can rely on

  /** The run goes on with a dial and without another one. */
  ghost predicate DialledOnce(steps: seq<Step>, states: seq<State>, more: seq<Step>, states': seq<State>) {
    Run(more, states') && steps + [Dial] <= more && states <= states'
    && forall j :: |steps| < j < |more| ==> !more[j].Dial?
  }

  /** However the threads are scheduled after a dial, the connection it opens has a watchdog. */
  ghost predicate AlwaysWatched(steps: seq<Step>, states: seq<State>) {
    forall more: seq<Step>, states': seq<State> | DialledOnce(steps, states, more, states') ::
      Up(states'[|more|]) ==> states'[|more|].watchdog
  }

  /** After a dial that found the last close's cleanup begun or done. */
  predicate Safe(s: State) {
    s.status == Connecting || s.status == Connected ==>
      s.io != Due && (s.ctl != Dialled ==> s.watchdog && s.io == Idle)
  }

  lemma StepKeepsSafe(s: State, step: Step, s': State)
    requires LinkInv(s) && Safe(s) && Next(s, step, s') && !step.Dial?
    ensures Safe(s')
  {
    if !OfLink(step) { OthersKeepLink(s, step, s'); }
  }

  lemma {:induction false} SafeAfterDial(steps: seq<Step>, states: seq<State>, d: nat, n: nat)
    requires Run(steps, states) && d < n <= |steps| && steps[d].Dial? && states[d].io != Due
    requires forall j :: d < j < n ==> !steps[j].Dial?
    ensures Safe(states[n])
  {
    assert RunStep(steps, states, n - 1);
    if d < n - 1 {
      SafeAfterDial(steps, states, d, n - 1);
      RunLink(steps, states, n - 1);
      StepKeepsSafe(states[n - 1], steps[n - 1], states[n]);
    }
  }

  /** A thread that took callers sets their promises, one after the other. */
  lemma {:induction false} FulfilAll(steps: seq<Step>, states: seq<State>, t: Tid)
    returns (more: seq<Step>, states': seq<State>)
    requires Run(steps, states) && t in states[|steps|].threads && states[|steps|].threads[t].Holding?
    ensures Run(more, states') && steps <= more && states <= states'
    ensures forall j :: |steps| <= j < |more| ==> more[j].Fulfil?
    ensures SameLink(states[|steps|], states'[|more|]) && Enabled(states'[|more|], Finish(t))
    decreases if t in states[|steps|].threads && states[|steps|].threads[t].Holding?
              then states[|steps|].threads[t].keys else {}
  {
    var s := states[|steps|];
    if s.threads[t].keys == {} {
      more, states' := steps, states;
    } else {
      var k :| k in s.threads[t].keys;
      RunInv(steps, states, |steps|);
      assert Holds(s, t, k);
      more, states' := ExtendRun(steps, states, Fulfil(t, k));
      assert states'[|more|].threads[t].keys == s.threads[t].keys - {k};
      more, states' := FulfilAll(more, states', t);
    }
  }

  /** The IO thread ends its cleanup and opens the connection. */
  lemma CleanUpAndOpen(steps: seq<Step>, states: seq<State>, t: Tid) returns (more: seq<Step>, states': seq<State>)
    requires Run(steps, states) && t in states[|steps|].threads && states[|steps|].threads[t].Holding?
    requires var s := states[|steps|]; s.io == Draining(t) && s.ctl == Idle && s.status == Connecting && s.ioAlive
    ensures Run(more, states') && steps <= more && states <= states'
    ensures forall j :: |steps| <= j < |more| ==> !more[j].Dial?
    ensures Up(states'[|more|]) && states'[|more|].watchdog == states[|steps|].watchdog
  {
    more, states' := FulfilAll(steps, states, t);
    more, states' := ExtendRun(more, states', Finish(t));
    more, states' := ExtendRun(more, states', Open);
  }

  /** The dial overtakes the cleanup of the last close, which then stops the watchdog that connect()
      had found running. */
  lemma OvertakenCleanup(steps: seq<Step>, states: seq<State>) returns (more: seq<Step>, states': seq<State>)
    requires Run(steps, states) && Enabled(states[|steps|], Dial) && states[|steps|].io == Due
    ensures DialledOnce(steps, states, more, states') && Up(states'[|more|]) && !states'[|more|].watchdog
  {
    var t := RequestDrain.FreshTid(states[|steps|].threads.Keys);
    more, states' := ExtendRun(steps, states, Dial);
    more, states' := ExtendRun(more, states', StartWatchdog);
    more, states' := ExtendRun(more, states', IoCancel(t));
    more, states' := CleanUpAndOpen(more, states', t);
  }

  /** connect() is sure to give its connection a watchdog exactly when the handler of the last close,
      if there was one, has begun its cleanup before the dial. */
  lemma WatchedAfterDialExactlyWhen(steps: seq<Step>, states: seq<State>)
    requires Run(steps, states) && Enabled(states[|steps|], Dial)
    ensures AlwaysWatched(steps, states) <==> states[|steps|].io != Due
  {
    if states[|steps|].io == Due {
      var more, states' := OvertakenCleanup(steps, states);
    } else {
      forall more: seq<Step>, states': seq<State> | DialledOnce(steps, states, more, states')
        ensures Up(states'[|more|]) ==> states'[|more|].watchdog
      {
        assert more[|steps|] == (steps + [Dial])[|steps|] && states'[|steps|] == states[|steps|];
        SafeAfterDial(more, states', |steps|, |more|);
      }
    }
  }

  /** Connect, open, close, and a second connect before the close handler's cleanup: the connection is
      up and no watchdog runs. */
  lemma UnwatchedConnection(s: State) returns (steps: seq<Step>, states: seq<State>)
    requires Init(s)
    ensures Run(steps, states) && states[0] == s && Up(states[|steps|]) && !states[|steps|].watchdog
  {
    steps, states := [], [s];
    steps, states := ExtendRun(steps, states, Start);
    steps, states := ExtendRun(steps, states, Dial);
    steps, states := ExtendRun(steps, states, StartWatchdog);
    steps, states := ExtendRun(steps, states, Open);
    steps, states := ExtendRun(steps, states, Close);
    steps, states := OvertakenCleanup(steps, states);
  }

  lemma StepKeepsUnwatched(s: State, step: Step, s': State)
    requires !s.watchdog && Next(s, step, s') && !step.StartWatchdog?
    ensures !s'.watchdog && s'.lastPass == s.lastPass
  {
    if step.Receive? {
      ReceivedFrame(s, step.t, step.msg);
    } else if step.Take? {
      MatchedFrame(s, step.t, s.threads[step.t].msg);
    }
  }

  /** Such a connection stays without one, and no request times out, until the next connect(). */
  lemma {:induction false} UnwatchedUntilNextConnect(steps: seq<Step>, states: seq<State>, n: nat, m: nat)
    requires Run(steps, states) && n <= m <= |steps| && !states[n].watchdog
    requires forall j :: n <= j < m ==> !steps[j].StartWatchdog?
    ensures !states[m].watchdog && states[m].lastPass == states[n].lastPass
    ensures m < |steps| ==> !steps[m].Expire?
  {
    if n < m {
      UnwatchedUntilNextConnect(steps, states, n, m - 1);
      assert RunStep(steps, states, m - 1);
      StepKeepsUnwatched(states[m - 1], steps[m - 1], states[m]);
    }
    if m < |steps| { assert RunStep(steps, states, m); }
  }
}
