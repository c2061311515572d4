/** Shutdown terminates: with the connection down, the steps that the library's own threads still
    have to take run out, and when they have, every future is ready. */
module RequestDrain {
  import opened Types
  import opened Routing
  import opened Requests
  import opened RequestInvariants
  import opened RequestTheorems

  /** Steps that need neither a new call, nor a message, nor the watchdog's clock, nor the peer. */
  predicate Internal(step: Step) {
    step.Make? || step.Enqueue? || step.Check? || step.Send? || step.Erase? || step.SetOwn?
    || step.Take? || step.Fulfil? || step.Finish? || step.IoCancel? || step.CtlCancel? || step.Reset?
    || step.StartWatchdog?
  }

  function Rank(pc: Pc): nat {
    match pc
    case Issued => 6
    case Made => 5
    case Enqueued => 4
    case Passed => 3
    case Failing(e) => 2
    case Owning(e) => 1
    case Returned => 0
  }

  /** Steps left in the call itself, and one for its promise while that is unset. */
  function CallWork(c: Call): nat { Rank(c.pc) + (if c.sets == [] then 1 else 0) }

  function CleanerWork(c: Cleaner): nat {
    match c
    case Idle => 0
    case Dialled => 1
    case Joined => 4
    case Due => 3
    case Draining(t) => 1
  }

  function CallsWork(calls: seq<Call>): nat {
    if calls == [] then 0 else CallsWork(calls[..|calls| - 1]) + CallWork(calls[|calls| - 1])
  }

  function RoutedTids(threads: map<Tid, Local>): set<Tid> {
    set t | t in threads && threads[t].Routed?
  }

  /** An upper bound on the number of internal steps that can still be taken. */
  function Work(s: State): nat {
    CallsWork(s.calls) + |s.threads| + |RoutedTids(s.threads)| + CleanerWork(s.io) + CleanerWork(s.ctl)
  }

  lemma {:induction false} CallsWorkUpdate(calls: seq<Call>, k: nat, c: Call)
    requires k < |calls|
    ensures CallsWork(calls[k := c]) == CallsWork(calls) - CallWork(calls[k]) + CallWork(c)
  {
    var n := |calls| - 1;
    if k < n {
      CallsWorkUpdate(calls[..n], k, c);
      assert calls[k := c][..n] == calls[..n][k := c];
    } else {
      assert calls[k := c][..n] == calls[..n];
    }
  }

  lemma OneCallWork(s: State, s': State, k: Key)
    requires k < |s.calls| && |s'.calls| == |s.calls| && s'.calls == s.calls[k := s'.calls[k]]
    requires s'.threads == s.threads && s'.io == s.io && s'.ctl == s.ctl
    requires CallWork(s'.calls[k]) < CallWork(s.calls[k])
    ensures Work(s') < Work(s)
  {
    CallsWorkUpdate(s.calls, k, s'.calls[k]);
  }

  lemma SendStepWork(s: State, step: Step, s': State)
    requires Next(s, step, s') && (step.Make? || step.Enqueue? || step.Check? || step.Send?)
    ensures Work(s') < Work(s)
  {
    OneCallWork(s, s', step.k);
  }

  lemma FailStepWork(s: State, step: Step, s': State)
    requires Next(s, step, s') && (step.Erase? || step.SetOwn?)
    ensures Work(s') < Work(s)
  {
    match step
    case Erase(k) => OneCallWork(s, s', k);
    case SetOwn(k) => OneCallWork(s, s', k);
  }

  lemma FulfilWork(s: State, t: Tid, k: Key)
    requires HolderInv(s) && Enabled(s, Fulfil(t, k))
    ensures Work(Apply(s, Fulfil(t, k))) < Work(s)
  {
    var s' := Apply(s, Fulfil(t, k));
    assert Holds(s, t, k);
    CallsWorkUpdate(s.calls, k, s'.calls[k]);
    assert s'.threads.Keys == s.threads.Keys;
    assert RoutedTids(s'.threads) == RoutedTids(s.threads);
  }

  lemma NewHolderWork(threads: map<Tid, Local>, t: Tid, l: Local)
    requires t !in threads && l.Holding?
    ensures |threads[t := l]| == |threads| + 1
    ensures RoutedTids(threads[t := l]) == RoutedTids(threads)
  {
  }

  /** A thread with a message ends. */
  lemma EndedWork(threads: map<Tid, Local>, t: Tid)
    requires t in threads && threads[t].Routed?
    ensures |threads - {t}| + |RoutedTids(threads - {t})| < |threads| + |RoutedTids(threads)|
  {
    assert t in RoutedTids(threads) && (threads - {t}).Keys == threads.Keys - {t};
    assert RoutedTids(threads - {t}) == RoutedTids(threads) - {t};
  }

  /** A thread with a message becomes a holder. */
  lemma HolderWork(threads: map<Tid, Local>, t: Tid, l: Local)
    requires t in threads && threads[t].Routed? && l.Holding?
    ensures |threads[t := l]| + |RoutedTids(threads[t := l])| < |threads| + |RoutedTids(threads)|
  {
    assert t in RoutedTids(threads) && threads[t := l].Keys == threads.Keys;
    assert RoutedTids(threads[t := l]) == RoutedTids(threads) - {t};
  }

  lemma TakeWork(s: State, t: Tid)
    requires Enabled(s, Take(t))
    ensures Work(Apply(s, Take(t))) < Work(s)
  {
    MatchedFrame(s, t, s.threads[t].msg);
    EndedWork(s.threads, t);
    var threads' := Apply(s, Take(t)).threads;
    if t in threads' { HolderWork(s.threads, t, threads'[t]); }
  }

  lemma FinishWork(s: State, t: Tid)
    requires Enabled(s, Finish(t))
    ensures Work(Apply(s, Finish(t))) < Work(s)
  {
    var s' := Apply(s, Finish(t));
    assert RoutedTids(s'.threads) == RoutedTids(s.threads);
    assert s'.threads.Keys == s.threads.Keys - {t};
  }

  lemma CancelWork(s: State, step: Step)
    requires Enabled(s, step) && (step.IoCancel? || step.CtlCancel?)
    ensures Work(Apply(s, step)) < Work(s)
  {
    NewHolderWork(s.threads, step.t,
                  Holding(KeysOf(s.queue, s.queue.Keys), Failure(ERR_NOT_CONNECTED)));
  }

  lemma InternalStepWork(s: State, step: Step)
    requires HolderInv(s) && Enabled(s, step) && Internal(step)
    ensures Work(Apply(s, step)) < Work(s)
    ensures s.status != Connected ==> Apply(s, step).status != Connected
  {
    if step.Fulfil? {
      FulfilWork(s, step.t, step.k);
    } else if step.Take? {
      TakeWork(s, step.t);
    } else if step.IoCancel? || step.CtlCancel? {
      CancelWork(s, step);
    } else if step.Finish? {
      FinishWork(s, step.t);
    } else if step.Erase? || step.SetOwn? {
      FailStepWork(s, step, Apply(s, step));
    } else if !step.Reset? && !step.StartWatchdog? {
      SendStepWork(s, step, Apply(s, step));
    }
  }

  /** A cleaner that is setting promises has a thread to finish. */
  predicate HasThread(s: State, c: Cleaner) {
    c.Draining? ==> c.t in s.threads && s.threads[c.t].Holding?
  }

  predicate CleanerInv(s: State) { !s.io.Joined? && !s.io.Dialled? && HasThread(s, s.io) && HasThread(s, s.ctl) }

  /** Steps that neither end a holding thread nor start a cleanup. */
  lemma QuietKeepsCleaners(s: State, s': State)
    requires CleanerInv(s) && s'.io == s.io && s'.ctl == s.ctl
    requires forall t :: t in s.threads && s.threads[t].Holding? ==> t in s'.threads && s'.threads[t].Holding?
    ensures CleanerInv(s')
  {
  }

  lemma ThreadStepKeepsCleaners(s: State, step: Step, s': State)
    requires CleanerInv(s) && Next(s, step, s') && OfThread(step)
    ensures CleanerInv(s')
  {
    match step
    case Receive(t, msg) =>
      ReceivedFrame(s, t, msg);
      QuietKeepsCleaners(s, s');
    case Take(t) =>
      MatchedFrame(s, t, s.threads[t].msg);
      QuietKeepsCleaners(s, s');
    case Expire(t) => QuietKeepsCleaners(s, s');
    case Fulfil(t, k) => QuietKeepsCleaners(s, s');
    case Finish(t) =>
    case IoCancel(t) =>
    case CtlCancel(t) =>
  }

  lemma StepKeepsCleaners(s: State, step: Step, s': State)
    requires CleanerInv(s) && Next(s, step, s')
    ensures CleanerInv(s')
  {
    if OfThread(step) {
      ThreadStepKeepsCleaners(s, step, s');
    } else {
      OthersKeepThreads(s, step, s');
    }
  }

  lemma {:induction false} RunCleaners(steps: seq<Step>, states: seq<State>, n: nat)
    requires Run(steps, states) && n <= |steps|
    ensures CleanerInv(states[n])
  {
    if n > 0 {
      RunCleaners(steps, states, n - 1);
      assert RunStep(steps, states, n - 1);
      StepKeepsCleaners(states[n - 1], steps[n - 1], states[n]);
    }
  }

  // ----- a cleanup ends when its promises are set

  /** What becomes of the caller of call k that thread t took to cancel it. */
  predicate CancelledBy(s: State, t: Tid, k: Key) {
    k < |s.calls| && t in s.threads && s.threads[t].Holding? && s.threads[t].outcome == Failure(ERR_NOT_CONNECTED)
    && (k in s.threads[t].keys || s.calls[k].sets == [Failure(ERR_NOT_CONNECTED)])
  }

  lemma CancelTakes(s: State, step: Step, s': State, k: Key)
    requires IdsInv(s) && Next(s, step, s') && (step.IoCancel? || step.CtlCancel?) && Pending(s, k)
    ensures CancelledBy(s', step.t, k)
  {
    assert s.queue[k + 1] == k;
  }

  lemma FulfilKeepsCancelled(s: State, step: Step, s': State, t: Tid, k: Key)
    requires HolderInv(s) && CallInv(s) && Next(s, step, s') && step.Fulfil? && CancelledBy(s, t, k)
    requires SoleHolder(s)
    ensures CancelledBy(s', t, k)
  {
    assert Holds(s, step.t, step.k);
    if step.k == k && k in s.threads[t].keys { assert Holds(s, t, k); }
  }

  lemma SetsKept(s: State, step: Step, s': State, k: Key)
    requires HolderInv(s) && CallInv(s) && Next(s, step, s') && !step.Fulfil? && k < |s.calls|
    requires !s.calls[k].pc.Owning?
    ensures k < |s'.calls| && s'.calls[k].sets == s.calls[k].sets
  {
    if !Concerns(step, k) { OtherStepKeeps(s, step, s', k); }
  }

  lemma ThreadKept(s: State, step: Step, s': State, t: Tid)
    requires Next(s, step, s') && !step.Fulfil? && step != Finish(t) && t in s.threads && s.threads[t].Holding?
    ensures t in s'.threads && s'.threads[t] == s.threads[t]
  {
    if !OfThread(step) {
      OthersKeepThreads(s, step, s');
    } else if step.Receive? {
      ReceivedFrame(s, step.t, step.msg);
    } else if step.Take? {
      MatchedFrame(s, step.t, s.threads[step.t].msg);
    }
  }

  lemma StepKeepsCancelled(s: State, step: Step, s': State, t: Tid, k: Key)
    requires OwnershipInv(s) && Next(s, step, s') && step != Finish(t) && CancelledBy(s, t, k)
    ensures CancelledBy(s', t, k)
  {
    if step.Fulfil? {
      FulfilKeepsCancelled(s, step, s', t, k);
    } else {
      assert !s.calls[k].pc.Owning? by { if k in s.threads[t].keys { assert Holds(s, t, k); } }
      SetsKept(s, step, s', k);
      ThreadKept(s, step, s', t);
    }
  }

  lemma {:induction false} RunKeepsCancelled(steps: seq<Step>, states: seq<State>, i: nat, n: nat, t: Tid, k: Key)
    requires Run(steps, states) && i < n <= |steps| && (steps[i] == IoCancel(t) || steps[i] == CtlCancel(t))
    requires Pending(states[i], k) && forall u :: i < u < n ==> steps[u] != Finish(t)
    ensures CancelledBy(states[n], t, k)
  {
    assert RunStep(steps, states, n - 1);
    RunInv(steps, states, n - 1);
    if i < n - 1 {
      RunKeepsCancelled(steps, states, i, n - 1, t, k);
      StepKeepsCancelled(states[n - 1], steps[n - 1], states[n], t, k);
    } else {
      CancelTakes(states[i], steps[i], states[n], k);
    }
  }

  /** The first Finish of a cancelling thread comes after every caller that was pending at its cancelAll
      has been told NotConnected. */
  lemma CleanupCompletesItsCallers(steps: seq<Step>, states: seq<State>, i: nat, n: nat, t: Tid, k: Key)
    requires Run(steps, states) && i < n < |steps| && (steps[i] == IoCancel(t) || steps[i] == CtlCancel(t))
    requires Pending(states[i], k) && steps[n] == Finish(t) && forall u :: i < u < n ==> steps[u] != Finish(t)
    ensures k < |states[n].calls| && states[n].calls[k].sets == [Failure(ERR_NOT_CONNECTED)]
  {
    RunKeepsCancelled(steps, states, i, n, t, k);
    assert RunStep(steps, states, n);
  }

  lemma CleanerKept(s: State, step: Step, s': State, t: Tid)
    requires CleanerInv(s) && Next(s, step, s') && step != Finish(t)
    ensures s.io == Draining(t) ==> s'.io == Draining(t)
    ensures s.ctl == Draining(t) ==> s'.ctl == Draining(t)
  {
    match step
    case Receive(u, msg) => ReceivedFrame(s, u, msg);
    case Take(u) => MatchedFrame(s, u, s.threads[u].msg);
    case Make(k) =>
    case Enqueue(k) =>
    case Check(k) =>
    case Send(k, e) =>
    case Erase(k) =>
    case SetOwn(k) =>
    case Fulfil(u, k) =>
    case _ =>
  }

  /** And the IO or the control thread is in its cleanup until then. */
  lemma {:induction false} CleanupLasts(steps: seq<Step>, states: seq<State>, i: nat, n: nat, t: Tid)
    requires Run(steps, states) && i < n <= |steps| && (steps[i] == IoCancel(t) || steps[i] == CtlCancel(t))
    requires forall u :: i < u < n ==> steps[u] != Finish(t)
    ensures steps[i].IoCancel? ==> states[n].io == Draining(t)
    ensures steps[i].CtlCancel? ==> states[n].ctl == Draining(t)
  {
    assert RunStep(steps, states, n - 1);
    RunCleaners(steps, states, n - 1);
    if i < n - 1 {
      CleanupLasts(steps, states, i, n - 1, t);
      CleanerKept(states[n - 1], steps[n - 1], states[n], t);
    }
  }

  ghost predicate Quiescent(s: State) {
    forall step :: Internal(step) ==> !Enabled(s, step)
  }

  lemma {:induction false} FreshTid(tids: set<Tid>) returns (t: Tid)
    ensures forall u :: u in tids ==> u < t
    decreases |tids|
  {
    if tids == {} {
      t := 0;
    } else {
      var u :| u in tids;
      var r := FreshTid(tids - {u});
      t := if r <= u then u + 1 else r;
      assert forall w :: w in tids && w != u ==> w in tids - {u};
    }
  }

  lemma QuiescentMeansDone(s: State)
    requires Quiescent(s)
    ensures AllReturned(s) && s.io != Due && s.ctl != Due && s.ctl != Joined
  {
    forall k | 0 <= k < |s.calls|
      ensures s.calls[k].pc == Returned
    {
      assert !Enabled(s, Make(k)) && !Enabled(s, Enqueue(k)) && !Enabled(s, Check(k));
      assert !Enabled(s, Send(k, 0)) && !Enabled(s, Erase(k)) && !Enabled(s, SetOwn(k));
    }
    var unused := FreshTid(s.threads.Keys);
    assert !Enabled(s, IoCancel(unused)) && !Enabled(s, CtlCancel(unused)) && !Enabled(s, Reset);
  }

  lemma NoThreadLeft(s: State)
    requires Inv(s) && Quiescent(s)
    ensures s.threads == map[]
  {
    if t: Tid :| t in s.threads {
      assert !Enabled(s, Take(t)) && !Enabled(s, Finish(t));
      var k :| k in s.threads[t].keys;
      assert Holds(s, t, k);
      assert Enabled(s, Fulfil(t, k));
    }
  }

  lemma {:induction false} InternalRunIsShort(steps: seq<Step>, states: seq<State>, n: nat, m: nat)
    requires Run(steps, states) && n <= m <= |steps|
    requires forall i :: n <= i < m ==> Internal(steps[i])
    ensures Work(states[m]) + (m - n) <= Work(states[n])
    ensures states[n].status != Connected ==> states[m].status != Connected
  {
    if n < m {
      InternalRunIsShort(steps, states, n, m - 1);
      assert RunStep(steps, states, m - 1);
      RunInv(steps, states, m - 1);
      InternalStepWork(states[m - 1], steps[m - 1]);
    }
  }

  /** From any reachable state with the connection down, every schedule of the library's own steps
      is at most Work steps long, and where it can go no further every promise has been set, once,
      and the IO and control threads are out of their cleanup. */
  lemma ShutdownCompletesEveryFuture(steps: seq<Step>, states: seq<State>, n: nat, m: nat)
    requires Run(steps, states) && n <= m <= |steps| && states[n].status != Connected
    requires forall i :: n <= i < m ==> Internal(steps[i])
    ensures m - n <= Work(states[n])
    ensures Quiescent(states[m]) ==>
              states[m].queue == map[] && states[m].io == Idle && states[m].ctl == Idle
              && forall k :: 0 <= k < |states[m].calls| ==> |states[m].calls[k].sets| == 1
  {
    InternalRunIsShort(steps, states, n, m);
    if Quiescent(states[m]) {
      RunInv(steps, states, m);
      RunCleaners(steps, states, m);
      NoThreadLeft(states[m]);
      QuiescentMeansDone(states[m]);
      assert !Enabled(states[m], StartWatchdog);
      NoStrandedRequest(steps, states, m);
    }
  }
}
