/** How long a caller can stay in the queue when watchdog passes are regular: the age of a request
    counts from the construction of its caller, but a pass only sees callers that are queued. */
module TimeoutTheorems {
  import opened Types
  import opened Routing
  import opened Requests
  import opened RequestInvariants
  import opened RequestTheorems

  // ----- when a caller was constructed and queued

  /** Step i constructed the caller of call k and step j stored it, both before state n. */
  predicate Queued(steps: seq<Step>, i: nat, j: nat, k: Key, n: nat) {
    i < j < n <= |steps| && steps[i] == Make(k) && steps[j] == Enqueue(k)
  }

  lemma {:induction false} MadeTime(steps: seq<Step>, states: seq<State>, i: nat, n: nat, k: Key)
    requires Run(steps, states) && i < n <= |steps| && steps[i] == Make(k)
    ensures k < |states[n].calls| && !states[n].calls[k].pc.Issued? && states[n].calls[k].madeAt == states[i].now
  {
    assert RunStep(steps, states, n - 1);
    if i < n - 1 {
      MadeTime(steps, states, i, n - 1, k);
      StepForward(states[n - 1], steps[n - 1], states[n], k);
    }
  }

  lemma {:induction false} QueuedTime(steps: seq<Step>, states: seq<State>, j: nat, n: nat, k: Key)
    requires Run(steps, states) && j < n <= |steps| && steps[j] == Enqueue(k)
    ensures k < |states[n].calls| && !Early(states[n], k) && states[n].calls[k].queuedAt == states[j].now
  {
    assert RunStep(steps, states, n - 1);
    if j < n - 1 {
      QueuedTime(steps, states, j, n - 1, k);
      StepForward(states[n - 1], steps[n - 1], states[n], k);
    }
  }

  lemma MadeBefore(s: State, step: Step, s': State, k: Key)
    requires Next(s, step, s') && k < |s'.calls|
    ensures !s'.calls[k].pc.Issued? && step != Make(k) ==> k < |s.calls| && !s.calls[k].pc.Issued?
    ensures !s'.calls[k].pc.Issued? && !s'.calls[k].pc.Made? && step != Enqueue(k) ==>
              k < |s.calls| && !s.calls[k].pc.Issued? && !s.calls[k].pc.Made?
    ensures step == Enqueue(k) ==> k < |s.calls| && s.calls[k].pc.Made?
  {
    if k >= |s.calls| {
      if !step.Issue? { OnlyIssueAdds(s, step, s'); }
    } else if !Concerns(step, k) {
      OtherStepKeeps(s, step, s', k);
    }
  }

  lemma {:induction false} WasMade(steps: seq<Step>, states: seq<State>, n: nat, k: Key) returns (i: nat)
    requires Run(steps, states) && n <= |steps| && k < |states[n].calls| && !states[n].calls[k].pc.Issued?
    ensures i < n && steps[i] == Make(k)
  {
    assert n > 0;
    assert RunStep(steps, states, n - 1);
    if steps[n - 1] == Make(k) {
      i := n - 1;
    } else {
      MadeBefore(states[n - 1], steps[n - 1], states[n], k);
      i := WasMade(steps, states, n - 1, k);
    }
  }

  /** A caller that is, or has been, in the queue was constructed and then stored. */
  lemma {:induction false} WasQueued(steps: seq<Step>, states: seq<State>, n: nat, k: Key) returns (i: nat, j: nat)
    requires Run(steps, states) && n <= |steps| && k < |states[n].calls| && !Early(states[n], k)
    ensures Queued(steps, i, j, k, n)
  {
    assert n > 0;
    assert RunStep(steps, states, n - 1);
    MadeBefore(states[n - 1], steps[n - 1], states[n], k);
    if steps[n - 1] == Enqueue(k) {
      j := n - 1;
      i := WasMade(steps, states, j, k);
    } else {
      i, j := WasQueued(steps, states, n - 1, k);
    }
  }

  /** And only once. */
  lemma QueuedOnce(steps: seq<Step>, states: seq<State>, i: nat, j: nat, i': nat, j': nat, k: Key, n: nat)
    requires Run(steps, states) && Queued(steps, i, j, k, n) && Queued(steps, i', j', k, n)
    ensures i == i' && j == j'
  {
    assert RunStep(steps, states, i) && RunStep(steps, states, i');
    assert RunStep(steps, states, j) && RunStep(steps, states, j');
    if i < i' {
      MadeTime(steps, states, i, i', k);
    } else if i' < i {
      MadeTime(steps, states, i', i, k);
    }
    if j < j' {
      QueuedTime(steps, states, j, j', k);
    } else if j' < j {
      QueuedTime(steps, states, j', j, k);
    }
  }

  // ----- what a pass takes

  /** The age at which a caller becomes eligible, in nanoseconds. */
  function Patience(s: State): Time { (s.waitMs + 1) * NS_PER_MS }

  function Later(a: Time, b: Time): Time { if a < b then b else a }

  /** From this moment on the next watchdog pass takes the caller. */
  function Deadline(s: State, k: Key): Time
    requires k < |s.calls|
  {
    Later(s.calls[k].madeAt + Patience(s), s.calls[k].queuedAt)
  }

  lemma ExpiredAtPatience(now: Time, madeAt: Time, waitMs: nat)
    ensures Expired(now, madeAt, waitMs) <==> now >= madeAt + (waitMs + 1) * NS_PER_MS
  {
  }

  /** A watchdog pass removes exactly the callers that have waited W + 1 ms or more. */
  lemma PassIsExact(s: State, t: Tid, k: Key)
    requires IdsInv(s) && Enabled(s, Expire(t)) && k < |s.calls|
    ensures Holds(Apply(s, Expire(t)), t, k) <==>
              Pending(s, k) && s.now >= s.calls[k].madeAt + Patience(s)
    ensures Pending(Apply(s, Expire(t)), k) <==>
              Pending(s, k) && s.now < s.calls[k].madeAt + Patience(s)
  {
  }

  ghost predicate TimeInv(s: State) {
    s.lastPass <= s.now
    && forall k :: 0 <= k < |s.calls| && Pending(s, k) ==> s.lastPass <= Deadline(s, k)
  }

  lemma DeadlineKept(s: State, step: Step, s': State, k: Key)
    requires QueueInv(s) && Next(s, step, s') && k < |s.calls| && k < |s'.calls| && Pending(s, k)
    ensures Deadline(s', k) == Deadline(s, k)
  {
    StepForward(s, step, s', k);
    WaitKept(s, step, s');
  }

  lemma WaitKept(s: State, step: Step, s': State)
    requires Next(s, step, s')
    ensures s'.waitMs == s.waitMs
  {
    match step
    case Receive(t, msg) => ReceivedFrame(s, t, msg);
    case Take(t) => MatchedFrame(s, t, s.threads[t].msg);
    case Make(k) =>
    case Enqueue(k) =>
    case Check(k) =>
    case Send(k, e) =>
    case Erase(k) =>
    case SetOwn(k) =>
    case Fulfil(t, k) =>
    case _ =>
  }

  lemma StepKeepsDeadline(s: State, step: Step, s': State, k: Key)
    requires IdsInv(s) && QueueInv(s) && Next(s, step, s') && TimeInv(s) && k < |s.calls| && k < |s'.calls|
    requires Pending(s', k)
    ensures s.lastPass <= Deadline(s', k)
  {
    if step != Enqueue(k) {
      PendingBefore(s, step, s', k);
      DeadlineKept(s, step, s', k);
    } else {
      assert s'.calls[k].queuedAt == s.now;
    }
  }

  lemma ClockStep(s: State, step: Step, s': State)
    requires Next(s, step, s') && s.lastPass <= s.now
    ensures s'.lastPass <= s'.now
    ensures !step.Expire? ==> s'.lastPass == s.lastPass
  {
    if step.Receive? {
      ReceivedFrame(s, step.t, step.msg);
    } else if step.Take? {
      MatchedFrame(s, step.t, s.threads[step.t].msg);
    }
  }

  lemma NewCallNotPending(s: State, step: Step, s': State, k: Key)
    requires IdsInv(s) && Next(s, step, s') && |s.calls| <= k < |s'.calls|
    ensures !Pending(s', k)
  {
    if !step.Issue? { OnlyIssueAdds(s, step, s'); }
  }

  lemma StepKeepsTimeAt(s: State, step: Step, s': State, k: Key)
    requires IdsInv(s) && QueueInv(s) && Next(s, step, s') && TimeInv(s)
    requires k < |s'.calls| && Pending(s', k)
    ensures s'.lastPass <= Deadline(s', k)
  {
    if k >= |s.calls| {
      NewCallNotPending(s, step, s', k);
    } else if step.Expire? {
      PassIsExact(s, step.t, k);
    } else {
      ClockStep(s, step, s');
      StepKeepsDeadline(s, step, s', k);
    }
  }

  lemma StepKeepsTime(s: State, step: Step, s': State)
    requires IdsInv(s) && QueueInv(s) && Next(s, step, s') && TimeInv(s)
    ensures TimeInv(s')
  {
    ClockStep(s, step, s');
    forall k | 0 <= k < |s'.calls| && Pending(s', k)
      ensures s'.lastPass <= Deadline(s', k)
    {
      StepKeepsTimeAt(s, step, s', k);
    }
  }

  lemma {:induction false} RunTime(steps: seq<Step>, states: seq<State>, n: nat)
    requires Run(steps, states) && n <= |steps|
    ensures TimeInv(states[n])
  {
    if n > 0 {
      RunTime(steps, states, n - 1);
      RunInv(steps, states, n - 1);
      assert RunStep(steps, states, n - 1);
      StepKeepsTime(states[n - 1], steps[n - 1], states[n]);
    }
  }

  // ----- passes

  /** State p is the first one, or the one after a watchdog pass. */
  predicate AfterPass(steps: seq<Step>, p: nat) { p <= |steps| && (p == 0 || steps[p - 1].Expire?) }

  /** The last watchdog pass before state n is at most `gap` ago. */
  ghost predicate RecentPass(steps: seq<Step>, states: seq<State>, n: nat, gap: Time)
    requires n < |states|
  {
    exists p :: 0 <= p <= n && AfterPass(steps, p) && states[n].now <= states[p].now + gap
  }

  lemma {:induction false} PassIsRemembered(steps: seq<Step>, states: seq<State>, p: nat, n: nat)
    requires Run(steps, states) && p <= n <= |steps| && AfterPass(steps, p)
    ensures states[p].now <= states[n].lastPass <= states[n].now
  {
    RunTime(steps, states, n);
    if p < n {
      PassIsRemembered(steps, states, p, n - 1);
      assert RunStep(steps, states, n - 1);
      ClockStep(states[n - 1], steps[n - 1], states[n]);
    } else if p > 0 {
      assert RunStep(steps, states, p - 1);
    }
  }

  lemma {:induction false} LastPass(steps: seq<Step>, states: seq<State>, n: nat) returns (p: nat)
    requires Run(steps, states) && n <= |steps|
    ensures p <= n && AfterPass(steps, p) && states[p].now == states[n].lastPass
  {
    if n == 0 {
      p := 0;
    } else {
      assert RunStep(steps, states, n - 1);
      if steps[n - 1].Expire? {
        p := n;
      } else {
        RunTime(steps, states, n - 1);
        ClockStep(states[n - 1], steps[n - 1], states[n]);
        p := LastPass(steps, states, n - 1);
      }
    }
  }

  /** A caller constructed at step i and stored at step j.  Lower bound: a pass that takes it finds it
      at least W + 1 ms old.  Upper bound: while the last pass is at most `gap` ago, it has not been
      queued longer than `gap` past the moment it was both queued and W + 1 ms old. */
  lemma TimeoutBounds(steps: seq<Step>, states: seq<State>, i: nat, j: nat, n: nat, k: Key, gap: Time)
    requires Run(steps, states) && Queued(steps, i, j, k, n)
    ensures n < |steps| && steps[n].Expire? && RemovedAt(steps, states, n, k).Some? ==>
              states[n].now >= states[i].now + Patience(states[n])
    ensures Pending(states[n], k) && RecentPass(steps, states, n, gap) ==>
              states[n].now <= Later(states[i].now + Patience(states[n]), states[j].now) + gap
  {
    RunTime(steps, states, n);
    MadeTime(steps, states, i, n, k);
    QueuedTime(steps, states, j, n, k);
    ExpiredAtPatience(states[n].now, states[i].now, states[n].waitMs);
    if RecentPass(steps, states, n, gap) {
      var p :| 0 <= p <= n && AfterPass(steps, p) && states[n].now <= states[p].now + gap;
      PassIsRemembered(steps, states, p, n);
    }
  }

  /** Conversely a pass takes every caller that is queued and W + 1 ms old: it is gone from then on. */
  lemma PassTakes(steps: seq<Step>, states: seq<State>, i: nat, j: nat, p: nat, n: nat, k: Key)
    requires Run(steps, states) && Queued(steps, i, j, k, p) && p < n <= |steps| && steps[p].Expire?
    requires states[p].now >= states[i].now + Patience(states[p])
    ensures k < |states[n].calls| && !Pending(states[n], k)
  {
    assert RunStep(steps, states, p);
    RunInv(steps, states, p);
    MadeTime(steps, states, i, p, k);
    QueuedTime(steps, states, j, p, k);
    QueuedTime(steps, states, j, p + 1, k);
    PassIsExact(states[p], steps[p].t, k);
    RunKeepsOut(steps, states, p + 1, n, k);
  }

  // ----- the exact condition for leaving in time

  ghost predicate Punctual(steps: seq<Step>, states: seq<State>, gap: Time) {
    forall n :: 0 <= n < |states| ==> RecentPass(steps, states, n, gap)
  }

  ghost predicate PunctualRun(steps: seq<Step>, states: seq<State>, waitMs: nat, gap: Time) {
    Run(steps, states) && states[|steps|].waitMs == waitMs && Punctual(steps, states, gap)
  }

  /** Call k is pending and was stored when its caller was d old. */
  predicate QueuedAtAge(steps: seq<Step>, states: seq<State>, i: nat, j: nat, k: Key, d: Time)
    requires |states| == |steps| + 1
  {
    Queued(steps, i, j, k, |steps|) && Pending(states[|steps|], k) && states[j].now == states[i].now + d
  }

  /** In every run with passes at most `gap` apart, a caller queued at age d is gone when it is more
      than W + 1 ms and one gap old. */
  ghost predicate LeavesInTime(waitMs: nat, gap: Time, d: Time) {
    forall steps: seq<Step>, states: seq<State>, i: nat, j: nat, k: Key
      | PunctualRun(steps, states, waitMs, gap) && QueuedAtAge(steps, states, i, j, k, d) ::
      states[|steps|].now <= states[i].now + (waitMs + 1) * NS_PER_MS + gap
  }

  lemma ExtendPunctual(steps: seq<Step>, states: seq<State>, step: Step, gap: Time)
    returns (steps': seq<Step>, states': seq<State>)
    requires Run(steps, states) && Punctual(steps, states, gap) && Enabled(states[|steps|], step)
    requires var s' := Apply(states[|steps|], step); s'.now <= s'.lastPass + gap
    ensures Run(steps', states') && Punctual(steps', states', gap)
    ensures steps' == steps + [step] && states' == states + [Apply(states[|steps|], step)]
  {
    steps', states' := ExtendRun(steps, states, step);
    var p := LastPass(steps', states', |steps'|);
    forall n | 0 <= n < |states'|
      ensures RecentPass(steps', states', n, gap)
    {
      if n < |states| {
        assert RecentPass(steps, states, n, gap);
        var q :| 0 <= q <= n && AfterPass(steps, q) && states[n].now <= states[q].now + gap;
        assert q > 0 ==> steps'[q - 1] == steps[q - 1];
        assert AfterPass(steps', q) && states'[q] == states[q];
      }
    }
  }

  /** A dialled connection with a watchdog that has just made a pass, and one caller, constructed at
      time 0 and not yet queued. */
  function Waiting(waitMs: nat, age: Time): State {
    State(false, waitMs, age, age, Connecting, true, Idle, Idle, true, [Call(1, Made, 0, 0, [])],
          map[], map[], map[], [])
  }

  /** The fifth step constructed the caller. */
  predicate MadeAtZero(steps: seq<Step>, states: seq<State>) {
    |steps| > 4 && |states| > 4 && steps[4] == Make(0) && states[4].now == 0
  }

  lemma FreshCaller(waitMs: nat, gap: Time) returns (steps: seq<Step>, states: seq<State>)
    ensures Run(steps, states) && Punctual(steps, states, gap) && states[|steps|] == Waiting(waitMs, 0)
    ensures MadeAtZero(steps, states)
  {
    steps := [];
    states := [State(false, waitMs, 0, 0, NotStarted, false, Idle, Idle, false, [], map[], map[], map[], [])];
    steps, states := ExtendPunctual(steps, states, Start, gap);
    steps, states := ExtendPunctual(steps, states, Dial, gap);
    steps, states := ExtendPunctual(steps, states, StartWatchdog, gap);
    steps, states := ExtendPunctual(steps, states, Issue, gap);
    steps, states := ExtendPunctual(steps, states, Make(0), gap);
  }

  /** One pass, d later, that finds the queue empty. */
  lemma OnePass(steps: seq<Step>, states: seq<State>, waitMs: nat, age: Time, gap: Time, d: Time)
    returns (steps': seq<Step>, states': seq<State>)
    requires Run(steps, states) && Punctual(steps, states, gap) && states[|steps|] == Waiting(waitMs, age) && d <= gap
    requires MadeAtZero(steps, states)
    ensures Run(steps', states') && Punctual(steps', states', gap) && states'[|steps'|] == Waiting(waitMs, age + d)
    ensures MadeAtZero(steps', states')
  {
    steps', states' := ExtendPunctual(steps, states, Tick(d), gap);
    assert ExpiredIds(states'[|steps'|]) == {} && KeysOf(map[], {}) == {};
    steps', states' := ExtendPunctual(steps', states', Expire(0), gap);
    assert states'[|steps'|].threads == map[0 := Holding({}, Failure(ERR_TIMEDOUT))];
    steps', states' := ExtendPunctual(steps', states', Finish(0), gap);
  }

  lemma {:induction false} AgedCaller(waitMs: nat, gap: Time, age: Time) returns (steps: seq<Step>, states: seq<State>)
    requires gap > 0
    ensures Run(steps, states) && Punctual(steps, states, gap) && states[|steps|] == Waiting(waitMs, age)
    ensures MadeAtZero(steps, states)
    decreases age
  {
    if age == 0 {
      steps, states := FreshCaller(waitMs, gap);
    } else {
      var d := if age < gap then age else gap;
      steps, states := AgedCaller(waitMs, gap, age - d);
      steps, states := OnePass(steps, states, waitMs, age - d, gap, d);
    }
  }

  /** A caller queued at age d right after a pass is still there one gap later. */
  lemma QueuedAfterPass(waitMs: nat, gap: Time, d: Time)
    returns (steps: seq<Step>, states: seq<State>, i: nat, j: nat)
    requires gap > 0
    ensures PunctualRun(steps, states, waitMs, gap) && QueuedAtAge(steps, states, i, j, 0, d)
    ensures states[|steps|].now == states[i].now + d + gap
  {
    steps, states := AgedCaller(waitMs, gap, d);
    i, j := 4, |steps|;
    steps, states := ExtendPunctual(steps, states, Enqueue(0), gap);
    steps, states := ExtendPunctual(steps, states, Tick(gap), gap);
  }

  /** Timing out within W + 1 ms and one gap is guaranteed exactly for the callers that are queued
      before they are older than W + 1 ms.  (With gap 0 no time could pass between passes.) */
  lemma LeavesInTimeExactlyWhen(waitMs: nat, gap: Time, d: Time)
    requires gap > 0
    ensures LeavesInTime(waitMs, gap, d) <==> d <= (waitMs + 1) * NS_PER_MS
  {
    if d <= (waitMs + 1) * NS_PER_MS {
      forall steps: seq<Step>, states: seq<State>, i: nat, j: nat, k: Key
        | PunctualRun(steps, states, waitMs, gap) && QueuedAtAge(steps, states, i, j, k, d)
        ensures states[|steps|].now <= states[i].now + (waitMs + 1) * NS_PER_MS + gap
      {
        TimeoutBounds(steps, states, i, j, |steps|, k, gap);
      }
    } else {
      var steps, states, i, j := QueuedAfterPass(waitMs, gap, d);
    }
  }
}
