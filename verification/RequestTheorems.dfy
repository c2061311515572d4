/** What every run of the pending-request protocol guarantees. */
module RequestTheorems {
  import opened Types
  import opened Routing
  import opened Requests
  import opened RequestInvariants

  // ----- what one step changes

  /** Steps that change the record of call k. */
  predicate Concerns(step: Step, k: Key) {
    match step
    case Make(j) => j == k
    case Enqueue(j) => j == k
    case Check(j) => j == k
    case Send(j, e) => j == k
    case Erase(j) => j == k
    case SetOwn(j) => j == k
    case Fulfil(t, j) => j == k
    case _ => false
  }

  /** A call that has stored its caller keeps its times, and never starts over; a promise stays set. */
  predicate Forward(c: Call, c': Call) {
    c'.id == c.id && c.sets <= c'.sets
    && (c.pc == Returned ==> c'.pc == Returned)
    && (!c.pc.Issued? ==> !c'.pc.Issued? && c'.madeAt == c.madeAt)
    && (!c.pc.Issued? && !c.pc.Made? ==> !c'.pc.Made? && c'.queuedAt == c.queuedAt)
  }

  lemma OwnStepForward(s: State, step: Step, s': State, k: Key)
    requires Next(s, step, s') && k < |s.calls| && Concerns(step, k)
    ensures |s'.calls| == |s.calls| && Forward(s.calls[k], s'.calls[k])
  {
    match step
    case Make(j) =>
    case Enqueue(j) =>
    case Check(j) =>
    case Send(j, e) =>
    case Erase(j) =>
    case SetOwn(j) =>
    case Fulfil(t, j) =>
  }

  /** Steps that change the record of one call. */
  predicate OnCall(step: Step) {
    step.Make? || step.Enqueue? || step.Check? || step.Send? || step.Erase? || step.SetOwn? || step.Fulfil?
  }

  lemma OffCallKeeps(s: State, step: Step, s': State)
    requires Next(s, step, s') && !OnCall(step) && !step.Issue? && !step.Receive? && !step.Take?
    ensures s'.calls == s.calls
  {
  }

  lemma OnCallKeepsOthers(s: State, step: Step, s': State, k: Key)
    requires Next(s, step, s') && OnCall(step) && k < |s.calls| && step.k != k
    ensures |s'.calls| == |s.calls| && s'.calls[k] == s.calls[k]
  {
    match step
    case Make(j) =>
    case Enqueue(j) =>
    case Check(j) =>
    case Send(j, e) =>
    case Erase(j) =>
    case SetOwn(j) =>
    case Fulfil(t, j) =>
  }

  lemma OtherStepKeeps(s: State, step: Step, s': State, k: Key)
    requires Next(s, step, s') && k < |s.calls| && !Concerns(step, k)
    ensures k < |s'.calls| && s'.calls[k] == s.calls[k]
  {
    if step.Issue? || step.Receive? || step.Take? {
      if step.Receive? {
        ReceivedFrame(s, step.t, step.msg);
      } else if step.Take? {
        MatchedFrame(s, step.t, s.threads[step.t].msg);
      }
    } else if !OnCall(step) {
      OffCallKeeps(s, step, s');
    } else {
      OnCallKeepsOthers(s, step, s', k);
    }
  }

  lemma StepForward(s: State, step: Step, s': State, k: Key)
    requires Next(s, step, s') && k < |s.calls|
    ensures k < |s'.calls| && Forward(s.calls[k], s'.calls[k])
  {
    if Concerns(step, k) {
      OwnStepForward(s, step, s', k);
    } else {
      OtherStepKeeps(s, step, s', k);
    }
  }

  // ----- building runs

  lemma ExtendRun(steps: seq<Step>, states: seq<State>, step: Step) returns (steps': seq<Step>, states': seq<State>)
    requires Run(steps, states) && Enabled(states[|steps|], step)
    ensures Run(steps', states') && steps' == steps + [step]
    ensures states' == states + [Apply(states[|steps|], step)]
  {
    steps', states' := steps + [step], states + [Apply(states[|steps|], step)];
    forall i | 0 <= i < |steps'|
      ensures RunStep(steps', states', i)
    {
      if i < |steps| { assert RunStep(steps, states, i); }
    }
  }

  // ----- exactly-once completion

  datatype Place = Unqueued | Queued | HeldBy(t: Tid) | SelfHeld | Done

  ghost predicate IsAt(s: State, k: Key, p: Place)
    requires k < |s.calls|
  {
    match p
    case Unqueued => s.calls[k].pc.Issued? || s.calls[k].pc.Made?
    case Queued => s.calls[k].id in s.queue && s.queue[s.calls[k].id] == k
    case HeldBy(t) => t in s.threads && s.threads[t].Holding? && k in s.threads[t].keys
    case SelfHeld => s.calls[k].pc.Owning?
    case Done => s.calls[k].sets != []
  }

  /** In every reachable state every caller is in exactly one place, and no promise has been set
      twice. */
  lemma ExactlyOnePlace(steps: seq<Step>, states: seq<State>, n: nat, k: Key)
    requires Run(steps, states) && n <= |steps| && k < |states[n].calls|
    ensures |states[n].calls[k].sets| <= 1
    ensures exists p :: IsAt(states[n], k, p) && forall q :: IsAt(states[n], k, q) ==> q == p
  {
    RunInv(steps, states, n);
    var s := states[n];
    var p: Place;
    if Early(s, k) {
      p := Unqueued;
    } else if Pending(s, k) {
      p := Queued;
    } else if s.calls[k].sets != [] {
      p := Done;
    } else if s.calls[k].pc.Owning? {
      p := SelfHeld;
    } else {
      var t: Tid :| Holds(s, t, k);
      p := HeldBy(t);
    }
    assert IsAt(s, k, p);
    forall q | IsAt(s, k, q)
      ensures q == p
    {
      SamePlace(s, k, p, q);
    }
  }

  lemma SamePlace(s: State, k: Key, p: Place, q: Place)
    requires OwnershipInv(s) && k < |s.calls| && IsAt(s, k, p) && IsAt(s, k, q)
    ensures p == q
  {
    if p.HeldBy? { assert Holds(s, p.t, k); }
    if q.HeldBy? { assert Holds(s, q.t, k); }
    if p.Queued? || q.Queued? { assert Pending(s, k); }
  }

  /** The outcome a step decides for call k by taking its caller out of the queue. */
  function Removal(s: State, step: Step, k: Key): Option<Outcome>
    requires Enabled(s, step)
  {
    if !(k < |s.calls| && s.calls[k].id in s.queue && s.queue[s.calls[k].id] == k) then None
    else match step
      case Erase(j) => if j == k then Some(Failure(s.calls[k].pc.error)) else None
      case Take(t) =>
        var msg := s.threads[t].msg;
        if msg.id.Some? && ResponseId(msg.id.value) == Some(s.calls[k].id)
        then Some(ReplyOutcome(msg)) else None
      case Expire(t) =>
        if Expired(s.now, s.calls[k].madeAt, s.waitMs) then Some(Failure(ERR_TIMEDOUT)) else None
      case IoCancel(t) => Some(Failure(ERR_NOT_CONNECTED))
      case CtlCancel(t) => Some(Failure(ERR_NOT_CONNECTED))
      case _ => None
  }

  /** Steps of the threads that run onMessage, checkPromises or cancelAll. */
  predicate OfThread(step: Step) {
    step.Receive? || step.Take? || step.Expire? || step.Fulfil? || step.Finish? || step.IoCancel? || step.CtlCancel?
  }

  lemma OthersKeepThreads(s: State, step: Step, s': State)
    requires Next(s, step, s') && !OfThread(step)
    ensures s'.threads == s.threads
  {
    match step
    case Issue =>
    case Make(k) =>
    case Enqueue(k) =>
    case Check(k) =>
    case Send(k, e) =>
    case Erase(k) =>
    case SetOwn(k) =>
    case _ =>
  }

  /** o is a value already given to k's promise, or the one its present holder will give. */
  ghost predicate Owes(s: State, k: Key, o: Outcome)
    requires k < |s.calls|
  {
    o in s.calls[k].sets
    || (s.calls[k].pc.Owning? && o == Failure(s.calls[k].pc.error))
    || exists t: Tid :: Holds(s, t, k) && o == s.threads[t].outcome
  }

  lemma OwedByTaken(s: State, t: Tid, ids: set<MsgId>, out: Outcome, k: Key, o: Outcome)
    requires Inv(s) && ids <= s.queue.Keys && k < |s.calls|
    requires t in s.threads ==> s.threads[t].Routed?
    requires Owes(Taken(s, t, ids, out), k, o)
    ensures Owes(s, k, o) || (o == out && k + 1 in ids)
  {
  }

  /** Whatever is owed after a step was owed before it or is decided by a removal in it. */
  lemma OwedOrigin(s: State, step: Step, s': State, k: Key, o: Outcome)
    requires Inv(s) && Next(s, step, s') && k < |s.calls| && k < |s'.calls|
    requires Owes(s', k, o)
    ensures Owes(s, k, o) || Removal(s, step, k) == Some(o)
  {
    if step.Take? {
      OwedByTake(s, step.t, k, o);
    } else if step.Expire? || step.IoCancel? || step.CtlCancel? {
      OwedByMass(s, step, s', k, o);
    } else if step.Erase? || step.SetOwn? {
      OwedByCall(s, step, s', k, o);
    } else if step.Fulfil? {
      OwedByFulfil(s, step.t, step.k, k, o);
    } else {
      OwedByQuiet(s, step, s', k, o);
    }
  }

  /** The other steps neither take callers nor set promises. */
  lemma OwedByQuiet(s: State, step: Step, s': State, k: Key, o: Outcome)
    requires Next(s, step, s') && k < |s.calls| && k < |s'.calls|
    requires !step.Take? && !step.Expire? && !step.IoCancel? && !step.CtlCancel?
    requires !step.Erase? && !step.SetOwn? && !step.Fulfil?
    requires Owes(s', k, o)
    ensures Owes(s, k, o)
  {
    if Concerns(step, k) {
      OwedUnchanged(s, s', k, o);
    } else {
      OtherStepKeeps(s, step, s', k);
      if step.Receive? {
        ReceivedFrame(s, step.t, step.msg);
      } else if !step.Finish? {
        OthersKeepThreads(s, step, s');
      }
      OwedUnchanged(s, s', k, o);
    }
  }

  /** checkPromises and cancelAll take many callers at once. */
  lemma OwedByMass(s: State, step: Step, s': State, k: Key, o: Outcome)
    requires Inv(s) && Next(s, step, s') && k < |s.calls| && k < |s'.calls|
    requires step.Expire? || step.IoCancel? || step.CtlCancel?
    requires Owes(s', k, o)
    ensures Owes(s, k, o) || Removal(s, step, k) == Some(o)
  {
    var ids := if step.Expire? then ExpiredIds(s) else s.queue.Keys;
    var out := Failure(if step.Expire? then ERR_TIMEDOUT else ERR_NOT_CONNECTED);
    OwedUnchanged(Taken(s, step.t, ids, out), s', k, o);
    OwedByTaken(s, step.t, ids, out, k, o);
  }

  lemma OwedByTake(s: State, t: Tid, k: Key, o: Outcome)
    requires Inv(s) && Enabled(s, Take(t)) && k < |s.calls|
    requires Owes(Apply(s, Take(t)), k, o)
    ensures Owes(s, k, o) || Removal(s, Take(t), k) == Some(o)
  {
    var msg := s.threads[t].msg;
    if msg.id.Some? && ResponseId(msg.id.value).Some? && ResponseId(msg.id.value).value in s.queue {
      OwedByTaken(s, t, {ResponseId(msg.id.value).value}, ReplyOutcome(msg), k, o);
    } else {
      OwedUnchanged(s, Apply(s, Take(t)), k, o);
    }
  }

  lemma OwedUnchanged(s: State, s': State, k: Key, o: Outcome)
    requires k < |s.calls| && k < |s'.calls|
    requires s'.calls[k].sets == s.calls[k].sets
    requires s'.calls[k].pc.Owning? ==> s'.calls[k].pc == s.calls[k].pc
    requires forall t: Tid :: Holds(s', t, k) ==> Holds(s, t, k) && s'.threads[t].outcome == s.threads[t].outcome
    requires Owes(s', k, o)
    ensures Owes(s, k, o)
  {
  }

  lemma OwedByCall(s: State, step: Step, s': State, k: Key, o: Outcome)
    requires Inv(s) && Next(s, step, s') && k < |s.calls| && k < |s'.calls|
    requires step.Erase? || step.SetOwn?
    requires Owes(s', k, o)
    ensures Owes(s, k, o) || Removal(s, step, k) == Some(o)
  {
    assert forall t: Tid :: Holds(s', t, k) <==> Holds(s, t, k);
  }

  lemma OwedByFulfil(s: State, t: Tid, j: Key, k: Key, o: Outcome)
    requires Inv(s) && Enabled(s, Fulfil(t, j)) && k < |s.calls|
    requires Owes(Apply(s, Fulfil(t, j)), k, o)
    ensures Owes(s, k, o)
  {
  }

  ghost predicate RemovedWith(steps: seq<Step>, states: seq<State>, n: nat, k: Key, o: Outcome)
    requires Run(steps, states) && n <= |steps|
  {
    exists i :: 0 <= i < n && RemovedAt(steps, states, i, k) == Some(o)
  }

  function RemovedAt(steps: seq<Step>, states: seq<State>, i: nat, k: Key): Option<Outcome>
    requires |states| == |steps| + 1 && i < |steps|
  {
    if Enabled(states[i], steps[i]) then Removal(states[i], steps[i], k) else None
  }

  lemma {:induction false} OwedWasDecided(steps: seq<Step>, states: seq<State>, n: nat, k: Key, o: Outcome)
    requires Run(steps, states) && n <= |steps| && k < |states[n].calls| && Owes(states[n], k, o)
    ensures RemovedWith(steps, states, n, k, o)
  {
    if n > 0 {
      assert RunStep(steps, states, n - 1);
      RunInv(steps, states, n - 1);
      var s, step := states[n - 1], steps[n - 1];
      if k < |s.calls| {
        OwedOrigin(s, step, states[n], k, o);
        if Owes(s, k, o) {
          OwedWasDecided(steps, states, n - 1, k, o);
        } else {
          assert RemovedAt(steps, states, n - 1, k) == Some(o);
        }
      } else {
        NewCallOwesNothing(s, step, states[n], k, o);
      }
    }
  }

  lemma NewCallOwesNothing(s: State, step: Step, s': State, k: Key, o: Outcome)
    requires HolderInv(s) && Next(s, step, s') && |s.calls| <= k < |s'.calls|
    ensures !Owes(s', k, o)
  {
    if !step.Issue? { OnlyIssueAdds(s, step, s'); }
    assert forall t: Tid :: Holds(s', t, k) <==> Holds(s, t, k);
  }

  lemma OnlyIssueAdds(s: State, step: Step, s': State)
    requires Next(s, step, s') && !step.Issue?
    ensures |s'.calls| == |s.calls|
  {
    if step.Receive? {
      ReceivedFrame(s, step.t, step.msg);
    } else if step.Take? {
      MatchedFrame(s, step.t, s.threads[step.t].msg);
    }
  }

  lemma PendingBefore(s: State, step: Step, s': State, k: Key)
    requires IdsInv(s) && Next(s, step, s') && k < |s.calls| && step != Enqueue(k)
    requires Pending(s', k)
    ensures Pending(s, k)
  {
    if step.Receive? {
      ReceivedFrame(s, step.t, step.msg);
    } else if step.Take? {
      MatchedFrame(s, step.t, s.threads[step.t].msg);
    } else if step.Enqueue? {
      assert s.calls[step.k].id == step.k + 1;
    }
  }

  lemma StepKeepsOut(s: State, step: Step, s': State, k: Key)
    requires IdsInv(s) && Next(s, step, s') && k < |s.calls|
    requires !Early(s, k) && !Pending(s, k)
    ensures k < |s'.calls| && !Early(s', k) && !Pending(s', k)
  {
    StepForward(s, step, s', k);
    if Pending(s', k) { PendingBefore(s, step, s', k); }
  }

  lemma {:induction false} RunKeepsOut(steps: seq<Step>, states: seq<State>, i: nat, j: nat, k: Key)
    requires Run(steps, states) && i <= j <= |steps| && k < |states[i].calls|
    requires !Early(states[i], k) && !Pending(states[i], k)
    ensures k < |states[j].calls| && !Early(states[j], k) && !Pending(states[j], k)
  {
    if i < j {
      RunKeepsOut(steps, states, i, j - 1, k);
      RunInv(steps, states, j - 1);
      assert RunStep(steps, states, j - 1);
      StepKeepsOut(states[j - 1], steps[j - 1], states[j], k);
    }
  }

  lemma RemovalTakesOut(s: State, step: Step, s': State, k: Key)
    requires Inv(s) && Next(s, step, s') && k < |s.calls| && k < |s'.calls| && Removal(s, step, k).Some?
    ensures Pending(s, k)
    ensures !Early(s', k) && !Pending(s', k)
  {
  }

  /** The value of a set promise was decided by the one step that removed the caller from the
      queue: an id is never removed twice. */
  lemma CompletionDecidedByRemoval(steps: seq<Step>, states: seq<State>, n: nat, k: Key, o: Outcome)
    requires Run(steps, states) && n <= |steps| && k < |states[n].calls| && o in states[n].calls[k].sets
    ensures exists i :: 0 <= i < n && RemovedAt(steps, states, i, k) == Some(o)
              && forall j :: 0 <= j < n && RemovedAt(steps, states, j, k).Some? ==> j == i
  {
    OwedWasDecided(steps, states, n, k, o);
    var i :| 0 <= i < n && RemovedAt(steps, states, i, k) == Some(o);
    forall j | 0 <= j < n && RemovedAt(steps, states, j, k).Some?
      ensures j == i
    {
      if i < j {
        RemovedOnce(steps, states, i, j, k);
      } else if j < i {
        RemovedOnce(steps, states, j, i, k);
      }
    }
  }

  lemma RemovedOnce(steps: seq<Step>, states: seq<State>, i: nat, j: nat, k: Key)
    requires Run(steps, states) && i < j < |steps|
    requires RemovedAt(steps, states, i, k).Some?
    ensures RemovedAt(steps, states, j, k).None?
  {
    RunInv(steps, states, i);
    RunInv(steps, states, j);
    assert RunStep(steps, states, i);
    RemovalTakesOut(states[i], steps[i], states[i + 1], k);
    RunKeepsOut(steps, states, i + 1, j, k);
  }

  // ----- correlation (section 5 of the JSON-RPC 2.0 Specification)

  /** msg was classified as a response to id at step j of the run. */
  ghost predicate RoutedAt(steps: seq<Step>, states: seq<State>, j: nat, t: Tid, msg: Message)
    requires |states| == |steps| + 1 && j < |steps|
  {
    steps[j] == Receive(t, msg) && RouteOf(states[j].legacy, states[j].eventMap, msg).ToClient?
  }

  lemma RoutedByThread(s: State, step: Step, s': State, t: Tid, msg: Message)
    requires Next(s, step, s') && OfThread(step)
    requires t in s'.threads && s'.threads[t] == Routed(msg)
    ensures (t in s.threads && s.threads[t] == Routed(msg))
            || (step == Receive(t, msg) && RouteOf(s.legacy, s.eventMap, msg).ToClient?)
  {
    match step
    case Receive(u, m) => ReceivedFrame(s, u, m);
    case Take(u) => MatchedFrame(s, u, s.threads[u].msg);
    case Expire(u) =>
    case Fulfil(u, k) =>
    case Finish(u) =>
    case IoCancel(u) =>
    case CtlCancel(u) =>
  }

  lemma RoutedBefore(s: State, step: Step, s': State, t: Tid, msg: Message)
    requires Next(s, step, s')
    requires t in s'.threads && s'.threads[t] == Routed(msg)
    ensures (t in s.threads && s.threads[t] == Routed(msg))
            || (step == Receive(t, msg) && RouteOf(s.legacy, s.eventMap, msg).ToClient?)
  {
    if !OfThread(step) {
      OthersKeepThreads(s, step, s');
    } else {
      RoutedByThread(s, step, s', t, msg);
    }
  }

  lemma {:induction false} RoutedOrigin(steps: seq<Step>, states: seq<State>, n: nat, t: Tid, msg: Message)
    requires Run(steps, states) && n <= |steps|
    requires t in states[n].threads && states[n].threads[t] == Routed(msg)
    ensures exists j :: 0 <= j < n && RoutedAt(steps, states, j, t, msg)
  {
    if n > 0 {
      assert RunStep(steps, states, n - 1);
      var s := states[n - 1];
      RoutedBefore(s, steps[n - 1], states[n], t, msg);
      if t in s.threads && s.threads[t] == Routed(msg) {
        RoutedOrigin(steps, states, n - 1, t, msg);
      } else {
        assert RoutedAt(steps, states, n - 1, t, msg);
      }
    }
  }

  /** A promise holds the value v only if a message with this call's id, the result v and no error
      was classified as a response, and was matched while the caller was pending. */
  lemma SuccessIsCorrelated(steps: seq<Step>, states: seq<State>, n: nat, k: Key, o: Outcome, v: Json)
    requires Run(steps, states) && n <= |steps| && k < |states[n].calls|
    requires o in states[n].calls[k].sets && o.value == Some(v)
    ensures exists j, i, t, msg :: 0 <= j < i < n && RoutedAt(steps, states, j, t, msg)
              && Answers(msg, states[n].calls[k].id, v)
              && steps[i] == Take(t) && Pending(states[i], k)
  {
    OwedWasDecided(steps, states, n, k, o);
    var i :| 0 <= i < n && RemovedAt(steps, states, i, k) == Some(o);
    var t, msg := steps[i].t, states[i].threads[steps[i].t].msg;
    RoutedOrigin(steps, states, i, t, msg);
    RunInv(steps, states, i);
    RunInv(steps, states, n);
  }

  predicate Answers(msg: Message, id: MsgId, v: Json) {
    msg.id.Some? && ResponseId(msg.id.value) == Some(id) && msg.result == Some(v) && msg.error.None?
  }

  /** A conforming Response object completes the pending request of its id, and with what it says: its
      thread needs no one else for that. */
  lemma ResponseCompletesRequest(s: State, t: Tid, msg: Message, k: Key)
    requires Inv(s) && Pending(s, k) && t !in s.threads
    requires IsResponseObject(msg) && ResponseId(msg.id.value) == Some(k + 1)
    requires s.legacy ==> LegacyEvent(s.eventMap, msg).None?
    ensures Enabled(s, Receive(t, msg))
    ensures var s1 := Apply(s, Receive(t, msg));
            Enabled(s1, Take(t)) && Enabled(Apply(s1, Take(t)), Fulfil(t, k))
            && var c := Apply(Apply(s1, Take(t)), Fulfil(t, k)).calls[k];
               |c.sets| == 1 && IsOutcomeOf(msg, c.sets[0])
  {
    RoutingFollowsJsonRpc(s.legacy, s.eventMap, msg, k + 1);
    assert s.queue[k + 1] == k;
  }

  /** A response whose id is unknown, or was already answered, changes no call and no queue. */
  lemma UnmatchedResponseIsIgnored(s: State, t: Tid)
    requires Inv(s) && Enabled(s, Take(t))
    requires forall k :: 0 <= k < |s.calls| && Pending(s, k) ==>
               s.threads[t].msg.id.None? || ResponseId(s.threads[t].msg.id.value) != Some(k + 1)
    ensures Apply(s, Take(t)) == s.(threads := s.threads - {t})
  {
    var msg := s.threads[t].msg;
    if msg.id.Some? && ResponseId(msg.id.value).Some? && ResponseId(msg.id.value).value in s.queue {
      assert Pending(s, s.queue[ResponseId(msg.id.value).value]);
      assert false;
    }
  }

  // ----- no stranded request

  predicate AllReturned(s: State) {
    forall k :: 0 <= k < |s.calls| ==> s.calls[k].pc == Returned
  }

  /** After the connection is lost and cancelAll has run, a caller still in the queue belongs to a
      call that has not passed its send check, or has failed it; and when all calls have returned
      the queue is empty and every promise is set or held by a thread about to set it. */
  lemma NoStrandedRequest(steps: seq<Step>, states: seq<State>, n: nat)
    requires Run(steps, states) && n <= |steps| && DownAndCancelled(states[n])
    ensures forall k :: 0 <= k < |states[n].calls| && Pending(states[n], k) ==>
              states[n].calls[k].pc.Enqueued? || states[n].calls[k].pc.Failing?
    ensures AllReturned(states[n]) ==> states[n].queue == map[]
    ensures AllReturned(states[n]) ==>
              forall k :: 0 <= k < |states[n].calls| ==>
                |states[n].calls[k].sets| == 1 || exists t: Tid :: Holds(states[n], t, k)
    ensures AllReturned(states[n]) && states[n].threads == map[] ==>
              forall k :: 0 <= k < |states[n].calls| ==> |states[n].calls[k].sets| == 1
  {
    RunInv(steps, states, n);
    var s := states[n];
    if AllReturned(s) && s.queue != map[] {
      var id :| id in s.queue;
      assert Pending(s, s.queue[id]);
      assert false;
    }
  }

  // ----- failed sends

  /** The call has seen its send fail with e, and takes its caller out of the queue before it
      returns. */
  predicate Failed(s: State, k: Key, e: ErrorCode)
    requires k < |s.calls|
  {
    s.calls[k].pc == Failing(e) || s.calls[k].pc == Owning(e) || (s.calls[k].pc == Returned && !Pending(s, k))
  }

  /** Step i is a failed status check or a failed socket send of call k. */
  ghost predicate FailsAt(steps: seq<Step>, states: seq<State>, i: nat, k: Key, e: ErrorCode)
    requires |states| == |steps| + 1 && i < |steps|
  {
    (steps[i] == Check(k) && states[i].status != Connected && e == ERR_NOT_CONNECTED)
    || (steps[i] == Send(k, e) && e != ERR_NONE)
  }

  lemma StepKeepsFailing(s: State, step: Step, s': State, k: Key, e: ErrorCode)
    requires IdsInv(s) && QueueInv(s) && Next(s, step, s') && k < |s.calls|
    requires s.calls[k].pc == Failing(e) || s.calls[k].pc == Owning(e)
    ensures k < |s'.calls| && Failed(s', k, e)
  {
    if !Concerns(step, k) {
      OtherStepKeeps(s, step, s', k);
    } else {
      assert step.Erase? || step.SetOwn? || step.Fulfil?;
      assert s.calls[k].id == k + 1;
    }
  }

  lemma StepKeepsFailed(s: State, step: Step, s': State, k: Key, e: ErrorCode)
    requires OwnershipInv(s) && Next(s, step, s') && k < |s.calls| && Failed(s, k, e)
    ensures k < |s'.calls| && Failed(s', k, e)
  {
    if s.calls[k].pc == Returned {
      StepKeepsOut(s, step, s', k);
      StepForward(s, step, s', k);
    } else {
      StepKeepsFailing(s, step, s', k, e);
    }
  }

  lemma {:induction false} RunKeepsFailed(
    steps: seq<Step>, states: seq<State>, i: nat, n: nat, k: Key, e: ErrorCode)
    requires Run(steps, states) && i < n <= |steps| && FailsAt(steps, states, i, k, e)
    ensures k < |states[n].calls| && Failed(states[n], k, e)
  {
    assert RunStep(steps, states, n - 1);
    if i < n - 1 {
      RunKeepsFailed(steps, states, i, n - 1, k, e);
      RunInv(steps, states, n - 1);
      StepKeepsFailed(states[n - 1], steps[n - 1], states[n], k, e);
    }
  }

  /** A request whose send failed is out of the queue when it returns: its promise is set, or held by
      the thread that took the caller first. */
  lemma FailedRequestLeavesQueue(steps: seq<Step>, states: seq<State>, i: nat, n: nat, k: Key, e: ErrorCode)
    requires Run(steps, states) && i < n <= |steps| && FailsAt(steps, states, i, k, e)
    ensures k < |states[n].calls| && Failed(states[n], k, e)
    ensures states[n].calls[k].pc == Returned ==>
              |states[n].calls[k].sets| == 1 || exists t: Tid :: Holds(states[n], t, k)
  {
    RunKeepsFailed(steps, states, i, n, k, e);
    RunInv(steps, states, n);
  }

  // ----- how a call came to its end

  /** Call k's send saw the status Connected at step c. */
  ghost predicate PassedAt(steps: seq<Step>, states: seq<State>, c: nat, k: Key)
    requires |states| == |steps| + 1
  {
    c < |steps| && steps[c] == Check(k) && states[c].status == Connected
  }

  /** The ways from one program counter past the store to another. */
  predicate PcStep(before: Pc, connected: bool, step: Step, k: Key, after: Pc) {
    match after
    case Passed => before == Passed || (step == Check(k) && connected)
    case Failing(e) =>
      before == Failing(e) || (step == Check(k) && !connected && e == ERR_NOT_CONNECTED)
      || (step == Send(k, e) && e != ERR_NONE)
    case Owning(e) => before == Owning(e) || before == Failing(e)
    case Returned =>
      before == Returned || before.Failing? || before.Owning? || (step == Send(k, ERR_NONE) && before == Passed)
    case _ => true
  }

  lemma OwnPcStep(s: State, step: Step, s': State, k: Key)
    requires Next(s, step, s') && k < |s.calls| && k < |s'.calls| && Concerns(step, k)
    ensures PcStep(s.calls[k].pc, s.status == Connected, step, k, s'.calls[k].pc)
  {
    match step
    case Make(j) =>
    case Enqueue(j) =>
    case Check(j) =>
    case Send(j, e) =>
    case Erase(j) =>
    case SetOwn(j) =>
    case Fulfil(t, j) =>
  }

  lemma PcBefore(s: State, step: Step, s': State, k: Key)
    requires Next(s, step, s') && k < |s'.calls| && !s'.calls[k].pc.Issued?
    ensures k < |s.calls| && PcStep(s.calls[k].pc, s.status == Connected, step, k, s'.calls[k].pc)
  {
    if k >= |s.calls| {
      if !step.Issue? { OnlyIssueAdds(s, step, s'); }
    } else if Concerns(step, k) {
      OwnPcStep(s, step, s', k);
    } else {
      OtherStepKeeps(s, step, s', k);
    }
  }

  lemma {:induction false} PassedOrigin(steps: seq<Step>, states: seq<State>, n: nat, k: Key) returns (c: nat)
    requires Run(steps, states) && n <= |steps| && k < |states[n].calls| && states[n].calls[k].pc == Passed
    ensures c < n && PassedAt(steps, states, c, k)
  {
    assert n > 0;
    assert RunStep(steps, states, n - 1);
    PcBefore(states[n - 1], steps[n - 1], states[n], k);
    if steps[n - 1] == Check(k) && states[n - 1].status == Connected {
      c := n - 1;
    } else {
      c := PassedOrigin(steps, states, n - 1, k);
    }
  }

  /** A call that has returned was sent on an open connection without error, or has failed its status
      check or its send, with the error it then reports. */
  lemma {:induction false} SentOrFailed(steps: seq<Step>, states: seq<State>, n: nat, k: Key)
    returns (sent: bool, c: nat, d: nat, e: ErrorCode)
    requires Run(steps, states) && n <= |steps| && k < |states[n].calls|
    requires var pc := states[n].calls[k].pc; pc.Failing? || pc.Owning? || pc == Returned
    ensures sent ==> c < d < n && PassedAt(steps, states, c, k) && steps[d] == Send(k, ERR_NONE)
    ensures sent ==> states[n].calls[k].pc == Returned
    ensures !sent ==> d < n && FailsAt(steps, states, d, k, e)
    ensures states[n].calls[k].pc.Failing? || states[n].calls[k].pc.Owning? ==> e == states[n].calls[k].pc.error
  {
    assert n > 0;
    assert RunStep(steps, states, n - 1);
    PcBefore(states[n - 1], steps[n - 1], states[n], k);
    var before, step := states[n - 1].calls[k].pc, steps[n - 1];
    if before.Failing? || before.Owning? || before == Returned {
      sent, c, d, e := SentOrFailed(steps, states, n - 1, k);
      if sent { StepForward(states[n - 1], step, states[n], k); }
    } else if step == Send(k, ERR_NONE) {
      sent, d, e := true, n - 1, ERR_NONE;
      c := PassedOrigin(steps, states, d, k);
    } else {
      sent, c, d, e := false, 0, n - 1, states[n].calls[k].pc.error;
    }
  }

  // ----- late legacy frames

  /** The call's caller is out of the queue for good and its id is not mapped. */
  predicate Gone(s: State, k: Key) {
    k < |s.calls| && !Early(s, k) && !Pending(s, k) && k + 1 !in s.eventMap
  }

  lemma StepKeepsGone(s: State, step: Step, s': State, k: Key)
    requires IdsInv(s) && Next(s, step, s') && Gone(s, k)
    ensures Gone(s', k)
  {
    StepKeepsOut(s, step, s', k);
    StepKeepsUnmapped(s, step, s', k);
  }

  lemma StepKeepsUnmapped(s: State, step: Step, s': State, k: Key)
    requires IdsInv(s) && Next(s, step, s') && k < |s.calls| && !Early(s, k) && k + 1 !in s.eventMap
    ensures k + 1 !in s'.eventMap
  {
    if step.Receive? {
      ReceivedFrame(s, step.t, step.msg);
    } else if step.Take? {
      MatchedFrame(s, step.t, s.threads[step.t].msg);
    }
  }

  lemma {:induction false} RunKeepsGone(steps: seq<Step>, states: seq<State>, i: nat, j: nat, k: Key)
    requires Run(steps, states) && i <= j <= |steps| && Gone(states[i], k)
    ensures Gone(states[j], k)
  {
    if i < j {
      RunKeepsGone(steps, states, i, j - 1, k);
      RunInv(steps, states, j - 1);
      assert RunStep(steps, states, j - 1);
      StepKeepsGone(states[j - 1], steps[j - 1], states[j], k);
    }
  }

  /** A frame with the id of such a call notifies nobody and completes no request: it is dropped, or
      it is a response that meets no caller. */
  lemma FrameIsHarmless(s: State, k: Key, t: Tid, msg: Message)
    requires IdsInv(s) && Gone(s, k)
    requires msg.id.Some? && ResponseId(msg.id.value) == Some(k + 1)
    ensures Enabled(s, Receive(t, msg)) ==>
              Apply(s, Receive(t, msg)) == s || Apply(s, Receive(t, msg)) == s.(threads := s.threads[t := Routed(msg)])
    ensures Enabled(s, Take(t)) && s.threads[t] == Routed(msg) ==>
              Apply(s, Take(t)) == s.(threads := s.threads - {t})
  {
    RouteById(s.legacy, s.eventMap, msg, k + 1);
  }

  /** Once a call's promise is set and the event map does not have its id, a frame with that id notifies
      nobody and completes no request, at any later time. */
  lemma UnmappedFrameIsHarmless(steps: seq<Step>, states: seq<State>, i: nat, j: nat, k: Key, t: Tid, msg: Message)
    requires Run(steps, states) && i <= j < |steps| && k < |states[i].calls|
    requires states[i].calls[k].sets != [] && k + 1 !in states[i].eventMap
    requires msg.id.Some? && ResponseId(msg.id.value) == Some(k + 1)
    ensures steps[j] == Receive(t, msg) ==>
              states[j + 1].notified == states[j].notified && states[j + 1].calls == states[j].calls
              && states[j + 1].queue == states[j].queue
    ensures steps[j] == Take(t) && t in states[j].threads && states[j].threads[t] == Routed(msg) ==>
              states[j + 1] == states[j].(threads := states[j].threads - {t})
  {
    RunInv(steps, states, i);
    RunInv(steps, states, j);
    assert !Pending(states[i], k);
    RunKeepsGone(steps, states, i, j, k);
    assert RunStep(steps, states, j);
    FrameIsHarmless(states[j], k, t, msg);
  }
}
