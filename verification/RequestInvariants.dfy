/** Inductive invariants of the pending-request protocol: who is responsible for each promise,
    and why no request is stranded by a lost connection. */
module RequestInvariants {
  import opened Types
  import opened Routing
  import opened Requests

  predicate Holds(s: State, t: Tid, k: Key) {
    t in s.threads && s.threads[t].Holding? && k in s.threads[t].keys
  }

  /** The call has not yet put its caller in the queue. */
  predicate Early(s: State, k: Key)
    requires k < |s.calls|
  {
    s.calls[k].pc.Issued? || s.calls[k].pc.Made?
  }

  predicate Pending(s: State, k: Key) { k + 1 in s.queue }

  ghost predicate IdsInv(s: State) {
    |s.calls| < ID_SPACE
    && (forall k :: 0 <= k < |s.calls| ==> s.calls[k].id == k + 1)
    && (forall id :: id in s.queue ==> id == s.queue[id] + 1 && s.queue[id] < |s.calls|)
  }

  /** Nobody else is responsible for a caller that is in the queue. */
  ghost predicate QueueInv(s: State) {
    forall k :: 0 <= k < |s.calls| && Pending(s, k) ==>
      !Early(s, k) && !s.calls[k].pc.Owning? && s.calls[k].sets == []
  }

  ghost predicate HolderInv(s: State) {
    forall t: Tid, k: Key :: Holds(s, t, k) ==>
      k < |s.calls| && !Pending(s, k) && !Early(s, k) && !s.calls[k].pc.Owning?
      && s.calls[k].sets == []
  }

  ghost predicate SoleHolder(s: State) {
    forall t: Tid, u: Tid, k: Key :: Holds(s, t, k) && Holds(s, u, k) ==> t == u
  }

  ghost predicate CallInv(s: State) {
    forall k :: 0 <= k < |s.calls| ==>
      |s.calls[k].sets| <= 1 && ((Early(s, k) || s.calls[k].pc.Owning?) ==> s.calls[k].sets == [])
  }

  /** No caller is lost: outside the queue and with its promise unset, somebody holds it. */
  ghost predicate NoneLost(s: State) {
    forall k :: 0 <= k < |s.calls| && !Early(s, k) && !Pending(s, k) && s.calls[k].sets == [] ==>
      s.calls[k].pc.Owning? || exists t: Tid :: Holds(s, t, k)
  }

  ghost predicate OwnershipInv(s: State) {
    IdsInv(s) && QueueInv(s) && HolderInv(s) && SoleHolder(s) && CallInv(s) && NoneLost(s)
  }

  /** A caller whose own request() call will still take it out of the queue if it fails. */
  predicate SelfCleaning(s: State, k: Key)
    requires k < |s.calls|
  {
    s.calls[k].pc.Enqueued? || s.calls[k].pc.Failing?
  }

  /** The connection is down and cancelAll has run for this down period. */
  predicate DownAndCancelled(s: State) {
    s.status != Connected && s.io != Due && s.ctl != Due
  }

  ghost predicate StrandInv(s: State) {
    DownAndCancelled(s) ==>
      forall k :: 0 <= k < |s.calls| && Pending(s, k) ==> SelfCleaning(s, k)
  }

  ghost predicate Inv(s: State) { OwnershipInv(s) && StrandInv(s) }

  // ----- preservation, one lemma for each kind of step

  lemma InitInv(s: State)
    requires Init(s)
    ensures Inv(s)
  {
  }

  lemma IssueKeeps(s: State)
    requires Inv(s) && Enabled(s, Issue)
    ensures Inv(Apply(s, Issue))
  {
    var s' := Apply(s, Issue);
    assert forall t: Tid, k: Key :: Holds(s', t, k) <==> Holds(s, t, k);
    assert forall k :: 0 <= k < |s.calls| ==> s'.calls[k] == s.calls[k];
  }

  /** A change of one call's program counter that moves no caller. */
  lemma PcChangeKeeps(s: State, s': State, k: Key)
    requires OwnershipInv(s) && k < |s.calls|
    requires s'.queue == s.queue && s'.threads == s.threads
    requires |s'.calls| == |s.calls| && s'.calls == s.calls[k := s'.calls[k]]
    requires s'.calls[k].id == s.calls[k].id && s'.calls[k].sets == s.calls[k].sets
    requires Early(s', k) == Early(s, k) && !s.calls[k].pc.Owning? && !s'.calls[k].pc.Owning?
    ensures OwnershipInv(s')
  {
    assert forall t: Tid, j: Key :: Holds(s', t, j) <==> Holds(s, t, j);
    assert forall j: Key :: Pending(s', j) <==> Pending(s, j);
    assert forall j :: 0 <= j < |s.calls| ==> Early(s', j) == Early(s, j);
    assert forall j :: 0 <= j < |s.calls| && j != k ==> s'.calls[j] == s.calls[j];
  }

  /** Steps of a request() call that leave its caller where it is. */
  lemma CallStepKeeps(s: State, step: Step)
    requires Inv(s) && Enabled(s, step)
    requires step.Make? || step.Check? || step.Send?
    ensures Inv(Apply(s, step))
  {
    PcChangeKeeps(s, Apply(s, step), step.k);
  }

  lemma EnqueueKeeps(s: State, k: Key)
    requires Inv(s) && Enabled(s, Enqueue(k))
    ensures s.calls[k].id !in s.queue
    ensures Inv(Apply(s, Enqueue(k)))
  {
    var s' := Apply(s, Enqueue(k));
    assert !Pending(s, k) && s.calls[k].id == k + 1;
    QueuedKeeps(s, s', k);
  }

  /** An early call's caller enters the queue. */
  lemma QueuedKeeps(s: State, s': State, k: Key)
    requires OwnershipInv(s) && k < |s.calls| && Early(s, k)
    requires s'.queue == s.queue[k + 1 := k] && s'.threads == s.threads
    requires |s'.calls| == |s.calls| && s'.calls == s.calls[k := s'.calls[k]]
    requires s'.calls[k].id == s.calls[k].id && s'.calls[k].sets == s.calls[k].sets
    requires s'.calls[k].pc.Enqueued?
    ensures OwnershipInv(s')
    ensures forall j: Key :: Pending(s', j) <==> Pending(s, j) || j == k
  {
    assert forall t: Tid, j: Key :: Holds(s', t, j) <==> Holds(s, t, j);
    assert forall j :: 0 <= j < |s.calls| && j != k ==> s'.calls[j] == s.calls[j];
    assert forall j :: 0 <= j < |s.calls| && j != k ==> Early(s', j) == Early(s, j);
  }

  lemma EraseKeeps(s: State, k: Key)
    requires Inv(s) && Enabled(s, Erase(k))
    ensures Inv(Apply(s, Erase(k)))
  {
    var s' := Apply(s, Erase(k));
    if Pending(s, k) {
      OwnKeeps(s, s', k);
    } else {
      PcChangeKeeps(s, s', k);
    }
  }

  /** A request() call takes its own caller out of the queue. */
  lemma OwnKeeps(s: State, s': State, k: Key)
    requires OwnershipInv(s) && k < |s.calls| && Pending(s, k)
    requires s'.queue == s.queue - {k + 1} && s'.threads == s.threads
    requires |s'.calls| == |s.calls| && s'.calls == s.calls[k := s.calls[k].(pc := s'.calls[k].pc)]
    requires s'.calls[k].pc.Owning?
    ensures OwnershipInv(s')
  {
    assert forall t: Tid, j: Key :: Holds(s', t, j) <==> Holds(s, t, j);
    assert forall j: Key :: Pending(s', j) <==> Pending(s, j) && j != k;
    assert forall j :: 0 <= j < |s.calls| ==> Early(s', j) == Early(s, j);
    assert forall j :: 0 <= j < |s.calls| && j != k ==> s'.calls[j] == s.calls[j];
  }

  lemma SetOwnKeeps(s: State, k: Key)
    requires Inv(s) && Enabled(s, SetOwn(k))
    ensures s.calls[k].sets == []
    ensures Inv(Apply(s, SetOwn(k)))
  {
    var s' := Apply(s, SetOwn(k));
    assert forall t: Tid, j: Key :: Holds(s', t, j) <==> Holds(s, t, j);
    assert forall t: Tid :: !Holds(s, t, k);
    SetKeeps(s, s', k);
  }

  /** Setting the unset promise of a caller that is neither queued nor held any more. */
  lemma SetKeeps(s: State, s': State, k: Key)
    requires OwnershipInv(s) && k < |s.calls| && !Pending(s, k) && !Early(s, k)
    requires s'.queue == s.queue && |s'.calls| == |s.calls|
    requires s'.calls == s.calls[k := s'.calls[k]] && s'.calls[k].id == s.calls[k].id
    requires |s'.calls[k].sets| == 1 && !Early(s', k) && !s'.calls[k].pc.Owning?
    requires forall t: Tid, j: Key :: Holds(s', t, j) <==> Holds(s, t, j) && j != k
    ensures OwnershipInv(s')
    ensures forall j: Key :: Pending(s', j) <==> Pending(s, j)
  {
  }

  /** Moving callers from the queue to a thread that held none. */
  lemma TakenKeeps(s: State, t: Tid, ids: set<MsgId>, o: Outcome)
    requires Inv(s) && ids <= s.queue.Keys
    requires t in s.threads ==> s.threads[t].Routed?
    ensures Inv(Taken(s, t, ids, o))
    ensures ids == s.queue.Keys ==> Taken(s, t, ids, o).queue == map[]
  {
    var s' := Taken(s, t, ids, o);
    forall k: Key
      ensures Holds(s', t, k) <==> k + 1 in ids
    {
      if k + 1 in ids { assert s.queue[k + 1] == k; }
    }
    assert forall u: Tid, k: Key :: u != t ==> (Holds(s', u, k) <==> Holds(s, u, k));
    assert forall k: Key :: Pending(s', k) <==> Pending(s, k) && k + 1 !in ids;
    assert forall k: Key :: !Holds(s, t, k);
    assert forall k :: 0 <= k < |s.calls| ==> Early(s', k) == Early(s, k);
    forall k | 0 <= k < |s.calls| && !Early(s', k) && !Pending(s', k) && s'.calls[k].sets == []
      ensures s'.calls[k].pc.Owning? || exists u: Tid :: Holds(s', u, k)
    {
      if Pending(s, k) {
        assert Holds(s', t, k);
      } else if !s.calls[k].pc.Owning? {
        var u: Tid :| Holds(s, u, k);
        assert Holds(s', u, k);
      }
    }
  }

  lemma ExpiredIdsQueued(s: State)
    ensures ExpiredIds(s) <= s.queue.Keys
  {
  }

  /** Cancellation also discharges the obligation of this down period. */
  lemma CancelKeeps(s: State, step: Step)
    requires Inv(s) && Enabled(s, step)
    requires step.IoCancel? || step.CtlCancel?
    ensures Inv(Apply(s, step)) && Apply(s, step).queue == map[]
  {
    TakenKeeps(s, step.t, s.queue.Keys, Failure(ERR_NOT_CONNECTED));
    var a := Taken(s, step.t, s.queue.Keys, Failure(ERR_NOT_CONNECTED));
    SameHolders(a, Apply(s, step));
  }

  /** Ownership depends only on the calls, the queue and who holds what. */
  lemma SameHolders(s: State, s': State)
    requires OwnershipInv(s)
    requires s'.calls == s.calls && s'.queue == s.queue
    requires forall t: Tid, k: Key :: Holds(s', t, k) <==> Holds(s, t, k)
    ensures OwnershipInv(s')
    ensures forall k: Key :: Pending(s', k) <==> Pending(s, k)
  {
  }

  /** Ownership is kept when the threads' holdings do not change. */
  lemma ThreadsKeep(s: State, s': State)
    requires Inv(s)
    requires s'.calls == s.calls && s'.queue == s.queue
    requires s'.status == s.status && s'.io == s.io && s'.ctl == s.ctl
    requires forall t: Tid, k: Key :: Holds(s', t, k) <==> Holds(s, t, k)
    ensures Inv(s')
  {
  }

  lemma ConnectionStepKeeps(s: State, step: Step)
    requires Inv(s) && Enabled(s, step)
    requires step.Start? || step.Dial? || step.StartWatchdog? || step.Open? || step.Close? || step.Join? || step.Reset?
             || step.Tick? || step.MapEvent? || step.MapErase?
    ensures Inv(Apply(s, step))
  {
    SameHolders(s, Apply(s, step));
  }

  lemma ReceivedFrame(s: State, t: Tid, msg: Message)
    ensures var r := Received(s, t, msg);
            r == s.(threads := r.threads, notified := r.notified)
            && (r.threads == s.threads
                || (r.threads == s.threads[t := Routed(msg)] && RouteOf(s.legacy, s.eventMap, msg).ToClient?))
  {
  }

  lemma MatchedFrame(s: State, t: Tid, msg: Message)
    ensures var r := Matched(s, t, msg);
            r == s.(threads := r.threads, queue := r.queue) && r.queue.Keys <= s.queue.Keys
            && (r.threads == s.threads - {t}
                || (t in r.threads && r.threads[t].Holding? && r.threads == s.threads[t := r.threads[t]]))
  {
  }

  lemma ReceiveKeeps(s: State, t: Tid, msg: Message)
    requires Inv(s) && t !in s.threads
    ensures Inv(Received(s, t, msg))
  {
    ReceivedFrame(s, t, msg);
    ThreadsKeep(s, Received(s, t, msg));
  }

  lemma TakeKeeps(s: State, t: Tid)
    requires Inv(s) && Enabled(s, Take(t))
    ensures Inv(Apply(s, Take(t)))
  {
    var s' := Apply(s, Take(t));
    if s'.queue != s.queue {
      var id := ResponseId(s.threads[t].msg.id.value).value;
      TakenKeeps(s, t, {id}, ReplyOutcome(s.threads[t].msg));
    } else {
      ThreadsKeep(s, s');
    }
  }

  lemma ExpireKeeps(s: State, t: Tid)
    requires Inv(s) && Enabled(s, Expire(t))
    ensures Inv(Apply(s, Expire(t)))
  {
    ExpiredIdsQueued(s);
    TakenKeeps(s, t, ExpiredIds(s), Failure(ERR_TIMEDOUT));
    var a := Taken(s, t, ExpiredIds(s), Failure(ERR_TIMEDOUT));
    SameHolders(a, Apply(s, Expire(t)));
  }

  lemma FulfilKeeps(s: State, t: Tid, k: Key)
    requires Inv(s) && Enabled(s, Fulfil(t, k))
    ensures s.calls[k].sets == []
    ensures Inv(Apply(s, Fulfil(t, k)))
  {
    var s' := Apply(s, Fulfil(t, k));
    assert Holds(s, t, k);
    assert forall u: Tid, j: Key :: Holds(s', u, j) <==> Holds(s, u, j) && !(u == t && j == k);
    SetKeeps(s, s', k);
  }

  lemma FinishKeeps(s: State, t: Tid)
    requires Inv(s) && Enabled(s, Finish(t))
    ensures Inv(Apply(s, Finish(t)))
  {
    SameHolders(s, Apply(s, Finish(t)));
  }

  /** Every step keeps the invariant, and no set_value meets a promise that is already set. */
  lemma StepKeeps(s: State, step: Step)
    requires Inv(s) && Enabled(s, step)
    ensures Inv(Apply(s, step))
  {
    match step
    case Issue => IssueKeeps(s);
    case Enqueue(k) => EnqueueKeeps(s, k);
    case Erase(k) => EraseKeeps(s, k);
    case SetOwn(k) => SetOwnKeeps(s, k);
    case Receive(t, msg) => ReceiveKeeps(s, t, msg);
    case Take(t) => TakeKeeps(s, t);
    case Expire(t) => ExpireKeeps(s, t);
    case Fulfil(t, k) => FulfilKeeps(s, t, k);
    case Finish(t) => FinishKeeps(s, t);
    case IoCancel(t) => CancelKeeps(s, step);
    case CtlCancel(t) => CancelKeeps(s, step);
    case Make(k) => CallStepKeeps(s, step);
    case Check(k) => CallStepKeeps(s, step);
    case Send(k, e) => CallStepKeeps(s, step);
    case _ => ConnectionStepKeeps(s, step);
  }

  lemma {:induction false} RunInv(steps: seq<Step>, states: seq<State>, n: nat)
    requires Run(steps, states) && n <= |steps|
    ensures Inv(states[n])
  {
    if n == 0 {
      InitInv(states[0]);
    } else {
      RunInv(steps, states, n - 1);
      assert RunStep(steps, states, n - 1);
      StepKeeps(states[n - 1], steps[n - 1]);
    }
  }
}
