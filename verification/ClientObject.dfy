/** Client as the source has it: a map of pending callers, changed in place, and promises that are
    set after the callers have been taken out of the map.  Each locked block is proved to be the step
    of the same block in Requests, in whatever state of the protocol the map stands for. */
module ClientObject {
  import opened Types
  import opened Routing
  import R = Requests
  import I = RequestInvariants

  class Caller {
    const id: MsgId
    const methodName: string
    const timestamp: Time
    /** The values given to promise.set_value. */
    var sets: seq<Outcome>

    constructor (id: MsgId, methodName: string, now: Time)
      ensures this.id == id && this.methodName == methodName && timestamp == now && sets == []
    {
      this.id := id;
      this.methodName := methodName;
      timestamp := now;
      sets := [];
    }

    /** std::promise throws when it is set a second time. */
    method SetValue(o: Outcome)
      requires sets == []
      modifies this
      ensures sets == [o]
    {
      sets := sets + [o];
    }
  }

  predicate IsExpired(c: Caller, now: Time, waitMs: nat) {
    R.Expired(now, c.timestamp, waitMs)
  }

  function Unexpired(q: map<MsgId, Caller>, now: Time, waitMs: nat): map<MsgId, Caller> {
    map id | id in q && !IsExpired(q[id], now, waitMs) :: q[id]
  }

  // ----- the map as part of a protocol state

  /** The callers in q are those that are pending in s. */
  ghost predicate Represents(q: map<MsgId, Caller>, s: R.State) {
    I.IdsInv(s) && q.Keys == s.queue.Keys
    && forall id :: id in q ==> q[id].timestamp == s.calls[id - 1].madeAt
  }

  lemma TakenRefines(q: map<MsgId, Caller>, s: R.State, t: R.Tid, ids: set<MsgId>, o: Outcome)
    requires Represents(q, s) && ids <= q.Keys
    ensures Represents(q - ids, R.Taken(s, t, ids, o))
    ensures forall id :: id in q ==> (I.Holds(R.Taken(s, t, ids, o), t, id - 1) <==> id in ids)
  {
    forall id | id in q
      ensures I.Holds(R.Taken(s, t, ids, o), t, id - 1) <==> id in ids
    {
      assert s.queue[id] == id - 1;
    }
  }

  /** Both sides agree on who has expired. */
  lemma ExpiredTogether(q: map<MsgId, Caller>, s: R.State)
    requires Represents(q, s)
    ensures forall id :: id in q ==> (id in R.ExpiredIds(s) <==> IsExpired(q[id], s.now, s.waitMs))
    ensures q - R.ExpiredIds(s) == Unexpired(q, s.now, s.waitMs)
    ensures R.ExpiredIds(s) <= q.Keys
  {
    forall id | id in q
      ensures id in R.ExpiredIds(s) <==> IsExpired(q[id], s.now, s.waitMs)
    {
      assert s.queue[id] == id - 1;
    }
  }

  /** checkPromises' locked loop is Expire: what it keeps and whom it will complete. */
  lemma ExpireRefines(q: map<MsgId, Caller>, s: R.State, t: R.Tid)
    requires Represents(q, s) && R.Enabled(s, R.Expire(t))
    ensures Represents(Unexpired(q, s.now, s.waitMs), R.Apply(s, R.Expire(t)))
    ensures forall id :: id in q ==>
              (I.Holds(R.Apply(s, R.Expire(t)), t, id - 1) <==> IsExpired(q[id], s.now, s.waitMs))
  {
    ExpiredTogether(q, s);
    TakenRefines(q, s, t, R.ExpiredIds(s), Failure(ERR_TIMEDOUT));
  }

  /** cancelAll's move out of the map is IoCancel or CtlCancel. */
  lemma CancelRefines(q: map<MsgId, Caller>, s: R.State, step: R.Step)
    requires Represents(q, s) && R.Enabled(s, step) && (step.IoCancel? || step.CtlCancel?)
    ensures Represents(map[], R.Apply(s, step))
    ensures forall id :: id in q ==> I.Holds(R.Apply(s, step), step.t, id - 1)
  {
    TakenRefines(q, s, step.t, s.queue.Keys, Failure(ERR_NOT_CONNECTED));
    assert q - s.queue.Keys == map[];
  }

  /** request()'s store is Enqueue. */
  lemma EnqueueRefines(q: map<MsgId, Caller>, s: R.State, k: R.Key, c: Caller)
    requires Represents(q, s) && R.Enabled(s, R.Enqueue(k)) && c.timestamp == s.calls[k].madeAt
    ensures Represents(q[s.calls[k].id := c], R.Apply(s, R.Enqueue(k)))
  {
  }

  lemma ErasedRefines(q: map<MsgId, Caller>, s: R.State, s': R.State, k: R.Key)
    requires Represents(q, s) && k < |s.calls| && s'.queue == s.queue - {s.calls[k].id}
    requires |s'.calls| == |s.calls| && s'.calls == s.calls[k := s.calls[k].(pc := s'.calls[k].pc)]
    ensures Represents(q - {s.calls[k].id}, s')
  {
  }

  /** Its erase after a failed send is Erase, and says whether the promise is its own to set. */
  lemma EraseRefines(q: map<MsgId, Caller>, s: R.State, k: R.Key)
    requires Represents(q, s) && R.Enabled(s, R.Erase(k))
    ensures Represents(q - {s.calls[k].id}, R.Apply(s, R.Erase(k)))
    ensures R.Apply(s, R.Erase(k)).calls[k].pc.Owning? <==> s.calls[k].id in q
  {
    ErasedRefines(q, s, R.Apply(s, R.Erase(k)), k);
  }

  /** response()'s find and erase is Take. */
  lemma ResponseRefines(q: map<MsgId, Caller>, s: R.State, t: R.Tid)
    requires Represents(q, s) && R.Enabled(s, R.Take(t)) && s.threads[t].msg.id.Some?
    ensures var id := ResponseId(s.threads[t].msg.id.value);
            Represents(if id.Some? then q - {id.value} else q, R.Apply(s, R.Take(t)))
            && (id.Some? && id.value in q ==> I.Holds(R.Apply(s, R.Take(t)), t, id.value - 1))
  {
    var id := ResponseId(s.threads[t].msg.id.value);
    if id.Some? && id.value in q {
      TakenRefines(q, s, t, {id.value}, ReplyOutcome(s.threads[t].msg));
    } else if id.Some? {
      assert q - {id.value} == q;
    }
  }

  method MinId(ids: set<MsgId>) returns (id: MsgId)
    requires ids != {}
    ensures id in ids && forall j :: j in ids ==> id <= j
  {
    id :| id in ids;
    var rest := ids - {id};
    while rest != {}
      invariant id in ids && rest <= ids
      invariant forall j :: j in ids && j !in rest ==> id <= j
      decreases rest
    {
      var j :| j in rest;
      rest := rest - {j};
      if j < id { id := j; }
    }
  }

  class Client {
    var queue: map<MsgId, Caller>

    ghost predicate Valid()
      reads this, queue.Values
    {
      forall id :: id in queue ==> queue[id].id == id && queue[id].sets == []
    }

    constructor ()
      ensures Valid() && queue == map[]
    {
      queue := map[];
    }

    /** The locked loop of checkPromises: erase while iterating in id order. */
    method TakeExpired(now: Time, waitMs: nat) returns (timedOut: seq<Caller>)
      requires Valid()
      modifies `queue
      ensures Valid()
      ensures queue == Unexpired(old(queue), now, waitMs)
      ensures forall i, j :: 0 <= i < j < |timedOut| ==> timedOut[i].id < timedOut[j].id
      ensures forall c :: c in timedOut <==>
                c.id in old(queue) && old(queue)[c.id] == c && IsExpired(c, now, waitMs)
    {
      timedOut := [];
      var todo := queue.Keys;
      while todo != {}
        invariant todo <= queue.Keys <= old(queue).Keys
        invariant forall id :: id in queue ==> queue[id] == old(queue)[id]
        invariant forall id :: id in old(queue) ==>
                    (id !in queue <==> id !in todo && IsExpired(old(queue)[id], now, waitMs))
        invariant forall i, j :: 0 <= i < j < |timedOut| ==> timedOut[i].id < timedOut[j].id
        invariant forall c, id :: c in timedOut && id in todo ==> c.id < id
        invariant forall c :: c in timedOut <==>
                    c.id in old(queue) && c.id !in queue && old(queue)[c.id] == c
        decreases todo
      {
        var it := MinId(todo);
        if IsExpired(queue[it], now, waitMs) {
          timedOut := timedOut + [queue[it]];
          queue := queue - {it};
        }
        todo := todo - {it};
      }
    }

    method CheckPromises(now: Time, waitMs: nat)
      requires Valid()
      modifies this, queue.Values
      ensures Valid()
      ensures queue == Unexpired(old(queue), now, waitMs)
      ensures forall id :: id in old(queue) ==>
                old(queue)[id].sets ==
                if IsExpired(old(queue)[id], now, waitMs) then [Failure(ERR_TIMEDOUT)] else []
    {
      var timedOut := TakeExpired(now, waitMs);
      assert forall c :: c in timedOut ==> c in old(queue).Values;
      SetAll(timedOut, Failure(ERR_TIMEDOUT));
      forall id | id in old(queue)
        ensures old(queue)[id].sets ==
                if IsExpired(old(queue)[id], now, waitMs) then [Failure(ERR_TIMEDOUT)] else []
      {
        assert old(queue)[id] in timedOut <==> IsExpired(old(queue)[id], now, waitMs);
      }
    }

    method CancelAll()
      requires Valid()
      modifies this, queue.Values
      ensures Valid() && queue == map[]
      ensures forall id :: id in old(queue) ==> old(queue)[id].sets == [Failure(ERR_NOT_CONNECTED)]
    {
      var toCancel := queue;
      queue := map[];
      var todo := toCancel.Keys;
      while todo != {}
        invariant queue == map[] && todo <= toCancel.Keys
        invariant forall id :: id in toCancel ==> toCancel[id].id == id
        invariant forall id :: id in toCancel ==>
                    toCancel[id].sets == if id in todo then [] else [Failure(ERR_NOT_CONNECTED)]
        decreases todo
      {
        var it := MinId(todo);
        toCancel[it].SetValue(Failure(ERR_NOT_CONNECTED));
        todo := todo - {it};
      }
    }

    /** The first half of request(): the caller is stored before anything is sent. */
    method Enqueue(id: MsgId, methodName: string, now: Time) returns (c: Caller)
      requires Valid()
      modifies `queue
      ensures Valid() && fresh(c) && c.id == id && c.methodName == methodName && c.timestamp == now
      ensures queue == old(queue)[id := c] && c.sets == []
    {
      c := new Caller(id, methodName, now);
      queue := queue[id := c];
    }

    /** The second half, `sent` being what the transport's send returned.  In between any other thread
        may have taken the caller out of the queue: then its promise is not this call's to set. */
    method FinishSend(c: Caller, sent: ErrorCode)
      requires Valid() && (c.id in queue ==> queue[c.id] == c)
      modifies `queue, c
      ensures Valid()
      ensures queue == if sent == ERR_NONE then old(queue) else old(queue) - {c.id}
      ensures c.sets == if sent != ERR_NONE && c.id in old(queue) then [Failure(sent)] else old(c.sets)
    {
      if sent != ERR_NONE {
        var ownedByUs := c.id in queue;
        queue := queue - {c.id};
        if ownedByUs {
          c.SetValue(Failure(sent));
        }
      }
    }

    /** request() when nobody interferes. */
    method Request(id: MsgId, methodName: string, now: Time, sent: ErrorCode) returns (c: Caller)
      requires Valid()
      modifies `queue
      ensures Valid() && fresh(c) && c.id == id && c.timestamp == now
      ensures sent == ERR_NONE ==> queue == old(queue)[id := c] && c.sets == []
      ensures sent != ERR_NONE ==> queue == old(queue) - {id} && c.sets == [Failure(sent)]
    {
      c := Enqueue(id, methodName, now);
      FinishSend(c, sent);
    }

    /** An id that cannot be converted throws before the queue is touched. */
    method Response(msg: Message)
      requires Valid() && msg.id.Some?
      modifies this, queue.Values
      ensures Valid()
      ensures var id := ResponseId(msg.id.value);
              if id.Some? && id.value in old(queue)
              then queue == old(queue) - {id.value} && old(queue)[id.value].sets == [ReplyOutcome(msg)]
              else queue == old(queue)
      ensures forall j :: j in queue ==> queue[j].sets == []
    {
      var id := ResponseId(msg.id.value);
      if id.None? || id.value !in queue {
        return;
      }
      var c := queue[id.value];
      queue := queue - {id.value};
      c.SetValue(ReplyOutcome(msg));
    }
  }

  method SetAll(cs: seq<Caller>, o: Outcome)
    requires forall i, j :: 0 <= i < j < |cs| ==> cs[i] != cs[j]
    requires forall c :: c in cs ==> c.sets == []
    modifies cs
    ensures forall c :: c in cs ==> c.sets == [o]
  {
    for i := 0 to |cs|
      invariant forall j :: 0 <= j < i ==> cs[j].sets == [o]
      invariant forall j :: i <= j < |cs| ==> cs[j].sets == []
    {
      cs[i].SetValue(o);
    }
  }
}
