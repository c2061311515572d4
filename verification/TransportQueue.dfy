/** The transport's message queue as the object it is: onMessage appends under the lock, and the
    worker that has been told to stop hands over everything that is left.  Every method is proved to be
    a path of the lifecycle machine. */
module TransportQueue {
  import opened Types
  import T = Transport

  class MessageQueue {
    var messages: seq<string>
    var stopping: bool
    var joinable: bool
    /** Payloads given to the parse and dispatch step. */
    var handed: seq<string>
    /** The 32-bit id counter. */
    var counter: nat

    /** The state of the lifecycle machine that this object is in, and the ids it has issued. */
    ghost var model: T.State
    ghost var issued: seq<MsgId>

    /** Between calls, with the worker between payloads. */
    ghost predicate Valid()
      reads this
    {
      T.Inv(model) && !model.worker.Handing?
      && messages == model.queue && stopping == model.stop && joinable == model.joinable && handed == model.handed
    }

    ghost predicate IdsValid()
      reads this
    {
      counter == |issued| % ID_SPACE && forall i :: 0 <= i < |issued| ==> issued[i] == NextId(i)
    }

    constructor ()
      ensures Valid() && IdsValid() && T.Init(model) && issued == []
    {
      messages, handed, counter := [], [], 0;
      stopping, joinable := false, false;
      model := T.State(T.NotStarted, T.Idle, false, false, T.Free, false, false, T.Off, [], [], [], 0);
      issued := [];
    }

    /** In start() it never meets a running worker or an old payload: the stop flag is down and the new
        worker has an empty queue.  Anywhere else it leaves a running worker alone. */
    method StartMessageWorker()
      requires Valid() && (T.Enabled(model, T.StartWorker) || joinable)
      modifies `stopping, `joinable, `model
      ensures Valid() && joinable
      ensures T.Enabled(old(model), T.StartWorker) ==>
                model == T.Apply(old(model), T.StartWorker)
                && !old(joinable) && !stopping && messages == [] && model.worker == T.Waiting
      ensures old(joinable) ==> model == old(model)
    {
      if joinable {
        return;
      }
      T.StepKeeps(model, T.StartWorker);
      model := T.Apply(model, T.StartWorker);
      stopping, joinable := false, true;
    }

    /** A frame of an open connection is never lost to the stop check; what comes when stopping is. */
    method OnMessage(payload: string, text: bool)
      requires Valid() && (T.Enabled(model, T.Frame(payload, text)) || stopping)
      modifies `messages, `model
      ensures Valid() && model.dropped == 0
      ensures T.Enabled(old(model), T.Frame(payload, text)) && text ==>
                T.Path(old(model), [T.Frame(payload, text)] + [T.Enqueue], model)
                && messages == old(messages) + [payload] && model.arrived == old(model).arrived + [payload]
      ensures !text || stopping ==> messages == old(messages) && model == old(model)
    {
      if !text {
        return;
      }
      if stopping {
        return;
      }
      messages := messages + [payload];
      ghost var frame := T.Frame(payload, text);
      ghost var path := Advance(model, [], frame);
      path := Advance(old(model), path, T.Enqueue);
    }

    /** stopMessageWorker, with the worker's loop from the moment the stop flag is set to its join.  In
        disconnect(): all that ever arrived has been handed over, in order.  Without a worker, as in the
        destructor, it only sets the flag. */
    method StopMessageWorker() returns (ghost path: seq<T.Step>)
      requires Valid() && (T.Enabled(model, T.SetStop) || !joinable)
      modifies `messages, `stopping, `joinable, `handed, `model
      ensures Valid() && stopping && !joinable
      ensures T.Enabled(old(model), T.SetStop) ==>
                T.Path(old(model), path, model) && model.control == T.WorkerJoined
                && path == [T.SetStop] + DrainSteps(|old(messages)|) + [T.Exit] + [T.JoinWorker]
                && messages == [] && handed == old(handed) + old(messages) && handed == model.arrived
      ensures !old(joinable) ==> model == old(model).(stop := true)
    {
      stopping := true;
      if joinable {
        path := Advance(model, [], T.SetStop);
        path := Join(old(model), path);
      } else {
        model := model.(stop := true);
        path := [];
      }
    }

    /** Wait until the worker has exited. */
    method Join(ghost from: T.State, ghost before: seq<T.Step>) returns (ghost path: seq<T.Step>)
      requires Valid() && model.control == T.Stopping && model.worker == T.Waiting && T.Path(from, before, model)
      modifies `messages, `joinable, `handed, `model
      ensures Valid() && T.Path(from, path, model)
      ensures path == before + DrainSteps(|old(messages)|) + [T.Exit] + [T.JoinWorker]
      ensures messages == [] && handed == old(handed) + old(messages) && handed == model.arrived
      ensures !joinable && model.control == T.WorkerJoined
    {
      path := ProcessQueuedMessages(from, before);
      path := Advance(from, path, T.JoinWorker);
      joinable := false;
    }

    /** The worker's loop once the stop flag is set. */
    method ProcessQueuedMessages(ghost from: T.State, ghost before: seq<T.Step>) returns (ghost path: seq<T.Step>)
      requires Valid() && model.control == T.Stopping && model.worker == T.Waiting && T.Path(from, before, model)
      modifies `messages, `handed, `model
      ensures Valid() && T.Path(from, path, model) && path == before + DrainSteps(|old(messages)|) + [T.Exit]
      ensures messages == [] && handed == old(handed) + old(messages)
      ensures model.worker == T.Off && model.control == T.Stopping
    {
      path := before;
      ghost var n := 0;
      while messages != []
        invariant Valid() && model.control == T.Stopping && model.worker == T.Waiting
        invariant n + |messages| == |old(messages)| && handed + messages == old(handed) + old(messages)
        invariant T.Path(from, path, model) && path == before + DrainSteps(n)
        decreases |messages|
      {
        path := HandOne(from, path);
        n := n + 1;
      }
      path := Advance(from, path, T.Exit);
    }

    method HandOne(ghost from: T.State, ghost before: seq<T.Step>) returns (ghost path: seq<T.Step>)
      requires Valid() && model.worker == T.Waiting && messages != [] && T.Path(from, before, model)
      modifies `messages, `handed, `model
      ensures Valid() && T.Path(from, path, model) && path == before + [T.Dequeue, T.Hand]
      ensures model.worker == T.Waiting && model.control == old(model).control
      ensures messages == old(messages)[1..] && handed == old(handed) + [old(messages)[0]]
    {
      path := Advance(from, before, T.Dequeue);
      var payload := messages[0];
      messages := messages[1..];
      path := Advance(from, path, T.Hand);
      handed := handed + [payload];
    }

    ghost method Advance(from: T.State, path: seq<T.Step>, step: T.Step) returns (path': seq<T.Step>)
      requires T.Path(from, path, model) && T.Enabled(model, step) && T.Inv(model)
      modifies `model
      ensures model == T.Apply(old(model), step) && T.Inv(model)
      ensures path' == path + [step] && T.Path(from, path', model)
    {
      T.PathMore(from, path, model, step);
      T.StepKeeps(model, step);
      model := T.Apply(model, step);
      path' := path + [step];
    }

    /** An id differs from every earlier one, except those issued a multiple of 2^32 calls before. */
    method GetNextMessageID() returns (id: MsgId)
      requires IdsValid()
      modifies `counter, `issued
      ensures IdsValid() && id < ID_SPACE && issued == old(issued) + [id]
      ensures forall i :: 0 <= i < |old(issued)| ==>
                (old(issued)[i] == id <==> (|old(issued)| - i) % ID_SPACE == 0)
      ensures |old(issued)| < ID_SPACE ==> id !in old(issued)
    {
      CounterWraps(|issued|);
      counter := (counter + 1) % ID_SPACE;
      id := counter;
      IdAgainst(issued, id);
      issued := issued + [id];
    }
  }

  lemma CounterWraps(n: nat)
    ensures (n % ID_SPACE + 1) % ID_SPACE == NextId(n) == (n + 1) % ID_SPACE
  {
  }

  /** Where the next id occurs among the ids issued so far. */
  lemma IdAgainst(issued: seq<MsgId>, id: MsgId)
    requires id == NextId(|issued|) && forall i :: 0 <= i < |issued| ==> issued[i] == NextId(i)
    ensures forall i :: 0 <= i < |issued| ==> (issued[i] == id <==> (|issued| - i) % ID_SPACE == 0)
    ensures |issued| < ID_SPACE ==> id !in issued
  {
    forall i | 0 <= i < |issued|
      ensures issued[i] == id <==> (|issued| - i) % ID_SPACE == 0
      ensures |issued| < ID_SPACE ==> issued[i] != id
    {
      IdsRepeatEvery32Bits(i, |issued|);
    }
  }

  /** The worker's steps for n payloads. */
  function DrainSteps(n: nat): seq<T.Step> {
    if n == 0 then [] else DrainSteps(n - 1) + [T.Dequeue, T.Hand]
  }

  /** The i-th and the j-th id agree exactly when a multiple of 2^32 ids lies between them. */
  lemma IdsRepeatEvery32Bits(i: nat, j: nat)
    requires i <= j
    ensures NextId(i) == NextId(j) <==> (j - i) % ID_SPACE == 0
  {
  }
}
