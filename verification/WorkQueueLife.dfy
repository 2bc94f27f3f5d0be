/** Two whole runs: a transaction from Publish to its last status, and a shutdown with what comes after it. */
module WorkQueueLife {
  import opened Wrappers
  import opened WorkQueue
  import opened WorkQueueInvariant
  import opened WorkQueueBlocking
  import opened WorkQueueStreams

  // ----- one transaction -----

  /** The only transaction and its only subscription, the lock being free. */
  predicate At(s: State, worker: WorkerPc, binder: BinderPc, history: seq<Status>, u: Sub) {
    && s.lock == Lock(None, {}) && s.registry == {1} && s.pipe.worker == worker
    && 1 in s.jobs && s.jobs[1].binder == binder && s.jobs[1].subscriptions == map[1 := 0]
    && s.jobs[1].history == history && history != [] && s.jobs[1].curr == history[|history| - 1]
    && 0 in s.subs && s.subs[0] == u
  }

  /** The subscription with these statuses sent and read. */
  function ReadSub(reader: bool, statuses: seq<Status>, stamps: seq<nat>): Sub {
    Sub(Attached, 1, reader, 1, false, false, None, 0, statuses, stamps, statuses)
  }

  /** The client reads Queued, and the worker announces Processing. */
  lemma RunToAnnounced(reader: bool) returns (states: seq<State>, acts: seq<Action>)
    ensures IsRun(states, acts)
    ensures At(states[|acts|], Calling(1), Broadcasting({1}), [QueuedStatus, ProcessingStatus],
               ReadSub(reader, [QueuedStatus], [0]))
  {
    states, acts := RunToSubscribed(reader);
    var more := [OfSub(0, Receive), OfWorker(WorkerLookup), OfWorker(WorkerSend)];
    var s1 := After(states[|acts|], more[0]);
    var s2 := After(s1, more[1]);
    var s3 := After(s2, more[2]);
    ExtendAll(states, acts, more, [s1, s2, s3]);
    states, acts := states + [s1, s2, s3], acts + more;
    assert s3.jobs[1].subscriptions.Keys == {1};
  }

  /** The current status is broadcast and read. */
  lemma BroadcastIsRead(states0: seq<State>, acts0: seq<Action>, worker: WorkerPc, history: seq<Status>,
                        reader: bool, statuses: seq<Status>, stamps: seq<nat>)
    returns (states: seq<State>, acts: seq<Action>)
    requires IsRun(states0, acts0) && history != [] && history[|history| - 1].phase != Queued
    requires At(states0[|acts0|], worker, Broadcasting({1}), history, ReadSub(reader, statuses, stamps))
    ensures IsRun(states, acts)
    ensures var last := |history| - 1;
            At(states[|acts|], worker, if history[last].phase == Processing then Selecting else Exiting, history,
               ReadSub(reader, statuses + [history[last]], stamps + [last]))
    ensures states[|acts|].pipe == states0[|acts0|].pipe
  {
    var more := [OfBinder(1, BinderSend(1)), OfBinder(1, BinderEnd), OfSub(0, Receive)];
    var s1 := After(states0[|acts0|], more[0]);
    assert s1.jobs[1].binder == Broadcasting({});
    var s2 := After(s1, more[1]);
    var s3 := After(s2, more[2]);
    ExtendAll(states0, acts0, more, [s1, s2, s3]);
    states, acts := states0 + [s1, s2, s3], acts0 + more;
  }

  /** The handler runs and returns e, which the worker reports. */
  lemma RunToReported(reader: bool, e: Option<string>) returns (states: seq<State>, acts: seq<Action>)
    ensures IsRun(states, acts)
    ensures At(states[|acts|], Idle, Broadcasting({1}), [QueuedStatus, ProcessingStatus, Status(Done, e)],
               ReadSub(reader, [QueuedStatus, ProcessingStatus], [0, 1]))
    ensures 1 in states[|acts|].pipe.finished
  {
    var states0, acts0 := RunToAnnounced(reader);
    states0, acts0 := BroadcastIsRead(states0, acts0, Calling(1), [QueuedStatus, ProcessingStatus],
                                      reader, [QueuedStatus], [0]);
    assert [QueuedStatus] + [ProcessingStatus] == [QueuedStatus, ProcessingStatus] && [0] + [1] == [0, 1];
    var more := [OfWorker(WorkerCall), OfWorker(WorkerReturn(e)), OfWorker(WorkerSend)];
    var s1 := After(states0[|acts0|], more[0]);
    var s2 := After(s1, more[1]);
    var s3 := After(s2, more[2]);
    ExtendAll(states0, acts0, more, [s1, s2, s3]);
    states, acts := states0 + [s1, s2, s3], acts0 + more;
    assert s3.jobs[1].subscriptions.Keys == {1};
    assert [QueuedStatus, ProcessingStatus] + [Status(Done, e)] == [QueuedStatus, ProcessingStatus, Status(Done, e)];
  }

  /** The binder closes the channel of its only subscription. */
  lemma ChannelIsClosed(states0: seq<State>, acts0: seq<Action>, history: seq<Status>, u: Sub)
    returns (states: seq<State>, acts: seq<Action>)
    requires IsRun(states0, acts0) && At(states0[|acts0|], Idle, Exiting, history, u)
    requires !u.closed && !u.chanClosed
    ensures IsRun(states, acts)
    ensures var s := states[|acts|];
            && s.lock == Lock(Some(ByBinder(1)), {}) && s.registry == {1} && s.pipe == states0[|acts0|].pipe
            && 1 in s.jobs && s.jobs[1].binder == Sweeping({})
            && 0 in s.subs && s.subs[0] == u.(closed := true, chanClosed := true)
  {
    var more := [OfBinder(1, BinderLock), OfBinder(1, BinderSwap(1)), OfBinder(1, BinderCloseChan)];
    var s1 := After(states0[|acts0|], more[0]);
    assert s1.jobs[1].binder == Sweeping({1});
    var s2 := After(s1, more[1]);
    assert s2.jobs[1].binder == ClosingOne(1, {});
    var s3 := After(s2, more[2]);
    ExtendAll(states0, acts0, more, [s1, s2, s3]);
    states, acts := states0 + [s1, s2, s3], acts0 + more;
  }

  /**
   A whole life: published, subscribed to, handled, and gone from the registry; the client has read every status,
   with the handler's error in the last, and its channel is closed.
   */
  lemma WholeLife(reader: bool, e: Option<string>) returns (states: seq<State>, acts: seq<Action>)
    ensures IsRun(states, acts)
    ensures var s := states[|acts|];
            && s.lock == Lock(None, {}) && s.registry == {} && s.pipe.worker == Idle && 1 in s.pipe.finished
            && 0 in s.subs && s.subs[0].chanClosed
            && s.subs[0].received == [Status(Queued, None), Status(Processing, None), Status(Done, e)]
  {
    hide At, IsRun, Step;
    var statuses := [QueuedStatus, ProcessingStatus, Status(Done, e)];
    states, acts := RunToReported(reader, e);
    states, acts := BroadcastIsRead(states, acts, Idle, statuses, reader, [QueuedStatus, ProcessingStatus], [0, 1]);
    assert [QueuedStatus, ProcessingStatus] + [Status(Done, e)] == statuses;
    states, acts := ChannelIsClosed(states, acts, statuses, ReadSub(reader, statuses, [0, 1] + [2]));
    states, acts := BinderLeaves(states, acts);
  }

  lemma BinderLeaves(states0: seq<State>, acts0: seq<Action>) returns (states: seq<State>, acts: seq<Action>)
    requires IsRun(states0, acts0)
    requires var s := states0[|acts0|];
             && s.lock == Lock(Some(ByBinder(1)), {}) && s.registry == {1}
             && 1 in s.jobs && s.jobs[1].binder == Sweeping({})
    ensures IsRun(states, acts)
    ensures var s, s' := states0[|acts0|], states[|acts|];
            s'.lock == Lock(None, {}) && s'.registry == {} && s'.pipe == s.pipe && s'.subs == s.subs
  {
    var more := [OfBinder(1, BinderDeregister), OfBinder(1, BinderUnlock)];
    var s1 := After(states0[|acts0|], more[0]);
    var s2 := After(s1, more[1]);
    ExtendAll(states0, acts0, more, [s1, s2]);
    states, acts := states0 + [s1, s2], acts0 + more;
  }

  // ----- a shutdown -----

  /** Close shuts the queue down and the idle worker returns. */
  lemma RunToShutdown() returns (states: seq<State>, acts: seq<Action>)
    ensures IsRun(states, acts)
    ensures var s := states[|acts|];
            && s.done && s.lock == Lock(None, {}) && s.pipe == InitPipe.(worker := Stopped)
            && s.callers == map[0 := Returned(ShutDown)] && s.subs == map[] && s.jobs == map[]
  {
    acts := [OfCaller(0, BeginClose), OfCaller(0, CloseLock), OfCaller(0, CloseDone), OfCaller(0, CloseUnlock),
             OfWorker(WorkerStop)];
    var s1 := After(Init, acts[0]);
    var s2 := After(s1, acts[1]);
    var s3 := After(s2, acts[2]);
    var s4 := After(s3, acts[3]);
    var s5 := After(s4, acts[4]);
    states := [Init, s1, s2, s3, s4, s5];
    assert s5.callers == map[0 := Returned(ShutDown)];
  }

  /** Publish is then a no-op. */
  lemma RunToNoOp() returns (states: seq<State>, acts: seq<Action>)
    ensures IsRun(states, acts)
    ensures var s := states[|acts|];
            && s.done && s.lock == Lock(None, {}) && s.pipe == InitPipe.(worker := Stopped)
            && 1 in s.callers && s.callers[1] == Returned(NoOp) && s.subs == map[] && s.jobs == map[]
  {
    states, acts := RunToShutdown();
    var more := [OfCaller(1, BeginPublish), OfCaller(1, PublishLock), OfCaller(1, PublishCheck),
                 OfCaller(1, PublishUnlock)];
    var s1 := After(states[|acts|], more[0]);
    var s2 := After(s1, more[1]);
    var s3 := After(s2, more[2]);
    var s4 := After(s3, more[3]);
    ExtendAll(states, acts, more, [s1, s2, s3, s4]);
    states, acts := states + [s1, s2, s3, s4], acts + more;
  }

  /** And Subscribe returns nothing; no transaction has been registered. */
  lemma AfterShutdown(id: Id, reader: bool) returns (states: seq<State>, acts: seq<Action>)
    ensures IsRun(states, acts)
    ensures var s := states[|acts|];
            && 1 in s.callers && s.callers[1] == Returned(NoOp)
            && 0 in s.subs && s.subs[0].pc == Refused(QueueClosed)
            && s.pipe.idCount == 0 && s.pipe.queue == [] && s.jobs == map[] && s.lock == Lock(None, {})
  {
    states, acts := RunToNoOp();
    var more := [OfSub(0, BeginSubscribe(id, reader)), OfSub(0, SubscribeLock), OfSub(0, SubscribeCheck),
                 OfSub(0, SubscribeUnlock)];
    var s1 := After(states[|acts|], more[0]);
    var s2 := After(s1, more[1]);
    var s3 := After(s2, more[2]);
    var s4 := After(s3, more[3]);
    ExtendAll(states, acts, more, [s1, s2, s3, s4]);
    states, acts := states + [s1, s2, s3, s4], acts + more;
  }
}
