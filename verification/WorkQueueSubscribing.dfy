/**
 Calls that wait for a binder.  Subscribe offers its subscription while it holds the read side of the
 registry lock, and Subscription.Close offers its own for deletion.  A binder that has ended, or that
 a closing client jams, takes neither.
 */
module WorkQueueSubscribing {
  import opened Wrappers
  import opened WorkQueue
  import opened WorkQueueInvariant
  import opened WorkQueueFits
  import opened WorkQueueSteps
  import opened WorkQueueGrowth
  import opened WorkQueueRuns
  import opened WorkQueueShutdown
  import opened WorkQueueBlocking
  import opened WorkQueueStreams
  import opened WorkQueueCompletion

  // ----- a binder that does not listen any more -----

  /** The status of the transaction is final, or its binder is jammed. */
  ghost predicate Deaf(s: State, id: Id) {
    !IsLive(s, id) || Jammed(s, id)
  }

  lemma DeafIsNotSelecting(s: State, id: Id)
    requires Inv(s) && Deaf(s, id) && id in s.jobs
    ensures s.jobs[id].binder != Selecting
  {
    HistoryOf(s, id);
  }

  lemma FinalIsLast(j: Job, j': Job)
    requires JobGrows(j, j') && (j.curr.phase == Done || j.curr.phase == Cancelled)
    requires GoodHistory(j.history) && j.curr == j.history[|j.history| - 1]
    requires GoodHistory(j'.history) && j'.curr == j'.history[|j'.history| - 1]
    ensures j'.curr == j.curr
  {}

  lemma FinalStays(s: State, a: Action, id: Id)
    requires Inv(s) && Step(s, a).Some? && id in s.jobs && !IsLive(s, id)
    ensures id in Step(s, a).value.jobs && !IsLive(Step(s, a).value, id)
  {
    hide Inv, Step, GoodHistory, SubGrows, JobGrows;
    var s' := Step(s, a).value;
    StepKeepsInv(s, a);
    StepGrows(s, a);
    HistoryOf(s, id);
    assert id in s'.jobs;
    HistoryOf(s', id);
    FinalIsLast(s.jobs[id], s'.jobs[id]);
  }

  lemma DeafStays(s: State, a: Action, id: Id)
    requires Inv(s) && Step(s, a).Some? && id in s.jobs && Deaf(s, id)
    requires IsLive(s, id) ==> a != OfBinder(id, CancelContext)
    ensures id in Step(s, a).value.jobs && Deaf(Step(s, a).value, id)
    ensures !IsLive(s, id) ==> !IsLive(Step(s, a).value, id)
  {
    hide Inv, Step, IsLive, JammedAt;
    if !IsLive(s, id) {
      FinalStays(s, a, id);
    } else {
      var key :| JammedAt(s, id, key);
      JamStays(s, a, id, key);
      JammedHasJob(Step(s, a).value, id, key);
    }
  }

  lemma JammedHasJob(s: State, id: Id, key: nat)
    requires JammedAt(s, id, key)
    ensures id in s.jobs
  {}

  // ----- Subscribe -----

  /** Subscribe has found the state and offers its subscription to the binder. */
  predicate IsOffering(s: State, x: SubId) {
    x in s.subs && s.subs[x].pc == SubscribeSending
  }

  /** x still offers the same subscription, and behind the lock nothing has changed. */
  predicate SameOffer(s: State, s': State, x: SubId)
    requires x in s.subs
  {
    x in s'.subs && s'.subs[x] == s.subs[x] && s'.pipe.idCount == s.pipe.idCount && s'.registry == s.registry
  }

  /** While there is a reader there is no writer, and no goroutine past taking the write side. */
  lemma ReaderKeepsWritersOut(s: State, x: SubId)
    requires Inv(s) && x in s.subs && s.subs[x].pc.HoldsReadLock()
    ensures s.lock.writer == None && x in s.lock.readers
    ensures forall p :: p in s.callers ==> !s.callers[p].HoldsLock()
    ensures forall id :: id in s.jobs ==> !BinderHoldsLock(s.jobs[id].binder)
  {}

  lemma OfferHasJob(s: State, x: SubId)
    requires Inv(s) && IsOffering(s, x)
    ensures s.subs[x].job in s.jobs
  {
    FreshNow(s, x);
  }

  lemma CallerKeepsOffer(s: State, p: CallerId, act: CallerAction, x: SubId)
    requires CallerStep(s, p, act).Some? && x in s.subs
    requires forall q :: q in s.callers ==> !s.callers[q].HoldsLock()
    ensures SameOffer(s, CallerStep(s, p, act).value, x) && CallerStep(s, p, act).value.done == s.done
  {}

  lemma SubKeepsOffer(s: State, y: SubId, act: SubAction, x: SubId)
    requires SubStep(s, y, act).Some? && IsOffering(s, x) && s.subs[x].job in s.jobs
    requires x == y ==> !act.SubscribeGiveUp? && s.jobs[s.subs[x].job].binder != Selecting
    ensures SameOffer(s, SubStep(s, y, act).value, x)
  {}

  lemma WorkerKeepsOffer(s: State, act: WorkerAction, x: SubId)
    requires WorkerStep(s, act).Some? && x in s.subs
    ensures SameOffer(s, WorkerStep(s, act).value, x)
  {}

  /** The subscriptions a binder works on have been granted. */
  lemma BinderKeepsOffer(s: State, id: Id, act: BinderAction, x: SubId)
    requires BinderStep(s, id, act).Some? && x in s.subs && !s.subs[x].pc.WasGranted()
    requires id in s.jobs && MapOk(id, s.jobs[id], s.subs) && !BinderHoldsLock(s.jobs[id].binder)
    ensures SameOffer(s, BinderStep(s, id, act).value, x)
  {
    if Sends(act) {
      SendKeepsOffer(s, id, act, x);
    }
  }

  lemma SendKeepsOffer(s: State, id: Id, act: BinderAction, x: SubId)
    requires BinderStep(s, id, act).Some? && Sends(act) && x in s.subs && !s.subs[x].pc.WasGranted()
    requires id in s.jobs && MapOk(id, s.jobs[id], s.subs)
    ensures SameOffer(s, BinderStep(s, id, act).value, x)
  {}

  /** An offer stands while the binder does not listen and Subscribe does not give up. */
  lemma OfferStays(s: State, a: Action, x: SubId)
    requires Inv(s) && Step(s, a).Some? && IsOffering(s, x) && a != OfSub(x, SubscribeGiveUp)
    requires s.subs[x].job in s.jobs && s.jobs[s.subs[x].job].binder != Selecting
    ensures SameOffer(s, Step(s, a).value, x)
  {
    hide Inv, CallerStep, SubStep, WorkerStep, BinderStep, MapOk, JobOk;
    ReaderKeepsWritersOut(s, x);
    match a {
      case OfCaller(p, act) => CallerKeepsOffer(s, p, act, x);
      case OfSub(y, act) => SubKeepsOffer(s, y, act, x);
      case OfWorker(act) => WorkerKeepsOffer(s, act, x);
      case OfBinder(i, act) =>
        BinderIsThere(s, i, act);
        JobNow(s, i);
        BinderKeepsOffer(s, i, act, x);
    }
  }

  /**
   From then on, whatever happens but its giving up and the cancellation of a jammed transaction, a
   Subscribe that offers to a deaf binder waits; there is no writer, no transaction is registered, and none,
   its own included, leaves the registry.
   */
  lemma {:induction false} OfferForever(states: seq<State>, acts: seq<Action>, i: nat, j: nat, x: SubId)
    requires IsRun(states, acts) && i <= j < |states|
    requires IsOffering(states[i], x) && Deaf(states[i], states[i].subs[x].job)
    requires forall k :: i <= k < j ==> acts[k] != OfSub(x, SubscribeGiveUp)
    requires IsLive(states[i], states[i].subs[x].job) ==>
              forall k :: i <= k < j ==> acts[k] != OfBinder(states[i].subs[x].job, CancelContext)
    ensures SameOffer(states[i], states[j], x) && Deaf(states[j], states[i].subs[x].job)
    ensures !IsLive(states[i], states[i].subs[x].job) ==> !IsLive(states[j], states[i].subs[x].job)
    ensures states[j].lock.writer == None
  {
    hide Inv, IsRun, Step, IsLive, Deaf;
    RunIsLong(states, acts);
    RunKeepsInv(states, acts, j);
    if i < j {
      OfferForever(states, acts, i, j - 1, x);
      RunKeepsInv(states, acts, j - 1);
      RunStep(states, acts, j - 1);
      OfferHasJob(states[j - 1], x);
      DeafIsNotSelecting(states[j - 1], states[i].subs[x].job);
      OfferStays(states[j - 1], acts[j - 1], x);
      DeafStays(states[j - 1], acts[j - 1], states[i].subs[x].job);
    }
    ReaderKeepsWritersOut(states[j], x);
  }

  /** A Subscribe whose binder is not deaf can still be granted. */
  lemma CanBeGranted(states: seq<State>, acts: seq<Action>, x: SubId)
    returns (states': seq<State>, acts': seq<Action>)
    requires IsRun(states, acts) && IsOffering(states[|acts|], x) && !Deaf(states[|acts|], states[|acts|].subs[x].job)
    ensures Continues(states, acts, states', acts')
    ensures x in states'[|acts'|].subs && states'[|acts'|].subs[x].pc.WasGranted()
  {
    hide Inv, IsRun, Step, Jammed;
    RunIsLong(states, acts);
    var states1, acts1 := BinderWillListen(states, acts, states[|acts|].subs[x].job);
    GrantGoes(states1[|acts1|], x);
    states', acts' := ContinueBy(states1, acts1, OfSub(x, SubscribeSend));
    ContinuesTransitive(states, acts, states1, acts1, states', acts');
  }

  lemma GrantGoes(s: State, x: SubId)
    requires IsOffering(s, x) && s.subs[x].job in s.jobs && s.jobs[s.subs[x].job].binder == Selecting
    ensures CanMove(s, OfSub(x, SubscribeSend))
    ensures var s' := Step(s, OfSub(x, SubscribeSend)).value;
            x in s'.subs && s'.subs[x].pc.WasGranted()
  {}

  /** A waiting Subscribe can be granted without giving up exactly when its binder is not deaf. */
  lemma GrantedUnlessDeaf(states: seq<State>, acts: seq<Action>, x: SubId)
    requires IsRun(states, acts) && IsOffering(states[|acts|], x)
    ensures !Deaf(states[|acts|], states[|acts|].subs[x].job) <==>
              exists states': seq<State>, acts': seq<Action> ::
                && Continues(states, acts, states', acts')
                && x in states'[|acts'|].subs && states'[|acts'|].subs[x].pc.WasGranted()
  {
    hide Inv, IsRun, Deaf;
    RunIsLong(states, acts);
    if !Deaf(states[|acts|], states[|acts|].subs[x].job) {
      var states', acts' := CanBeGranted(states, acts, x);
    }
    forall states': seq<State>, acts': seq<Action> |
      && Continues(states, acts, states', acts')
      && x in states'[|acts'|].subs && states'[|acts'|].subs[x].pc.WasGranted()
      ensures !Deaf(states[|acts|], states[|acts|].subs[x].job)
    {
      if Deaf(states[|acts|], states[|acts|].subs[x].job) {
        OfferForever(states', acts', |acts|, |acts'|, x);
      }
    }
  }

  /** A waiting Subscribe can always give up, and then it releases the lock. */
  lemma GivingUpReleases(states: seq<State>, acts: seq<Action>, x: SubId)
    returns (states': seq<State>, acts': seq<Action>)
    requires IsRun(states, acts) && IsOffering(states[|acts|], x)
    ensures IsRun(states', acts') && states <= states'
    ensures acts' == acts + [OfSub(x, SubscribeGiveUp), OfSub(x, SubscribeUnlock)]
    ensures var s, s' := states[|acts|], states'[|acts'|];
            && x in s'.subs && s'.subs[x].pc == Refused(GaveUp)
            && s'.lock.readers == s.lock.readers - {x} && s'.lock.writer == s.lock.writer
  {
    RunIsLong(states, acts);
    var s1 := After(states[|acts|], OfSub(x, SubscribeGiveUp));
    var s2 := After(s1, OfSub(x, SubscribeUnlock));
    ExtendAll(states, acts, [OfSub(x, SubscribeGiveUp), OfSub(x, SubscribeUnlock)], [s1, s2]);
    states', acts' := states + [s1, s2], acts + [OfSub(x, SubscribeGiveUp), OfSub(x, SubscribeUnlock)];
  }

  /** It happens: the binder has cancelled and waits for the lock, a Subscribe holds it and waits for the binder. */
  lemma SubscribeCanBlock() returns (states: seq<State>, acts: seq<Action>)
    ensures IsRun(states, acts)
    ensures var s := states[|acts|];
            && IsOffering(s, 0) && s.subs[0].job == 1
            && 1 in s.jobs && s.jobs[1].binder == Exiting && !IsLive(s, 1)
  {
    states, acts := RunToCancelled();
    var more := [OfSub(0, BeginSubscribe(1, false)), OfSub(0, SubscribeLock), OfSub(0, SubscribeCheck),
                 OfSub(0, SubscribeLookup), OfBinder(1, BinderEnd)];
    var s1 := After(states[|acts|], more[0]);
    var s2 := After(s1, more[1]);
    var s3 := After(s2, more[2]);
    var s4 := After(s3, more[3]);
    var s5 := After(s4, more[4]);
    ExtendAll(states, acts, more, [s1, s2, s3, s4, s5]);
    states, acts := states + [s1, s2, s3, s4, s5], acts + more;
  }

  // ----- Subscription.Close -----

  /** Close has won its swap and offers the subscription for deletion. */
  predicate IsClosing(s: State, x: SubId) {
    x in s.subs && s.subs[x].pc == Detaching
  }

  predicate SameClosing(s: State, s': State, x: SubId)
    requires x in s.subs
  {
    IsClosing(s', x) && s'.subs[x].job == s.subs[x].job
  }

  lemma SubKeepsClosing(s: State, y: SubId, act: SubAction, x: SubId)
    requires SubStep(s, y, act).Some? && IsClosing(s, x) && s.subs[x].closed
    requires x == y ==> s.subs[x].job in s.jobs && s.jobs[s.subs[x].job].binder != Selecting
    ensures SameClosing(s, SubStep(s, y, act).value, x)
  {}

  lemma BinderKeepsClosing(s: State, id: Id, act: BinderAction, x: SubId)
    requires BinderStep(s, id, act).Some? && IsClosing(s, x)
    ensures SameClosing(s, BinderStep(s, id, act).value, x)
  {
    if Sends(act) {
      SendKeepsClosing(s, id, act, x);
    } else if Closes(act) {
      CloseKeepsClosing(s, id, act, x);
    }
  }

  lemma SendKeepsClosing(s: State, id: Id, act: BinderAction, x: SubId)
    requires BinderStep(s, id, act).Some? && Sends(act) && IsClosing(s, x)
    ensures SameClosing(s, BinderStep(s, id, act).value, x)
  {}

  lemma CloseKeepsClosing(s: State, id: Id, act: BinderAction, x: SubId)
    requires BinderStep(s, id, act).Some? && Closes(act) && IsClosing(s, x)
    ensures SameClosing(s, BinderStep(s, id, act).value, x)
  {}

  lemma ClosingHasJob(s: State, x: SubId)
    requires Inv(s) && IsClosing(s, x)
    ensures s.subs[x].job in s.jobs && s.subs[x].closed
  {
    FitsNow(s, x);
  }

  lemma ClosingStays(s: State, a: Action, x: SubId)
    requires Inv(s) && Step(s, a).Some? && IsClosing(s, x)
    requires s.subs[x].job in s.jobs && s.jobs[s.subs[x].job].binder != Selecting
    ensures SameClosing(s, Step(s, a).value, x)
  {
    hide Inv, SubStep, BinderStep;
    ClosingHasJob(s, x);
    match a {
      case OfCaller(p, act) =>
      case OfSub(y, act) => SubKeepsClosing(s, y, act, x);
      case OfWorker(act) =>
      case OfBinder(i, act) => BinderKeepsClosing(s, i, act, x);
    }
  }

  /** A Close that offers to a deaf binder waits for ever, unless its jammed transaction is cancelled. */
  lemma {:induction false} ClosingForever(states: seq<State>, acts: seq<Action>, i: nat, j: nat, x: SubId)
    requires IsRun(states, acts) && i <= j < |states|
    requires IsClosing(states[i], x) && Deaf(states[i], states[i].subs[x].job)
    requires IsLive(states[i], states[i].subs[x].job) ==>
              forall k :: i <= k < j ==> acts[k] != OfBinder(states[i].subs[x].job, CancelContext)
    ensures SameClosing(states[i], states[j], x) && Deaf(states[j], states[i].subs[x].job)
    ensures !IsLive(states[i], states[i].subs[x].job) ==> !IsLive(states[j], states[i].subs[x].job)
  {
    hide Inv, IsRun, Step, IsLive, Deaf;
    RunIsLong(states, acts);
    if i < j {
      ClosingForever(states, acts, i, j - 1, x);
      RunKeepsInv(states, acts, j - 1);
      RunStep(states, acts, j - 1);
      ClosingHasJob(states[j - 1], x);
      DeafIsNotSelecting(states[j - 1], states[i].subs[x].job);
      ClosingStays(states[j - 1], acts[j - 1], x);
      DeafStays(states[j - 1], acts[j - 1], states[i].subs[x].job);
    }
  }

  /** The subscription is out of its binder's map, and its client has closed the channel. */
  predicate HasClosed(s: State, x: SubId) {
    x in s.subs && s.subs[x].pc == ClientClosed && s.subs[x].chanClosed
  }

  lemma CanClose(states: seq<State>, acts: seq<Action>, x: SubId)
    returns (states': seq<State>, acts': seq<Action>)
    requires IsRun(states, acts) && IsClosing(states[|acts|], x) && !Deaf(states[|acts|], states[|acts|].subs[x].job)
    ensures Continues(states, acts, states', acts') && HasClosed(states'[|acts'|], x)
  {
    hide Inv, IsRun, Step, Jammed;
    RunIsLong(states, acts);
    var states1, acts1 := BinderWillListen(states, acts, states[|acts|].subs[x].job);
    LetGo(states1[|acts1|], x);
    var states2, acts2 := ContinueBy(states1, acts1, OfSub(x, DetachSend));
    RunKeepsInv(states2, acts2, |acts2|);
    DetachedIsOpen(states2[|acts2|], x);
    CloseReturns(states2[|acts2|], x);
    states', acts' := ContinueBy(states2, acts2, OfSub(x, DetachClose));
    ContinuesTransitive(states, acts, states1, acts1, states2, acts2);
    ContinuesTransitive(states, acts, states2, acts2, states', acts');
  }

  lemma LetGo(s: State, x: SubId)
    requires IsClosing(s, x) && s.subs[x].job in s.jobs && s.jobs[s.subs[x].job].binder == Selecting
    ensures CanMove(s, OfSub(x, DetachSend))
    ensures var s' := Step(s, OfSub(x, DetachSend)).value;
            x in s'.subs && s'.subs[x].pc == Detached
  {}

  lemma CloseReturns(s: State, x: SubId)
    requires x in s.subs && s.subs[x].pc == Detached && !s.subs[x].chanClosed
    ensures CanMove(s, OfSub(x, DetachClose)) && HasClosed(Step(s, OfSub(x, DetachClose)).value, x)
  {}

  lemma DetachedIsOpen(s: State, x: SubId)
    requires Inv(s) && x in s.subs && s.subs[x].pc == Detached
    ensures !s.subs[x].chanClosed
  {
    hide StreamOk, SentOk;
    FitsNow(s, x);
  }

  /** A Close that waits for the binder can return, with its channel closed, exactly when the binder is not deaf. */
  lemma ClosesUnlessDeaf(states: seq<State>, acts: seq<Action>, x: SubId)
    requires IsRun(states, acts) && IsClosing(states[|acts|], x)
    ensures !Deaf(states[|acts|], states[|acts|].subs[x].job) <==>
              exists states': seq<State>, acts': seq<Action> ::
                Continues(states, acts, states', acts') && HasClosed(states'[|acts'|], x)
  {
    hide Inv, IsRun, Deaf;
    RunIsLong(states, acts);
    if !Deaf(states[|acts|], states[|acts|].subs[x].job) {
      var states', acts' := CanClose(states, acts, x);
    }
    forall states': seq<State>, acts': seq<Action> |
      Continues(states, acts, states', acts') && HasClosed(states'[|acts'|], x)
      ensures !Deaf(states[|acts|], states[|acts|].subs[x].job)
    {
      if Deaf(states[|acts|], states[|acts|].subs[x].job) {
        ClosingForever(states', acts', |acts|, |acts'|, x);
      }
    }
  }

  /** The worker announces a transaction whose client has not read its first status. */
  lemma RunToAnnounced() returns (states: seq<State>, acts: seq<Action>)
    ensures IsRun(states, acts)
    ensures var s := states[|acts|];
            && s.pipe.worker == Calling(1) && !s.done
            && 1 in s.jobs && s.jobs[1].binder == Broadcasting({1}) && s.jobs[1].subscriptions == map[1 := 0]
            && !s.jobs[1].cancelled
            && 0 in s.subs && s.subs[0]
                == Sub(Attached, 1, false, 1, false, false, Some(QueuedStatus), 0, [QueuedStatus], [0], [])
  {
    states, acts := RunToSubscribed(false);
    var more := [OfWorker(WorkerLookup), OfWorker(WorkerSend)];
    var s1 := After(states[|acts|], more[0]);
    var s2 := After(s1, more[1]);
    ExtendAll(states, acts, more, [s1, s2]);
    states, acts := states + [s1, s2], acts + more;
  }

  /**
   It happens: a client that has not read its first status closes its subscription while Processing is
   broadcast.  Nothing is cancelled or shut down, and the worker is left with the final status in its hands.
   */
  lemma CloseCanJam() returns (states: seq<State>, acts: seq<Action>)
    ensures IsRun(states, acts)
    ensures var s := states[|acts|];
            && s.pipe.worker.Reporting? && Waits(s.pipe, 1) && JammedAt(s, 1, 1)
            && !Halted(s) && Blocked(s) && !s.done && !s.jobs[1].cancelled
  {
    states, acts := RunToAnnounced();
    var more := [OfSub(0, CloseSubscription), OfWorker(WorkerCall), OfWorker(WorkerReturn(None))];
    var s1 := After(states[|acts|], more[0]);
    var s2 := After(s1, more[1]);
    var s3 := After(s2, more[2]);
    ExtendAll(states, acts, more, [s1, s2, s3]);
    states, acts := states + [s1, s2, s3], acts + more;
    assert JammedAt(s3, 1, 1);
  }
}
