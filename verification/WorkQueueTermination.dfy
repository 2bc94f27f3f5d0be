/**
 Termination.  A measure falls on every step of every run that changes something and does not begin
 a call, whatever is cancelled, shut down or closed.  So once calls stop a run changes nothing more after
 boundedly many steps, and where it can only stutter every accepted transaction is completed or the
 worker is blocked.
 */
module WorkQueueTermination {
  import opened Wrappers
  import opened WorkQueue
  import opened WorkQueueInvariant
  import opened WorkQueueFits
  import opened WorkQueueSteps
  import opened WorkQueueGrowth
  import opened WorkQueueRuns
  import opened WorkQueueShutdown
  import opened WorkQueueCompletion
  import opened Sets
  import opened Sums

  // ----- the measure -----

  const PUBLISH_WORK := 20
  const CLOSE_WORK := 3
  const SUBSCRIBE_WORK := 17

  function CallerWork(pc: CallerPc): nat {
    match pc
    case PublishWaiting => PUBLISH_WORK
    case PublishLocked => 19
    case PublishOpen => 18
    case PublishPushing(_) => 9
    case PublishLeaving(_) => 1
    case CloseWaiting => CLOSE_WORK
    case CloseLocked => 2
    case CloseLeaving => 1
    case Returned(_) => 0
  }

  /** Each queued transaction is worth what the worker does with it; returning or crashing is the last thing it does. */
  function PipeWork(q: Pipe): nat {
    Remaining(q) + Count(!q.worker.Stopped? && !q.worker.Crashed?)
  }

  /** The binder's steps but for those on its subscriptions. */
  function BinderWork(b: BinderPc, phase: Phase): nat {
    match b
    case Selecting => if phase == Processing then 5 else 7
    case Greeting(_) => if phase == Processing then 5 else 7
    case Removing(_) => if phase == Processing then 6 else 8
    case Broadcasting(_) => if phase == Processing then 6 else 4
    case Exiting => 3
    case Sweeping(_) => 2
    case ClosingOne(_, _) => 2
    case Deregistered => 1
    case Finished => 0
  }

  /** The subscriptions the binder has still to sweep. */
  function Unswept(j: Job): nat {
    match j.binder
    case Sweeping(todo) => |todo|
    case ClosingOne(_, todo) => |todo|
    case Deregistered => 0
    case Finished => 0
    case _ => |j.subscriptions|
  }

  function JobWork(j: Job): nat {
    BinderWork(j.binder, j.curr.phase) + Unswept(j) + Count(!j.cancelled)
  }

  /** Two steps for each status still to come, one for a full buffer, two to close the channel. */
  function StreamWork(u: Sub): nat {
    (if |u.sent| < 3 then 2 * (3 - |u.sent|) else 0)
    + Count(u.buffer.Some?) + Count(!u.closed) + Count(!u.chanClosed)
  }

  function SubWork(u: Sub): nat {
    match u.pc
    case SubscribeWaiting => SUBSCRIBE_WORK
    case SubscribeLocked => 16
    case SubscribeOpen => 15
    case SubscribeSending => 14
    case SubscribeLeaving(outcome) => if outcome == Granted then 4 + StreamWork(u) else 1
    case Refused(_) => 0
    case Attached => 3 + StreamWork(u)
    case Detaching => 3 + StreamWork(u)
    case Detached => 1 + StreamWork(u)
    case ClientClosed => 1 + StreamWork(u)
  }

  ghost function Work(s: State): nat {
    Sum(s.callers, CallerWork) + PipeWork(s.pipe) + Sum(s.jobs, JobWork) + Sum(s.subs, SubWork)
  }

  // ----- steps that change nothing, and the work of a call -----

  /** A cancellation repeated, or noticed while Processing; a Close that loses its swap. */
  predicate Stutters(s: State, a: Action) {
    match a
    case OfBinder(id, BinderCancel) => id in s.jobs && s.jobs[id].curr.phase == Processing
    case OfBinder(id, CancelContext) => id in s.jobs && s.jobs[id].cancelled
    case OfSub(x, CloseSubscription) => x in s.subs && s.subs[x].closed
    case _ => false
  }

  /** The work a call brings with it. */
  function BeginWork(a: Action): nat {
    match a
    case OfCaller(_, BeginPublish) => PUBLISH_WORK
    case OfCaller(_, BeginClose) => CLOSE_WORK
    case OfSub(_, BeginSubscribe(_, _)) => SUBSCRIBE_WORK
    case _ => 0
  }

  lemma StutterChangesNothing(s: State, a: Action)
    requires Step(s, a).Some? && Stutters(s, a)
    ensures Step(s, a).value == s
  {
    match a {
      case OfBinder(id, act) =>
        assert act.CancelContext? ==> s.jobs == s.jobs[id := s.jobs[id].(cancelled := true)];
      case _ =>
    }
  }

  // ----- from one caller, job or subscription to the sums -----

  lemma CallerLowersWork(s: State, s': State, p: CallerId)
    requires s' == s.(callers := s'.callers, lock := s'.lock, done := s'.done)
    requires p in s.callers && p in s'.callers && s'.callers == s.callers[p := s'.callers[p]]
    requires CallerWork(s'.callers[p]) < CallerWork(s.callers[p])
    ensures Work(s') < Work(s)
  {
    SumUpdate(s.callers, CallerWork, p, s'.callers[p]);
  }

  lemma JobLowersWork(s: State, s': State, id: Id)
    requires s'.callers == s.callers && s'.pipe == s.pipe && s'.subs == s.subs
    requires id in s.jobs && id in s'.jobs && s'.jobs == s.jobs[id := s'.jobs[id]]
    requires JobWork(s'.jobs[id]) < JobWork(s.jobs[id])
    ensures Work(s') < Work(s)
  {
    SumUpdate(s.jobs, JobWork, id, s'.jobs[id]);
  }

  lemma SubLowersWork(s: State, s': State, x: SubId)
    requires s'.callers == s.callers && s'.pipe == s.pipe && s'.jobs == s.jobs
    requires x in s.subs && x in s'.subs && s'.subs == s.subs[x := s'.subs[x]]
    requires SubWork(s'.subs[x]) < SubWork(s.subs[x])
    ensures Work(s') < Work(s)
  {
    SumUpdate(s.subs, SubWork, x, s'.subs[x]);
  }

  lemma BothLowerWork(s: State, s': State, id: Id, x: SubId)
    requires s'.callers == s.callers && s'.pipe == s.pipe
    requires id in s.jobs && id in s'.jobs && s'.jobs == s.jobs[id := s'.jobs[id]]
    requires x in s.subs && x in s'.subs && s'.subs == s.subs[x := s'.subs[x]]
    requires JobWork(s'.jobs[id]) + SubWork(s'.subs[x]) < JobWork(s.jobs[id]) + SubWork(s.subs[x])
    ensures Work(s') < Work(s)
  {
    SumUpdate(s.jobs, JobWork, id, s'.jobs[id]);
    SumUpdate(s.subs, SubWork, x, s'.subs[x]);
  }

  // ----- callers -----

  lemma BeginCallWorks(s: State, p: CallerId, act: CallerAction)
    requires CallerStep(s, p, act).Some? && (act.BeginPublish? || act.BeginClose?)
    ensures Work(CallerStep(s, p, act).value) == Work(s) + BeginWork(OfCaller(p, act))
  {
    SumUpdate(s.callers, CallerWork, p, CallerStep(s, p, act).value.callers[p]);
  }

  /** A registration pays for the new job. */
  lemma RegisterWorks(s: State, p: CallerId, ctxDone: bool)
    requires PublishRegisterStep(s, p, ctxDone).Some? && s.pipe.idCount + 1 !in s.jobs
    ensures Work(PublishRegisterStep(s, p, ctxDone).value) < Work(s)
  {
    hide Work, JobWork, NewJob;
    NewJobWork(ctxDone);
    NewJobIsPaid(s, PublishRegisterStep(s, p, ctxDone).value, p, s.pipe.idCount + 1);
  }

  lemma NewJobIsPaid(s: State, s': State, p: CallerId, id: Id)
    requires PipeWork(s'.pipe) == PipeWork(s.pipe) && s'.subs == s.subs
    requires p in s.callers && p in s'.callers && s'.callers == s.callers[p := s'.callers[p]]
    requires id !in s.jobs && id in s'.jobs && s'.jobs == s.jobs[id := s'.jobs[id]]
    requires CallerWork(s'.callers[p]) + JobWork(s'.jobs[id]) < CallerWork(s.callers[p])
    ensures Work(s') < Work(s)
  {
    SumUpdate(s.callers, CallerWork, p, s'.callers[p]);
    SumUpdate(s.jobs, JobWork, id, s'.jobs[id]);
  }

  lemma NewJobWork(ctxDone: bool)
    ensures JobWork(NewJob(ctxDone)) <= 8
  {}

  /** A push, accepted or not, pays for the queue. */
  lemma PushWorks(s: State, p: CallerId)
    requires PublishPushStep(s, p).Some?
    ensures Work(PublishPushStep(s, p).value) < Work(s)
  {
    SumUpdate(s.callers, CallerWork, p, PublishPushStep(s, p).value.callers[p]);
  }

  lemma CallerMoveWorks(s: State, p: CallerId, act: CallerAction)
    requires CallerStep(s, p, act).Some? && !Begins(OfCaller(p, act)) && !act.PublishRegister? && !act.PublishPush?
    ensures Work(CallerStep(s, p, act).value) < Work(s)
  {
    hide Work;
    CallerLowersWork(s, CallerStep(s, p, act).value, p);
  }

  lemma CallerStepWorks(s: State, p: CallerId, act: CallerAction)
    requires CallerStep(s, p, act).Some? && s.pipe.idCount + 1 !in s.jobs
    ensures var a, s' := OfCaller(p, act), CallerStep(s, p, act).value;
            if Begins(a) then Work(s') == Work(s) + BeginWork(a) else Work(s') < Work(s)
  {
    hide Work, BeginPublishStep, BeginCloseStep, PublishRegisterStep, PublishPushStep;
    if act.BeginPublish? || act.BeginClose? {
      BeginCallWorks(s, p, act);
    } else if act.PublishRegister? {
      RegisterWorks(s, p, act.ctxDone);
    } else if act.PublishPush? {
      PushWorks(s, p);
    } else {
      CallerMoveWorks(s, p, act);
    }
  }

  // ----- subscribers and their clients -----

  lemma BeginSubscribeWorks(s: State, x: SubId, id: Id, reader: bool)
    requires SubStep(s, x, BeginSubscribe(id, reader)).Some?
    ensures Work(SubStep(s, x, BeginSubscribe(id, reader)).value) == Work(s) + SUBSCRIBE_WORK
  {
    SumUpdate(s.subs, SubWork, x, SubStep(s, x, BeginSubscribe(id, reader)).value.subs[x]);
  }

  predicate OfSubscribe(act: SubAction) {
    act.SubscribeLock? || act.SubscribeCheck? || act.SubscribeLookup? || act.SubscribeGiveUp? || act.SubscribeUnlock?
  }

  predicate OfClient(act: SubAction) {
    act.Receive? || act.CloseSubscription? || act.DetachClose?
  }

  ghost predicate LowersSub(s: State, s': State, x: SubId) {
    && s'.callers == s.callers && s'.pipe == s.pipe && s'.jobs == s.jobs
    && x in s.subs && x in s'.subs && s'.subs == s.subs[x := s'.subs[x]]
    && SubWork(s'.subs[x]) < SubWork(s.subs[x])
  }

  lemma SubscribeLowers(s: State, x: SubId, act: SubAction)
    requires SubStep(s, x, act).Some? && OfSubscribe(act)
    ensures LowersSub(s, SubStep(s, x, act).value, x)
  {}

  lemma ClientLowers(s: State, x: SubId, act: SubAction)
    requires SubStep(s, x, act).Some? && OfClient(act) && !Stutters(s, OfSub(x, act))
    requires act.DetachClose? ==> x in s.subs && !s.subs[x].chanClosed
    requires act.CloseSubscription? ==> x in s.subs && s.subs[x].pc == Attached
    ensures LowersSub(s, SubStep(s, x, act).value, x)
  {}

  lemma RendezvousLowers(s: State, x: SubId, act: SubAction)
    requires SubStep(s, x, act).Some? && (act.SubscribeSend? || act.DetachSend?)
    requires act.SubscribeSend? ==>
               Fresh(s.subs[x]) && s.jobs[s.subs[x].job].subCount + 1 !in s.jobs[s.subs[x].job].subscriptions
    ensures var s', id := SubStep(s, x, act).value, s.subs[x].job;
            && s'.callers == s.callers && s'.pipe == s.pipe
            && id in s.jobs && id in s'.jobs && s'.jobs == s.jobs[id := s'.jobs[id]]
            && x in s.subs && x in s'.subs && s'.subs == s.subs[x := s'.subs[x]]
            && JobWork(s'.jobs[id]) + SubWork(s'.subs[x]) < JobWork(s.jobs[id]) + SubWork(s.subs[x])
  {}

  lemma SubStepWorks(s: State, x: SubId, act: SubAction)
    requires Inv(s) && SubStep(s, x, act).Some? && !Stutters(s, OfSub(x, act))
    ensures var a, s' := OfSub(x, act), SubStep(s, x, act).value;
            if Begins(a) then Work(s') == Work(s) + BeginWork(a) else Work(s') < Work(s)
  {
    hide Inv, SubStep, Work, JobWork, SubWork, Stutters;
    var s' := SubStep(s, x, act).value;
    if act.BeginSubscribe? {
      BeginSubscribeWorks(s, x, act.id, act.reader);
    } else if act.SubscribeSend? || act.DetachSend? {
      RendezvousNow(s, x, act);
      RendezvousLowers(s, x, act);
      BothLowerWork(s, s', s.subs[x].job, x);
    } else {
      ClientNow(s, x, act);
      if OfSubscribe(act) {
        SubscribeLowers(s, x, act);
      } else {
        ClientLowers(s, x, act);
      }
      SubLowersWork(s, s', x);
    }
  }

  lemma RendezvousNow(s: State, x: SubId, act: SubAction)
    requires Inv(s) && SubStep(s, x, act).Some?
    ensures act.SubscribeSend? ==>
              && x in s.subs && s.subs[x].job in s.jobs && Fresh(s.subs[x])
              && s.jobs[s.subs[x].job].subCount + 1 !in s.jobs[s.subs[x].job].subscriptions
  {
    hide Fits, JobOk;
    if act.SubscribeSend? {
      FreshNow(s, x);
      JobNow(s, s.subs[x].job);
    }
  }

  lemma ClientNow(s: State, x: SubId, act: SubAction)
    requires Inv(s) && SubStep(s, x, act).Some? && !Stutters(s, OfSub(x, act))
    ensures act.DetachClose? ==> x in s.subs && !s.subs[x].chanClosed
    ensures act.CloseSubscription? ==> x in s.subs && s.subs[x].pc == Attached
  {
    if act.DetachClose? || act.CloseSubscription? {
      FitsNow(s, x);
    }
  }

  // ----- the worker -----

  lemma WorkerMoveWorks(s: State, act: WorkerAction)
    requires WorkerStep(s, act).Some? && !act.WorkerSend?
    ensures Work(WorkerStep(s, act).value) < Work(s)
  {
    hide Sum;
  }

  lemma WorkerSendWorks(s: State)
    requires WorkerSendStep(s).Some?
    requires s.jobs[s.pipe.worker.id].curr.phase == if s.pipe.worker.Announcing? then Queued else Processing
    requires s.pipe.worker.Reporting? ==> s.pipe.worker.status.phase == Done
    ensures Work(WorkerSendStep(s).value) < Work(s)
  {
    hide Work, JobWork;
    var s' := WorkerSendStep(s).value;
    var id := s.pipe.worker.id;
    AnnouncedLowers(s.jobs[id], s'.jobs[id].curr);
    SendLowersWork(s, s', id);
  }

  lemma AnnouncedLowers(j: Job, status: Status)
    requires j.binder == Selecting
    requires || (j.curr.phase == Queued && status.phase == Processing)
             || (j.curr.phase == Processing && status.phase == Done)
    ensures JobWork(NewStatus(j, status)) < JobWork(j)
  {}

  lemma SendLowersWork(s: State, s': State, id: Id)
    requires s'.callers == s.callers && s'.subs == s.subs && PipeWork(s'.pipe) <= PipeWork(s.pipe)
    requires id in s.jobs && id in s'.jobs && s'.jobs == s.jobs[id := s'.jobs[id]]
    requires JobWork(s'.jobs[id]) < JobWork(s.jobs[id])
    ensures Work(s') < Work(s)
  {
    SumUpdate(s.jobs, JobWork, id, s'.jobs[id]);
  }

  lemma WorkerStepWorks(s: State, act: WorkerAction)
    requires Inv(s) && WorkerStep(s, act).Some?
    ensures Work(WorkerStep(s, act).value) < Work(s)
  {
    hide Inv, Work;
    if act.WorkerSend? {
      SendNow(s);
      WorkerSendWorks(s);
    } else {
      WorkerMoveWorks(s, act);
    }
  }

  lemma SendNow(s: State)
    requires Inv(s) && WorkerSendStep(s).Some?
    ensures s.pipe.worker.id in s.jobs
    ensures s.jobs[s.pipe.worker.id].curr.phase == if s.pipe.worker.Announcing? then Queued else Processing
    ensures s.pipe.worker.Reporting? ==> s.pipe.worker.status.phase == Done
  {
    JobNow(s, s.pipe.worker.id);
  }

  // ----- binders -----

  ghost predicate LowersJob(s: State, s': State, id: Id) {
    && s'.callers == s.callers && s'.pipe == s.pipe && s'.subs == s.subs
    && id in s.jobs && id in s'.jobs && s'.jobs == s.jobs[id := s'.jobs[id]]
    && JobWork(s'.jobs[id]) < JobWork(s.jobs[id])
  }

  predicate OfLock(act: BinderAction) {
    act.BinderLock? || act.BinderDeregister? || act.BinderUnlock?
  }

  lemma LockStepLowers(s: State, id: Id, act: BinderAction)
    requires BinderStep(s, id, act).Some? && OfLock(act)
    ensures LowersJob(s, BinderStep(s, id, act).value, id)
  {}

  lemma StatusStepLowers(s: State, id: Id, act: BinderAction)
    requires BinderStep(s, id, act).Some? && (act.CancelContext? || act.BinderCancel?)
    requires !Stutters(s, OfBinder(id, act))
    requires id in s.jobs && BinderAgrees(s.jobs[id].binder, s.jobs[id].curr.phase)
    ensures LowersJob(s, BinderStep(s, id, act).value, id)
  {}

  lemma BroadcastStepLowers(s: State, id: Id, act: BinderAction)
    requires BinderStep(s, id, act).Some? && (act.BinderAbort? || act.BinderEnd? || act.BinderRemove?)
    requires id in s.jobs && BinderAgrees(s.jobs[id].binder, s.jobs[id].curr.phase)
    ensures LowersJob(s, BinderStep(s, id, act).value, id)
  {
    if act.BinderRemove? {
      var j := s.jobs[id];
      SubsetOfSameSize((j.subscriptions - {s.subs[j.binder.sub].key}).Keys, j.subscriptions.Keys);
    }
  }

  /** At most two statuses have been sent while one is pending. */
  lemma SendLowersSub(x: SubId, u: Sub, j: Job)
    requires Fits(x, u, j) && GoodHistory(j.history) && Registered(x, u, j) && Pending(x, u, j)
    requires u.buffer == None && u.pc.WasGranted()
    ensures SubWork(Sent(u, j)) < SubWork(u)
  {
    if u.stamps != [] {
      RisesByOne(u.stamps);
    }
  }

  lemma {:induction false} RisesByOne(stamps: seq<nat>)
    requires Increasing(stamps) && stamps != []
    ensures stamps[|stamps| - 1] >= |stamps| - 1
  {
    if |stamps| > 1 {
      RisesByOne(stamps[..|stamps| - 1]);
    }
  }

  /** A binder's step on the channel of x. */
  lemma ChannelStepWorks(s: State, id: Id, x: SubId, u: Sub, pc: BinderPc)
    requires id in s.jobs && x in s.subs
    requires JobWork(s.jobs[id].(binder := pc)) + SubWork(u) < JobWork(s.jobs[id]) + SubWork(s.subs[x])
    ensures Work(s.(jobs := s.jobs[id := s.jobs[id].(binder := pc)], subs := s.subs[x := u])) < Work(s)
  {
    hide Work;
    BothLowerWork(s, s.(jobs := s.jobs[id := s.jobs[id].(binder := pc)], subs := s.subs[x := u]), id, x);
  }

  lemma BinderGreetWorks(s: State, id: Id)
    requires Inv(s) && BinderGreetStep(s, id).Some?
    ensures Work(BinderGreetStep(s, id).value) < Work(s)
  {
    hide Inv, Fits, JobOk, MapOk, Work, GoodHistory, SubWork;
    var j := s.jobs[id];
    var x := j.binder.sub;
    JobNow(s, id);
    HistoryOf(s, id);
    GreetedIsRegistered(id, j, s.subs);
    FitsNow(s, x);
    GreetFits(x, s.subs[x], j);
    SendLowersSub(x, s.subs[x], j);
    ChannelStepWorks(s, id, x, Sent(s.subs[x], j), Selecting);
  }

  lemma BinderSendWorks(s: State, id: Id, key: nat)
    requires Inv(s) && BinderSendStep(s, id, key).Some?
    ensures Work(BinderSendStep(s, id, key).value) < Work(s)
  {
    hide Inv, Fits, JobOk, MapOk, Work, GoodHistory, SubWork;
    var j := s.jobs[id];
    var x := j.subscriptions[key];
    JobNow(s, id);
    HistoryOf(s, id);
    EntryIsRegistered(id, j, s.subs, key);
    FitsNow(s, x);
    SendFits(x, s.subs[x], j);
    SendLowersSub(x, s.subs[x], j);
    ChannelStepWorks(s, id, x, Sent(s.subs[x], j), Broadcasting(j.binder.todo - {key}));
  }

  /** A swap that is lost takes a subscription off the sweep; one that is won also sets its flag. */
  lemma BinderSwapWorks(s: State, id: Id, key: nat)
    requires BinderSwapStep(s, id, key).Some?
    requires s.subs[s.jobs[id].subscriptions[key]].pc.WasGranted()
    ensures Work(BinderSwapStep(s, id, key).value) < Work(s)
  {
    hide Work, JobWork, SubWork;
    var j, x := s.jobs[id], s.jobs[id].subscriptions[key];
    var todo := j.binder.todo - {key};
    SweepLowers(j, key);
    if s.subs[x].closed {
      JobLowersWork(s, BinderSwapStep(s, id, key).value, id);
    } else {
      FlagLowers(s.subs[x]);
      ChannelStepWorks(s, id, x, s.subs[x].(closed := true), ClosingOne(key, todo));
    }
  }

  lemma SweepLowers(j: Job, key: nat)
    requires j.binder.Sweeping? && key in j.binder.todo
    ensures JobWork(j.(binder := Sweeping(j.binder.todo - {key}))) < JobWork(j)
    ensures JobWork(j.(binder := ClosingOne(key, j.binder.todo - {key}))) < JobWork(j)
  {}

  lemma FlagLowers(u: Sub)
    requires u.pc.WasGranted() && !u.closed
    ensures SubWork(u.(closed := true)) < SubWork(u)
  {}

  lemma BinderCloseChanWorks(s: State, id: Id)
    requires BinderCloseChanStep(s, id).Some?
    requires var u := s.subs[s.jobs[id].subscriptions[s.jobs[id].binder.key]];
             u.pc.WasGranted() && !u.chanClosed
    ensures Work(BinderCloseChanStep(s, id).value) < Work(s)
  {
    hide Work;
    BothLowerWork(s, BinderCloseChanStep(s, id).value, id, s.jobs[id].subscriptions[s.jobs[id].binder.key]);
  }

  lemma BinderStepWorks(s: State, id: Id, act: BinderAction)
    requires Inv(s) && BinderStep(s, id, act).Some? && !Stutters(s, OfBinder(id, act))
    ensures Work(BinderStep(s, id, act).value) < Work(s)
  {
    hide Inv, Work, JobWork, SubWork, Stutters, Fits, MapOk, JobOk;
    BinderIsThere(s, id, act);
    JobNow(s, id);
    HistoryOf(s, id);
    match act {
      case BinderGreet => BinderGreetWorks(s, id);
      case BinderSend(key) => BinderSendWorks(s, id, key);
      case BinderSwap(key) =>
        EntryIsRegistered(id, s.jobs[id], s.subs, key);
        BinderSwapWorks(s, id, key);
      case BinderCloseChan =>
        var x := s.jobs[id].subscriptions[s.jobs[id].binder.key];
        EntryIsRegistered(id, s.jobs[id], s.subs, s.jobs[id].binder.key);
        ClosingIsNotTodo(id, s.jobs[id], s.subs);
        FitsNow(s, x);
        CloseChanFits(x, s.subs[x], s.jobs[id]);
        BinderCloseChanWorks(s, id);
      case _ =>
        if OfLock(act) {
          LockStepLowers(s, id, act);
        } else if act.CancelContext? || act.BinderCancel? {
          StatusStepLowers(s, id, act);
        } else {
          BroadcastStepLowers(s, id, act);
        }
        JobLowersWork(s, BinderStep(s, id, act).value, id);
    }
  }

  // ----- every step -----

  /** A step of any run is a stutter, begins a call and raises the measure by its work, or lowers the measure. */
  lemma StepWorks(s: State, a: Action)
    requires Inv(s) && Step(s, a).Some?
    ensures var s' := Step(s, a).value;
            if Stutters(s, a) then s' == s
            else if Begins(a) then Work(s') == Work(s) + BeginWork(a)
            else Work(s') < Work(s)
  {
    hide PipeInv, JobInv, MapInv, SubInv, Work, CallerStep, SubStep, WorkerStep, BinderStep;
    if Stutters(s, a) {
      StutterChangesNothing(s, a);
    } else {
      match a {
        case OfCaller(p, act) => CallerStepWorks(s, p, act);
        case OfSub(x, act) => SubStepWorks(s, x, act);
        case OfWorker(act) => WorkerStepWorks(s, act);
        case OfBinder(id, act) => BinderStepWorks(s, id, act);
      }
    }
  }

  // ----- over runs -----

  /** The steps from i to j that change something and do not begin a call. */
  function Changes(states: seq<State>, acts: seq<Action>, i: nat, j: nat): nat
    requires i <= j <= |acts| && j <= |states|
  {
    if i == j then 0
    else Changes(states, acts, i, j - 1) + Count(!Stutters(states[j - 1], acts[j - 1]) && !Begins(acts[j - 1]))
  }

  /** The work of the calls that begin from i to j. */
  function NewWork(acts: seq<Action>, i: nat, j: nat): nat
    requires i <= j <= |acts|
  {
    if i == j then 0 else NewWork(acts, i, j - 1) + BeginWork(acts[j - 1])
  }

  /**
   In every stretch of every run the steps that change something are paid for by the work there was and
   by the calls that begin.
   */
  lemma {:induction false} ChangesAreBounded(states: seq<State>, acts: seq<Action>, i: nat, j: nat)
    requires IsRun(states, acts) && i <= j < |states|
    ensures j <= |acts|
    ensures Changes(states, acts, i, j) + Work(states[j]) <= Work(states[i]) + NewWork(acts, i, j)
  {
    hide Inv, IsRun, Step, Work, Stutters, Begins, BeginWork;
    RunIsLong(states, acts);
    if i < j {
      ChangesAreBounded(states, acts, i, j - 1);
      RunKeepsInv(states, acts, j - 1);
      RunStep(states, acts, j - 1);
      StepWorks(states[j - 1], acts[j - 1]);
      BeginningIsWork(acts[j - 1]);
    }
  }

  lemma BeginningIsWork(a: Action)
    ensures Begins(a) <==> BeginWork(a) > 0
  {}

  /**
   Where a run stops: when every steady step that is enabled is a stutter, each accepted transaction has
   been finished or skipped, or else the worker is blocked.
   */
  lemma RunsStopCompleteOrBlocked(states: seq<State>, acts: seq<Action>, j: nat, id: Id)
    requires IsRun(states, acts) && j < |states| && IsAccepted(states[j], id)
    requires forall a :: CanMove(states[j], a) ==> Stutters(states[j], a)
    ensures Completed(states[j].pipe, id) || Blocked(states[j])
  {
    hide Inv, IsRun, Blocked, Stutters;
    RunKeepsInv(states, acts, j);
    if !Blocked(states[j]) && !Completed(states[j].pipe, id) {
      var a := SomethingMoves(states[j], id);
      StutterChangesNothing(states[j], a);
    }
  }
}
