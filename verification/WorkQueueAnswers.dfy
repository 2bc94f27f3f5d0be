/** What the calls of the queue answer, and what becomes of a handler's error. */
module WorkQueueAnswers {
  import opened Wrappers
  import opened WorkQueue
  import opened WorkQueueInvariant
  import opened WorkQueueFits
  import opened WorkQueueSteps
  import opened WorkQueueGrowth
  import opened WorkQueueRuns
  import opened WorkQueueShutdown
  import opened WorkQueueBlocking
  import opened WorkQueueCompletion

  // ----- Publish and WorkQueue.Close -----

  /** The call has been answered with o, and is leaving or has returned. */
  predicate Answered(pc: CallerPc, o: CallOutcome) {
    pc == PublishLeaving(o) || pc == Returned(o) || (pc == CloseLeaving && o == ShutDown)
  }

  /** The call has registered id. */
  predicate IsAbout(pc: CallerPc, id: Id) {
    pc == PublishPushing(id) || Answered(pc, Accepted(id)) || Answered(pc, QueueFull(id))
  }

  /** The transaction is on its way to the handler, or has been through or past it. */
  predicate IsTaken(q: Pipe, id: Id) {
    id in q.queue || Hand(q.worker) == Some(id) || id in q.skipped || id in q.finished
  }

  /** The answer agrees with what became of the transaction. */
  predicate AnswerOk(done: bool, q: Pipe, o: CallOutcome) {
    match o
    case NoOp => done
    case ShutDown => done
    case Accepted(id) => 1 <= id <= q.idCount && q.pushing != Some(id) && id !in q.rejected
    case QueueFull(id) => id in q.rejected
  }

  ghost predicate IsAsked(callers: map<CallerId, CallerPc>, id: Id) {
    exists p :: p in callers && IsAbout(callers[p], id)
  }

  ghost predicate AnswersInv(s: State) {
    && (forall p, o :: p in s.callers && Answered(s.callers[p], o) ==> AnswerOk(s.done, s.pipe, o))
    && (forall id: Id :: 1 <= id <= s.pipe.idCount ==> IsAsked(s.callers, id))
  }

  /** Answers stay right when nothing is registered or rejected. */
  predicate SameAnswers(s: State, s': State) {
    && s'.callers == s.callers && s'.pipe.idCount == s.pipe.idCount && s'.pipe.pushing == s.pipe.pushing
    && s'.pipe.rejected == s.pipe.rejected && s'.done == s.done
  }

  lemma SameAnswersKeep(s: State, s': State)
    requires SameAnswers(s, s') && AnswersInv(s)
    ensures AnswersInv(s')
  {
    forall p, o | p in s'.callers && Answered(s'.callers[p], o) ensures AnswerOk(s'.done, s'.pipe, o) {
      assert AnswerOk(s.done, s.pipe, o);
    }
  }

  lemma RegisterAnswers(s: State, p: CallerId, ctxDone: bool)
    requires Inv(s) && AnswersInv(s) && PublishRegisterStep(s, p, ctxDone).Some?
    ensures AnswersInv(PublishRegisterStep(s, p, ctxDone).value)
  {
    hide PipeInv, JobInv, MapInv, SubInv, BindersInv, ReadersInv;
    var s' := PublishRegisterStep(s, p, ctxDone).value;
    forall q, o | q in s'.callers && Answered(s'.callers[q], o) ensures AnswerOk(s'.done, s'.pipe, o) {
      assert q in s.callers && Answered(s.callers[q], o) && AnswerOk(s.done, s.pipe, o);
    }
    forall id: Id | 1 <= id <= s'.pipe.idCount ensures IsAsked(s'.callers, id) {
      if id <= s.pipe.idCount {
        assert IsAsked(s.callers, id);
        var q :| q in s.callers && IsAbout(s.callers[q], id);
        assert q in s'.callers && IsAbout(s'.callers[q], id);
      } else {
        assert IsAbout(s'.callers[p], id);
      }
    }
  }

  lemma PushAnswers(s: State, p: CallerId)
    requires Inv(s) && AnswersInv(s) && PublishPushStep(s, p).Some?
    ensures AnswersInv(PublishPushStep(s, p).value)
  {
    hide PipeInv, JobInv, MapInv, SubInv, BindersInv, ReadersInv;
    var s' := PublishPushStep(s, p).value;
    var pushed := s.callers[p].id;
    PushedIsNowhere(s, pushed);
    forall q, o | q in s'.callers && Answered(s'.callers[q], o) ensures AnswerOk(s'.done, s'.pipe, o) {
      if q != p {
        assert q in s.callers && Answered(s.callers[q], o) && AnswerOk(s.done, s.pipe, o);
      }
    }
    forall id: Id | 1 <= id <= s'.pipe.idCount ensures IsAsked(s'.callers, id) {
      assert IsAsked(s.callers, id);
      var q :| q in s.callers && IsAbout(s.callers[q], id);
      assert q in s'.callers && IsAbout(s'.callers[q], id);
    }
  }

  lemma PushedIsNowhere(s: State, id: Id)
    requires Inv(s) && (exists p :: p in s.callers && s.callers[p] == PublishPushing(id))
    ensures s.pipe.pushing == Some(id) && 1 <= id <= s.pipe.idCount && id !in s.pipe.rejected
  {
    assert Places(s.pipe, id) == Count(1 <= id <= s.pipe.idCount);
  }

  lemma CallerMoveAnswers(s: State, p: CallerId, act: CallerAction)
    requires AnswersInv(s) && CallerStep(s, p, act).Some? && !act.PublishRegister? && !act.PublishPush?
    ensures AnswersInv(CallerStep(s, p, act).value)
  {
    var s' := CallerStep(s, p, act).value;
    forall q, o | q in s'.callers && Answered(s'.callers[q], o) ensures AnswerOk(s'.done, s'.pipe, o) {
      if q in s.callers && Answered(s.callers[q], o) {
        assert AnswerOk(s.done, s.pipe, o);
      }
    }
    forall id: Id | 1 <= id <= s'.pipe.idCount ensures IsAsked(s'.callers, id) {
      assert IsAsked(s.callers, id);
      var q :| q in s.callers && IsAbout(s.callers[q], id);
      assert q in s'.callers && IsAbout(s'.callers[q], id);
    }
  }

  lemma WorkerSameAnswers(s: State, act: WorkerAction)
    requires WorkerStep(s, act).Some?
    ensures SameAnswers(s, WorkerStep(s, act).value)
  {}

  lemma StepAnswers(s: State, a: Action)
    requires Inv(s) && AnswersInv(s) && Step(s, a).Some?
    ensures AnswersInv(Step(s, a).value)
  {
    hide Inv, AnswersInv, CallerStep, SubStep, WorkerStep, BinderStep;
    match a {
      case OfCaller(p, act) => CallerAnswers(s, p, act);
      case OfSub(x, act) =>
        SubStepDrains(s, x, act);
        SameAnswersKeep(s, Step(s, a).value);
      case OfWorker(act) =>
        WorkerSameAnswers(s, act);
        SameAnswersKeep(s, Step(s, a).value);
      case OfBinder(id, act) =>
        BinderStepDrains(s, id, act);
        SameAnswersKeep(s, Step(s, a).value);
    }
  }

  lemma CallerAnswers(s: State, p: CallerId, act: CallerAction)
    requires Inv(s) && AnswersInv(s) && CallerStep(s, p, act).Some?
    ensures AnswersInv(CallerStep(s, p, act).value)
  {
    hide Inv, AnswersInv;
    match act {
      case PublishRegister(ctxDone) => RegisterAnswers(s, p, ctxDone);
      case PublishPush => PushAnswers(s, p);
      case _ => CallerMoveAnswers(s, p, act);
    }
  }

  lemma {:induction false} RunAnswers(states: seq<State>, acts: seq<Action>, i: nat)
    requires IsRun(states, acts) && i < |states|
    ensures AnswersInv(states[i])
  {
    if i > 0 {
      hide Inv, Step, AnswersInv;
      RunAnswers(states, acts, i - 1);
      RunKeepsInv(states, acts, i - 1);
      RunStep(states, acts, i - 1);
      StepAnswers(states[i - 1], acts[i - 1]);
    }
  }

  /**
   What a call has been answered is what became of it: Publish returns nil for a transaction exactly when
   it is or was on its way to the handler, "queue is full" exactly when it was rejected, and is a no-op only
   when the queue is shut down, as it is when Close has returned.
   */
  lemma CallsAreAnswered(states: seq<State>, acts: seq<Action>, i: nat)
    requires IsRun(states, acts) && i < |states|
    ensures var s := states[i];
            && (forall p, id :: p in s.callers && IsAbout(s.callers[p], id) && s.callers[p] != PublishPushing(id) ==>
                  && (Answered(s.callers[p], Accepted(id)) <==> IsTaken(s.pipe, id))
                  && (Answered(s.callers[p], QueueFull(id)) <==> id in s.pipe.rejected))
            && (forall p :: p in s.callers && Answered(s.callers[p], NoOp) ==> s.done)
            && (forall p :: p in s.callers && Answered(s.callers[p], ShutDown) ==> s.done)
            && (forall id: Id :: 1 <= id <= s.pipe.idCount ==> IsAsked(s.callers, id))
  {
    hide Inv;
    RunKeepsInv(states, acts, i);
    RunAnswers(states, acts, i);
    var s := states[i];
    forall p, id | p in s.callers && IsAbout(s.callers[p], id) && s.callers[p] != PublishPushing(id)
      ensures Answered(s.callers[p], Accepted(id)) <==> IsTaken(s.pipe, id)
      ensures Answered(s.callers[p], QueueFull(id)) <==> id in s.pipe.rejected
    {
      hide AnswersInv;
      AnswerAbout(s, p, id);
      OnePlace(s, id);
    }
    forall p | p in s.callers && (Answered(s.callers[p], NoOp) || Answered(s.callers[p], ShutDown)) ensures s.done {
      assert AnswerOk(s.done, s.pipe, NoOp) || AnswerOk(s.done, s.pipe, ShutDown);
    }
  }

  lemma AnswerAbout(s: State, p: CallerId, id: Id)
    requires AnswersInv(s) && p in s.callers && IsAbout(s.callers[p], id) && s.callers[p] != PublishPushing(id)
    ensures Answered(s.callers[p], Accepted(id)) ==>
              1 <= id <= s.pipe.idCount && s.pipe.pushing != Some(id) && id !in s.pipe.rejected
    ensures Answered(s.callers[p], QueueFull(id)) ==> id in s.pipe.rejected
  {
    assert AnswerOk(s.done, s.pipe, if Answered(s.callers[p], Accepted(id)) then Accepted(id) else QueueFull(id));
  }

  lemma OnePlace(s: State, id: Id)
    requires Inv(s)
    ensures id in s.pipe.rejected ==> !IsTaken(s.pipe, id)
    ensures 1 <= id <= s.pipe.idCount && s.pipe.pushing != Some(id) && id !in s.pipe.rejected ==> IsTaken(s.pipe, id)
  {
    assert Places(s.pipe, id) == Count(1 <= id <= s.pipe.idCount);
  }

  /** The queue takes a fiftieth transaction, and not a fifty-first. */
  lemma QueueHoldsFifty(states: seq<State>, acts: seq<Action>, i: nat, p: CallerId)
    requires IsRun(states, acts) && i < |acts| && acts[i] == OfCaller(p, PublishPush)
    ensures i + 1 < |states| && p in states[i].callers && p in states[i + 1].callers
    ensures states[i].callers[p].PublishPushing?
    ensures var q, q', id := states[i].pipe, states[i + 1].pipe, states[i].callers[p].id;
            && |q.queue| <= 50 && |q'.queue| <= 50
            && (|q.queue| < 50 ==>
                  q'.queue == q.queue + [id] && states[i + 1].callers[p] == PublishLeaving(Accepted(id)))
            && (|q.queue| == 50 ==>
                  && q'.queue == q.queue && id in q'.rejected
                  && states[i + 1].callers[p] == PublishLeaving(QueueFull(id)))
  {
    hide Inv;
    RunIsLong(states, acts);
    RunStep(states, acts, i);
    HandlersRunInOrder(states, acts, i);
    HandlersRunInOrder(states, acts, i + 1);
  }

  // ----- Subscribe -----

  /** Subscribe has been answered with o; a granted subscription stays granted. */
  predicate HasOutcome(s: State, x: SubId, o: SubOutcome) {
    && x in s.subs
    && if o == Granted then s.subs[x].pc.WasGranted()
       else s.subs[x].pc == SubscribeLeaving(o) || s.subs[x].pc == Refused(o)
  }

  /** The step that answers x with o, and why. */
  predicate Answers(s: State, a: Action, x: SubId, o: SubOutcome) {
    match o
    case Granted => a == OfSub(x, SubscribeSend)
    case QueueClosed => a == OfSub(x, SubscribeCheck) && s.done
    case Unknown => a == OfSub(x, SubscribeLookup) && x in s.subs && s.subs[x].job !in s.registry
    case GaveUp => a == OfSub(x, SubscribeGiveUp)
  }

  lemma SubscribeOutcome(s: State, y: SubId, act: SubAction, x: SubId, o: SubOutcome)
    requires SubStep(s, y, act).Some?
    ensures HasOutcome(SubStep(s, y, act).value, x, o) <==> HasOutcome(s, x, o) || Answers(s, OfSub(y, act), x, o)
  {
    if act.BeginSubscribe? || act.Receive? || act.CloseSubscription? || act.DetachSend? || act.DetachClose? {
      ClientOutcome(s, y, act, x, o);
    } else {
      CallOutcomes(s, y, act, x, o);
    }
    hide SubStep, HasOutcome, Answers;
  }

  lemma ClientOutcome(s: State, y: SubId, act: SubAction, x: SubId, o: SubOutcome)
    requires SubStep(s, y, act).Some?
    requires act.BeginSubscribe? || act.Receive? || act.CloseSubscription? || act.DetachSend? || act.DetachClose?
    ensures HasOutcome(SubStep(s, y, act).value, x, o) <==> HasOutcome(s, x, o) || Answers(s, OfSub(y, act), x, o)
  {}

  lemma CallOutcomes(s: State, y: SubId, act: SubAction, x: SubId, o: SubOutcome)
    requires SubStep(s, y, act).Some?
    requires !act.BeginSubscribe? && !act.Receive? && !act.CloseSubscription? && !act.DetachSend? && !act.DetachClose?
    ensures HasOutcome(SubStep(s, y, act).value, x, o) <==> HasOutcome(s, x, o) || Answers(s, OfSub(y, act), x, o)
  {}

  lemma BinderOutcome(s: State, id: Id, act: BinderAction, x: SubId, o: SubOutcome)
    requires BinderStep(s, id, act).Some?
    ensures HasOutcome(BinderStep(s, id, act).value, x, o) <==> HasOutcome(s, x, o)
  {
    if Sends(act) {
      SendOutcome(s, id, act, x, o);
    } else if Closes(act) {
      CloseOutcome(s, id, act, x, o);
    }
  }

  lemma SendOutcome(s: State, id: Id, act: BinderAction, x: SubId, o: SubOutcome)
    requires BinderStep(s, id, act).Some? && Sends(act)
    ensures HasOutcome(BinderStep(s, id, act).value, x, o) <==> HasOutcome(s, x, o)
  {}

  lemma CloseOutcome(s: State, id: Id, act: BinderAction, x: SubId, o: SubOutcome)
    requires BinderStep(s, id, act).Some? && Closes(act)
    ensures HasOutcome(BinderStep(s, id, act).value, x, o) <==> HasOutcome(s, x, o)
  {}

  lemma StepOutcome(s: State, a: Action, x: SubId, o: SubOutcome)
    requires Step(s, a).Some?
    ensures HasOutcome(Step(s, a).value, x, o) <==> HasOutcome(s, x, o) || Answers(s, a, x, o)
  {
    hide SubStep, BinderStep, HasOutcome;
    match a {
      case OfCaller(p, act) => SameSubsSameOutcome(s, Step(s, a).value, x, o);
      case OfSub(y, act) => SubscribeOutcome(s, y, act, x, o);
      case OfWorker(act) => SameSubsSameOutcome(s, Step(s, a).value, x, o);
      case OfBinder(id, act) => BinderOutcome(s, id, act, x, o);
    }
  }

  lemma SameSubsSameOutcome(s: State, s': State, x: SubId, o: SubOutcome)
    requires s'.subs == s.subs
    ensures HasOutcome(s', x, o) <==> HasOutcome(s, x, o)
  {}

  /** A step before i answered x with o. */
  predicate WasAnswered(states: seq<State>, acts: seq<Action>, i: nat, x: SubId, o: SubOutcome)
    requires i <= |acts| && i <= |states|
  {
    exists k :: 0 <= k < i && Answers(states[k], acts[k], x, o)
  }

  /**
   Subscribe returns nothing exactly when it found the queue shut down, ENOTFOUND exactly when the id was
   not registered at its lookup, its context's error exactly when it gave up, and else what the binder granted.
   */
  lemma {:induction false} SubscribeIsAnswered(states: seq<State>, acts: seq<Action>, i: nat, x: SubId, o: SubOutcome)
    requires IsRun(states, acts) && i < |states|
    ensures i <= |acts| && (HasOutcome(states[i], x, o) <==> WasAnswered(states, acts, i, x, o))
  {
    hide Step, HasOutcome, Answers;
    RunIsLong(states, acts);
    if i == 0 {
      NoSubsNoOutcome(x, o);
    } else {
      SubscribeIsAnswered(states, acts, i - 1, x, o);
      RunStep(states, acts, i - 1);
      StepOutcome(states[i - 1], acts[i - 1], x, o);
      assert WasAnswered(states, acts, i, x, o)
             <==> WasAnswered(states, acts, i - 1, x, o) || Answers(states[i - 1], acts[i - 1], x, o);
    }
  }

  lemma NoSubsNoOutcome(x: SubId, o: SubOutcome)
    ensures !HasOutcome(Init, x, o)
  {}

  // ----- the handler's error -----

  /** The worker reports the final status of id, or has: the three statuses of id, written out, with e in the last. */
  predicate Delivers(s: State, id: Id, e: Option<string>) {
    || s.pipe.worker == Reporting(id, Status(Done, e))
    || (id in s.jobs && s.jobs[id].history == [Status(Queued, None), Status(Processing, None), Status(Done, e)])
  }

  lemma ReportingStays(s: State, a: Action, id: Id, e: Option<string>)
    requires Inv(s) && Step(s, a).Some? && s.pipe.worker == Reporting(id, Status(Done, e))
    ensures Delivers(Step(s, a).value, id, e)
  {
    hide Inv, CallerStep, SubStep, BinderStep;
    match a {
      case OfCaller(p, act) => CallerLeavesWorker(s, p, act);
      case OfSub(x, act) => SubLeavesWorker(s, x, act);
      case OfWorker(act) => ReportedNow(s, id);
      case OfBinder(i, act) => BinderLeavesWorker(s, i, act);
    }
  }

  lemma ReportedNow(s: State, id: Id)
    requires Inv(s) && s.pipe.worker.Reporting? && s.pipe.worker.id == id
    ensures id in s.jobs && s.jobs[id].history == [Status(Queued, None), Status(Processing, None)]
  {
    hide Fits;
    assert Places(s.pipe, id) == 1;
    JobNow(s, id);
  }

  lemma DeliveredStays(s: State, a: Action, id: Id, e: Option<string>)
    requires Inv(s) && Step(s, a).Some? && id in s.jobs
    requires s.jobs[id].history == [Status(Queued, None), Status(Processing, None), Status(Done, e)]
    ensures Delivers(Step(s, a).value, id, e)
  {
    hide Inv, Step, SubGrows, PipeGrows;
    var s' := Step(s, a).value;
    StepKeepsInv(s, a);
    StepGrows(s, a);
    assert id in s'.jobs;
    HistoryOf(s', id);
  }

  /**
   The error that a handler returns is the error of the final status: the worker reports it, and then it is
   the third and last status of the transaction.
   */
  lemma {:induction false} HandlerErrorIsDelivered(states: seq<State>, acts: seq<Action>, i: nat, j: nat,
                                                   id: Id, e: Option<string>)
    requires IsRun(states, acts) && i < j < |states|
    requires acts[i] == OfWorker(WorkerReturn(e)) && states[i].pipe.worker == Handling(id)
    ensures Delivers(states[j], id, e)
  {
    hide Inv, Step;
    RunIsLong(states, acts);
    RunStep(states, acts, j - 1);
    RunKeepsInv(states, acts, j - 1);
    if j == i + 1 {
      ReturnReports(states[i], id, e);
    } else {
      HandlerErrorIsDelivered(states, acts, i, j - 1, id, e);
      if states[j - 1].pipe.worker == Reporting(id, Status(Done, e)) {
        ReportingStays(states[j - 1], acts[j - 1], id, e);
      } else {
        DeliveredStays(states[j - 1], acts[j - 1], id, e);
      }
    }
  }

  lemma ReturnReports(s: State, id: Id, e: Option<string>)
    requires Step(s, OfWorker(WorkerReturn(e))).Some? && s.pipe.worker == Handling(id)
    ensures Step(s, OfWorker(WorkerReturn(e))).value.pipe.worker == Reporting(id, Status(Done, e))
  {}

  /** A subscriber that is sent a final status of a handled transaction is sent the handler's error. */
  lemma SubscribersGetTheError(states: seq<State>, acts: seq<Action>, i: nat, j: nat, id: Id, e: Option<string>,
                               x: SubId, k: nat)
    requires IsRun(states, acts) && i < j < |states|
    requires acts[i] == OfWorker(WorkerReturn(e)) && states[i].pipe.worker == Handling(id)
    requires x in states[j].subs && states[j].subs[x].pc.WasGranted() && states[j].subs[x].job == id
    requires k < |states[j].subs[x].sent| && states[j].subs[x].sent[k].phase == Done
    ensures states[j].subs[x].sent[k] == Status(Done, e)
  {
    hide Inv, IsRun, Step;
    HandlerErrorIsDelivered(states, acts, i, j, id, e);
    StreamIsSubsequence(states, acts, j, x);
    RunKeepsInv(states, acts, j);
    if states[j].pipe.worker == Reporting(id, Status(Done, e)) {
      ReportedNow(states[j], id);
    }
  }

  // ----- cancelled before the worker's check, and shut down before its next transaction -----

  /** The worker has still to check the context of id. */
  predicate Unchecked(q: Pipe, id: Id) {
    id in q.queue || q.worker == Taken(id) || q.pushing == Some(id)
  }

  /** Cancelled before the check, id is still unchecked, or rejected, or skipped. */
  predicate PassedOver(s: State, id: Id) {
    id in s.jobs && s.jobs[id].cancelled && (Unchecked(s.pipe, id) || id in s.pipe.skipped || id in s.pipe.rejected)
  }

  lemma WorkerPassesOver(s: State, act: WorkerAction, id: Id)
    requires WorkerStep(s, act).Some? && PassedOver(s, id)
    ensures PassedOver(WorkerStep(s, act).value, id)
  {
    if act.WorkerDequeue? {
      assert s.pipe.queue == [s.pipe.queue[0]] + s.pipe.queue[1..];
    }
  }

  lemma CallerPassesOver(s: State, p: CallerId, act: CallerAction, id: Id)
    requires CallersInv(s.lock.writer, s.callers, s.pipe.pushing) && CallerStep(s, p, act).Some? && PassedOver(s, id)
    requires s.pipe.idCount + 1 !in s.jobs
    ensures PassedOver(CallerStep(s, p, act).value, id)
  {}

  lemma OtherPassesOver(s: State, s': State, id: Id)
    requires PassedOver(s, id) && s'.pipe == s.pipe && id in s'.jobs && s'.jobs[id].cancelled
    ensures PassedOver(s', id)
  {}

  lemma StepPassesOver(s: State, a: Action, id: Id)
    requires Inv(s) && Step(s, a).Some? && PassedOver(s, id)
    ensures PassedOver(Step(s, a).value, id)
  {
    hide PipeInv, JobInv, MapInv, SubInv, BindersInv, ReadersInv, CallerStep, SubStep, WorkerStep, BinderStep,
      PassedOver, SubGrows;
    CancelledJobIsThere(s, id);
    StepGrows(s, a);
    match a {
      case OfCaller(p, act) => CallerPassesOver(s, p, act, id);
      case OfSub(x, act) =>
        SubStepDrains(s, x, act);
        OtherPassesOver(s, Step(s, a).value, id);
      case OfWorker(act) => WorkerPassesOver(s, act, id);
      case OfBinder(i, act) =>
        BinderStepDrains(s, i, act);
        OtherPassesOver(s, Step(s, a).value, id);
    }
  }

  lemma CancelledJobIsThere(s: State, id: Id)
    requires PassedOver(s, id)
    ensures id in s.jobs && s.jobs[id].cancelled
  {}

  /** A transaction cancelled before the worker checks its context is never handled. */
  lemma {:induction false} CancelledInTimeIsPassedOver(states: seq<State>, acts: seq<Action>, i: nat, j: nat, id: Id)
    requires IsRun(states, acts) && i <= j < |states|
    requires id in states[i].jobs && states[i].jobs[id].cancelled && Unchecked(states[i].pipe, id)
    ensures PassedOver(states[j], id) && id !in states[j].pipe.starts
  {
    hide Inv, IsRun, Step, PassedOver;
    RunIsLong(states, acts);
    RunKeepsInv(states, acts, j);
    if i == j {
      UncheckedIsPassedOver(states[i], id);
    } else {
      CancelledInTimeIsPassedOver(states, acts, i, j - 1, id);
      RunKeepsInv(states, acts, j - 1);
      RunStep(states, acts, j - 1);
      StepPassesOver(states[j - 1], acts[j - 1], id);
    }
    PassedOverIsNotStarted(states[j], id);
  }

  lemma UncheckedIsPassedOver(s: State, id: Id)
    requires id in s.jobs && s.jobs[id].cancelled && Unchecked(s.pipe, id)
    ensures PassedOver(s, id)
  {}

  lemma PassedOverIsNotStarted(s: State, id: Id)
    requires Inv(s) && PassedOver(s, id)
    ensures id !in s.pipe.starts
  {
    assert Places(s.pipe, id) == Count(1 <= id <= s.pipe.idCount);
  }

  /** Once the queue is shut down an idle worker can return, and what is still queued is then never completed. */
  lemma IdleWorkerCanReturn(states: seq<State>, acts: seq<Action>) returns (states': seq<State>, acts': seq<Action>)
    requires IsRun(states, acts) && states[|acts|].done && states[|acts|].pipe.worker == Idle
    ensures Continues(states, acts, states', acts') && |acts'| == |acts| + 1
    ensures states'[|acts'|].pipe.worker == Stopped && Halted(states'[|acts'|])
    ensures states'[|acts'|].pipe.queue == states[|acts|].pipe.queue
  {
    RunIsLong(states, acts);
    hide IsRun;
    states', acts' := ContinueBy(states, acts, OfWorker(WorkerStop));
  }
}
