/**
 Progress.  A run is calm while no transaction is cancelled, the queue is not shut down and no
 client closes its subscription; subscribers drain their channel and a waiting Subscribe may
 give up.  Then no step is a stutter, so the run is bounded once calls stop; and the worker is never
 blocked, so every accepted transaction is Done where the run ends.
 */
module WorkQueueProgress {
  import opened Wrappers
  import opened WorkQueue
  import opened WorkQueueInvariant
  import opened WorkQueueFits
  import opened WorkQueueSteps
  import opened WorkQueueGrowth
  import opened WorkQueueRuns
  import opened WorkQueueShutdown
  import opened WorkQueueBlocking
  import opened WorkQueueCompletion
  import opened WorkQueueTermination

  // ----- calm -----

  predicate CalmCaller(pc: CallerPc) {
    !pc.CloseWaiting? && !pc.CloseLocked? && !pc.CloseLeaving?
  }

  predicate CalmSub(pc: SubPc) {
    !pc.Detaching? && !pc.Detached? && !pc.ClientClosed?
  }

  /** The environment has been calm: no shutdown, no cancellation, no client-side Close. */
  ghost predicate Quiet(s: State) {
    && !s.done
    && (forall p :: p in s.callers ==> CalmCaller(s.callers[p]))
    && (forall id :: id in s.jobs ==> !s.jobs[id].cancelled)
    && (forall x :: x in s.subs ==> CalmSub(s.subs[x].pc))
  }

  ghost predicate Calm(s: State) {
    Quiet(s) && !s.pipe.worker.Stopped?
  }

  // ----- calm is kept -----

  lemma CallerStepKeepsCalm(s: State, p: CallerId, act: CallerAction)
    requires CallerStep(s, p, act).Some? && IsCalm(OfCaller(p, act)) && Calm(s)
    ensures Calm(CallerStep(s, p, act).value)
  {}

  lemma SubStepKeepsCalm(s: State, x: SubId, act: SubAction)
    requires SubStep(s, x, act).Some? && IsCalm(OfSub(x, act)) && Calm(s)
    ensures Calm(SubStep(s, x, act).value)
  {
    hide SubStep, Calm;
    if act.SubscribeSend? || act.DetachSend? {
      RendezvousKeepsCalm(s, x, act);
    } else {
      SubMoveKeepsCalm(s, x, act);
    }
  }

  lemma RendezvousKeepsCalm(s: State, x: SubId, act: SubAction)
    requires SubStep(s, x, act).Some? && (act.SubscribeSend? || act.DetachSend?) && Calm(s)
    ensures Calm(SubStep(s, x, act).value)
  {}

  lemma SubMoveKeepsCalm(s: State, x: SubId, act: SubAction)
    requires SubStep(s, x, act).Some? && IsCalm(OfSub(x, act)) && !act.SubscribeSend? && !act.DetachSend? && Calm(s)
    ensures Calm(SubStep(s, x, act).value)
  {}

  lemma WorkerStepKeepsCalm(s: State, act: WorkerAction)
    requires WorkerStep(s, act).Some? && Calm(s)
    ensures Calm(WorkerStep(s, act).value)
  {}

  lemma BinderStepKeepsCalm(s: State, id: Id, act: BinderAction)
    requires BinderStep(s, id, act).Some? && !act.CancelContext? && Calm(s)
    ensures Calm(BinderStep(s, id, act).value)
  {
    if Sends(act) {
      SendKeepsCalm(s, id, act);
    } else if Closes(act) {
      CloseKeepsCalm(s, id, act);
    }
  }

  lemma SendKeepsCalm(s: State, id: Id, act: BinderAction)
    requires BinderStep(s, id, act).Some? && Sends(act) && Calm(s)
    ensures Calm(BinderStep(s, id, act).value)
  {}

  lemma CloseKeepsCalm(s: State, id: Id, act: BinderAction)
    requires BinderStep(s, id, act).Some? && Closes(act) && Calm(s)
    ensures Calm(BinderStep(s, id, act).value)
  {}

  lemma StepKeepsCalm(s: State, a: Action)
    requires Step(s, a).Some? && IsCalm(a) && Calm(s)
    ensures Calm(Step(s, a).value)
  {
    hide Calm, CallerStep, SubStep, WorkerStep, BinderStep;
    match a {
      case OfCaller(p, act) => CallerStepKeepsCalm(s, p, act);
      case OfSub(x, act) => SubStepKeepsCalm(s, x, act);
      case OfWorker(act) => WorkerStepKeepsCalm(s, act);
      case OfBinder(id, act) => BinderStepKeepsCalm(s, id, act);
    }
  }

  // ----- over runs -----

  lemma StepStopsOnlyWhenDone(s: State, a: Action)
    requires Step(s, a).Some? && (s.pipe.worker.Stopped? ==> s.done)
    ensures var s' := Step(s, a).value;
            s'.pipe.worker.Stopped? ==> s'.done
  {
    hide CallerStep, SubStep, WorkerStep, BinderStep;
    match a {
      case OfCaller(p, act) => CallerStepKeepsWorker(s, p, act);
      case OfSub(x, act) => SubStepDrains(s, x, act);
      case OfWorker(act) => WorkerStopsWhenDone(s, act);
      case OfBinder(id, act) => BinderStepDrains(s, id, act);
    }
  }

  lemma CallerStepKeepsWorker(s: State, p: CallerId, act: CallerAction)
    requires CallerStep(s, p, act).Some?
    ensures var s' := CallerStep(s, p, act).value;
            s'.pipe.worker == s.pipe.worker && (s.done ==> s'.done)
  {}

  lemma WorkerStopsWhenDone(s: State, act: WorkerAction)
    requires WorkerStep(s, act).Some?
    ensures var s' := WorkerStep(s, act).value;
            s'.done == s.done && (s'.pipe.worker.Stopped? ==> s.done)
  {}

  lemma {:induction false} StopsOnlyWhenDone(states: seq<State>, acts: seq<Action>, i: nat)
    requires IsRun(states, acts) && i < |states|
    ensures states[i].pipe.worker.Stopped? ==> states[i].done
  {
    if i > 0 {
      hide Step;
      StopsOnlyWhenDone(states, acts, i - 1);
      RunStep(states, acts, i - 1);
      StepStopsOnlyWhenDone(states[i - 1], acts[i - 1]);
    }
  }

  lemma StepKeepsQuiet(s: State, a: Action)
    requires Step(s, a).Some? && IsCalm(a) && Calm(s)
    ensures Quiet(Step(s, a).value)
  {
    hide Step;
    StepKeepsCalm(s, a);
  }

  lemma QuietIsCalm(states: seq<State>, acts: seq<Action>, i: nat)
    requires IsRun(states, acts) && i < |states| && Quiet(states[i])
    ensures Calm(states[i])
  {
    StopsOnlyWhenDone(states, acts, i);
  }

  /** A quiet queue is not blocked, and has skipped nothing. */
  lemma QuietIsNotBlocked(s: State, id: Id)
    requires Inv(s) && Calm(s) && id in s.jobs
    ensures !Blocked(s) && id !in s.pipe.skipped
  {
    hide Fits;
    JobNow(s, id);
    if Hand(s.pipe.worker).Some? {
      assert Places(s.pipe, s.pipe.worker.id) == 1;
      JobNow(s, s.pipe.worker.id);
      NothingIsJammed(s, s.pipe.worker.id);
    }
  }

  lemma NothingIsJammed(s: State, id: Id)
    requires Calm(s)
    ensures !Jammed(s, id)
  {}

  lemma CalmStepIsMove(s: State, a: Action)
    requires Calm(s) && Step(s, a).Some? && IsInternal(a)
    ensures !Stutters(s, a) && !Begins(a)
  {}

  /** In a calm stretch of a run without new calls every step counts. */
  lemma {:induction false} CalmStepsCount(states: seq<State>, acts: seq<Action>, i: nat, j: nat)
    requires IsRun(states, acts) && i <= j < |states| && Quiet(states[i])
    requires forall k :: i <= k < j ==> IsInternal(acts[k])
    ensures Quiet(states[j]) && Changes(states, acts, i, j) == j - i && NewWork(acts, i, j) == 0
  {
    hide Step, IsRun, Quiet, Stutters, Begins, BeginWork;
    RunIsLong(states, acts);
    if i < j {
      CalmStepsCount(states, acts, i, j - 1);
      RunStep(states, acts, j - 1);
      QuietIsCalm(states, acts, j - 1);
      CalmStepIsMove(states[j - 1], acts[j - 1]);
      BeginningIsWork(acts[j - 1]);
      StepKeepsQuiet(states[j - 1], acts[j - 1]);
    }
  }

  /**
   Every accepted transaction reaches Done.  Let the environment be calm from state i on and begin
   no further calls: the run takes at most Work(states[i]) further steps, and when no goroutine can
   move any more, every accepted transaction has gone through Queued and Processing to Done.
   */
  lemma EveryAcceptedReachesDone(states: seq<State>, acts: seq<Action>, i: nat, j: nat)
    requires IsRun(states, acts) && i <= j < |states| && Quiet(states[i])
    requires forall k :: i <= k < j ==> IsInternal(acts[k])
    ensures j - i <= Work(states[i])
    ensures (forall a :: !CanMove(states[j], a)) ==>
              forall id :: IsAccepted(states[j], id) ==>
                states[j].jobs[id].curr.phase == Done && |states[j].jobs[id].history| == 3
                && id in states[j].pipe.starts
  {
    hide Inv, IsRun, Quiet, Work, Blocked;
    CalmStepsCount(states, acts, i, j);
    ChangesAreBounded(states, acts, i, j);
    RunKeepsInv(states, acts, j);
    QuietIsCalm(states, acts, j);
    if forall a :: !CanMove(states[j], a) {
      forall id | IsAccepted(states[j], id)
        ensures states[j].jobs[id].curr.phase == Done && |states[j].jobs[id].history| == 3
                  && id in states[j].pipe.starts
      {
        QuietIsNotBlocked(states[j], id);
        if id !in states[j].pipe.finished {
          var a := SomethingMoves(states[j], id);
        }
        FinishedIsDone(states[j], id);
      }
    }
  }

  lemma FinishedIsDone(s: State, id: Id)
    requires Inv(s) && id in s.jobs && id in s.pipe.finished
    ensures s.jobs[id].curr.phase == Done && |s.jobs[id].history| == 3 && id in s.pipe.starts
  {
    JobNow(s, id);
  }
}
