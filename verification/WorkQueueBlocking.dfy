/** Cancellation after the worker's context check: how the worker gets stuck, and that it stays so. */
module WorkQueueBlocking {
  import opened Wrappers
  import opened WorkQueue
  import opened WorkQueueInvariant
  import opened WorkQueueFits
  import opened WorkQueueSteps
  import opened WorkQueueGrowth
  import opened WorkQueueRuns
  import opened WorkQueueShutdown

  /** The worker waits for a binder that has cancelled, is about to, or has failed to find one. */
  predicate Stuck(s: State, id: Id) {
    || s.pipe.worker == Crashed(id)
    || ((s.pipe.worker == Vetted(id) || s.pipe.worker == Announcing(id)) && id in s.jobs
        && s.jobs[id].curr.phase == Cancelled)
  }

  /** The worker has returned, or is stuck. */
  predicate Halted(s: State) {
    s.pipe.worker.Stopped? || (Hand(s.pipe.worker).Some? && Stuck(s, Hand(s.pipe.worker).value))
  }

  /** Nothing is started, finished or skipped, and nothing is taken from the worker's hands. */
  predicate SameProgress(q: Pipe, q': Pipe) {
    Hand(q'.worker) == Hand(q.worker) && q'.starts == q.starts && q'.finished == q.finished && q'.skipped == q.skipped
  }

  lemma HaltedWorkerStays(s: State, a: Action)
    requires Inv(s) && Step(s, a).Some? && Halted(s)
    ensures var s' := Step(s, a).value;
            && SameProgress(s.pipe, s'.pipe)
            && (s'.pipe.worker == s.pipe.worker
                || (s.pipe.worker.Vetted? && (s'.pipe.worker.Announcing? || s'.pipe.worker.Crashed?)))
  {
    hide Inv, CallerStep, SubStep, BinderStep;
    match a {
      case OfCaller(p, act) => CallerLeavesWorker(s, p, act);
      case OfSub(x, act) => SubLeavesWorker(s, x, act);
      case OfWorker(act) =>
        if s.pipe.worker.Announcing? {
          HistoryOf(s, s.pipe.worker.id);
        }
      case OfBinder(i, act) => BinderLeavesWorker(s, i, act);
    }
  }

  lemma CallerLeavesWorker(s: State, p: CallerId, act: CallerAction)
    requires CallerStep(s, p, act).Some?
    ensures var q, q' := s.pipe, CallerStep(s, p, act).value.pipe;
            q'.worker == q.worker && q'.starts == q.starts && q'.finished == q.finished && q'.skipped == q.skipped
  {}

  lemma SubLeavesWorker(s: State, x: SubId, act: SubAction)
    requires SubStep(s, x, act).Some?
    ensures SubStep(s, x, act).value.pipe == s.pipe
  {}

  lemma BinderLeavesWorker(s: State, id: Id, act: BinderAction)
    requires BinderStep(s, id, act).Some?
    ensures BinderStep(s, id, act).value.pipe == s.pipe
  {}

  lemma CancelledIsLast(j: Job, j': Job)
    requires JobGrows(j, j') && j.curr.phase == Cancelled
    requires GoodHistory(j.history) && j.curr == j.history[|j.history| - 1]
    requires GoodHistory(j'.history) && j'.curr == j'.history[|j'.history| - 1]
    ensures j'.curr.phase == Cancelled
  {}

  lemma CancelledStays(s: State, s': State, id: Id)
    requires Inv(s) && Inv(s') && Grows(s, s') && id in s.jobs && s.jobs[id].curr.phase == Cancelled
    ensures id in s'.jobs && s'.jobs[id].curr.phase == Cancelled
  {
    hide Inv, SubGrows, JobGrows, PipeGrows, GoodHistory;
    HistoryOf(s, id);
    HistoryOf(s', id);
    CancelledIsLast(s.jobs[id], s'.jobs[id]);
  }

  lemma HaltedStays(s: State, a: Action)
    requires Inv(s) && Step(s, a).Some? && Halted(s)
    ensures var s' := Step(s, a).value;
            && Halted(s') && SameProgress(s.pipe, s'.pipe)
            && (!s.pipe.worker.Vetted? ==> s'.pipe.worker == s.pipe.worker)
  {
    hide Inv, Step, Grows;
    HaltedWorkerStays(s, a);
    if s.pipe.worker.Vetted? || s.pipe.worker.Announcing? {
      StepKeepsInv(s, a);
      StepGrows(s, a);
      CancelledStays(s, Step(s, a).value, s.pipe.worker.id);
    }
  }

  /** From then on, whatever happens, the worker neither starts, finishes nor skips a transaction. */
  lemma {:induction false} HaltedForever(states: seq<State>, acts: seq<Action>, i: nat, j: nat)
    requires IsRun(states, acts) && i <= j < |states| && Halted(states[i])
    ensures Halted(states[j]) && SameProgress(states[i].pipe, states[j].pipe)
    ensures !states[i].pipe.worker.Vetted? ==> states[j].pipe.worker == states[i].pipe.worker
  {
    hide Inv, IsRun, Step, Halted, SameProgress;
    RunIsLong(states, acts);
    if i < j {
      HaltedForever(states, acts, i, j - 1);
      RunKeepsInv(states, acts, j - 1);
      RunStep(states, acts, j - 1);
      HaltedStays(states[j - 1], acts[j - 1]);
      SameProgressTransitive(states[i].pipe, states[j - 1].pipe, states[j].pipe);
    } else {
      SameProgressReflexive(states[i].pipe);
    }
  }

  lemma SameProgressReflexive(q: Pipe)
    ensures SameProgress(q, q)
  {}

  lemma SameProgressTransitive(q: Pipe, q1: Pipe, q2: Pipe)
    requires SameProgress(q, q1) && SameProgress(q1, q2)
    ensures SameProgress(q, q2)
  {}

  /** A worker that is stuck stays so, with the same transaction in its hands. */
  lemma StuckForever(states: seq<State>, acts: seq<Action>, i: nat, j: nat, id: Id)
    requires IsRun(states, acts) && i <= j < |states| && Stuck(states[i], id)
    ensures Stuck(states[j], id)
    ensures states[i].pipe.worker != Vetted(id) ==> states[j].pipe.worker == states[i].pipe.worker
    ensures states[j].pipe.starts == states[i].pipe.starts && states[j].pipe.finished == states[i].pipe.finished
    ensures states[j].pipe.skipped == states[i].pipe.skipped
  {
    HaltedForever(states, acts, i, j);
  }

  // ----- it happens -----

  /** The state after an action that is enabled. */
  function After(s: State, a: Action): State
    requires Step(s, a).Some?
  {
    Step(s, a).value
  }

  /** A run in which the only transaction is published and passes the worker's context check. */
  lemma RunToCheck() returns (states: seq<State>, acts: seq<Action>)
    ensures IsRun(states, acts)
    ensures var s := states[|acts|];
            && s.lock == Lock(None, {}) && s.pipe.worker == Vetted(1) && s.registry == {1} && !s.done
            && 1 in s.jobs && s.jobs[1] == NewJob(false) && s.subs == map[]
  {
    acts := [OfCaller(0, BeginPublish), OfCaller(0, PublishLock), OfCaller(0, PublishCheck),
        OfCaller(0, PublishRegister(false)),
             OfCaller(0, PublishPush), OfCaller(0, PublishUnlock), OfWorker(WorkerDequeue), OfWorker(WorkerCheck)];
    var s1 := After(Init, acts[0]);
    var s2 := After(s1, acts[1]);
    var s3 := After(s2, acts[2]);
    var s4 := After(s3, acts[3]);
    var s5 := After(s4, acts[4]);
    var s6 := After(s5, acts[5]);
    var s7 := After(s6, acts[6]);
    var s8 := After(s7, acts[7]);
    states := [Init, s1, s2, s3, s4, s5, s6, s7, s8];
  }

  /** Then the context is cancelled, and the binder notices before the worker goes on. */
  lemma RunToCancelled() returns (states: seq<State>, acts: seq<Action>)
    ensures IsRun(states, acts)
    ensures var s := states[|acts|];
            && s.lock == Lock(None, {}) && s.pipe.worker == Vetted(1) && s.registry == {1} && !s.done && s.subs == map[]
            && 1 in s.jobs && s.jobs[1].binder == Broadcasting({}) && s.jobs[1].curr.phase == Cancelled
            && s.jobs[1].subscriptions == map[]
  {
    states, acts := RunToCheck();
    var more := [OfBinder(1, CancelContext), OfBinder(1, BinderCancel)];
    var s1 := After(states[|acts|], more[0]);
    var s2 := After(s1, more[1]);
    ExtendAll(states, acts, more, [s1, s2]);
    states, acts := states + [s1, s2], acts + more;
  }

  /** The worker that sends now waits for ever. */
  lemma WorkerCanBlock() returns (states: seq<State>, acts: seq<Action>)
    ensures IsRun(states, acts) && states[|acts|].pipe.worker == Announcing(1) && Stuck(states[|acts|], 1)
  {
    states, acts := RunToCancelled();
    var lookup := OfWorker(WorkerLookup);
    var s := After(states[|acts|], lookup);
    ExtendAll(states, acts, [lookup], [s]);
    states, acts := states + [s], acts + [lookup];
  }

  /** The worker that looks its state up only when the binder has gone crashes. */
  lemma WorkerCanCrash() returns (states: seq<State>, acts: seq<Action>)
    ensures IsRun(states, acts) && states[|acts|].pipe.worker == Crashed(1)
  {
    states, acts := RunToCancelled();
    var more := [OfBinder(1, BinderEnd), OfBinder(1, BinderLock), OfBinder(1, BinderDeregister),
        OfBinder(1, BinderUnlock),
                 OfWorker(WorkerLookup)];
    var s1 := After(states[|acts|], more[0]);
    var s2 := After(s1, more[1]);
    var s3 := After(s2, more[2]);
    var s4 := After(s3, more[3]);
    var s5 := After(s4, more[4]);
    ExtendAll(states, acts, more, [s1, s2, s3, s4, s5]);
    states, acts := states + [s1, s2, s3, s4, s5], acts + more;
  }

  lemma ExtendAll(states: seq<State>, acts: seq<Action>, more: seq<Action>, next: seq<State>)
    requires IsRun(states, acts) && |next| == |more| > 0 && Step(states[|acts|], more[0]) == Some(next[0])
    requires forall i :: 1 <= i < |more| ==> Step(next[i - 1], more[i]) == Some(next[i])
    ensures IsRun(states + next, acts + more)
  {
    hide Step;
    var n := |acts|;
    forall i | 0 <= i < |acts + more|
        ensures Step((states + next)[i], (acts + more)[i]) == Some((states + next)[i + 1]) {
      if i > n {
        assert Step(next[i - n - 1], more[i - n]) == Some(next[i - n]);
      }
    }
  }
}
