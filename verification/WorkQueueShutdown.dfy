/** After Close has set done, the queue only drains. */
module WorkQueueShutdown {
  import opened Wrappers
  import opened WorkQueue
  import opened WorkQueueInvariant
  import opened WorkQueueSteps
  import opened WorkQueueGrowth
  import opened WorkQueueRuns

  /** No publisher is past its check of done. */
  ghost predicate NoPublisherPastCheck(callers: map<CallerId, CallerPc>) {
    forall p :: p in callers ==> !callers[p].PublishOpen? && !callers[p].PublishPushing?
  }

  predicate IsSuffix<T(==)>(a: seq<T>, b: seq<T>) {
    |a| <= |b| && a == b[|b| - |a|..]
  }

  /** s' has no id, no registration, no queued and no handled transaction that s does not have in store. */
  ghost predicate Drained(s: State, s': State) {
    && s'.pipe.idCount == s.pipe.idCount
    && s'.registry <= s.registry
    && IsSuffix(s'.pipe.queue, s.pipe.queue)
    && (forall id :: id in Line(s'.pipe) ==> id in Line(s.pipe))
  }

  lemma CallerStepDrains(s: State, p: CallerId, act: CallerAction)
    requires CallersInv(s.lock.writer, s.callers, s.pipe.pushing) && CallerStep(s, p, act).Some?
    requires s.done ==> NoPublisherPastCheck(s.callers)
    ensures var s' := CallerStep(s, p, act).value;
            && (s'.done ==> NoPublisherPastCheck(s'.callers))
            && (s.done ==> s'.pipe == s.pipe && s'.registry == s.registry)
  {}

  lemma SubStepDrains(s: State, x: SubId, act: SubAction)
    requires SubStep(s, x, act).Some?
    ensures var s' := SubStep(s, x, act).value;
            s'.done == s.done && s'.callers == s.callers && s'.pipe == s.pipe && s'.registry == s.registry
  {}

  lemma WorkerStepDrains(s: State, act: WorkerAction)
    requires WorkerStep(s, act).Some?
    ensures var s' := WorkerStep(s, act).value;
            s'.done == s.done && s'.callers == s.callers && Drained(s, s')
  {
    hide Line;
    if act.WorkerDequeue? {
      DequeueKeepsLine(s.pipe);
    } else if act.WorkerCheck? {
      CheckDrainsLine(s.pipe, s.pipe.worker.id, s.jobs[s.pipe.worker.id].cancelled);
    } else {
      MoveKeepsLine(s.pipe, WorkerStep(s, act).value.pipe);
    }
  }

  lemma DequeueKeepsLine(q: Pipe)
    requires q.worker == Idle && q.queue != []
    ensures Line(PipeDequeue(q)) == Line(q)
  {
    assert q.queue == [q.queue[0]] + q.queue[1..];
  }

  lemma CheckDrainsLine(q: Pipe, id: Id, cancelled: bool)
    requires q.worker == Taken(id)
    ensures forall i :: i in Line(PipeCheck(q, id, cancelled)) ==> i in Line(q)
  {}

  /** The worker's other moves: the hand keeps its id, or gives it to starts. */
  lemma MoveKeepsLine(q: Pipe, q': Pipe)
    requires q'.queue == q.queue && q'.pushing == q.pushing
    requires
      || (q'.starts == q.starts && !HasStarted(q.worker) && !HasStarted(q'.worker) && Hand(q'.worker) == Hand(q.worker))
      || (q'.starts == q.starts + ToSeq(Hand(q.worker)) && !HasStarted(q.worker) && HasStarted(q'.worker))
      || (q'.starts == q.starts && HasStarted(q.worker) && (HasStarted(q'.worker) || q'.worker == Idle))
    ensures forall i :: i in Line(q') ==> i in Line(q)
  {}

  lemma BinderStepDrains(s: State, id: Id, act: BinderAction)
    requires BinderStep(s, id, act).Some?
    ensures var s' := BinderStep(s, id, act).value;
            s'.done == s.done && s'.callers == s.callers && s'.pipe == s.pipe && s'.registry <= s.registry
  {
    if Sends(act) {
      SendDrains(s, id, act);
    } else if Closes(act) {
      CloseDrains(s, id, act);
    }
  }

  lemma SendDrains(s: State, id: Id, act: BinderAction)
    requires BinderStep(s, id, act).Some? && Sends(act)
    ensures var s' := BinderStep(s, id, act).value;
            s'.done == s.done && s'.callers == s.callers && s'.pipe == s.pipe && s'.registry == s.registry
  {}

  lemma CloseDrains(s: State, id: Id, act: BinderAction)
    requires BinderStep(s, id, act).Some? && Closes(act)
    ensures var s' := BinderStep(s, id, act).value;
            s'.done == s.done && s'.callers == s.callers && s'.pipe == s.pipe && s'.registry == s.registry
  {}

  lemma StepDrains(s: State, a: Action)
    requires Inv(s) && Step(s, a).Some?
    requires s.done ==> NoPublisherPastCheck(s.callers)
    ensures var s' := Step(s, a).value;
            && (s'.done ==> NoPublisherPastCheck(s'.callers))
            && (s.done ==> Drained(s, s'))
  {
    hide PipeInv, JobInv, MapInv, SubInv, IdInv, BindersInv, ReadersInv, NoPublisherPastCheck, CallerStep, SubStep,
      WorkerStep, BinderStep;
    match a {
      case OfCaller(p, act) => CallerStepDrains(s, p, act);
      case OfSub(x, act) => SubStepDrains(s, x, act);
      case OfWorker(act) => WorkerStepDrains(s, act);
      case OfBinder(id, act) => BinderStepDrains(s, id, act);
    }
  }

  lemma {:induction false} ClosedQueueHasNoPublisher(states: seq<State>, acts: seq<Action>, i: nat)
    requires IsRun(states, acts) && i < |states|
    ensures states[i].done ==> NoPublisherPastCheck(states[i].callers)
  {
    if i > 0 {
      hide Step, Inv, NoPublisherPastCheck;
      ClosedQueueHasNoPublisher(states, acts, i - 1);
      RunKeepsInv(states, acts, i - 1);
      RunStep(states, acts, i - 1);
      StepDrains(states[i - 1], acts[i - 1]);
    }
  }

  lemma {:induction false} RunDrains(states: seq<State>, acts: seq<Action>, i: nat, j: nat)
    requires IsRun(states, acts) && i <= j < |states| && states[i].done
    ensures states[j].done && Drained(states[i], states[j])
  {
    hide IsRun, Step, Inv, NoPublisherPastCheck, Grows, Drained;
    if i == j {
      DrainedIsReflexive(states[i]);
    } else {
      RunIsLong(states, acts);
      RunDrains(states, acts, i, j - 1);
      RunKeepsInv(states, acts, j - 1);
      ClosedQueueHasNoPublisher(states, acts, j - 1);
      RunStep(states, acts, j - 1);
      StepDrains(states[j - 1], acts[j - 1]);
      DoneStays(states, acts, j - 1, j);
      DrainedIsTransitive(states[i], states[j - 1], states[j]);
    }
  }

  lemma RunIsLong(states: seq<State>, acts: seq<Action>)
    requires IsRun(states, acts)
    ensures |states| == |acts| + 1
  {}

  lemma DrainedIsReflexive(s: State)
    ensures Drained(s, s)
  {}

  lemma DrainedIsTransitive(a: State, b: State, c: State)
    requires Drained(a, b) && Drained(b, c)
    ensures Drained(a, c)
  {}

  lemma DoneStays(states: seq<State>, acts: seq<Action>, i: nat, j: nat)
    requires IsRun(states, acts) && i <= j < |states| && states[i].done
    ensures states[j].done
  {
    RunGrows(states, acts, i, j);
  }

  /** Nothing is accepted after Close, and whatever is handled afterwards was accepted before. */
  lemma ShutdownAcceptsNothing(states: seq<State>, acts: seq<Action>, i: nat, j: nat)
    requires IsRun(states, acts) && i <= j < |states| && states[i].done
    ensures states[j].done
    ensures states[j].pipe.idCount == states[i].pipe.idCount
    ensures states[j].registry <= states[i].registry
    ensures IsSuffix(states[j].pipe.queue, states[i].pipe.queue)
    ensures states[i].pipe.starts <= states[j].pipe.starts
    ensures forall id :: id in states[j].pipe.starts ==>
              id in states[i].pipe.starts || id in states[i].pipe.queue || Hand(states[i].pipe.worker) == Some(id)
  {
    RunDrains(states, acts, i, j);
    RunGrows(states, acts, i, j);
    ClosedQueueHasNoPublisher(states, acts, i);
    RunKeepsInv(states, acts, i);
    hide PipeInv, JobInv, MapInv, SubInv;
    forall id | id in states[j].pipe.starts
      ensures id in states[i].pipe.starts || id in states[i].pipe.queue || Hand(states[i].pipe.worker) == Some(id)
    {
      assert id in Line(states[j].pipe);
      assert id in Line(states[i].pipe);
    }
  }
}
