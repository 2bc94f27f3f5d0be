/**
 The atomic job system that the work queue implements: one line of jobs, one running job,
 and four phases.  Every step of the protocol is a stutter or one atomic step of it.
 */
module JobSystem {
  import opened Wrappers
  import opened WorkQueue

  datatype Jobs = Jobs(
    open: bool,
    count: nat,                // ids 1..count have been handed out
    phase: map<Id, Phase>,
    abandoned: set<Id>,        // the context is done
    waiting: seq<Id>,          // oldest first
    running: Option<Id>)

  datatype Event =
    | Submit(withdrawn: bool)  // a new youngest job
    | Refuse                   // the youngest job is turned away
    | Abandon(id: Id)
    | Cancel(id: Id)           // Queued to Cancelled
    | Discard                  // the oldest job is dropped
    | Start                    // the oldest job: Queued to Processing
    | Finish                   // the running job: Processing to Done
    | Shut

  function Next(js: Jobs, e: Event): Option<Jobs> {
    match e
    case Submit(withdrawn) =>
      var id := js.count + 1;
      if !js.open then None
      else Some(js.(count := id, phase := js.phase[id := Queued], waiting := js.waiting + [id],
                    abandoned := if withdrawn then js.abandoned + {id} else js.abandoned))
    case Refuse =>
      if |js.waiting| <= QUEUE_CAPACITY then None
      else Some(js.(waiting := js.waiting[..|js.waiting| - 1]))
    case Abandon(id) =>
      if id !in js.phase then None else Some(js.(abandoned := js.abandoned + {id}))
    case Cancel(id) =>
      if id !in js.phase || js.phase[id] != Queued || id !in js.abandoned then None
      else Some(js.(phase := js.phase[id := Cancelled]))
    case Discard =>
      if js.waiting == [] || js.waiting[0] !in js.abandoned then None
      else Some(js.(waiting := js.waiting[1..]))
    case Start =>
      if js.running != None || js.waiting == [] || js.waiting[0] !in js.phase
          || js.phase[js.waiting[0]] != Queued then None
      else Some(js.(running := Some(js.waiting[0]), phase := js.phase[js.waiting[0] := Processing],
          waiting := js.waiting[1..]))
    case Finish =>
      if js.running == None || js.running.value !in js.phase || js.phase[js.running.value] != Processing then None
      else Some(js.(running := None, phase := js.phase[js.running.value := Done]))
    case Shut => Some(js.(open := false))
  }

  /** The four phases are only ever passed through as Queued, Processing, Done or Queued, Cancelled. */
  lemma PhasesOnlyAdvance(js: Jobs, e: Event, id: Id)
    requires Next(js, e).Some? && id in js.phase && id <= js.count
    ensures id in Next(js, e).value.phase
    ensures var p, p' := js.phase[id], Next(js, e).value.phase[id];
            || p' == p
            || (p == Queued && p' == Processing && js.waiting != [] && js.waiting[0] == id)
            || (p == Processing && p' == Done && js.running == Some(id))
            || (p == Queued && p' == Cancelled && id in js.abandoned)
  {}

  const NoJobs := Jobs(true, 0, map[], {}, [], None)

  /** The job system's own runs; a stutter is None. */
  ghost predicate IsJobRun(run: seq<Jobs>, events: seq<Option<Event>>) {
    && |run| == |events| + 1
    && run[0] == NoJobs
    && forall i :: 0 <= i < |events| ==>
         if events[i].None? then run[i + 1] == run[i] else Next(run[i], events[i].value) == Some(run[i + 1])
  }
}

module WorkQueueRefinement {
  import opened Wrappers
  import opened WorkQueue
  import opened WorkQueueInvariant
  import opened WorkQueueFits
  import opened WorkQueueSteps
  import opened WorkQueueRuns
  import opened WorkQueueGrowth
  import opened WorkQueueShutdown
  import opened JobSystem

  /** In the worker's hands and not yet announced as Processing. */
  function Waiting(q: Pipe): seq<Id> {
    (if q.worker.Taken? || q.worker.Vetted? || q.worker.Announcing? || q.worker.Crashed? then [q.worker.id] else [])
    + q.queue + ToSeq(q.pushing)
  }

  function Running(w: WorkerPc): Option<Id> {
    if w.Calling? || w.Handling? || w.Reporting? then Some(w.id) else None
  }

  function Phases(jobs: map<Id, Job>): map<Id, Phase> {
    map id | id in jobs :: jobs[id].curr.phase
  }

  function Abandoned(jobs: map<Id, Job>): set<Id> {
    set id | id in jobs && jobs[id].cancelled
  }

  function View(s: State): Jobs {
    Jobs(!s.done, s.pipe.idCount, Phases(s.jobs), Abandoned(s.jobs), Waiting(s.pipe), Running(s.pipe.worker))
  }

  /** The atomic step that a protocol step performs, or None for a stutter. */
  function EventOf(s: State, a: Action): Option<Event> {
    match a
    case OfCaller(_, PublishRegister(ctxDone)) => Some(Submit(ctxDone))
    case OfCaller(_, PublishPush) => if |s.pipe.queue| < QUEUE_CAPACITY then None else Some(Refuse)
    case OfCaller(_, CloseDone) => Some(Shut)
    case OfWorker(WorkerCheck) =>
      var w := s.pipe.worker;
      if w.Taken? && w.id in s.jobs && s.jobs[w.id].cancelled then Some(Discard) else None
    case OfWorker(WorkerSend) => if s.pipe.worker.Announcing? then Some(Start) else Some(Finish)
    case OfBinder(id, CancelContext) => Some(Abandon(id))
    case OfBinder(id, BinderCancel) =>
      if id in s.jobs && s.jobs[id].curr.phase == Queued then Some(Cancel(id)) else None
    case _ => None
  }

  ghost predicate Simulates(s: State, s': State, e: Option<Event>) {
    if e.None? then View(s') == View(s) else Next(View(s), e.value) == Some(View(s'))
  }

  /** A change of one job that keeps its status and its context does not show. */
  lemma SameView(jobs: map<Id, Job>, id: Id, j: Job)
    requires id in jobs && j.curr == jobs[id].curr && j.cancelled == jobs[id].cancelled
    ensures Phases(jobs[id := j]) == Phases(jobs)
    ensures Abandoned(jobs[id := j]) == Abandoned(jobs)
  {}

  lemma NewPhase(jobs: map<Id, Job>, id: Id, j: Job)
    requires id in jobs && j.cancelled == jobs[id].cancelled
    ensures Phases(jobs[id := j]) == Phases(jobs)[id := j.curr.phase]
    ensures Abandoned(jobs[id := j]) == Abandoned(jobs)
  {}

  lemma NewEntry(jobs: map<Id, Job>, id: Id, j: Job)
    requires id !in jobs
    ensures Phases(jobs[id := j]) == Phases(jobs)[id := j.curr.phase]
    ensures Abandoned(jobs[id := j]) == Abandoned(jobs) + (if j.cancelled then {id} else {})
  {}

  lemma CallerSimulates(s: State, p: CallerId, act: CallerAction)
    requires Inv(s) && CallerStep(s, p, act).Some?
    requires s.done ==> NoPublisherPastCheck(s.callers)
    ensures Simulates(s, CallerStep(s, p, act).value, EventOf(s, OfCaller(p, act)))
  {
    hide PipeInv, JobInv, MapInv, SubInv, ReadersInv, BindersInv;
    var s' := CallerStep(s, p, act).value;
    if act.PublishRegister? {
      assert !s.done && s.pipe.pushing == None;
      RegisterSimulates(s, p, act.ctxDone);
    } else if act.PublishPush? {
      var w, w' := Waiting(s.pipe), Waiting(s'.pipe);
      assert w' == if |s.pipe.queue| < QUEUE_CAPACITY then w else w[..|w| - 1];
    }
  }

  lemma RegisterSimulates(s: State, p: CallerId, ctxDone: bool)
    requires PublishRegisterStep(s, p, ctxDone).Some? && !s.done && s.pipe.pushing == None
    requires s.pipe.idCount + 1 !in s.jobs
    ensures Simulates(s, PublishRegisterStep(s, p, ctxDone).value, Some(Submit(ctxDone)))
  {
    var id: Id := s.pipe.idCount + 1;
    var s' := PublishRegisterStep(s, p, ctxDone).value;
    NewEntry(s.jobs, id, NewJob(ctxDone));
    assert Abandoned(s'.jobs) == if ctxDone then Abandoned(s.jobs) + {id} else Abandoned(s.jobs);
    assert Waiting(s'.pipe) == Waiting(s.pipe) + [id];
  }

  lemma RendezvousSimulates(s: State, x: SubId, act: SubAction)
    requires SubStep(s, x, act).Some? && (act.SubscribeSend? || act.DetachSend?)
    ensures Simulates(s, SubStep(s, x, act).value, EventOf(s, OfSub(x, act)))
  {
    hide Phases, Abandoned;
    var id := s.subs[x].job;
    SameView(s.jobs, id, SubStep(s, x, act).value.jobs[id]);
  }

  lemma SubMoveSimulates(s: State, x: SubId, act: SubAction)
    requires SubStep(s, x, act).Some? && !act.SubscribeSend? && !act.DetachSend?
    ensures Simulates(s, SubStep(s, x, act).value, EventOf(s, OfSub(x, act)))
  {
    hide Phases, Abandoned;
  }

  lemma SubSimulates(s: State, x: SubId, act: SubAction)
    requires SubStep(s, x, act).Some?
    ensures Simulates(s, SubStep(s, x, act).value, EventOf(s, OfSub(x, act)))
  {
    hide *;
    if act.SubscribeSend? || act.DetachSend? {
      RendezvousSimulates(s, x, act);
    } else {
      SubMoveSimulates(s, x, act);
    }
  }

  lemma WorkerSendSimulates(s: State)
    requires Inv(s) && WorkerSendStep(s).Some?
    ensures Simulates(s, WorkerSendStep(s).value, EventOf(s, OfWorker(WorkerSend)))
  {
    hide Inv, Waiting, Phases, Abandoned;
    var s' := WorkerSendStep(s).value;
    var id := s.pipe.worker.id;
    PhaseOf(s.jobs, id);
    HandPhase(s, id);
    NewPhase(s.jobs, id, s'.jobs[id]);
    SendOfWaiting(s.pipe, id);
  }

  lemma PhaseOf(jobs: map<Id, Job>, id: Id)
    requires id in jobs
    ensures id in Phases(jobs) && Phases(jobs)[id] == jobs[id].curr.phase
  {}

  /** What the status of the transaction in the worker's hands can be when its binder is listening. */
  lemma HandPhase(s: State, id: Id)
    requires Inv(s) && id in s.jobs && s.jobs[id].binder == Selecting && Hand(s.pipe.worker) == Some(id)
    ensures s.pipe.worker.Announcing? ==> s.jobs[id].curr.phase == Queued
    ensures s.pipe.worker.Reporting? ==> s.jobs[id].curr.phase == Processing && s.pipe.worker.status.phase == Done
  {
    JobNow(s, id);
  }

  lemma WorkerMoveSimulates(s: State, act: WorkerAction)
    requires WorkerStep(s, act).Some? && !act.WorkerSend?
    ensures Simulates(s, WorkerStep(s, act).value, EventOf(s, OfWorker(act)))
  {
    hide Waiting;
    if act.WorkerDequeue? {
      DequeueKeepsWaiting(s.pipe);
    } else if act.WorkerCheck? {
      CheckOfWaiting(s.pipe, s.pipe.worker.id, s.jobs[s.pipe.worker.id].cancelled);
    } else {
      MoveKeepsWaiting(s.pipe, WorkerStep(s, act).value.pipe);
    }
  }

  lemma DequeueKeepsWaiting(q: Pipe)
    requires q.worker == Idle && q.queue != []
    ensures Waiting(PipeDequeue(q)) == Waiting(q)
  {
    assert q.queue == [q.queue[0]] + q.queue[1..];
  }

  lemma CheckOfWaiting(q: Pipe, id: Id, cancelled: bool)
    requires q.worker == Taken(id)
    ensures Waiting(q) != [] && Waiting(q)[0] == id
    ensures Waiting(PipeCheck(q, id, cancelled)) == if cancelled then Waiting(q)[1..] else Waiting(q)
  {}

  lemma SendOfWaiting(q: Pipe, id: Id)
    requires q.worker == Announcing(id) || (q.worker.Reporting? && q.worker.id == id)
    ensures q.worker.Announcing? ==> Waiting(q) != [] && Waiting(q)[0] == id
    ensures Waiting(PipeSend(q, id)) == if q.worker.Announcing? then Waiting(q)[1..] else Waiting(q)
  {}

  lemma MoveKeepsWaiting(q: Pipe, q': Pipe)
    requires q'.queue == q.queue && q'.pushing == q.pushing
    requires
      || (q'.worker.Stopped? && q.worker.Idle?)
      || (q.worker.Vetted? && (q'.worker == Announcing(q.worker.id) || q'.worker == Crashed(q.worker.id)))
      || (Running(q.worker).Some? && Running(q'.worker).Some?)
    ensures Waiting(q') == Waiting(q)
  {}

  lemma BinderCancelSimulates(s: State, id: Id)
    requires Inv(s) && BinderCancelStep(s, id).Some?
    ensures Simulates(s, BinderCancelStep(s, id).value, EventOf(s, OfBinder(id, BinderCancel)))
  {
    hide PipeInv, JobInv, MapInv, SubInv, ReadersInv, BindersInv, CallersInv;
    HistoryOf(s, id);
    NewPhase(s.jobs, id, NewStatus(s.jobs[id], CancelledStatus));
  }

  lemma CancelContextSimulates(s: State, id: Id)
    requires CancelContextStep(s, id).Some?
    ensures Simulates(s, CancelContextStep(s, id).value, EventOf(s, OfBinder(id, CancelContext)))
  {
    var s' := CancelContextStep(s, id).value;
    assert Phases(s'.jobs) == Phases(s.jobs);
    assert Abandoned(s'.jobs) == Abandoned(s.jobs) + {id};
  }

  /** The other binder steps keep the status and the context. */
  lemma BinderMoveSimulates(s: State, id: Id, act: BinderAction)
    requires BinderStep(s, id, act).Some? && !act.BinderCancel? && !act.CancelContext?
    ensures Simulates(s, BinderStep(s, id, act).value, None)
  {
    var s' := BinderStep(s, id, act).value;
    BinderMoveKeepsStatus(s, id, act);
    hide BinderStep;
    SameView(s.jobs, id, s'.jobs[id]);
  }

  lemma BinderMoveKeepsStatus(s: State, id: Id, act: BinderAction)
    requires BinderStep(s, id, act).Some? && !act.BinderCancel? && !act.CancelContext?
    ensures var s' := BinderStep(s, id, act).value;
            KeepsStatus(s, s', id)
  {
    if Sends(act) {
      SendKeepsStatus(s, id, act);
    } else if Closes(act) {
      CloseKeepsStatus(s, id, act);
    }
  }

  predicate KeepsStatus(s: State, s': State, id: Id) {
    && s'.pipe == s.pipe && s'.done == s.done
    && id in s.jobs && id in s'.jobs
    && s'.jobs == s.jobs[id := s'.jobs[id]]
    && s'.jobs[id].curr == s.jobs[id].curr && s'.jobs[id].cancelled == s.jobs[id].cancelled
  }

  lemma SendKeepsStatus(s: State, id: Id, act: BinderAction)
    requires BinderStep(s, id, act).Some? && Sends(act)
    ensures KeepsStatus(s, BinderStep(s, id, act).value, id)
  {}

  lemma CloseKeepsStatus(s: State, id: Id, act: BinderAction)
    requires BinderStep(s, id, act).Some? && Closes(act)
    ensures KeepsStatus(s, BinderStep(s, id, act).value, id)
  {}

  lemma StepSimulates(s: State, a: Action)
    requires Inv(s) && Step(s, a).Some?
    requires s.done ==> NoPublisherPastCheck(s.callers)
    ensures Simulates(s, Step(s, a).value, EventOf(s, a))
  {
    hide Inv, Simulates, NoPublisherPastCheck;
    match a {
      case OfCaller(p, act) => CallerSimulates(s, p, act);
      case OfSub(x, act) => SubSimulates(s, x, act);
      case OfWorker(WorkerSend) => WorkerSendSimulates(s);
      case OfWorker(act) => WorkerMoveSimulates(s, act);
      case OfBinder(id, BinderCancel) => BinderCancelSimulates(s, id);
      case OfBinder(id, CancelContext) => CancelContextSimulates(s, id);
      case OfBinder(id, act) => BinderMoveSimulates(s, id, act);
    }
  }

  /** Seen through View, every run of the work queue is a run of the job system. */
  lemma RunRefines(states: seq<State>, acts: seq<Action>)
    requires IsRun(states, acts)
    ensures IsJobRun(seq(|states|, i requires 0 <= i < |states| => View(states[i])),
                     seq(|acts|, i requires 0 <= i < |acts| => EventOf(states[i], acts[i])))
  {
    RunIsLong(states, acts);
    var run := seq(|states|, i requires 0 <= i < |states| => View(states[i]));
    var events := seq(|acts|, i requires 0 <= i < |acts| => EventOf(states[i], acts[i]));
    assert View(Init) == NoJobs;
    assert run[0] == NoJobs by {
      RunStartsInInit(states, acts);
    }
    forall i | 0 <= i < |acts|
      ensures if events[i].None? then run[i + 1] == run[i] else Next(run[i], events[i].value) == Some(run[i + 1])
    {
      hide Inv, IsRun, Step, NoPublisherPastCheck, EventOf, View, Next;
      RunKeepsInv(states, acts, i);
      ClosedQueueHasNoPublisher(states, acts, i);
      RunStep(states, acts, i);
      StepSimulates(states[i], acts[i]);
    }
  }

  lemma RunStartsInInit(states: seq<State>, acts: seq<Action>)
    requires IsRun(states, acts)
    ensures states[0] == Init
  {}
}
