/** What no step ever takes back: histories, handler calls, cancellations, and the shutdown flag. */
module WorkQueueGrowth {
  import opened Wrappers
  import opened WorkQueue
  import opened WorkQueueInvariant

  predicate JobGrows(j: Job, j': Job) {
    j.history <= j'.history && (j.cancelled ==> j'.cancelled)
  }

  ghost predicate JobsGrow(jobs: map<Id, Job>, jobs': map<Id, Job>) {
    forall id :: id in jobs ==> id in jobs' && JobGrows(jobs[id], jobs'[id])
  }

  /** Once granted, a subscription keeps its job, key and start, and its stream only gets longer. */
  predicate SubGrows(u: Sub, u': Sub) {
    u.pc.WasGranted() ==>
      && u'.pc.WasGranted()
      && u'.job == u.job && u'.key == u.key && u'.from == u.from
      && u.sent <= u'.sent && u.received <= u'.received
  }

  ghost predicate SubsGrow(subs: map<SubId, Sub>, subs': map<SubId, Sub>) {
    forall x :: x in subs ==> x in subs' && SubGrows(subs[x], subs'[x])
  }

  predicate PipeGrows(q: Pipe, q': Pipe) {
    q.idCount <= q'.idCount && q.starts <= q'.starts
  }

  ghost predicate Grows(s: State, s': State) {
    && PipeGrows(s.pipe, s'.pipe)
    && JobsGrow(s.jobs, s'.jobs)
    && SubsGrow(s.subs, s'.subs)
    && (s.done ==> s'.done)
  }

  lemma CallerStepGrows(s: State, p: CallerId, act: CallerAction)
    requires IdInv(s.pipe.idCount, s.jobs, s.registry) && CallerStep(s, p, act).Some?
    ensures Grows(s, CallerStep(s, p, act).value)
  {}

  /** A subscriber's step touches its own subscription and, in a rendezvous, the job it subscribes to. */
  ghost predicate TouchesOwnSub(s: State, s': State, x: SubId) {
    && s'.pipe == s.pipe && s'.done == s.done
    && x in s'.subs && s'.subs == s.subs[x := s'.subs[x]]
    && (x in s.subs ==> SubGrows(s.subs[x], s'.subs[x]))
    && (s'.jobs == s.jobs
        || (x in s.subs && s.subs[x].job in s.jobs && s.subs[x].job in s'.jobs
            && var id := s.subs[x].job;
            s'.jobs == s.jobs[id := s'.jobs[id]] && JobGrows(s.jobs[id], s'.jobs[id])))
  }

  lemma RendezvousTouchesOwnSub(s: State, x: SubId, act: SubAction)
    requires SubStep(s, x, act).Some? && (act.SubscribeSend? || act.DetachSend?)
    ensures TouchesOwnSub(s, SubStep(s, x, act).value, x)
  {}

  lemma SubscribeTouchesOwnSub(s: State, x: SubId, act: SubAction)
    requires SubStep(s, x, act).Some?
    requires act.SubscribeLock? || act.SubscribeCheck? || act.SubscribeLookup? || act.SubscribeGiveUp?
              || act.SubscribeUnlock?
    ensures TouchesOwnSub(s, SubStep(s, x, act).value, x)
  {}

  lemma ClientTouchesOwnSub(s: State, x: SubId, act: SubAction)
    requires SubStep(s, x, act).Some?
    requires act.BeginSubscribe? || act.Receive? || act.CloseSubscription? || act.DetachClose?
    ensures TouchesOwnSub(s, SubStep(s, x, act).value, x)
  {
    hide SubGrows, JobGrows;
    if x in s.subs {
      ClientSubGrows(s, x, act);
    }
  }

  lemma ClientSubGrows(s: State, x: SubId, act: SubAction)
    requires SubStep(s, x, act).Some? && x in s.subs
    requires act.BeginSubscribe? || act.Receive? || act.CloseSubscription? || act.DetachClose?
    ensures x in SubStep(s, x, act).value.subs && SubGrows(s.subs[x], SubStep(s, x, act).value.subs[x])
  {}

  lemma SubStepGrows(s: State, x: SubId, act: SubAction)
    requires SubStep(s, x, act).Some?
    ensures Grows(s, SubStep(s, x, act).value)
  {
    hide SubStep, SubGrows;
    if act.SubscribeSend? || act.DetachSend? {
      RendezvousTouchesOwnSub(s, x, act);
    } else if act.BeginSubscribe? || act.Receive? || act.CloseSubscription? || act.DetachClose? {
      ClientTouchesOwnSub(s, x, act);
    } else {
      SubscribeTouchesOwnSub(s, x, act);
    }
    var s' := SubStep(s, x, act).value;
    forall y | y in s.subs ensures y in s'.subs && SubGrows(s.subs[y], s'.subs[y]) {
      if y != x {
        SubGrowsIsReflexive(s.subs[y]);
      }
    }
  }

  lemma SubGrowsIsReflexive(u: Sub)
    ensures SubGrows(u, u)
  {}

  lemma WorkerStepGrows(s: State, act: WorkerAction)
    requires IdInv(s.pipe.idCount, s.jobs, s.registry) && WorkerStep(s, act).Some?
    ensures Grows(s, WorkerStep(s, act).value)
  {}

  ghost predicate TouchesOwnJob(s: State, s': State, id: Id) {
    && s'.pipe == s.pipe && s'.done == s.done
    && id in s.jobs && id in s'.jobs
    && s'.jobs == s.jobs[id := s'.jobs[id]]
    && JobGrows(s.jobs[id], s'.jobs[id])
    && SubsGrow(s.subs, s'.subs)
  }

  predicate Sends(act: BinderAction) {
    act.BinderGreet? || act.BinderSend?
  }

  predicate Closes(act: BinderAction) {
    act.BinderSwap? || act.BinderCloseChan?
  }

  lemma SendTouchesOwnJob(s: State, id: Id, act: BinderAction)
    requires Sends(act) && BinderStep(s, id, act).Some?
    ensures TouchesOwnJob(s, BinderStep(s, id, act).value, id)
  {
    hide SubsGrow;
    SentSubsGrow(s, id, act);
  }

  lemma CloseTouchesOwnJob(s: State, id: Id, act: BinderAction)
    requires Closes(act) && BinderStep(s, id, act).Some?
    ensures TouchesOwnJob(s, BinderStep(s, id, act).value, id)
  {
    hide SubsGrow;
    ClosedSubsGrow(s, id, act);
  }

  lemma SentSubsGrow(s: State, id: Id, act: BinderAction)
    requires Sends(act) && BinderStep(s, id, act).Some?
    ensures SubsGrow(s.subs, BinderStep(s, id, act).value.subs)
  {
    hide SubsGrow, SendTo;
    var j := s.jobs[id];
    SendToGrows(s, j, if act.BinderGreet? then j.binder.sub else j.subscriptions[act.key]);
  }

  lemma SendToGrows(s: State, j: Job, x: SubId)
    requires x in s.subs
    ensures SubsGrow(s.subs, SendTo(s, j, x).subs)
  {}

  lemma ClosedSubsGrow(s: State, id: Id, act: BinderAction)
    requires Closes(act) && BinderStep(s, id, act).Some?
    ensures SubsGrow(s.subs, BinderStep(s, id, act).value.subs)
  {
    hide JobGrows;
  }

  lemma PlainStepTouchesOwnJob(s: State, id: Id, act: BinderAction)
    requires !Sends(act) && !Closes(act) && BinderStep(s, id, act).Some?
    ensures TouchesOwnJob(s, BinderStep(s, id, act).value, id)
  {}

  lemma BinderStepGrows(s: State, id: Id, act: BinderAction)
    requires BinderStep(s, id, act).Some?
    ensures Grows(s, BinderStep(s, id, act).value)
  {
    hide BinderStep;
    if Sends(act) {
      SendTouchesOwnJob(s, id, act);
    } else if Closes(act) {
      CloseTouchesOwnJob(s, id, act);
    } else {
      PlainStepTouchesOwnJob(s, id, act);
    }
  }

  lemma StepGrows(s: State, a: Action)
    requires Inv(s) && Step(s, a).Some?
    ensures Grows(s, Step(s, a).value)
  {
    hide PipeInv, JobInv, MapInv, SubInv, CallerStep, SubStep, WorkerStep, BinderStep, Grows;
    match a {
      case OfCaller(p, act) => CallerStepGrows(s, p, act);
      case OfSub(x, act) => SubStepGrows(s, x, act);
      case OfWorker(act) => WorkerStepGrows(s, act);
      case OfBinder(id, act) => BinderStepGrows(s, id, act);
    }
  }
}
