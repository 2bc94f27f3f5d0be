/** Every step of every goroutine keeps the invariant. */
module WorkQueueSteps {
  import opened Wrappers
  import opened WorkQueue
  import opened WorkQueueInvariant
  import opened WorkQueuePipe
  import opened WorkQueueFits

  // ----- from one job and its subscriptions to the maps -----

  lemma JobsAfter(jobs: map<Id, Job>, q: Pipe, id: Id, j: Job, q': Pipe)
    requires JobInv(jobs, q)
    requires forall i :: i in jobs && i != id ==>
               && IsRunning(q'.worker, i) == IsRunning(q.worker, i)
               && (i in q'.finished <==> i in q.finished)
               && (GivenUp(q', i) <==> GivenUp(q, i))
    requires JobOk(j, IsRunning(q'.worker, id), id in q'.finished, GivenUp(q', id))
    ensures JobInv(jobs[id := j], q')
  {}

  lemma MapAfter(jobs: map<Id, Job>, subs: map<SubId, Sub>, id: Id, j: Job)
    requires MapInv(jobs, subs) && MapOk(id, j, subs)
    ensures MapInv(jobs[id := j], subs)
  {}

  /** No entry of a map is disturbed when a subscription keeps its job, its key and its grant. */
  lemma MapAfterSub(jobs: map<Id, Job>, subs: map<SubId, Sub>, x: SubId, u: Sub)
    requires MapInv(jobs, subs)
    requires x in subs && subs[x].pc.WasGranted() ==> IsEntry(subs[x].job, subs[x].key, u)
    requires x in subs ==> u.key == subs[x].key
    requires x !in subs ==> forall id :: id in jobs ==> jobs[id].binder != Greeting(x) && jobs[id].binder != Removing(x)
    ensures MapInv(jobs, subs[x := u])
  {
    forall id | id in jobs ensures MapOk(id, jobs[id], subs[x := u]) {
      assert MapOk(id, jobs[id], subs);
    }
  }

  lemma SubsAfter(jobs: map<Id, Job>, subs: map<SubId, Sub>, registry: set<Id>, id: Id, j: Job)
    requires SubInv(subs, jobs, registry)
    requires forall x :: x in subs && subs[x].job == id && subs[x].pc.WasGranted() ==> Fits(x, subs[x], j)
    ensures SubInv(subs, jobs[id := j], registry)
  {
    forall x | x in subs ensures SubOk(x, subs[x], jobs[id := j], registry) {
      assert SubOk(x, subs[x], jobs, registry);
    }
  }

  lemma SubsAfterSub(jobs: map<Id, Job>, subs: map<SubId, Sub>, registry: set<Id>, x: SubId, u: Sub)
    requires SubInv(subs, jobs, registry) && SubOk(x, u, jobs, registry)
    ensures SubInv(subs[x := u], jobs, registry)
  {}

  lemma MapAfterBoth(jobs: map<Id, Job>, subs: map<SubId, Sub>, id: Id, j: Job, x: SubId, u: Sub)
    requires MapInv(jobs, subs) && MapOk(id, j, subs[x := u])
    requires x in subs && u.job == subs[x].job == id
    ensures MapInv(jobs[id := j], subs[x := u])
  {
    forall i | i in jobs && i != id ensures MapOk(i, jobs[i], subs[x := u]) {
      assert MapOk(i, jobs[i], subs);
    }
  }

  lemma SubsAfterBoth(jobs: map<Id, Job>, subs: map<SubId, Sub>, registry: set<Id>, id: Id, j: Job, x: SubId, u: Sub)
    requires SubInv(subs, jobs, registry)
    requires x in subs && u.job == id && u.pc.WasGranted() && Fits(x, u, j)
    requires forall y :: y in subs && y != x && subs[y].job == id && subs[y].pc.WasGranted() ==> Fits(y, subs[y], j)
    ensures SubInv(subs[x := u], jobs[id := j], registry)
  {
    forall y | y in subs && y != x ensures SubOk(y, subs[y], jobs[id := j], registry) {
      assert SubOk(y, subs[y], jobs, registry);
    }
  }

  /** One job changes, and with it perhaps the worker's step on that job. */
  lemma JobAndPipeAfter(s: State, id: Id, j: Job, q: Pipe)
    requires Inv(s) && id in s.jobs
    requires PipeInv(q) && q.pushing == s.pipe.pushing && q.idCount == s.pipe.idCount
    requires forall i :: i in s.jobs && i != id ==>
               && IsRunning(q.worker, i) == IsRunning(s.pipe.worker, i)
               && (i in q.finished <==> i in s.pipe.finished)
               && (GivenUp(q, i) <==> GivenUp(s.pipe, i))
    requires BinderHoldsLock(j.binder) == BinderHoldsLock(s.jobs[id].binder)
    requires BinderGone(j.binder) == BinderGone(s.jobs[id].binder)
    requires JobOk(j, IsRunning(q.worker, id), id in q.finished, GivenUp(q, id))
    requires MapOk(id, j, s.subs)
    requires forall x :: x in s.subs && s.subs[x].job == id && s.subs[x].pc.WasGranted() ==> Fits(x, s.subs[x], j)
    ensures Inv(s.(pipe := q, jobs := s.jobs[id := j]))
  {
    hide Fits, MapOk, JobOk, JobInv, MapInv, SubInv, PipeInv, ReadersInv, CallersInv;
    JobsAfter(s.jobs, s.pipe, id, j, q);
    MapAfter(s.jobs, s.subs, id, j);
    SubsAfter(s.jobs, s.subs, s.registry, id, j);
  }

  /** A binder takes, holds or leaves the lock: what its job and its subscriptions owe. */
  lemma BindAfter(s: State, id: Id, j: Job)
    requires Inv(s) && id in s.jobs
    requires JobOk(j, IsRunning(s.pipe.worker, id), id in s.pipe.finished, GivenUp(s.pipe, id))
    requires MapOk(id, j, s.subs)
    requires forall x :: x in s.subs && s.subs[x].job == id && s.subs[x].pc.WasGranted() ==> Fits(x, s.subs[x], j)
    ensures JobInv(s.jobs[id := j], s.pipe)
    ensures MapInv(s.jobs[id := j], s.subs)
    ensures SubInv(s.subs, s.jobs[id := j], s.registry)
  {
    hide Fits, MapOk, JobOk, JobInv, MapInv, SubInv, PipeInv, ReadersInv, CallersInv, BindersInv;
    JobsAfter(s.jobs, s.pipe, id, j, s.pipe);
    MapAfter(s.jobs, s.subs, id, j);
    SubsAfter(s.jobs, s.subs, s.registry, id, j);
  }

  /** While no subscriber is inside Subscribe, an id can leave the registry. */
  lemma UnregisterAfter(jobs: map<Id, Job>, subs: map<SubId, Sub>, registry: set<Id>, id: Id)
    requires SubInv(subs, jobs, registry)
    requires forall x :: x in subs ==> !subs[x].pc.HoldsReadLock()
    ensures SubInv(subs, jobs, registry - {id})
  {
    forall x | x in subs ensures SubOk(x, subs[x], jobs, registry - {id}) {
      assert SubOk(x, subs[x], jobs, registry);
    }
  }

  /** One job and one of its subscriptions change, outside the lock and the pipe. */
  lemma JobAndSubAfter(s: State, id: Id, j: Job, x: SubId, u: Sub)
    requires Inv(s) && id in s.jobs && x in s.subs
    requires BinderHoldsLock(j.binder) == BinderHoldsLock(s.jobs[id].binder)
    requires BinderGone(j.binder) == BinderGone(s.jobs[id].binder)
    requires JobOk(j, IsRunning(s.pipe.worker, id), id in s.pipe.finished, GivenUp(s.pipe, id))
    requires u.pc.HoldsReadLock() == s.subs[x].pc.HoldsReadLock()
    requires u.job == s.subs[x].job == id && u.pc.WasGranted() && Fits(x, u, j)
    requires s.subs[x].pc.WasGranted() ==> u.key == s.subs[x].key
    requires MapOk(id, j, s.subs[x := u])
    requires forall y :: y in s.subs && y != x && s.subs[y].job == id && s.subs[y].pc.WasGranted() ==>
              Fits(y, s.subs[y], j)
    ensures Inv(s.(jobs := s.jobs[id := j], subs := s.subs[x := u]))
  {
    hide Fits, MapOk, JobOk, JobInv, MapInv, SubInv, PipeInv, CallersInv;
    JobsAfter(s.jobs, s.pipe, id, j, s.pipe);
    MapAfterBoth(s.jobs, s.subs, id, j, x, u);
    SubsAfterBoth(s.jobs, s.subs, s.registry, id, j, x, u);
  }

  /** One granted subscription changes, outside the lock. */
  lemma SubAfter(s: State, x: SubId, u: Sub)
    requires Inv(s) && x in s.subs && s.subs[x].pc.WasGranted()
    requires u.pc.HoldsReadLock() == s.subs[x].pc.HoldsReadLock()
    requires IsEntry(s.subs[x].job, s.subs[x].key, u)
    requires u.job in s.jobs && Fits(x, u, s.jobs[u.job])
    ensures Inv(s.(subs := s.subs[x := u]))
  {
    hide Fits, MapOk, SubOk, IdInv, BindersInv, JobInv, MapInv, SubInv, PipeInv, CallersInv;
    GrantedIsOk(x, u, s.jobs, s.registry);
    MapAfterSub(s.jobs, s.subs, x, u);
    SubsAfterSub(s.jobs, s.subs, s.registry, x, u);
  }

  lemma GrantedIsOk(x: SubId, u: Sub, jobs: map<Id, Job>, registry: set<Id>)
    requires u.pc.WasGranted() && u.job in jobs && Fits(x, u, jobs[u.job])
    ensures SubOk(x, u, jobs, registry)
  {}

  lemma FitsNow(s: State, x: SubId)
    requires Inv(s) && x in s.subs && s.subs[x].pc.WasGranted()
    ensures s.subs[x].job in s.jobs && Fits(x, s.subs[x], s.jobs[s.subs[x].job])
  {
    assert SubOk(x, s.subs[x], s.jobs, s.registry);
  }

  lemma FitsOrFresh(s: State, x: SubId)
    requires Inv(s) && x in s.subs
    ensures SubOk(x, s.subs[x], s.jobs, s.registry)
    ensures x in s.subs && s.subs[x].pc == SubscribeSending ==> s.subs[x].job in s.jobs
  {}

  lemma FreshNow(s: State, x: SubId)
    requires Inv(s) && x in s.subs && !s.subs[x].pc.WasGranted()
    ensures Fresh(s.subs[x])
    ensures s.subs[x].pc == SubscribeSending ==> s.subs[x].job in s.registry && s.subs[x].job in s.jobs
  {
    assert SubOk(x, s.subs[x], s.jobs, s.registry);
  }

  lemma PipeNow(s: State, id: Id)
    requires Inv(s) && id in s.jobs
    ensures PipeInv(s.pipe)
    ensures Places(s.pipe, id) == 1
  {}

  lemma JobNow(s: State, id: Id)
    requires Inv(s) && id in s.jobs
    ensures JobOk(s.jobs[id], IsRunning(s.pipe.worker, id), id in s.pipe.finished, GivenUp(s.pipe, id))
    ensures MapOk(id, s.jobs[id], s.subs)
  {}

  /** The worker's unlocked lookup can only miss a transaction whose context is done. */
  lemma LookupFindsLiveState(s: State)
    requires Inv(s) && s.pipe.worker.Vetted?
    ensures s.pipe.worker.id in s.jobs
    ensures s.pipe.worker.id !in s.registry ==> s.jobs[s.pipe.worker.id].cancelled
  {
    var id := s.pipe.worker.id;
    assert Places(s.pipe, id) == 1;
    assert JobOk(s.jobs[id], false, id in s.pipe.finished, GivenUp(s.pipe, id));
  }

  // ----- one job, against the worker and its subscription map -----

  lemma NewIdIsNowhere(q: Pipe)
    requires PipeInv(q)
    ensures var id := q.idCount + 1;
            !IsRunning(q.worker, id) && id !in q.finished && !GivenUp(q, id)
  {
    assert Places(q, q.idCount + 1) == 0;
  }

  lemma NewJobIsOk(id: Id, ctxDone: bool, subs: map<SubId, Sub>)
    ensures JobOk(NewJob(ctxDone), false, false, false) && MapOk(id, NewJob(ctxDone), subs)
  {}

  lemma GrantKeepsJob(id: Id, j: Job, x: SubId, u: Sub, subs: map<SubId, Sub>, running: bool, finished: bool,
      givenUp: bool)
    requires JobOk(j, running, finished, givenUp) && MapOk(id, j, subs) && j.binder == Selecting
    requires x in subs && u == subs[x] && u.job == id && !u.pc.WasGranted()
    ensures var key := j.subCount + 1;
            var j' := j.(binder := Greeting(x), subCount := key, subscriptions := j.subscriptions[key := x]);
            && key !in j.subscriptions
            && JobOk(j', running, finished, givenUp)
            && MapOk(id, j', subs[x := u.(pc := SubscribeLeaving(Granted), key := key, from := |j.history| - 1)])
  {}

  lemma DetachKeepsJob(id: Id, j: Job, x: SubId, u: Sub, subs: map<SubId, Sub>, running: bool, finished: bool,
      givenUp: bool)
    requires JobOk(j, running, finished, givenUp) && MapOk(id, j, subs) && j.binder == Selecting
    requires x in subs && u == subs[x] && u.pc == Detaching && u.job == id && Fits(x, u, j)
    ensures var j' := j.(binder := Removing(x));
            JobOk(j', running, finished, givenUp) && MapOk(id, j', subs[x := u.(pc := Detached)])
  {}

  lemma AbandonKeepsJob(id: Id, j: Job, subs: map<SubId, Sub>, running: bool, finished: bool, givenUp: bool)
    requires JobOk(j, running, finished, givenUp) && MapOk(id, j, subs)
    ensures JobOk(j.(cancelled := true), running, finished, givenUp) && MapOk(id, j.(cancelled := true), subs)
  {}

  lemma CancelKeepsJob(id: Id, j: Job, q: Pipe, subs: map<SubId, Sub>)
    requires j.binder == Selecting && j.cancelled && j.curr.phase != Processing
    requires JobOk(j, IsRunning(q.worker, id), id in q.finished, GivenUp(q, id)) && MapOk(id, j, subs)
    ensures JobOk(NewStatus(j, CancelledStatus), IsRunning(q.worker, id), id in q.finished, GivenUp(q, id))
    ensures MapOk(id, NewStatus(j, CancelledStatus), subs)
  {}

  lemma RemoveKeepsJob(id: Id, j: Job, subs: map<SubId, Sub>, running: bool, finished: bool, givenUp: bool)
    requires JobOk(j, running, finished, givenUp) && MapOk(id, j, subs) && j.binder.Removing?
    ensures var x := j.binder.sub;
            && x in subs && Registered(x, subs[x], j)
            && var j' := j.(binder := Selecting, subscriptions := j.subscriptions - {subs[x].key});
            JobOk(j', running, finished, givenUp) && MapOk(id, j', subs)
  {}

  /** The moves of a binder that touch neither its status nor its map. */
  predicate Moves(j: Job, pc: BinderPc) {
    || (j.binder.Greeting? && pc == Selecting)
    || (j.binder.Broadcasting? && pc.Broadcasting? && pc.todo <= j.binder.todo)
    || (j.binder.Broadcasting? && pc == AfterBroadcast(j))
    || (j.binder == Exiting && pc == Sweeping(j.subscriptions.Keys))
    || (j.binder.Sweeping? && pc.Sweeping? && pc.todo <= j.binder.todo)
    || (j.binder.Sweeping? && pc.ClosingOne? && pc.key in j.binder.todo && pc.todo <= j.binder.todo - {pc.key})
    || (j.binder.ClosingOne? && pc == Sweeping(j.binder.todo))
    || (j.binder.Sweeping? && pc == Deregistered)
    || (j.binder == Deregistered && pc == Finished)
  }

  lemma MovesKeepJob(id: Id, j: Job, pc: BinderPc, subs: map<SubId, Sub>, running: bool, finished: bool, givenUp: bool)
    requires JobOk(j, running, finished, givenUp) && MapOk(id, j, subs) && Moves(j, pc)
    ensures JobOk(j.(binder := pc), running, finished, givenUp) && MapOk(id, j.(binder := pc), subs)
    ensures j.curr == j.history[|j.history| - 1]
  {}

  lemma AbortKeepsJob(id: Id, j: Job, subs: map<SubId, Sub>, running: bool, finished: bool, givenUp: bool)
    requires JobOk(j, running, finished, givenUp) && MapOk(id, j, subs) && j.binder.Broadcasting? && j.cancelled
    ensures JobOk(Aborted(j), running, finished, givenUp) && MapOk(id, Aborted(j), subs)
  {}

  lemma GapsOf(j: Job, running: bool, finished: bool, givenUp: bool)
    requires JobOk(j, running, finished, givenUp)
    ensures MissedOk(j)
  {}

  lemma SubKeepsMap(id: Id, j: Job, subs: map<SubId, Sub>, x: SubId, u: Sub)
    requires MapOk(id, j, subs) && x in subs && IsEntry(subs[x].job, subs[x].key, u)
    ensures MapOk(id, j, subs[x := u])
  {}

  lemma GreetedIsRegistered(id: Id, j: Job, subs: map<SubId, Sub>)
    requires MapOk(id, j, subs) && j.binder.Greeting?
    ensures j.binder.sub in subs && Registered(j.binder.sub, subs[j.binder.sub], j)
    ensures IsEntry(id, subs[j.binder.sub].key, subs[j.binder.sub])
  {}

  lemma EntryIsRegistered(id: Id, j: Job, subs: map<SubId, Sub>, key: nat)
    requires MapOk(id, j, subs) && key in j.subscriptions
    ensures var x := j.subscriptions[key];
            x in subs && IsEntry(id, key, subs[x]) && Registered(x, subs[x], j)
  {}

  lemma ClosingIsNotTodo(id: Id, j: Job, subs: map<SubId, Sub>)
    requires MapOk(id, j, subs) && j.binder.ClosingOne?
    ensures j.binder.key !in j.binder.todo
  {}

  lemma NoReaderWhileSwept(s: State, id: Id, x: SubId)
    requires Inv(s) && id in s.jobs && BinderHoldsLock(s.jobs[id].binder) && x in s.subs
    ensures !s.subs[x].pc.HoldsReadLock()
  {}

  lemma SendKeepsJob(id: Id, j: Job, q: Pipe, subs: map<SubId, Sub>)
    requires q.worker.Announcing? || (q.worker.Reporting? && q.worker.status.phase == Done)
    requires q.worker.id == id && Places(q, id) == 1 && j.binder == Selecting
    requires JobOk(j, IsRunning(q.worker, id), id in q.finished, GivenUp(q, id)) && MapOk(id, j, subs)
    ensures var status := if q.worker.Announcing? then ProcessingStatus else q.worker.status;
            var q' := PipeSend(q, id);
            && JobOk(NewStatus(j, status), IsRunning(q'.worker, id), id in q'.finished, GivenUp(q', id))
            && MapOk(id, NewStatus(j, status), subs)
  {}

  // ----- callers -----

  lemma BeginPublishKeeps(s: State, p: CallerId)
    requires Inv(s) && BeginPublishStep(s, p).Some?
    ensures Inv(BeginPublishStep(s, p).value)
  {}

  lemma BeginCloseKeeps(s: State, p: CallerId)
    requires Inv(s) && BeginCloseStep(s, p).Some?
    ensures Inv(BeginCloseStep(s, p).value)
  {}

  lemma PublishLockKeeps(s: State, p: CallerId)
    requires Inv(s) && PublishLockStep(s, p).Some?
    ensures Inv(PublishLockStep(s, p).value)
  {}

  lemma PublishCheckKeeps(s: State, p: CallerId)
    requires Inv(s) && PublishCheckStep(s, p).Some?
    ensures Inv(PublishCheckStep(s, p).value)
  {}

  /** A new id is no subscription's. */
  lemma SubsAfterRegister(jobs: map<Id, Job>, subs: map<SubId, Sub>, registry: set<Id>, idCount: nat, j: Job)
    requires SubInv(subs, jobs, registry) && IdInv(idCount, jobs, registry)
    ensures SubInv(subs, jobs[idCount + 1 := j], registry + {idCount + 1})
  {
    hide Fits, IdInv;
    NewIdIsFree(idCount, jobs, registry);
    forall x | x in subs ensures SubOk(x, subs[x], jobs[idCount + 1 := j], registry + {idCount + 1}) {
      assert SubOk(x, subs[x], jobs, registry);
    }
  }

  lemma NewIdIsFree(idCount: nat, jobs: map<Id, Job>, registry: set<Id>)
    requires IdInv(idCount, jobs, registry)
    ensures idCount + 1 !in jobs && idCount + 1 !in registry
  {}

  lemma PublishRegisterKeeps(s: State, p: CallerId, ctxDone: bool)
    requires Inv(s) && PublishRegisterStep(s, p, ctxDone).Some?
    ensures Inv(PublishRegisterStep(s, p, ctxDone).value)
  {
    hide JobOk, MapOk, Fits, JobInv, MapInv, SubInv, ReadersInv, PipeInv;
    var id := s.pipe.idCount + 1;
    RegisterKeepsPipe(s.pipe);
    SubsAfterRegister(s.jobs, s.subs, s.registry, s.pipe.idCount, NewJob(ctxDone));
    NewIdIsNowhere(s.pipe);
    NewJobIsOk(id, ctxDone, s.subs);
    JobsAfter(s.jobs, s.pipe, id, NewJob(ctxDone), PipeRegister(s.pipe));
    MapAfter(s.jobs, s.subs, id, NewJob(ctxDone));
  }

  lemma PublishPushKeeps(s: State, p: CallerId)
    requires Inv(s) && PublishPushStep(s, p).Some?
    ensures Inv(PublishPushStep(s, p).value)
  {
    PushKeepsPipe(s.pipe, s.callers[p].id);
  }

  lemma PublishUnlockKeeps(s: State, p: CallerId)
    requires Inv(s) && PublishUnlockStep(s, p).Some?
    ensures Inv(PublishUnlockStep(s, p).value)
  {}

  lemma CloseLockKeeps(s: State, p: CallerId)
    requires Inv(s) && CloseLockStep(s, p).Some?
    ensures Inv(CloseLockStep(s, p).value)
  {}

  lemma CloseDoneKeeps(s: State, p: CallerId)
    requires Inv(s) && CloseDoneStep(s, p).Some?
    ensures Inv(CloseDoneStep(s, p).value)
  {}

  lemma CloseUnlockKeeps(s: State, p: CallerId)
    requires Inv(s) && CloseUnlockStep(s, p).Some?
    ensures Inv(CloseUnlockStep(s, p).value)
  {}

  // ----- subscribers and their clients -----

  lemma BeginSubscribeKeeps(s: State, x: SubId, id: Id, reader: bool)
    requires Inv(s) && BeginSubscribeStep(s, x, id, reader).Some?
    ensures Inv(BeginSubscribeStep(s, x, id, reader).value)
  {
    var u := BeginSubscribeStep(s, x, id, reader).value.subs[x];
    MapAfterSub(s.jobs, s.subs, x, u);
    SubsAfterSub(s.jobs, s.subs, s.registry, x, u);
  }

  lemma SubscribeLockKeeps(s: State, x: SubId)
    requires Inv(s) && SubscribeLockStep(s, x).Some?
    ensures Inv(SubscribeLockStep(s, x).value)
  {
    var u := SubscribeLockStep(s, x).value.subs[x];
    MapAfterSub(s.jobs, s.subs, x, u);
    SubsAfterSub(s.jobs, s.subs, s.registry, x, u);
  }

  lemma SubscribeCheckKeeps(s: State, x: SubId)
    requires Inv(s) && SubscribeCheckStep(s, x).Some?
    ensures Inv(SubscribeCheckStep(s, x).value)
  {
    var u := SubscribeCheckStep(s, x).value.subs[x];
    MapAfterSub(s.jobs, s.subs, x, u);
    SubsAfterSub(s.jobs, s.subs, s.registry, x, u);
  }

  lemma SubscribeLookupKeeps(s: State, x: SubId)
    requires Inv(s) && SubscribeLookupStep(s, x).Some?
    ensures Inv(SubscribeLookupStep(s, x).value)
  {
    hide MapOk, JobOk, PipeInv, JobInv, MapInv, SubInv;
    FitsOrFresh(s, x);
    var u := SubscribeLookupStep(s, x).value.subs[x];
    MapAfterSub(s.jobs, s.subs, x, u);
    SubsAfterSub(s.jobs, s.subs, s.registry, x, u);
  }

  lemma SubscribeGiveUpKeeps(s: State, x: SubId)
    requires Inv(s) && SubscribeGiveUpStep(s, x).Some?
    ensures Inv(SubscribeGiveUpStep(s, x).value)
  {
    hide MapOk, JobOk, PipeInv, JobInv, MapInv, SubInv;
    FitsOrFresh(s, x);
    var u := SubscribeGiveUpStep(s, x).value.subs[x];
    MapAfterSub(s.jobs, s.subs, x, u);
    SubsAfterSub(s.jobs, s.subs, s.registry, x, u);
  }

  lemma UnlockedIsOk(x: SubId, u: Sub, pc: SubPc, jobs: map<Id, Job>, registry: set<Id>)
    requires SubOk(x, u, jobs, registry) && u.pc.SubscribeLeaving?
    requires pc == if u.pc.outcome == Granted then Attached else Refused(u.pc.outcome)
    ensures SubOk(x, u.(pc := pc), jobs, registry)
  {}

  lemma SubscribeUnlockKeeps(s: State, x: SubId)
    requires Inv(s) && SubscribeUnlockStep(s, x).Some?
    ensures Inv(SubscribeUnlockStep(s, x).value)
  {
    hide MapOk, JobOk, PipeInv, JobInv, MapInv, SubInv, BindersInv, IdInv, SubOk;
    FitsOrFresh(s, x);
    var u := SubscribeUnlockStep(s, x).value.subs[x];
    UnlockedIsOk(x, s.subs[x], u.pc, s.jobs, s.registry);
    MapAfterSub(s.jobs, s.subs, x, u);
    SubsAfterSub(s.jobs, s.subs, s.registry, x, u);
  }

  lemma ReceiveKeeps(s: State, x: SubId)
    requires Inv(s) && ReceiveStep(s, x).Some?
    ensures Inv(ReceiveStep(s, x).value)
  {
    hide Inv, Fits;
    FitsNow(s, x);
    ReceiveFits(x, s.subs[x], s.jobs[s.subs[x].job]);
    SubAfter(s, x, ReceiveStep(s, x).value.subs[x]);
  }

  lemma CloseSubscriptionKeeps(s: State, x: SubId)
    requires Inv(s) && CloseSubscriptionStep(s, x).Some?
    ensures Inv(CloseSubscriptionStep(s, x).value)
  {
    hide Inv, Fits;
    if !s.subs[x].closed {
      FitsNow(s, x);
      CloseFits(x, s.subs[x], s.jobs[s.subs[x].job]);
      SubAfter(s, x, CloseSubscriptionStep(s, x).value.subs[x]);
    }
  }

  lemma DetachCloseKeeps(s: State, x: SubId)
    requires Inv(s) && DetachCloseStep(s, x).Some?
    ensures Inv(DetachCloseStep(s, x).value)
  {
    hide Inv, Fits;
    FitsNow(s, x);
    DetachCloseFits(x, s.subs[x], s.jobs[s.subs[x].job]);
    var u := s.subs[x].(pc := ClientClosed, chanClosed := true);
    assert DetachCloseStep(s, x).value.subs == s.subs[x := u];
    SubAfter(s, x, u);
  }

  lemma SubscribeSendKeeps(s: State, x: SubId)
    requires Inv(s) && SubscribeSendStep(s, x).Some?
    ensures Inv(SubscribeSendStep(s, x).value)
  {
    hide Inv, JobOk, MapOk, Fits, MissedOk;
    var s' := SubscribeSendStep(s, x).value;
    var id := s.subs[x].job;
    var u, j, u', j' := s.subs[x], s.jobs[id], s'.subs[x], s'.jobs[id];
    JobNow(s, id);
    GrantKeepsJob(id, j, x, u, s.subs, IsRunning(s.pipe.worker, id), id in s.pipe.finished, GivenUp(s.pipe, id));
    FreshNow(s, x);
    GapsOf(j, IsRunning(s.pipe.worker, id), id in s.pipe.finished, GivenUp(s.pipe, id));
    GrantFits(x, u, j);
    forall y | y in s.subs && y != x && s.subs[y].job == id && s.subs[y].pc.WasGranted()
      ensures Fits(y, s.subs[y], j')
    {
      FitsNow(s, y);
      GrantKeepsFit(y, s.subs[y], j, x);
    }
    JobAndSubAfter(s, id, j', x, u');
  }

  lemma DetachSendKeeps(s: State, x: SubId)
    requires Inv(s) && DetachSendStep(s, x).Some?
    ensures Inv(DetachSendStep(s, x).value)
  {
    hide Inv, JobOk, MapOk, Fits, MissedOk;
    var id := s.subs[x].job;
    var u, j := s.subs[x], s.jobs[id];
    var u', j' := u.(pc := Detached), j.(binder := Removing(x));
    JobNow(s, id);
    FitsNow(s, x);
    DetachKeepsJob(id, j, x, u, s.subs, IsRunning(s.pipe.worker, id), id in s.pipe.finished, GivenUp(s.pipe, id));
    DetachFits(x, u, j);
    MoveKeepsFits(s, id, Removing(x), {x});
    JobAndSubAfter(s, id, j', x, u');
  }

  // ----- the worker -----

  lemma WorkerStopKeeps(s: State)
    requires Inv(s) && WorkerStopStep(s).Some?
    ensures Inv(WorkerStopStep(s).value)
  {
    MoveKeepsPipe(s.pipe, Stopped);
  }

  lemma WorkerDequeueKeeps(s: State)
    requires Inv(s) && WorkerDequeueStep(s).Some?
    ensures Inv(WorkerDequeueStep(s).value)
  {
    DequeueKeepsPipe(s.pipe);
  }

  lemma WorkerCheckKeeps(s: State)
    requires Inv(s) && WorkerCheckStep(s).Some?
    ensures Inv(WorkerCheckStep(s).value)
  {
    var id := s.pipe.worker.id;
    CheckKeepsPipe(s.pipe, id, s.jobs[id].cancelled);
  }

  lemma WorkerLookupKeeps(s: State)
    requires Inv(s) && WorkerLookupStep(s).Some?
    ensures Inv(WorkerLookupStep(s).value)
  {
    var s' := WorkerLookupStep(s).value;
    MoveKeepsPipe(s.pipe, s'.pipe.worker);
    LookupFindsLiveState(s);
  }

  lemma WorkerSendKeeps(s: State)
    requires Inv(s) && WorkerSendStep(s).Some?
    ensures Inv(WorkerSendStep(s).value)
  {
    hide Inv, JobOk, MapOk, Fits, MissedOk;
    var id := s.pipe.worker.id;
    var s' := WorkerSendStep(s).value;
    var j, j' := s.jobs[id], s'.jobs[id];
    JobNow(s, id);
    PipeNow(s, id);
    SendKeepsPipe(s.pipe, id);
    SendKeepsJob(id, j, s.pipe, s.subs);
    GapsOf(j, IsRunning(s.pipe.worker, id), id in s.pipe.finished, GivenUp(s.pipe, id));
    forall y | y in s.subs && s.subs[y].job == id && s.subs[y].pc.WasGranted()
      ensures Fits(y, s.subs[y], j')
    {
      FitsNow(s, y);
      StatusKeepsFit(y, s.subs[y], j, j'.curr);
    }
    JobAndPipeAfter(s, id, j', s'.pipe);
  }

  lemma WorkerCallKeeps(s: State)
    requires Inv(s) && WorkerCallStep(s).Some?
    ensures Inv(WorkerCallStep(s).value)
  {
    CallKeepsPipe(s.pipe, s.pipe.worker.id);
  }

  lemma WorkerReturnKeeps(s: State, error: Option<string>)
    requires Inv(s) && WorkerReturnStep(s, error).Some?
    ensures Inv(WorkerReturnStep(s, error).value)
  {
    ReturnKeepsPipe(s.pipe, s.pipe.worker.id, error);
  }

  // ----- binders -----

  /** A binder's move leaves the fit of every subscription that it does not concern. */
  lemma MoveKeepsFits(s: State, id: Id, pc: BinderPc, except: set<SubId>)
    requires Inv(s) && id in s.jobs
    requires forall y :: y in s.subs && y !in except && s.subs[y].job == id && s.subs[y].pc.WasGranted() ==>
               var j, u := s.jobs[id], s.subs[y];
               && j.binder != Greeting(y) && pc != Greeting(y) && j.binder != Removing(y) && pc != Removing(y)
               && (Registered(y, u, j) ==>
                     && Pending(y, u, j.(binder := pc)) == Pending(y, u, j)
                     && (Swept(pc, u.key) <==> Swept(j.binder, u.key))
                     && (pc.ClosingOne? && pc.key == u.key <==> j.binder.ClosingOne? && j.binder.key == u.key))
    ensures forall y :: y in s.subs && y !in except && s.subs[y].job == id && s.subs[y].pc.WasGranted() ==>
              Fits(y, s.subs[y], s.jobs[id].(binder := pc))
  {
    hide Inv, Fits, Pending, Swept;
    forall y | y in s.subs && y !in except && s.subs[y].job == id && s.subs[y].pc.WasGranted()
      ensures Fits(y, s.subs[y], s.jobs[id].(binder := pc))
    {
      FitsNow(s, y);
      MoveKeepsFit(y, s.subs[y], s.jobs[id], pc);
    }
  }

  lemma CancelContextKeeps(s: State, id: Id)
    requires Inv(s) && CancelContextStep(s, id).Some?
    ensures Inv(CancelContextStep(s, id).value)
  {
    hide Inv, JobOk, MapOk, Fits, MissedOk;
    var j := s.jobs[id];
    JobNow(s, id);
    PipeNow(s, id);
    AbandonKeepsJob(id, j, s.subs, IsRunning(s.pipe.worker, id), id in s.pipe.finished, GivenUp(s.pipe, id));
    forall y | y in s.subs && s.subs[y].job == id && s.subs[y].pc.WasGranted()
      ensures Fits(y, s.subs[y], j.(cancelled := true))
    {
      FitsNow(s, y);
      CancelKeepsFit(y, s.subs[y], j);
    }
    JobAndPipeAfter(s, id, j.(cancelled := true), s.pipe);
  }

  lemma BinderCancelKeeps(s: State, id: Id)
    requires Inv(s) && BinderCancelStep(s, id).Some?
    ensures Inv(BinderCancelStep(s, id).value)
  {
    hide Inv, JobOk, MapOk, Fits, MissedOk;
    var j := s.jobs[id];
    var j' := NewStatus(j, CancelledStatus);
    if j.curr.phase != Processing {
      JobNow(s, id);
      PipeNow(s, id);
      CancelKeepsJob(id, j, s.pipe, s.subs);
      GapsOf(j, IsRunning(s.pipe.worker, id), id in s.pipe.finished, GivenUp(s.pipe, id));
      forall y | y in s.subs && s.subs[y].job == id && s.subs[y].pc.WasGranted()
        ensures Fits(y, s.subs[y], j')
      {
        FitsNow(s, y);
        StatusKeepsFit(y, s.subs[y], j, CancelledStatus);
      }
      JobAndPipeAfter(s, id, j', s.pipe);
    }
  }

  lemma BinderGreetKeeps(s: State, id: Id)
    requires Inv(s) && BinderGreetStep(s, id).Some?
    ensures Inv(BinderGreetStep(s, id).value)
  {
    hide Inv, JobOk, MapOk, Fits, MissedOk;
    var j := s.jobs[id];
    var x := j.binder.sub;
    var j' := j.(binder := Selecting);
    JobNow(s, id);
    MovesKeepJob(id, j, Selecting, s.subs, IsRunning(s.pipe.worker, id), id in s.pipe.finished, GivenUp(s.pipe, id));
    GreetedIsRegistered(id, j, s.subs);
    FitsNow(s, x);
    GreetFits(x, s.subs[x], j);
    MoveKeepsFits(s, id, Selecting, {x});
    SubKeepsMap(id, j', s.subs, x, Sent(s.subs[x], j));
    JobAndSubAfter(s, id, j', x, Sent(s.subs[x], j));
  }

  lemma BinderRemoveKeeps(s: State, id: Id)
    requires Inv(s) && BinderRemoveStep(s, id).Some?
    ensures Inv(BinderRemoveStep(s, id).value)
  {
    hide Inv, JobOk, MapOk, Fits, MissedOk;
    var j := s.jobs[id];
    var x := j.binder.sub;
    var j' := j.(binder := Selecting, subscriptions := j.subscriptions - {s.subs[x].key});
    PipeNow(s, id);
    JobNow(s, id);
    RemoveKeepsJob(id, j, s.subs, IsRunning(s.pipe.worker, id), id in s.pipe.finished, GivenUp(s.pipe, id));
    forall y | y in s.subs && s.subs[y].job == id && s.subs[y].pc.WasGranted()
      ensures Fits(y, s.subs[y], j')
    {
      FitsNow(s, y);
      if y == x { RemoveFits(x, s.subs[x], j); } else { RemoveKeepsFit(y, s.subs[y], j, x, s.subs[x].key); }
    }
    JobAndPipeAfter(s, id, j', s.pipe);
  }

  lemma BinderSendKeeps(s: State, id: Id, key: nat)
    requires Inv(s) && BinderSendStep(s, id, key).Some?
    ensures Inv(BinderSendStep(s, id, key).value)
  {
    hide Inv, JobOk, MapOk, Fits, MissedOk;
    var j := s.jobs[id];
    var x := j.subscriptions[key];
    var pc := Broadcasting(j.binder.todo - {key});
    var j' := j.(binder := pc);
    JobNow(s, id);
    MovesKeepJob(id, j, pc, s.subs, IsRunning(s.pipe.worker, id), id in s.pipe.finished, GivenUp(s.pipe, id));
    EntryIsRegistered(id, j, s.subs, key);
    FitsNow(s, x);
    SendFits(x, s.subs[x], j);
    MoveKeepsFits(s, id, pc, {x});
    SubKeepsMap(id, j', s.subs, x, Sent(s.subs[x], j));
    JobAndSubAfter(s, id, j', x, Sent(s.subs[x], j));
  }

  lemma BinderAbortKeeps(s: State, id: Id)
    requires Inv(s) && BinderAbortStep(s, id).Some?
    ensures Inv(BinderAbortStep(s, id).value)
  {
    hide Inv, JobOk, MapOk, Fits, MissedOk;
    var j := s.jobs[id];
    var j' := Aborted(j);
    PipeNow(s, id);
    JobNow(s, id);
    AbortKeepsJob(id, j, s.subs, IsRunning(s.pipe.worker, id), id in s.pipe.finished, GivenUp(s.pipe, id));
    forall y | y in s.subs && s.subs[y].job == id && s.subs[y].pc.WasGranted()
      ensures Fits(y, s.subs[y], j')
    {
      FitsNow(s, y);
      AbortKeepsFit(y, s.subs[y], j);
    }
    JobAndPipeAfter(s, id, j', s.pipe);
  }

  lemma BinderEndKeeps(s: State, id: Id)
    requires Inv(s) && BinderEndStep(s, id).Some?
    ensures Inv(BinderEndStep(s, id).value)
  {
    hide Inv, JobOk, MapOk, Fits, MissedOk;
    var j := s.jobs[id];
    var j' := j.(binder := AfterBroadcast(j));
    PipeNow(s, id);
    JobNow(s, id);
    MovesKeepJob(id, j, AfterBroadcast(j), s.subs, IsRunning(s.pipe.worker, id), id in s.pipe.finished,
        GivenUp(s.pipe, id));
    MoveKeepsFits(s, id, AfterBroadcast(j), {});
    JobAndPipeAfter(s, id, j', s.pipe);
  }

  /** The swap was lost to the client. */
  lemma LostSwapKeeps(s: State, id: Id, key: nat)
    requires Inv(s) && BinderSwapStep(s, id, key).Some? && s.subs[s.jobs[id].subscriptions[key]].closed
    ensures Inv(BinderSwapStep(s, id, key).value)
  {
    hide Inv, JobOk, MapOk, Fits, MissedOk;
    var j := s.jobs[id];
    var x := j.subscriptions[key];
    var pc := Sweeping(j.binder.todo - {key});
    PipeNow(s, id);
    JobNow(s, id);
    MovesKeepJob(id, j, pc, s.subs, IsRunning(s.pipe.worker, id), id in s.pipe.finished, GivenUp(s.pipe, id));
    EntryIsRegistered(id, j, s.subs, key);
    FitsNow(s, x);
    NoReaderWhileSwept(s, id, x);
    SwapFits(x, s.subs[x], j);
    MoveKeepsFits(s, id, pc, {x});
    JobAndPipeAfter(s, id, j.(binder := pc), s.pipe);
  }

  /** The binder won the swap. */
  lemma WonSwapKeeps(s: State, id: Id, key: nat)
    requires Inv(s) && BinderSwapStep(s, id, key).Some? && !s.subs[s.jobs[id].subscriptions[key]].closed
    ensures Inv(BinderSwapStep(s, id, key).value)
  {
    hide Inv, JobOk, MapOk, Fits, MissedOk;
    var j := s.jobs[id];
    var x := j.subscriptions[key];
    var u := s.subs[x].(closed := true);
    var pc := ClosingOne(key, j.binder.todo - {key});
    JobNow(s, id);
    MovesKeepJob(id, j, pc, s.subs, IsRunning(s.pipe.worker, id), id in s.pipe.finished, GivenUp(s.pipe, id));
    EntryIsRegistered(id, j, s.subs, key);
    FitsNow(s, x);
    NoReaderWhileSwept(s, id, x);
    SwapFits(x, s.subs[x], j);
    MoveKeepsFits(s, id, pc, {x});
    SubKeepsMap(id, j.(binder := pc), s.subs, x, u);
    JobAndSubAfter(s, id, j.(binder := pc), x, u);
  }

  lemma BinderSwapKeeps(s: State, id: Id, key: nat)
    requires Inv(s) && BinderSwapStep(s, id, key).Some?
    ensures Inv(BinderSwapStep(s, id, key).value)
  {
    hide Inv;
    if s.subs[s.jobs[id].subscriptions[key]].closed {
      LostSwapKeeps(s, id, key);
    } else {
      WonSwapKeeps(s, id, key);
    }
  }

  lemma BinderCloseChanKeeps(s: State, id: Id)
    requires Inv(s) && BinderCloseChanStep(s, id).Some?
    ensures Inv(BinderCloseChanStep(s, id).value)
  {
    hide Inv, JobOk, MapOk, Fits, MissedOk;
    var j := s.jobs[id];
    var x := j.subscriptions[j.binder.key];
    var u, pc := s.subs[x].(chanClosed := true), Sweeping(j.binder.todo);
    var j' := j.(binder := pc);
    JobNow(s, id);
    MovesKeepJob(id, j, pc, s.subs, IsRunning(s.pipe.worker, id), id in s.pipe.finished, GivenUp(s.pipe, id));
    EntryIsRegistered(id, j, s.subs, j.binder.key);
    ClosingIsNotTodo(id, j, s.subs);
    FitsNow(s, x);
    CloseChanFits(x, s.subs[x], j);
    MoveKeepsFits(s, id, pc, {x});
    SubKeepsMap(id, j', s.subs, x, u);
    JobAndSubAfter(s, id, j', x, u);
  }

  lemma BinderLockKeeps(s: State, id: Id)
    requires Inv(s) && BinderLockStep(s, id).Some?
    ensures Inv(BinderLockStep(s, id).value)
  {
    hide JobOk, MapOk, Fits, PipeInv, JobInv, MapInv, SubInv;
    var j := s.jobs[id];
    var pc := Sweeping(j.subscriptions.Keys);
    var j' := j.(binder := pc);
    JobNow(s, id);
    MovesKeepJob(id, j, pc, s.subs, IsRunning(s.pipe.worker, id), id in s.pipe.finished, GivenUp(s.pipe, id));
    MoveKeepsFits(s, id, pc, {});
    BindAfter(s, id, j');
  }

  lemma BinderDeregisterKeeps(s: State, id: Id)
    requires Inv(s) && BinderDeregisterStep(s, id).Some?
    ensures Inv(BinderDeregisterStep(s, id).value)
  {
    hide JobOk, MapOk, Fits, PipeInv, JobInv, MapInv, SubInv;
    var j := s.jobs[id];
    var pc := Deregistered;
    var j' := j.(binder := pc);
    JobNow(s, id);
    MovesKeepJob(id, j, pc, s.subs, IsRunning(s.pipe.worker, id), id in s.pipe.finished, GivenUp(s.pipe, id));
    MoveKeepsFits(s, id, pc, {});
    BindAfter(s, id, j');
    UnregisterAfter(s.jobs[id := j'], s.subs, s.registry, id);
  }

  lemma BinderUnlockKeeps(s: State, id: Id)
    requires Inv(s) && BinderUnlockStep(s, id).Some?
    ensures Inv(BinderUnlockStep(s, id).value)
  {
    hide JobOk, MapOk, Fits, PipeInv, JobInv, MapInv, SubInv;
    var j := s.jobs[id];
    var pc := Finished;
    var j' := j.(binder := pc);
    JobNow(s, id);
    MovesKeepJob(id, j, pc, s.subs, IsRunning(s.pipe.worker, id), id in s.pipe.finished, GivenUp(s.pipe, id));
    MoveKeepsFits(s, id, pc, {});
    BindAfter(s, id, j');
  }

  // ----- every step -----

  lemma CallerKeeps(s: State, p: CallerId, act: CallerAction)
    requires Inv(s) && CallerStep(s, p, act).Some?
    ensures Inv(CallerStep(s, p, act).value)
  {
    hide Inv;
    match act {
      case BeginPublish => BeginPublishKeeps(s, p);
      case BeginClose => BeginCloseKeeps(s, p);
      case PublishLock => PublishLockKeeps(s, p);
      case PublishCheck => PublishCheckKeeps(s, p);
      case PublishRegister(ctxDone) => PublishRegisterKeeps(s, p, ctxDone);
      case PublishPush => PublishPushKeeps(s, p);
      case PublishUnlock => PublishUnlockKeeps(s, p);
      case CloseLock => CloseLockKeeps(s, p);
      case CloseDone => CloseDoneKeeps(s, p);
      case CloseUnlock => CloseUnlockKeeps(s, p);
    }
  }

  lemma SubKeeps(s: State, x: SubId, act: SubAction)
    requires Inv(s) && SubStep(s, x, act).Some?
    ensures Inv(SubStep(s, x, act).value)
  {
    hide Inv;
    match act {
      case BeginSubscribe(id, reader) => BeginSubscribeKeeps(s, x, id, reader);
      case SubscribeLock => SubscribeLockKeeps(s, x);
      case SubscribeCheck => SubscribeCheckKeeps(s, x);
      case SubscribeLookup => SubscribeLookupKeeps(s, x);
      case SubscribeSend => SubscribeSendKeeps(s, x);
      case SubscribeGiveUp => SubscribeGiveUpKeeps(s, x);
      case SubscribeUnlock => SubscribeUnlockKeeps(s, x);
      case Receive => ReceiveKeeps(s, x);
      case CloseSubscription => CloseSubscriptionKeeps(s, x);
      case DetachSend => DetachSendKeeps(s, x);
      case DetachClose => DetachCloseKeeps(s, x);
    }
  }

  lemma WorkerKeeps(s: State, act: WorkerAction)
    requires Inv(s) && WorkerStep(s, act).Some?
    ensures Inv(WorkerStep(s, act).value)
  {
    hide Inv;
    match act {
      case WorkerStop => WorkerStopKeeps(s);
      case WorkerDequeue => WorkerDequeueKeeps(s);
      case WorkerCheck => WorkerCheckKeeps(s);
      case WorkerLookup => WorkerLookupKeeps(s);
      case WorkerSend => WorkerSendKeeps(s);
      case WorkerCall => WorkerCallKeeps(s);
      case WorkerReturn(error) => WorkerReturnKeeps(s, error);
    }
  }

  lemma BinderKeeps(s: State, id: Id, act: BinderAction)
    requires Inv(s) && BinderStep(s, id, act).Some?
    ensures Inv(BinderStep(s, id, act).value)
  {
    hide Inv;
    match act {
      case CancelContext => CancelContextKeeps(s, id);
      case BinderCancel => BinderCancelKeeps(s, id);
      case BinderGreet => BinderGreetKeeps(s, id);
      case BinderRemove => BinderRemoveKeeps(s, id);
      case BinderSend(k) => BinderSendKeeps(s, id, k);
      case BinderAbort => BinderAbortKeeps(s, id);
      case BinderEnd => BinderEndKeeps(s, id);
      case BinderLock => BinderLockKeeps(s, id);
      case BinderSwap(k) => BinderSwapKeeps(s, id, k);
      case BinderCloseChan => BinderCloseChanKeeps(s, id);
      case BinderDeregister => BinderDeregisterKeeps(s, id);
      case BinderUnlock => BinderUnlockKeeps(s, id);
    }
  }

  lemma StepKeepsInv(s: State, a: Action)
    requires Inv(s) && Step(s, a).Some?
    ensures Inv(Step(s, a).value)
  {
    hide Inv, CallerStep, SubStep, WorkerStep, BinderStep;
    match a {
      case OfCaller(p, act) => CallerKeeps(s, p, act);
      case OfSub(x, act) => SubKeeps(s, x, act);
      case OfWorker(act) => WorkerKeeps(s, act);
      case OfBinder(id, act) => BinderKeeps(s, id, act);
    }
  }
}
