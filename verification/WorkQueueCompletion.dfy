/**
 When a transaction can still be completed.  Nothing is assumed of what the environment has done:
 contexts may have been cancelled, the queue shut down, and clients may be closing their
 subscriptions.  The steps that complete it are the goroutines' own, take no lock, cancel nothing and let
 no Subscribe give up; a client reads its channel, but not while its only goroutine is inside Close.
 */
module WorkQueueCompletion {
  import opened Wrappers
  import opened WorkQueue
  import opened WorkQueueInvariant
  import opened WorkQueueFits
  import opened WorkQueueSteps
  import opened WorkQueueGrowth
  import opened WorkQueueRuns
  import opened WorkQueueShutdown
  import opened WorkQueueBlocking
  import opened Sets

  // ----- steps that wait for nobody -----

  /** A new call of Publish, Close or Subscribe. */
  predicate Begins(a: Action) {
    match a
    case OfCaller(_, BeginPublish) => true
    case OfCaller(_, BeginClose) => true
    case OfSub(_, BeginSubscribe(_, _)) => true
    case _ => false
  }

  predicate IsCalm(a: Action) {
    match a
    case OfCaller(_, act) => !act.BeginClose? && (act.PublishRegister? ==> !act.ctxDone)
    case OfSub(_, act) => !act.CloseSubscription?
    case OfWorker(_) => true
    case OfBinder(_, act) => !act.CancelContext?
  }

  /** A step of a goroutine that is already there. */
  predicate IsInternal(a: Action) {
    IsCalm(a) && !Begins(a)
  }

  predicate TakesLock(a: Action) {
    || (a.OfCaller? && (a.call.PublishLock? || a.call.CloseLock?))
    || (a.OfSub? && a.subAct.SubscribeLock?)
    || (a.OfBinder? && a.bind.BinderLock?)
  }

  /** A step of a goroutine that is already there, that is no wait for the lock and gives nothing up. */
  predicate IsSteady(a: Action) {
    IsInternal(a) && !TakesLock(a) && !(a.OfSub? && a.subAct.SubscribeGiveUp?)
  }

  predicate CanMove(s: State, a: Action) {
    IsSteady(a) && Step(s, a).Some?
  }

  /** Publish has queued id, or is about to try. */
  predicate IsAccepted(s: State, id: Id) {
    id in s.jobs && id !in s.pipe.rejected
  }

  // ----- a broadcast that a closing client blocks -----

  /** The broadcast has x to reach, whose buffer is full and whose only goroutine waits in Close for the binder. */
  predicate JammedAt(s: State, id: Id, key: nat) {
    && id in s.jobs && s.jobs[id].binder.Broadcasting? && !s.jobs[id].cancelled
    && key in s.jobs[id].binder.todo && key in s.jobs[id].subscriptions
    && s.jobs[id].subscriptions[key] in s.subs
    && var u := s.subs[s.jobs[id].subscriptions[key]];
       u.pc == Detaching && u.buffer.Some? && !u.reader
  }

  ghost predicate Jammed(s: State, id: Id) {
    exists key :: JammedAt(s, id, key)
  }

  lemma SameJam(s: State, s': State, id: Id)
    requires s'.jobs == s.jobs && s'.subs == s.subs
    ensures Jammed(s', id) <==> Jammed(s, id)
  {
    assert forall key: nat :: JammedAt(s', id, key) <==> JammedAt(s, id, key);
  }

  lemma CallerKeepsJam(s: State, p: CallerId, act: CallerAction, id: Id, key: nat)
    requires IdInv(s.pipe.idCount, s.jobs, s.registry) && CallerStep(s, p, act).Some? && JammedAt(s, id, key)
    ensures JammedAt(CallerStep(s, p, act).value, id, key)
  {}

  lemma SubKeepsJam(s: State, y: SubId, act: SubAction, id: Id, key: nat)
    requires SubStep(s, y, act).Some? && JammedAt(s, id, key)
    requires var u := s.subs[s.jobs[id].subscriptions[key]];
             u.closed && u.job == id
    ensures JammedAt(SubStep(s, y, act).value, id, key)
  {}

  lemma WorkerKeepsJam(s: State, act: WorkerAction, id: Id, key: nat)
    requires WorkerStep(s, act).Some? && JammedAt(s, id, key)
    ensures JammedAt(WorkerStep(s, act).value, id, key)
  {}

  /** Another binder, whose subscriptions are not those of id. */
  lemma OtherBinderKeepsJam(s: State, i: Id, act: BinderAction, id: Id, key: nat)
    requires BinderStep(s, i, act).Some? && JammedAt(s, id, key) && i != id
    requires i in s.jobs && MapOk(i, s.jobs[i], s.subs) && s.subs[s.jobs[id].subscriptions[key]].job == id
    ensures JammedAt(BinderStep(s, i, act).value, id, key)
  {
    var x := s.jobs[id].subscriptions[key];
    if Sends(act) {
      SendLeavesOthers(s, i, act, x);
    } else if Closes(act) {
      CloseLeavesOthers(s, i, act, x);
    }
  }

  lemma SendLeavesOthers(s: State, i: Id, act: BinderAction, x: SubId)
    requires BinderStep(s, i, act).Some? && Sends(act) && i in s.jobs && MapOk(i, s.jobs[i], s.subs)
    requires x in s.subs && s.subs[x].job != i
    ensures var s' := BinderStep(s, i, act).value;
            x in s'.subs && s'.subs[x] == s.subs[x] && i in s'.jobs && s'.jobs == s.jobs[i := s'.jobs[i]]
  {}

  lemma CloseLeavesOthers(s: State, i: Id, act: BinderAction, x: SubId)
    requires BinderStep(s, i, act).Some? && Closes(act) && i in s.jobs && MapOk(i, s.jobs[i], s.subs)
    requires x in s.subs && s.subs[x].job != i
    ensures var s' := BinderStep(s, i, act).value;
            x in s'.subs && s'.subs[x] == s.subs[x] && i in s'.jobs && s'.jobs == s.jobs[i := s'.jobs[i]]
  {}

  /** The jammed binder itself can only reach its other subscribers. */
  lemma OwnBinderKeepsJam(s: State, id: Id, act: BinderAction, key: nat)
    requires BinderStep(s, id, act).Some? && JammedAt(s, id, key) && !act.CancelContext?
    requires MapOk(id, s.jobs[id], s.subs) && !s.subs[s.jobs[id].subscriptions[key]].chanClosed
    ensures JammedAt(BinderStep(s, id, act).value, id, key)
  {
    if act.BinderSend? {
      EntryIsRegistered(id, s.jobs[id], s.subs, key);
      EntryIsRegistered(id, s.jobs[id], s.subs, act.key);
    }
  }

  /** A jam stays, whatever happens but the cancellation of its transaction. */
  lemma JamStays(s: State, a: Action, id: Id, key: nat)
    requires Inv(s) && Step(s, a).Some? && JammedAt(s, id, key) && a != OfBinder(id, CancelContext)
    ensures JammedAt(Step(s, a).value, id, key)
  {
    hide PipeInv, JobInv, MapInv, SubInv, CallerStep, SubStep, WorkerStep, BinderStep, MapOk, JobOk, JammedAt;
    JammedSub(s, id, key);
    match a {
      case OfCaller(p, act) => CallerKeepsJam(s, p, act, id, key);
      case OfSub(y, act) => SubKeepsJam(s, y, act, id, key);
      case OfWorker(act) => WorkerKeepsJam(s, act, id, key);
      case OfBinder(i, act) =>
        BinderIsThere(s, i, act);
        JobNow(s, i);
        if i == id {
          OwnBinderKeepsJam(s, id, act, key);
        } else {
          OtherBinderKeepsJam(s, i, act, id, key);
        }
    }
  }

  lemma JammedSub(s: State, id: Id, key: nat)
    requires Inv(s) && JammedAt(s, id, key)
    ensures id in s.jobs && key in s.jobs[id].subscriptions && s.jobs[id].subscriptions[key] in s.subs
    ensures var u := s.subs[s.jobs[id].subscriptions[key]];
            u.job == id && u.closed && !u.chanClosed
  {
    hide StreamOk, SentOk, JobOk;
    JobNow(s, id);
    EntryIsRegistered(id, s.jobs[id], s.subs, key);
    FitsNow(s, s.jobs[id].subscriptions[key]);
  }

  lemma BinderIsThere(s: State, id: Id, act: BinderAction)
    requires BinderStep(s, id, act).Some?
    ensures id in s.jobs
  {}

  /**
   A client that closes its subscription without having read its buffer, and has no other goroutine
   to read it, blocks the broadcast that reaches it; and the broadcast keeps the client in Close.
   Until the transaction is cancelled no step of any goroutine changes that.
   */
  lemma {:induction false} JamForever(states: seq<State>, acts: seq<Action>, i: nat, j: nat, id: Id, key: nat)
    requires IsRun(states, acts) && i <= j < |states| && JammedAt(states[i], id, key)
    requires forall k :: i <= k < j ==> acts[k] != OfBinder(id, CancelContext)
    ensures JammedAt(states[j], id, key)
  {
    if i < j {
      hide Inv, IsRun, Step, JammedAt;
      RunIsLong(states, acts);
      JamForever(states, acts, i, j - 1, id, key);
      RunKeepsInv(states, acts, j - 1);
      RunStep(states, acts, j - 1);
      JamStays(states[j - 1], acts[j - 1], id, key);
    }
  }

  // ----- a worker that cannot go on -----

  /** The worker has returned or is stuck, or the binder it has to report to is jammed. */
  ghost predicate Blocked(s: State) {
    Halted(s) || (Hand(s.pipe.worker).Some? && Jammed(s, Hand(s.pipe.worker).value))
  }

  /** Nothing is finished or skipped, and nothing is taken from the worker's hands. */
  predicate SameCompletions(q: Pipe, q': Pipe) {
    Hand(q'.worker) == Hand(q.worker) && q'.finished == q.finished && q'.skipped == q.skipped
  }

  lemma JammedWorkerWaits(s: State, a: Action, key: nat)
    requires Step(s, a).Some? && Hand(s.pipe.worker).Some? && JammedAt(s, Hand(s.pipe.worker).value, key)
    ensures SameCompletions(s.pipe, Step(s, a).value.pipe)
  {
    hide CallerStep, SubStep, BinderStep;
    match a {
      case OfCaller(p, act) => CallerLeavesWorker(s, p, act);
      case OfSub(x, act) => SubLeavesWorker(s, x, act);
      case OfWorker(act) =>
      case OfBinder(i, act) => BinderLeavesWorker(s, i, act);
    }
  }

  lemma BlockedStays(s: State, a: Action)
    requires Inv(s) && Step(s, a).Some? && Blocked(s)
    requires forall id :: a != OfBinder(id, CancelContext)
    ensures Blocked(Step(s, a).value) && SameCompletions(s.pipe, Step(s, a).value.pipe)
  {
    hide Inv, Step, Halted, JammedAt;
    if Halted(s) {
      HaltedStays(s, a);
    } else {
      var id := Hand(s.pipe.worker).value;
      var key :| JammedAt(s, id, key);
      JamStays(s, a, id, key);
      JammedWorkerWaits(s, a, key);
    }
  }

  /** From then on, without a cancellation, the worker neither finishes nor skips a transaction. */
  lemma {:induction false} BlockedForever(states: seq<State>, acts: seq<Action>, i: nat, j: nat)
    requires IsRun(states, acts) && i <= j < |states| && Blocked(states[i])
    requires forall k, id :: i <= k < j ==> acts[k] != OfBinder(id, CancelContext)
    ensures Blocked(states[j]) && SameCompletions(states[i].pipe, states[j].pipe)
  {
    if i < j {
      hide Inv, IsRun, Step, Blocked;
      RunIsLong(states, acts);
      BlockedForever(states, acts, i, j - 1);
      RunKeepsInv(states, acts, j - 1);
      RunStep(states, acts, j - 1);
      BlockedStays(states[j - 1], acts[j - 1]);
    }
  }

  // ----- a binder that will listen -----

  /** The transaction is Queued or Processing. */
  predicate IsLive(s: State, id: Id) {
    id in s.jobs && (s.jobs[id].curr.phase == Queued || s.jobs[id].curr.phase == Processing)
  }

  /** Steps to take before x has room for a status. */
  function Fullness(u: Sub): nat {
    if u.buffer == None then 0 else if u.pc.SubscribeLeaving? then 2 else 1
  }

  /** Steps to take before the binder listens again. */
  ghost function Distance(j: Job, subs: map<SubId, Sub>): nat {
    match j.binder
    case Greeting(_) => 1
    case Removing(_) => 1
    case Broadcasting(todo) =>
      if todo == {} then 1
      else
        var key := Pick(todo);
        1 + 3 * |todo|
        + if key in j.subscriptions && j.subscriptions[key] in subs then Fullness(subs[j.subscriptions[key]]) else 0
    case _ => 0
  }

  /** No subscription is new, granted, or closed by its client. */
  ghost predicate SameCalls(subs: map<SubId, Sub>, subs': map<SubId, Sub>) {
    && (forall x :: x in subs' <==> x in subs)
    && (forall x :: x in subs ==>
          && subs'[x].job == subs[x].job
          && (subs'[x].pc == Detaching <==> subs[x].pc == Detaching)
          && (!subs[x].pc.WasGranted() ==> subs'[x] == subs[x]))
  }

  /** Only the job id and its subscriptions differ; a reader may have left, and no one has come. */
  ghost predicate OnlyJob(s: State, s': State, id: Id) {
    && s'.pipe == s.pipe && s'.done == s.done && s'.registry == s.registry && s'.callers == s.callers
    && s'.lock.writer == s.lock.writer && s'.lock.readers <= s.lock.readers
    && id in s.jobs && id in s'.jobs && s'.jobs[id].curr == s.jobs[id].curr && s'.jobs == s.jobs[id := s'.jobs[id]]
    && SameCalls(s.subs, s'.subs)
    && (forall x :: x in s.subs && s.subs[x].job != id ==> x in s'.subs && s'.subs[x] == s.subs[x])
  }

  /** A step of the binder of id, or of one of its subscribers, towards listening. */
  ghost predicate Approaches(s: State, s': State, id: Id) {
    OnlyJob(s, s', id) && !Jammed(s', id) && Distance(s'.jobs[id], s'.subs) < Distance(s.jobs[id], s.subs)
  }

  /** The binder of a live transaction that is not jammed listens, or it or a subscriber can get closer to that. */
  lemma BinderApproaches(s: State, id: Id) returns (a: Action)
    requires Inv(s) && IsLive(s, id) && !Jammed(s, id) && s.jobs[id].binder != Selecting
    ensures CanMove(s, a) && Approaches(s, Step(s, a).value, id)
  {
    hide Inv, Fits, JobOk, MapOk, GoodHistory, CanMove, Approaches, Step;
    var j := s.jobs[id];
    JobNow(s, id);
    HistoryOf(s, id);
    match j.binder {
      case Greeting(x) =>
        GreetedIsRegistered(id, j, s.subs);
        FitsNow(s, x);
        GreetFits(x, s.subs[x], j);
        a := OfBinder(id, BinderGreet);
        GreetApproaches(s, id);
      case Removing(x) =>
        RemovedIsThere(id, j, s.subs);
        a := OfBinder(id, BinderRemove);
        RemoveApproaches(s, id);
      case Broadcasting(todo) =>
        if todo == {} {
          a := OfBinder(id, BinderEnd);
          EndApproaches(s, id);
        } else if j.cancelled {
          a := OfBinder(id, BinderAbort);
          AbortApproaches(s, id);
        } else {
          var key := Pick(todo);
          TodoIsInMap(id, j, s.subs, key);
          EntryIsRegistered(id, j, s.subs, key);
          var x := j.subscriptions[key];
          FitsNow(s, x);
          SendFits(x, s.subs[x], j);
          BroadcastNotDetached(x, s.subs[x], j);
          a := ChannelApproaches(s, id);
        }
      case _ =>
        assert false;
    }
  }

  lemma GreetApproaches(s: State, id: Id)
    requires IsLive(s, id) && s.jobs[id].binder.Greeting? && s.jobs[id].binder.sub in s.subs
    requires var u := s.subs[s.jobs[id].binder.sub];
             u.job == id && u.pc.WasGranted() && !u.chanClosed && u.buffer == None
    ensures CanMove(s, OfBinder(id, BinderGreet)) && Approaches(s, Step(s, OfBinder(id, BinderGreet)).value, id)
  {}

  lemma RemoveApproaches(s: State, id: Id)
    requires IsLive(s, id) && s.jobs[id].binder.Removing? && s.jobs[id].binder.sub in s.subs
    ensures CanMove(s, OfBinder(id, BinderRemove)) && Approaches(s, Step(s, OfBinder(id, BinderRemove)).value, id)
  {}

  lemma EndApproaches(s: State, id: Id)
    requires IsLive(s, id) && s.jobs[id].binder == Broadcasting({})
    ensures CanMove(s, OfBinder(id, BinderEnd)) && Approaches(s, Step(s, OfBinder(id, BinderEnd)).value, id)
  {}

  lemma AbortApproaches(s: State, id: Id)
    requires IsLive(s, id) && s.jobs[id].binder.Broadcasting? && s.jobs[id].binder.todo != {} && s.jobs[id].cancelled
    ensures CanMove(s, OfBinder(id, BinderAbort)) && Approaches(s, Step(s, OfBinder(id, BinderAbort)).value, id)
  {}

  lemma RemovedIsThere(id: Id, j: Job, subs: map<SubId, Sub>)
    requires MapOk(id, j, subs) && j.binder.Removing?
    ensures j.binder.sub in subs
  {}

  lemma BroadcastNotDetached(x: SubId, u: Sub, j: Job)
    requires Fits(x, u, j) && Registered(x, u, j) && j.binder.Broadcasting?
    ensures u.pc != Detached
  {}

  lemma TodoIsInMap(id: Id, j: Job, subs: map<SubId, Sub>, key: nat)
    requires MapOk(id, j, subs) && j.binder.Broadcasting? && key in j.binder.todo
    ensures key in j.subscriptions
  {}

  lemma ChannelApproaches(s: State, id: Id) returns (a: Action)
    requires IsLive(s, id) && s.jobs[id].binder.Broadcasting? && s.jobs[id].binder.todo != {}
    requires MapOk(id, s.jobs[id], s.subs) && !s.jobs[id].cancelled && !Jammed(s, id)
    requires var key := Pick(s.jobs[id].binder.todo);
             && key in s.jobs[id].subscriptions && s.jobs[id].subscriptions[key] in s.subs
             && var u := s.subs[s.jobs[id].subscriptions[key]];
             u.job == id && u.pc.WasGranted() && u.pc != Detached && !u.chanClosed
    ensures CanMove(s, a) && Approaches(s, Step(s, a).value, id)
  {
    var key := Pick(s.jobs[id].binder.todo);
    var x := s.jobs[id].subscriptions[key];
    assert !JammedAt(s, id, key);
    hide CanMove, Approaches, Step, MapOk;
    if s.subs[x].buffer == None {
      a := OfBinder(id, BinderSend(key));
      SendApproaches(s, id, key);
    } else {
      a := OfSub(x, if s.subs[x].pc.SubscribeLeaving? then SubscribeUnlock else Receive);
      SubscriberApproaches(s, id, key, a);
    }
  }

  lemma SendApproaches(s: State, id: Id, key: nat)
    requires IsLive(s, id) && s.jobs[id].binder.Broadcasting? && key in s.jobs[id].binder.todo
    requires MapOk(id, s.jobs[id], s.subs) && !Jammed(s, id)
    requires key in s.jobs[id].subscriptions && s.jobs[id].subscriptions[key] in s.subs
    requires var u := s.subs[s.jobs[id].subscriptions[key]];
             u.job == id && u.pc.WasGranted() && !u.chanClosed && u.buffer == None
    ensures CanMove(s, OfBinder(id, BinderSend(key))) && Approaches(s, Step(s, OfBinder(id, BinderSend(key))).value, id)
  {
    hide MapOk, Jammed, SameCalls, Distance;
    var x := s.jobs[id].subscriptions[key];
    SendMakesNoJam(s, id, key);
    SendLowersDistance(s.jobs[id], s.subs, SendTo(s, s.jobs[id], x).subs, key);
    SendKeepsCalls(s, s.jobs[id], x);
  }

  lemma SendLowersDistance(j: Job, subs: map<SubId, Sub>, subs': map<SubId, Sub>, key: nat)
    requires j.binder.Broadcasting? && key in j.binder.todo
    ensures Distance(j.(binder := Broadcasting(j.binder.todo - {key})), subs') < Distance(j, subs)
  {}

  lemma SendKeepsCalls(s: State, j: Job, x: SubId)
    requires x in s.subs && s.subs[x].pc.WasGranted()
    ensures SameCalls(s.subs, SendTo(s, j, x).subs)
    ensures forall y :: y in s.subs && y != x ==> y in SendTo(s, j, x).subs && SendTo(s, j, x).subs[y] == s.subs[y]
  {}

  lemma SendMakesNoJam(s: State, id: Id, key: nat)
    requires BinderStep(s, id, BinderSend(key)).Some? && MapOk(id, s.jobs[id], s.subs) && !Jammed(s, id)
    ensures !Jammed(BinderStep(s, id, BinderSend(key)).value, id)
  {
    var s' := BinderStep(s, id, BinderSend(key)).value;
    forall k: nat ensures JammedAt(s', id, k) ==> JammedAt(s, id, k) {}
  }

  lemma SubscriberApproaches(s: State, id: Id, key: nat, a: Action)
    requires IsLive(s, id) && s.jobs[id].binder.Broadcasting? && !s.jobs[id].cancelled && !Jammed(s, id)
    requires s.jobs[id].binder.todo != {} && key == Pick(s.jobs[id].binder.todo)
    requires key in s.jobs[id].subscriptions && s.jobs[id].subscriptions[key] in s.subs
    requires var u := s.subs[s.jobs[id].subscriptions[key]];
             && u.job == id && u.pc.WasGranted() && u.pc != Detached && u.buffer != None
             && a == OfSub(s.jobs[id].subscriptions[key], if u.pc.SubscribeLeaving? then SubscribeUnlock else Receive)
    ensures CanMove(s, a) && Approaches(s, Step(s, a).value, id)
  {
    UnjammedReads(s, id, key);
    hide Jammed, JammedAt, SameCalls, Distance, CanMove, Fullness;
    var x := s.jobs[id].subscriptions[key];
    SubscriberMakesNoJam(s, id, a);
    SubscriberMakesRoom(s, x, a);
    hide Step;
    var u := Step(s, a).value.subs[x];
    FullnessLowersDistance(s.jobs[id], s.subs, x, u);
    RoomIsOwn(s, Step(s, a).value, x, id);
    hide OnlyJob;
  }

  lemma UnjammedReads(s: State, id: Id, key: nat)
    requires IsLive(s, id) && s.jobs[id].binder.Broadcasting? && !s.jobs[id].cancelled && !Jammed(s, id)
    requires key in s.jobs[id].binder.todo && key in s.jobs[id].subscriptions && s.jobs[id].subscriptions[key] in s.subs
    ensures var u := s.subs[s.jobs[id].subscriptions[key]];
            u.pc == Detaching && u.buffer.Some? ==> u.reader
  {
    assert !JammedAt(s, id, key);
  }

  /** The subscriber unlocks, or reads. */
  lemma SubscriberMakesRoom(s: State, x: SubId, a: Action)
    requires x in s.subs && s.subs[x].pc.WasGranted() && s.subs[x].buffer != None
    requires s.subs[x].pc.InClose() ==> s.subs[x].reader
    requires a == OfSub(x, if s.subs[x].pc.SubscribeLeaving? then SubscribeUnlock else Receive)
    ensures CanMove(s, a) && MakesRoom(s, Step(s, a).value, x)
  {
    hide MakesRoom;
    if s.subs[x].pc.SubscribeLeaving? {
      UnlockMakesRoom(s, x);
    } else {
      ReadMakesRoom(s, x);
    }
  }

  predicate MakesRoom(s: State, s': State, x: SubId) {
    && s' == s.(subs := s'.subs, lock := s'.lock)
    && s'.lock.writer == s.lock.writer && s'.lock.readers <= s.lock.readers
    && x in s.subs && x in s'.subs && s'.subs == s.subs[x := s'.subs[x]]
    && s'.subs[x].job == s.subs[x].job && (s'.subs[x].pc == Detaching <==> s.subs[x].pc == Detaching)
    && Fullness(s'.subs[x]) < Fullness(s.subs[x])
  }

  lemma UnlockMakesRoom(s: State, x: SubId)
    requires x in s.subs && s.subs[x].pc == SubscribeLeaving(Granted) && s.subs[x].buffer != None
    ensures MakesRoom(s, Step(s, OfSub(x, SubscribeUnlock)).value, x)
  {}

  lemma ReadMakesRoom(s: State, x: SubId)
    requires Step(s, OfSub(x, Receive)).Some? && x in s.subs
    ensures MakesRoom(s, Step(s, OfSub(x, Receive)).value, x)
  {}

  lemma FullnessLowersDistance(j: Job, subs: map<SubId, Sub>, x: SubId, u: Sub)
    requires j.binder.Broadcasting? && j.binder.todo != {}
    requires Pick(j.binder.todo) in j.subscriptions && j.subscriptions[Pick(j.binder.todo)] == x
    requires x in subs && Fullness(u) < Fullness(subs[x])
    ensures Distance(j, subs[x := u]) < Distance(j, subs)
  {}

  lemma RoomIsOwn(s: State, s': State, x: SubId, id: Id)
    requires MakesRoom(s, s', x) && s.subs[x].pc.WasGranted() && s.subs[x].job == id && id in s.jobs
    ensures OnlyJob(s, s', id)
  {
    assert s.jobs == s.jobs[id := s.jobs[id]];
  }

  lemma SubscriberMakesNoJam(s: State, id: Id, a: Action)
    requires a.OfSub? && (a.subAct.SubscribeUnlock? || a.subAct.Receive?) && Step(s, a).Some? && !Jammed(s, id)
    ensures !Jammed(Step(s, a).value, id)
  {
    forall k: nat ensures JammedAt(Step(s, a).value, id, k) ==> JammedAt(s, id, k) {}
  }

  // ----- no client is closing -----

  /** The clients of id that wait in Close for its binder. */
  function Detachers(subs: map<SubId, Sub>, id: Id): set<SubId> {
    set x | x in subs && subs[x].job == id && subs[x].pc == Detaching
  }

  lemma SameDetachers(subs: map<SubId, Sub>, subs': map<SubId, Sub>, id: Id)
    requires SameCalls(subs, subs')
    ensures Detachers(subs', id) == Detachers(subs, id)
  {}

  /** A binder that listens lets a client go. */
  lemma DetachGoes(s: State, id: Id, x: SubId)
    requires id in s.jobs && s.jobs[id].binder == Selecting && x in Detachers(s.subs, id)
    ensures CanMove(s, OfSub(x, DetachSend))
    ensures var s' := Step(s, OfSub(x, DetachSend)).value;
            && s'.pipe == s.pipe && s'.done == s.done
            && id in s'.jobs && s'.jobs[id].curr == s.jobs[id].curr && !Jammed(s', id)
            && Detachers(s'.subs, id) == Detachers(s.subs, id) - {x}
  {}

  // ----- the worker -----

  predicate Waits(q: Pipe, id: Id) {
    id in q.queue || Hand(q.worker) == Some(id)
  }

  predicate Completed(q: Pipe, id: Id) {
    id in q.finished || id in q.skipped
  }

  /** The worker's steps to go for the transaction in its hands. */
  function WorkerWork(w: WorkerPc): nat {
    match w
    case Taken(_) => 6
    case Vetted(_) => 5
    case Announcing(_) => 4
    case Calling(_) => 3
    case Handling(_) => 2
    case Reporting(_, _) => 1
    case _ => 0
  }

  function Remaining(q: Pipe): nat {
    7 * |q.queue| + WorkerWork(q.worker)
  }

  /** The worker is at a send. */
  predicate Sending(w: WorkerPc) {
    w.Announcing? || w.Reporting?
  }

  /** While the worker is not halted, the transaction in its hands is live at a send and registered at the lookup. */
  lemma HandIsLive(s: State)
    requires Inv(s) && !Halted(s) && Hand(s.pipe.worker).Some?
    ensures s.pipe.worker.id in s.jobs
    ensures Sending(s.pipe.worker) ==> IsLive(s, s.pipe.worker.id)
    ensures s.pipe.worker.Vetted? ==> s.pipe.worker.id in s.registry
  {
    hide Fits, MapOk;
    assert Places(s.pipe, s.pipe.worker.id) == 1;
    JobNow(s, s.pipe.worker.id);
  }

  ghost predicate Goes(s: State, s': State, id: Id) {
    && Remaining(s'.pipe) < Remaining(s.pipe)
    && !Blocked(s')
    && (Waits(s'.pipe, id) || Completed(s'.pipe, id))
  }

  /** A transaction that is queued has no broadcast to be jammed. */
  lemma QueuedIsNotJammed(s: State, id: Id)
    requires Inv(s) && id in s.pipe.queue
    ensures !Jammed(s, id)
  {
    hide Fits, MapOk, Places, Line, HandlerOk;
    WaitingIsLive(s, id);
    HistoryOf(s, id);
  }

  lemma DequeueGoes(s: State, id: Id)
    requires s.pipe.worker == Idle && Waits(s.pipe, id) && !Jammed(s, s.pipe.queue[0])
    ensures CanMove(s, OfWorker(WorkerDequeue)) && Goes(s, Step(s, OfWorker(WorkerDequeue)).value, id)
  {
    assert s.pipe.queue == [s.pipe.queue[0]] + s.pipe.queue[1..];
    SameJam(s, Step(s, OfWorker(WorkerDequeue)).value, s.pipe.queue[0]);
    hide Jammed;
  }

  lemma CheckGoes(s: State, id: Id)
    requires s.pipe.worker.Taken? && !Blocked(s) && Waits(s.pipe, id) && s.pipe.worker.id in s.jobs
    requires var j := s.jobs[s.pipe.worker.id];
             j.curr.phase == Cancelled ==> j.cancelled
    ensures CanMove(s, OfWorker(WorkerCheck)) && Goes(s, Step(s, OfWorker(WorkerCheck)).value, id)
  {
    SameJam(s, Step(s, OfWorker(WorkerCheck)).value, s.pipe.worker.id);
    hide Jammed;
  }

  lemma LookupGoes(s: State, id: Id)
    requires s.pipe.worker.Vetted? && !Blocked(s) && Waits(s.pipe, id) && s.pipe.worker.id in s.registry
    ensures CanMove(s, OfWorker(WorkerLookup)) && Goes(s, Step(s, OfWorker(WorkerLookup)).value, id)
  {
    SameJam(s, Step(s, OfWorker(WorkerLookup)).value, s.pipe.worker.id);
    hide Jammed;
  }

  /** Processing is broadcast to subscribers none of whom is closing. */
  lemma AnnounceGoes(s: State, id: Id)
    requires s.pipe.worker.Announcing? && Waits(s.pipe, id)
    requires s.pipe.worker.id in s.jobs && s.jobs[s.pipe.worker.id].binder == Selecting
    requires MapOk(s.pipe.worker.id, s.jobs[s.pipe.worker.id], s.subs) && Detachers(s.subs, s.pipe.worker.id) == {}
    ensures CanMove(s, OfWorker(WorkerSend)) && Goes(s, Step(s, OfWorker(WorkerSend)).value, id)
  {
    var h := s.pipe.worker.id;
    forall key: nat ensures !JammedAt(Step(s, OfWorker(WorkerSend)).value, h, key) {
      if key in s.jobs[h].subscriptions {
        EntryIsRegistered(h, s.jobs[h], s.subs, key);
        assert s.jobs[h].subscriptions[key] !in Detachers(s.subs, h);
      }
    }
  }

  lemma ReportGoes(s: State, id: Id)
    requires s.pipe.worker.Reporting? && Waits(s.pipe, id)
    requires s.pipe.worker.id in s.jobs && s.jobs[s.pipe.worker.id].binder == Selecting
    ensures CanMove(s, OfWorker(WorkerSend)) && Goes(s, Step(s, OfWorker(WorkerSend)).value, id)
  {}

  lemma HandlerGoes(s: State, id: Id, a: Action)
    requires Waits(s.pipe, id) && !Blocked(s)
    requires if s.pipe.worker.Calling? then a == OfWorker(WorkerCall)
              else s.pipe.worker.Handling? && a == OfWorker(WorkerReturn(None))
    ensures CanMove(s, a) && Goes(s, Step(s, a).value, id)
  {
    SameJam(s, Step(s, a).value, s.pipe.worker.id);
    hide Jammed;
  }

  /** The worker is at a send, and its binder has first to listen, or to let clients go. */
  predicate MustPrepare(s: State) {
    && Sending(s.pipe.worker) && s.pipe.worker.id in s.jobs
    && (s.jobs[s.pipe.worker.id].binder != Selecting || Detachers(s.subs, s.pipe.worker.id) != {})
  }

  /** A worker that is not blocked goes on. */
  lemma WorkerGoes(s: State, id: Id) returns (a: Action)
    requires Inv(s) && !Blocked(s) && Waits(s.pipe, id) && !MustPrepare(s)
    ensures CanMove(s, a) && Goes(s, Step(s, a).value, id)
  {
    hide Inv, Step, Goes, CanMove, Jammed, Detachers, MapOk, JobOk;
    var w := s.pipe.worker;
    if w == Idle {
      a := OfWorker(WorkerDequeue);
      QueuedIsNotJammed(s, s.pipe.queue[0]);
      DequeueGoes(s, id);
    } else {
      HandIsLive(s);
      JobNow(s, w.id);
      match w {
        case Taken(_) =>
          a := OfWorker(WorkerCheck);
          CheckedIsNotCancelled(s, w.id);
          CheckGoes(s, id);
        case Vetted(_) =>
          a := OfWorker(WorkerLookup);
          LookupGoes(s, id);
        case Calling(_) =>
          a := OfWorker(WorkerCall);
          HandlerGoes(s, id, a);
        case Handling(_) =>
          a := OfWorker(WorkerReturn(None));
          HandlerGoes(s, id, a);
        case Announcing(_) =>
          a := OfWorker(WorkerSend);
          AnnounceGoes(s, id);
        case Reporting(_, _) =>
          a := OfWorker(WorkerSend);
          ReportGoes(s, id);
        case _ =>
          assert false;
      }
    }
  }

  lemma CheckedIsNotCancelled(s: State, id: Id)
    requires Inv(s) && id in s.jobs
    ensures s.jobs[id].curr.phase == Cancelled ==> s.jobs[id].cancelled
  {
    JobNow(s, id);
  }

  lemma WhereUnfinished(s: State, id: Id)
    requires Inv(s) && IsAccepted(s, id) && !Completed(s.pipe, id)
    ensures s.pipe.pushing == Some(id) || Waits(s.pipe, id)
  {
    assert Places(s.pipe, id) == Count(1 <= id <= s.pipe.idCount);
  }

  /** A move that changes something and leaves the worker able to go on. */
  ghost predicate Unblocked(s: State, a: Action) {
    CanMove(s, a) && Step(s, a).value != s && !Blocked(Step(s, a).value)
  }

  lemma PublisherMoves(s: State) returns (a: Action)
    requires Inv(s) && s.pipe.pushing.Some? && !Blocked(s)
    ensures Unblocked(s, a)
  {
    a := OfCaller(s.lock.writer.value.caller, PublishPush);
    hide Inv;
    PushUnblocks(s, a);
  }

  lemma PushUnblocks(s: State, a: Action)
    requires a.OfCaller? && a.call == PublishPush && Step(s, a).Some? && s.pipe.pushing.Some? && !Blocked(s)
    ensures Unblocked(s, a)
  {
    if Hand(s.pipe.worker).Some? {
      SameJam(s, Step(s, a).value, Hand(s.pipe.worker).value);
    }
    hide Jammed;
  }

  lemma ApproachingUnblocks(s: State, a: Action, id: Id)
    requires CanMove(s, a) && Approaches(s, Step(s, a).value, id) && !Blocked(s) && Hand(s.pipe.worker) == Some(id)
    ensures Unblocked(s, a)
  {
    hide CanMove, Step, Jammed, Distance, SameCalls;
  }

  lemma DetachUnblocks(s: State, id: Id, x: SubId)
    requires id in s.jobs && s.jobs[id].binder == Selecting && x in Detachers(s.subs, id)
    requires !Blocked(s) && Hand(s.pipe.worker) == Some(id)
    ensures Unblocked(s, OfSub(x, DetachSend))
  {
    DetachGoes(s, id, x);
    hide CanMove, Step, Jammed;
  }

  lemma GoingUnblocks(s: State, a: Action, id: Id)
    requires CanMove(s, a) && Goes(s, Step(s, a).value, id)
    ensures Unblocked(s, a)
  {
    hide CanMove, Step, Blocked;
  }

  /** While the worker is not blocked, something can move towards completing a transaction that is not. */
  lemma SomethingMoves(s: State, id: Id) returns (a: Action)
    requires Inv(s) && !Blocked(s) && IsAccepted(s, id) && !Completed(s.pipe, id)
    ensures Unblocked(s, a)
  {
    hide Inv, Step, CanMove, Unblocked, Goes, Approaches, Detachers;
    WhereUnfinished(s, id);
    if s.pipe.pushing.Some? {
      a := PublisherMoves(s);
    } else if MustPrepare(s) {
      var h := s.pipe.worker.id;
      HandIsLive(s);
      if s.jobs[h].binder != Selecting {
        a := BinderApproaches(s, h);
        ApproachingUnblocks(s, a, h);
      } else {
        var x := Pick(Detachers(s.subs, h));
        a := OfSub(x, DetachSend);
        DetachUnblocks(s, h, x);
      }
    } else {
      a := WorkerGoes(s, id);
      GoingUnblocks(s, a, id);
    }
  }

  /**
   In every run, whatever was cancelled, shut down or closed: while an accepted transaction is
   neither finished nor skipped, there is a move, other than waiting for the lock or a stutter, after which
   the worker is not blocked, exactly when it is not blocked now.
   */
  lemma NoDeadlock(states: seq<State>, acts: seq<Action>, i: nat, id: Id)
    requires IsRun(states, acts) && i < |states|
    requires IsAccepted(states[i], id) && !Completed(states[i].pipe, id)
    ensures !Blocked(states[i]) <==> exists a :: Unblocked(states[i], a)
  {
    hide Inv, IsRun, Blocked, Step;
    RunKeepsInv(states, acts, i);
    var s := states[i];
    if !Blocked(s) {
      var a := SomethingMoves(s, id);
    }
    forall a | Unblocked(s, a) ensures !Blocked(s) {
      if Blocked(s) {
        BlockedStays(s, a);
      }
    }
  }

  // ----- continuing a run -----

  /** The second run is the first, continued by steady steps. */
  ghost predicate Continues(states: seq<State>, acts: seq<Action>, states': seq<State>, acts': seq<Action>) {
    && IsRun(states', acts') && |states'| == |acts'| + 1
    && states <= states' && acts <= acts'
    && forall k :: |acts| <= k < |acts'| ==> IsSteady(acts'[k])
  }

  lemma ContinueBy(states: seq<State>, acts: seq<Action>, a: Action) returns (states': seq<State>, acts': seq<Action>)
    requires IsRun(states, acts) && CanMove(states[|acts|], a)
    ensures Continues(states, acts, states', acts') && acts' == acts + [a]
    ensures Step(states[|acts|], a) == Some(states'[|acts'|])
  {
    hide Step, IsSteady;
    var s := Step(states[|acts|], a).value;
    ExtendAll(states, acts, [a], [s]);
    states', acts' := states + [s], acts + [a];
  }

  lemma ContinuesTransitive(states: seq<State>, acts: seq<Action>, states1: seq<State>, acts1: seq<Action>,
                            states2: seq<State>, acts2: seq<Action>)
    requires Continues(states, acts, states1, acts1) && Continues(states1, acts1, states2, acts2)
    ensures Continues(states, acts, states2, acts2)
  {
    hide IsSteady, IsRun;
    forall k | |acts| <= k < |acts2| ensures IsSteady(acts2[k]) {
      if k < |acts1| {
        assert acts2[k] == acts1[k];
      }
    }
  }

  lemma ContinuesReflexive(states: seq<State>, acts: seq<Action>)
    requires IsRun(states, acts)
    ensures Continues(states, acts, states, acts)
  {}

  /** s' is s with the binder of id listening. */
  ghost predicate NowListening(s: State, s': State, id: Id) {
    OnlyJob(s, s', id) && s'.jobs[id].binder == Selecting
  }

  /** The binder of a live transaction can get back to listening, unless it is jammed. */
  lemma {:induction false} BinderWillListen(states: seq<State>, acts: seq<Action>, id: Id)
    returns (states': seq<State>, acts': seq<Action>)
    requires IsRun(states, acts) && IsLive(states[|acts|], id) && !Jammed(states[|acts|], id)
    ensures Continues(states, acts, states', acts')
    ensures NowListening(states[|acts|], states'[|acts'|], id)
    decreases Distance(states[|acts|].jobs[id], states[|acts|].subs)
  {
    hide Inv, Step, Distance, IsRun, Jammed, SameCalls;
    RunIsLong(states, acts);
    var s := states[|acts|];
    RunKeepsInv(states, acts, |acts|);
    if s.jobs[id].binder == Selecting {
      ContinuesReflexive(states, acts);
      OnlyJobReflexive(s, id);
      states', acts' := states, acts;
    } else {
      var a := BinderApproaches(s, id);
      var states1, acts1 := ContinueBy(states, acts, a);
      states', acts' := BinderWillListen(states1, acts1, id);
      ContinuesTransitive(states, acts, states1, acts1, states', acts');
      OnlyJobTransitive(s, states1[|acts1|], states'[|acts'|], id);
    }
  }

  lemma OnlyJobReflexive(s: State, id: Id)
    requires id in s.jobs
    ensures OnlyJob(s, s, id)
  {}

  lemma OnlyJobTransitive(a: State, b: State, c: State, id: Id)
    requires OnlyJob(a, b, id) && OnlyJob(b, c, id)
    ensures OnlyJob(a, c, id)
  {}

  /** The binder of a live transaction can get back to its select exactly when it is not jammed. */
  lemma ListensUnlessJammed(states: seq<State>, acts: seq<Action>, id: Id)
    requires IsRun(states, acts) && IsLive(states[|acts|], id)
    ensures !Jammed(states[|acts|], id) <==>
              exists states': seq<State>, acts': seq<Action> ::
                Continues(states, acts, states', acts') && NowListening(states[|acts|], states'[|acts'|], id)
  {
    hide Inv, IsRun, SameCalls;
    RunIsLong(states, acts);
    if !Jammed(states[|acts|], id) {
      var states', acts' := BinderWillListen(states, acts, id);
    }
    forall states': seq<State>, acts': seq<Action> |
      Continues(states, acts, states', acts') && NowListening(states[|acts|], states'[|acts'|], id)
      ensures !Jammed(states[|acts|], id)
    {
      forall key: nat ensures !JammedAt(states[|acts|], id, key) {
        if JammedAt(states[|acts|], id, key) {
          JamForever(states', acts', |acts|, |acts'|, id, key);
        }
      }
    }
  }

  /** It can also let go all clients that wait in Close for it. */
  lemma {:induction false} BinderWillClear(states: seq<State>, acts: seq<Action>, id: Id)
    returns (states': seq<State>, acts': seq<Action>)
    requires IsRun(states, acts) && IsLive(states[|acts|], id) && !Jammed(states[|acts|], id)
    ensures Continues(states, acts, states', acts')
    ensures var s, s' := states[|acts|], states'[|acts'|];
            && s'.pipe == s.pipe && id in s'.jobs && s'.jobs[id].curr == s.jobs[id].curr
            && s'.jobs[id].binder == Selecting && Detachers(s'.subs, id) == {}
    decreases |Detachers(states[|acts|].subs, id)|
  {
    hide Inv, Step, IsRun, Jammed, Detachers, SameCalls;
    RunIsLong(states, acts);
    states', acts' := BinderWillListen(states, acts, id);
    var s := states'[|acts'|];
    SameDetachers(states[|acts|].subs, s.subs, id);
    if Detachers(s.subs, id) != {} {
      var x := Pick(Detachers(s.subs, id));
      DetachGoes(s, id, x);
      var states0, acts0 := states', acts';
      var states1, acts1 := ContinueBy(states0, acts0, OfSub(x, DetachSend));
      states', acts' := BinderWillClear(states1, acts1, id);
      ContinuesTransitive(states0, acts0, states1, acts1, states', acts');
      ContinuesTransitive(states, acts, states0, acts0, states', acts');
    }
  }

  /** While the worker is not blocked, every transaction that waits can be completed. */
  lemma {:induction false} CanComplete(states: seq<State>, acts: seq<Action>, id: Id)
    returns (states': seq<State>, acts': seq<Action>)
    requires IsRun(states, acts) && Waits(states[|acts|].pipe, id) && !Blocked(states[|acts|])
    ensures Continues(states, acts, states', acts') && Completed(states'[|acts'|].pipe, id)
    decreases Remaining(states[|acts|].pipe)
  {
    hide Inv, Step, IsRun, Remaining, Waits, Completed, Blocked, Detachers;
    RunIsLong(states, acts);
    var s := states[|acts|];
    RunKeepsInv(states, acts, |acts|);
    var states0, acts0 := states, acts;
    if Sending(s.pipe.worker) {
      UnblockedHand(s);
      HandIsLive(s);
      states0, acts0 := BinderWillClear(states, acts, s.pipe.worker.id);
      RunKeepsInv(states0, acts0, |acts0|);
      ClearedIsUnblocked(s, states0[|acts0|], s.pipe.worker.id);
    } else {
      ContinuesReflexive(states, acts);
    }
    var a := WorkerGoes(states0[|acts0|], id);
    var states1, acts1 := ContinueBy(states0, acts0, a);
    ContinuesTransitive(states, acts, states0, acts0, states1, acts1);
    if Completed(states1[|acts1|].pipe, id) {
      states', acts' := states1, acts1;
    } else {
      states', acts' := CanComplete(states1, acts1, id);
      ContinuesTransitive(states, acts, states1, acts1, states', acts');
    }
  }

  lemma UnblockedHand(s: State)
    requires !Blocked(s)
    ensures !Halted(s) && (Hand(s.pipe.worker).Some? ==> !Jammed(s, Hand(s.pipe.worker).value))
  {}

  lemma ClearedIsUnblocked(s: State, s': State, id: Id)
    requires !Blocked(s) && Hand(s.pipe.worker) == Some(id) && s'.pipe == s.pipe
    requires id in s.jobs && id in s'.jobs && s'.jobs[id].curr == s.jobs[id].curr && s'.jobs[id].binder == Selecting
    ensures !Blocked(s')
  {}

  /**
   A transaction that waits in the queue or in the worker's hands can still be completed exactly when
   the worker has not returned, is not stuck, and does not depend on a jammed binder.
   */
  lemma CompletesUnlessBlocked(states: seq<State>, acts: seq<Action>, id: Id)
    requires IsRun(states, acts) && Waits(states[|acts|].pipe, id)
    ensures !Blocked(states[|acts|]) <==>
              exists states': seq<State>, acts': seq<Action> ::
                Continues(states, acts, states', acts') && Completed(states'[|acts'|].pipe, id)
  {
    hide Inv, IsRun, Blocked, SameCompletions;
    RunIsLong(states, acts);
    if !Blocked(states[|acts|]) {
      var states', acts' := CanComplete(states, acts, id);
    }
    forall states': seq<State>, acts': seq<Action> |
      Continues(states, acts, states', acts') && Completed(states'[|acts'|].pipe, id)
      ensures !Blocked(states[|acts|])
    {
      RunKeepsInv(states, acts, |acts|);
      WaitingIsNotCompleted(states[|acts|], id);
      if Blocked(states[|acts|]) {
        BlockedForever(states', acts', |acts|, |acts'|);
        KeepsCompleted(states[|acts|].pipe, states'[|acts'|].pipe, id);
      }
    }
  }

  lemma KeepsCompleted(q: Pipe, q': Pipe, id: Id)
    requires SameCompletions(q, q')
    ensures Completed(q', id) <==> Completed(q, id)
  {}

  lemma WaitingIsNotCompleted(s: State, id: Id)
    requires Inv(s) && Waits(s.pipe, id)
    ensures !Completed(s.pipe, id)
  {
    assert Places(s.pipe, id) == Count(1 <= id <= s.pipe.idCount);
  }
}
