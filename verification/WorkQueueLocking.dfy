/** When the registry lock can be freed: whoever holds it can leave, unless a Subscribe offers to a deaf binder. */
module WorkQueueLocking {
  import opened Wrappers
  import opened WorkQueue
  import opened WorkQueueInvariant
  import opened WorkQueueFits
  import opened WorkQueueSteps
  import opened WorkQueueGrowth
  import opened WorkQueueRuns
  import opened WorkQueueShutdown
  import opened WorkQueueCompletion
  import opened WorkQueueSubscribing
  import opened Sets

  /** x is inside Subscribe, and offers to a deaf binder or is bound to. */
  ghost predicate Doomed(s: State, x: SubId) {
    && x in s.subs && Deaf(s, s.subs[x].job)
    && match s.subs[x].pc
       case SubscribeSending => true
       case SubscribeOpen => s.subs[x].job in s.registry
       case SubscribeLocked => s.subs[x].job in s.registry && !s.done
       case _ => false
  }

  // ----- the writer leaves -----

  /** Steps until the writer unlocks. */
  ghost function WriterSteps(s: State): nat {
    match s.lock.writer
    case None => 0
    case Some(ByCaller(p)) =>
      if p !in s.callers then 0
      else (match s.callers[p]
            case PublishLocked => 4
            case PublishOpen => 3
            case PublishPushing(_) => 2
            case CloseLocked => 2
            case _ => 1)
    case Some(ByBinder(id)) =>
      if id !in s.jobs then 0
      else (match s.jobs[id].binder
            case Sweeping(todo) => 2 + 2 * |todo|
            case ClosingOne(_, todo) => 3 + 2 * |todo|
            case _ => 1)
  }

  /** The writer is one step nearer to leaving, and no reader has come. */
  ghost predicate WriterGoes(s: State, s': State) {
    && s'.lock.readers == s.lock.readers
    && (s'.lock.writer == None || (s'.lock.writer == s.lock.writer && WriterSteps(s') < WriterSteps(s)))
  }

  lemma CallerLeaves(s: State, p: CallerId) returns (a: Action)
    requires Inv(s) && s.lock.writer == Some(ByCaller(p))
    ensures CanMove(s, a) && WriterGoes(s, Step(s, a).value)
  {
    hide PipeInv, JobInv, MapInv, SubInv, IdInv;
    var act := match s.callers[p]
               case PublishLocked => PublishCheck
               case PublishOpen => PublishRegister(false)
               case PublishPushing(_) => PublishPush
               case PublishLeaving(_) => PublishUnlock
               case CloseLocked => CloseDone
               case _ => CloseUnlock;
    a := OfCaller(p, act);
  }

  lemma BinderLeaves(s: State, id: Id) returns (a: Action)
    requires Inv(s) && s.lock.writer == Some(ByBinder(id))
    ensures CanMove(s, a) && WriterGoes(s, Step(s, a).value)
  {
    hide PipeInv, JobInv, MapInv, SubInv, MapOk, Fits, JobOk, WriterGoes, CanMove;
    JobNow(s, id);
    match s.jobs[id].binder {
      case Sweeping(todo) =>
        if todo == {} {
          a := OfBinder(id, BinderDeregister);
          LastStepsGo(s, id, a);
        } else {
          var key := Pick(todo);
          a := OfBinder(id, BinderSwap(key));
          SweptIsInMap(id, s.jobs[id], s.subs, key);
          EntryIsRegistered(id, s.jobs[id], s.subs, key);
          SwapGoes(s, id, key);
        }
      case ClosingOne(key, _) =>
        a := OfBinder(id, BinderCloseChan);
        ClosedIsInMap(id, s.jobs[id], s.subs);
        EntryIsRegistered(id, s.jobs[id], s.subs, key);
        CloseChanGoes(s, id);
      case _ =>
        a := OfBinder(id, BinderUnlock);
        LastStepsGo(s, id, a);
    }
  }

  lemma SweptIsInMap(id: Id, j: Job, subs: map<SubId, Sub>, key: nat)
    requires MapOk(id, j, subs) && j.binder.Sweeping? && key in j.binder.todo
    ensures key in j.subscriptions
  {}

  lemma ClosedIsInMap(id: Id, j: Job, subs: map<SubId, Sub>)
    requires MapOk(id, j, subs) && j.binder.ClosingOne?
    ensures j.binder.key in j.subscriptions
  {}

  lemma SwapGoes(s: State, id: Id, key: nat)
    requires s.lock.writer == Some(ByBinder(id)) && id in s.jobs && s.jobs[id].binder.Sweeping?
    requires key in s.jobs[id].binder.todo && key in s.jobs[id].subscriptions && s.jobs[id].subscriptions[key] in s.subs
    ensures CanMove(s, OfBinder(id, BinderSwap(key))) && WriterGoes(s, Step(s, OfBinder(id, BinderSwap(key))).value)
  {}

  lemma CloseChanGoes(s: State, id: Id)
    requires s.lock.writer == Some(ByBinder(id)) && id in s.jobs && s.jobs[id].binder.ClosingOne?
    requires s.jobs[id].binder.key in s.jobs[id].subscriptions
    requires s.jobs[id].subscriptions[s.jobs[id].binder.key] in s.subs
    ensures CanMove(s, OfBinder(id, BinderCloseChan)) && WriterGoes(s, Step(s, OfBinder(id, BinderCloseChan)).value)
  {}

  lemma LastStepsGo(s: State, id: Id, a: Action)
    requires s.lock.writer == Some(ByBinder(id)) && id in s.jobs
    requires if s.jobs[id].binder == Sweeping({}) then a == OfBinder(id, BinderDeregister)
              else s.jobs[id].binder == Deregistered && a == OfBinder(id, BinderUnlock)
    ensures CanMove(s, a) && WriterGoes(s, Step(s, a).value)
  {}

  /** The writer, if there is one, can leave. */
  lemma {:induction false} WriterWillLeave(states: seq<State>, acts: seq<Action>)
    returns (states': seq<State>, acts': seq<Action>)
    requires IsRun(states, acts) && states[|acts|].lock.writer.Some?
    ensures Continues(states, acts, states', acts') && LockFree(states'[|acts'|])
    decreases WriterSteps(states[|acts|])
  {
    hide Inv, IsRun, Step, WriterSteps;
    RunIsLong(states, acts);
    RunKeepsInv(states, acts, |acts|);
    var s := states[|acts|];
    WriterIsAlone(s);
    var a;
    match s.lock.writer.value {
      case ByCaller(p) => a := CallerLeaves(s, p);
      case ByBinder(id) => a := BinderLeaves(s, id);
    }
    states', acts' := ContinueBy(states, acts, a);
    if states'[|acts'|].lock.writer.Some? {
      var states1, acts1 := states', acts';
      states', acts' := WriterWillLeave(states1, acts1);
      ContinuesTransitive(states, acts, states1, acts1, states', acts');
    }
  }

  lemma WriterIsAlone(s: State)
    requires Inv(s)
    ensures s.lock.writer.Some? ==> s.lock.readers == {}
  {}

  // ----- the readers leave -----

  /** Steps until x unlocks, the wait for its binder counted as one. */
  function ReaderSteps(pc: SubPc): nat {
    match pc
    case SubscribeLocked => 3
    case SubscribeOpen => 2
    case SubscribeSending => 1
    case _ => 0
  }

  ghost predicate NoneDoomed(s: State) {
    forall x :: x in s.subs ==> !Doomed(s, x)
  }

  /** No one has come to the lock, and no Subscribe is newly doomed. */
  ghost predicate Leaves(s: State, s': State) {
    s'.lock.writer == None && s'.lock.readers <= s.lock.readers && NoneDoomed(s')
  }

  lemma CheckLeaves(s: State, x: SubId, act: SubAction)
    requires x in s.subs && s.lock.writer == None && NoneDoomed(s)
    requires || (act.SubscribeCheck? && s.subs[x].pc == SubscribeLocked)
             || (act.SubscribeLookup? && s.subs[x].pc == SubscribeOpen)
    ensures CanMove(s, OfSub(x, act))
    ensures var s' := Step(s, OfSub(x, act)).value;
            && Leaves(s, s') && s'.lock == s.lock
            && x in s'.subs && ReaderSteps(s'.subs[x].pc) < ReaderSteps(s.subs[x].pc)
  {
    var s' := Step(s, OfSub(x, act)).value;
    forall id ensures Deaf(s', id) <==> Deaf(s, id) {
      assert forall key: nat :: JammedAt(s', id, key) <==> JammedAt(s, id, key);
    }
    hide Deaf;
  }

  lemma UnlockLeaves(s: State, x: SubId)
    requires x in s.subs && s.subs[x].pc.SubscribeLeaving?
    requires x in s.lock.readers && s.lock.writer == None && NoneDoomed(s)
    ensures CanMove(s, OfSub(x, SubscribeUnlock))
    ensures var s' := Step(s, OfSub(x, SubscribeUnlock)).value;
            Leaves(s, s') && s'.lock.readers == s.lock.readers - {x}
  {
    var s' := Step(s, OfSub(x, SubscribeUnlock)).value;
    forall id ensures Deaf(s', id) <==> Deaf(s, id) {
      assert forall key: nat :: JammedAt(s', id, key) <==> JammedAt(s, id, key);
    }
    hide Deaf;
  }

  lemma ListeningDoomsNone(s: State, s': State, id: Id)
    requires Inv(s) && NowListening(s, s', id) && IsLive(s, id) && NoneDoomed(s) && s.lock.writer == None
    ensures Leaves(s, s')
  {
    hide Inv, Deaf, Jammed;
    forall y | y in s'.subs ensures !Doomed(s', y) {
      assert !Doomed(s, y);
      ListeningDeafensNone(s, s', id, s'.subs[y].job);
    }
  }

  lemma ListeningDeafensNone(s: State, s': State, id: Id, i: Id)
    requires Inv(s) && NowListening(s, s', id) && IsLive(s, id)
    ensures Deaf(s', i) ==> Deaf(s, i) && i != id
  {
    hide Inv, MapOk, JobOk, SameCalls;
    if i == id {
      ListeningIsNotJammed(s', id);
    } else if i in s.jobs {
      JobNow(s, i);
      OtherJamIsOld(s, s', id, i);
    }
  }

  lemma ListeningIsNotJammed(s: State, id: Id)
    requires id in s.jobs && s.jobs[id].binder == Selecting
    ensures !Jammed(s, id)
  {}

  /** A jam of another transaction was there before. */
  lemma OtherJamIsOld(s: State, s': State, id: Id, i: Id)
    requires OnlyJob(s, s', id) && i != id && i in s.jobs && MapOk(i, s.jobs[i], s.subs)
    ensures Jammed(s', i) ==> Jammed(s, i)
  {
    forall key: nat ensures JammedAt(s', i, key) ==> JammedAt(s, i, key) {}
  }

  lemma GrantLeaves(s: State, x: SubId)
    requires IsOffering(s, x) && s.subs[x].job in s.jobs && s.jobs[s.subs[x].job].binder == Selecting
    requires IsLive(s, s.subs[x].job) && NoneDoomed(s) && s.lock.writer == None
    ensures CanMove(s, OfSub(x, SubscribeSend))
    ensures var s' := Step(s, OfSub(x, SubscribeSend)).value;
            Leaves(s, s') && s'.lock == s.lock && x in s'.subs && s'.subs[x].pc == SubscribeLeaving(Granted)
  {
    var s' := Step(s, OfSub(x, SubscribeSend)).value;
    forall id: Id ensures Deaf(s', id) ==> Deaf(s, id) {
      forall key: nat ensures JammedAt(s', id, key) ==> JammedAt(s, id, key) {}
    }
    hide Deaf;
    forall y | y in s'.subs ensures !Doomed(s', y) {
      assert y in s.subs && !Doomed(s, y);
    }
  }

  lemma ReaderIsInside(s: State, x: SubId)
    requires Inv(s) && x in s.lock.readers
    ensures x in s.subs && s.subs[x].pc.HoldsReadLock()
    ensures s.lock.writer == None
  {}

  lemma InsideIsReader(s: State, x: SubId)
    requires Inv(s) && x in s.subs && s.subs[x].pc.HoldsReadLock()
    ensures x in s.lock.readers
  {}

  /** One reader gets a step nearer to leaving. */
  lemma ReaderWillGo(states: seq<State>, acts: seq<Action>, x: SubId)
    returns (states': seq<State>, acts': seq<Action>)
    requires IsRun(states, acts) && x in states[|acts|].lock.readers && NoneDoomed(states[|acts|])
    ensures Continues(states, acts, states', acts')
    ensures var s, s' := states[|acts|], states'[|acts'|];
            && Leaves(s, s')
            && (s'.lock.readers == s.lock.readers ==>
                  x in s'.subs && x in s.subs && ReaderSteps(s'.subs[x].pc) < ReaderSteps(s.subs[x].pc))
  {
    hide Inv, IsRun, Step, NoneDoomed, CanMove;
    RunIsLong(states, acts);
    RunKeepsInv(states, acts, |acts|);
    var s := states[|acts|];
    ReaderIsInside(s, x);
    match s.subs[x].pc {
      case SubscribeSending =>
        OfferIsHeard(s, x);
        var states1, acts1 := BinderWillListen(states, acts, s.subs[x].job);
        var s1 := states1[|acts1|];
        ListeningDoomsNone(s, s1, s.subs[x].job);
        GrantLeaves(s1, x);
        states', acts' := ContinueBy(states1, acts1, OfSub(x, SubscribeSend));
        ContinuesTransitive(states, acts, states1, acts1, states', acts');
      case SubscribeLeaving(_) =>
        UnlockLeaves(s, x);
        states', acts' := ContinueBy(states, acts, OfSub(x, SubscribeUnlock));
      case SubscribeLocked =>
        CheckLeaves(s, x, SubscribeCheck);
        states', acts' := ContinueBy(states, acts, OfSub(x, SubscribeCheck));
      case _ =>
        CheckLeaves(s, x, SubscribeLookup);
        states', acts' := ContinueBy(states, acts, OfSub(x, SubscribeLookup));
    }
  }

  lemma OfferIsHeard(s: State, x: SubId)
    requires IsOffering(s, x) && NoneDoomed(s)
    ensures IsLive(s, s.subs[x].job) && !Jammed(s, s.subs[x].job)
  {
    assert !Doomed(s, x);
  }

  /** Readers none of whom is doomed can all leave. */
  lemma {:induction false} ReadersWillLeave(states: seq<State>, acts: seq<Action>)
    returns (states': seq<State>, acts': seq<Action>)
    requires IsRun(states, acts) && states[|acts|].lock.writer == None && NoneDoomed(states[|acts|])
    ensures Continues(states, acts, states', acts') && LockFree(states'[|acts'|])
    decreases |states[|acts|].lock.readers|, NextReader(states[|acts|])
  {
    hide Inv, IsRun, Step, NoneDoomed;
    RunIsLong(states, acts);
    var s := states[|acts|];
    RunKeepsInv(states, acts, |acts|);
    if s.lock.readers == {} {
      ContinuesReflexive(states, acts);
      states', acts' := states, acts;
    } else {
      var x := Pick(s.lock.readers);
      ReaderIsInside(s, x);
      var states1, acts1 := ReaderWillGo(states, acts, x);
      SubsetOfSameSize(states1[|acts1|].lock.readers, s.lock.readers);
      states', acts' := ReadersWillLeave(states1, acts1);
      ContinuesTransitive(states, acts, states1, acts1, states', acts');
    }
  }

  ghost function NextReader(s: State): nat {
    if s.lock.readers == {} || Pick(s.lock.readers) !in s.subs then 0
    else ReaderSteps(s.subs[Pick(s.lock.readers)].pc)
  }

  // ----- a doomed reader -----

  lemma DoomedHoldsLock(s: State, x: SubId)
    requires Doomed(s, x)
    ensures s.subs[x].pc.HoldsReadLock() && !s.subs[x].pc.WasGranted()
  {}

  lemma CallerKeepsDoomed(s: State, p: CallerId, act: CallerAction)
    requires CallerStep(s, p, act).Some?
    requires forall q :: q in s.callers ==> !s.callers[q].HoldsLock()
    ensures var s' := CallerStep(s, p, act).value;
            s'.subs == s.subs && s'.registry == s.registry && s'.done == s.done
  {}

  lemma SubKeepsDoomed(s: State, y: SubId, act: SubAction, x: SubId)
    requires SubStep(s, y, act).Some? && Doomed(s, x)
    requires x == y ==> !act.SubscribeGiveUp? && (s.subs[x].job in s.jobs ==> s.jobs[s.subs[x].job].binder != Selecting)
    ensures var s' := SubStep(s, y, act).value;
            && x in s'.subs && s'.subs[x].job == s.subs[x].job
            && (Deaf(s', s.subs[x].job) ==> Doomed(s', x))
  {
    hide Deaf;
  }

  lemma WorkerKeepsDoomed(s: State, act: WorkerAction)
    requires WorkerStep(s, act).Some?
    ensures var s' := WorkerStep(s, act).value;
            s'.subs == s.subs && s'.registry == s.registry && s'.done == s.done
  {}

  lemma DoomedHasJob(s: State, x: SubId)
    requires Inv(s) && Doomed(s, x)
    ensures s.subs[x].job in s.jobs
  {
    hide Deaf;
    FreshNow(s, x);
  }

  lemma DoomedStays(s: State, a: Action, x: SubId)
    requires Inv(s) && Step(s, a).Some? && IsSteady(a) && Doomed(s, x)
    ensures Doomed(Step(s, a).value, x)
  {
    hide Inv, CallerStep, SubStep, WorkerStep, BinderStep, Deaf, MapOk, JobOk;
    var id := s.subs[x].job;
    DoomedHoldsLock(s, x);
    DoomedHasJob(s, x);
    ReaderKeepsWritersOut(s, x);
    DeafIsNotSelecting(s, id);
    DeafStays(s, a, id);
    match a {
      case OfCaller(p, act) => CallerKeepsDoomed(s, p, act);
      case OfSub(y, act) => SubKeepsDoomed(s, y, act, x);
      case OfWorker(act) => WorkerKeepsDoomed(s, act);
      case OfBinder(i, act) =>
        BinderIsThere(s, i, act);
        JobNow(s, i);
        BinderKeepsOffer(s, i, act, x);
        BinderStepDrains(s, i, act);
    }
  }

  lemma {:induction false} DoomedForever(states: seq<State>, acts: seq<Action>, i: nat, j: nat, x: SubId)
    requires IsRun(states, acts) && i <= j < |states| && Doomed(states[i], x)
    requires forall k :: i <= k < j ==> IsSteady(acts[k])
    ensures Doomed(states[j], x)
  {
    if i < j {
      hide Inv, IsRun, Step, Doomed, IsSteady;
      RunIsLong(states, acts);
      DoomedForever(states, acts, i, j - 1, x);
      RunKeepsInv(states, acts, j - 1);
      RunStep(states, acts, j - 1);
      DoomedStays(states[j - 1], acts[j - 1], x);
    }
  }

  /**
   The lock can be freed, for a waiting Publish, Close or binder to take, by the goroutines' own steps exactly
   when no Subscribe that holds it offers, or is bound to offer, to a deaf binder.
   */
  lemma LockFreedUnlessDoomed(states: seq<State>, acts: seq<Action>)
    requires IsRun(states, acts)
    ensures NoneDoomed(states[|acts|]) <==>
              exists states': seq<State>, acts': seq<Action> ::
                Continues(states, acts, states', acts') && LockFree(states'[|acts'|])
  {
    hide Inv, IsRun, Doomed;
    RunIsLong(states, acts);
    var s := states[|acts|];
    if NoneDoomed(s) {
      if s.lock.writer.Some? {
        var states', acts' := WriterWillLeave(states, acts);
      } else {
        var states', acts' := ReadersWillLeave(states, acts);
      }
    }
    forall states': seq<State>, acts': seq<Action> |
      Continues(states, acts, states', acts') && LockFree(states'[|acts'|])
      ensures NoneDoomed(s)
    {
      RunKeepsInv(states', acts', |acts'|);
      forall x | x in s.subs ensures !Doomed(s, x) {
        if Doomed(s, x) {
          DoomedForever(states', acts', |acts|, |acts'|, x);
          DoomedIsReader(states'[|acts'|], x);
        }
      }
    }
  }

  lemma DoomedIsReader(s: State, x: SubId)
    requires Inv(s) && Doomed(s, x)
    ensures x in s.lock.readers
  {
    DoomedHoldsLock(s, x);
    InsideIsReader(s, x);
  }
}
