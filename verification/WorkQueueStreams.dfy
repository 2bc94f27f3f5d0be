/** Exactly what a subscription is sent, and when a stream closed by its binder is complete. */
module WorkQueueStreams {
  import opened Wrappers
  import opened WorkQueue
  import opened WorkQueueInvariant
  import opened WorkQueueFits
  import opened WorkQueueSteps
  import opened WorkQueueGrowth
  import opened WorkQueueRuns
  import opened WorkQueueShutdown
  import opened WorkQueueBlocking

  // ----- gaps are broadcasts that were given up -----

  /** In s, a gives up a broadcast of transaction id that has g still to send. */
  predicate GivesUp(s: State, a: Action, id: Id, g: Gap) {
    && a == OfBinder(id, BinderAbort)
    && id in s.jobs && s.jobs[id].binder.Broadcasting?
    && g.key in s.jobs[id].binder.todo && g.index == |s.jobs[id].history| - 1
  }

  /** Before state i of the run, a broadcast was given up with g still to send. */
  predicate WasGivenUp(states: seq<State>, acts: seq<Action>, i: nat, id: Id, g: Gap)
    requires i <= |acts| && i <= |states|
  {
    exists m :: 0 <= m < i && GivesUp(states[m], acts[m], id, g)
  }

  function GapsIn(jobs: map<Id, Job>, id: Id): set<Gap> {
    if id in jobs then jobs[id].missed else {}
  }

  lemma CallerKeepsGaps(s: State, p: CallerId, act: CallerAction, id: Id)
    requires IdInv(s.pipe.idCount, s.jobs, s.registry) && CallerStep(s, p, act).Some?
    ensures GapsIn(CallerStep(s, p, act).value.jobs, id) == GapsIn(s.jobs, id)
  {}

  lemma SubKeepsGaps(s: State, x: SubId, act: SubAction, id: Id)
    requires SubStep(s, x, act).Some?
    ensures GapsIn(SubStep(s, x, act).value.jobs, id) == GapsIn(s.jobs, id)
  {}

  lemma WorkerKeepsGaps(s: State, act: WorkerAction, id: Id)
    requires WorkerStep(s, act).Some?
    ensures GapsIn(WorkerStep(s, act).value.jobs, id) == GapsIn(s.jobs, id)
  {}

  lemma BinderKeepsGaps(s: State, i: Id, act: BinderAction, id: Id)
    requires BinderStep(s, i, act).Some? && (act == BinderAbort ==> i != id)
    ensures GapsIn(BinderStep(s, i, act).value.jobs, id) == GapsIn(s.jobs, id)
  {
    if Sends(act) {
      SendKeepsGaps(s, i, act, id);
    } else if Closes(act) {
      CloseKeepsGaps(s, i, act, id);
    }
  }

  lemma SendKeepsGaps(s: State, i: Id, act: BinderAction, id: Id)
    requires BinderStep(s, i, act).Some? && Sends(act)
    ensures GapsIn(BinderStep(s, i, act).value.jobs, id) == GapsIn(s.jobs, id)
  {}

  lemma CloseKeepsGaps(s: State, i: Id, act: BinderAction, id: Id)
    requires BinderStep(s, i, act).Some? && Closes(act)
    ensures GapsIn(BinderStep(s, i, act).value.jobs, id) == GapsIn(s.jobs, id)
  {}

  lemma StepAddsGaps(s: State, a: Action, id: Id, g: Gap)
    requires Inv(s) && Step(s, a).Some?
    ensures g in GapsIn(Step(s, a).value.jobs, id) <==> g in GapsIn(s.jobs, id) || GivesUp(s, a, id, g)
  {
    hide PipeInv, JobInv, MapInv, SubInv, CallerStep, SubStep, WorkerStep, GapsIn;
    match a {
      case OfCaller(p, act) => CallerKeepsGaps(s, p, act, id);
      case OfSub(x, act) => SubKeepsGaps(s, x, act, id);
      case OfWorker(act) => WorkerKeepsGaps(s, act, id);
      case OfBinder(i, act) =>
        if act == BinderAbort && i == id {
          AbortAddsGaps(s, id, g);
        } else {
          hide BinderStep;
          BinderKeepsGaps(s, i, act, id);
        }
    }
  }

  lemma AbortAddsGaps(s: State, id: Id, g: Gap)
    requires BinderStep(s, id, BinderAbort).Some?
    ensures g in GapsIn(BinderStep(s, id, BinderAbort).value.jobs, id)
            <==> g in GapsIn(s.jobs, id) || GivesUp(s, OfBinder(id, BinderAbort), id, g)
  {
    var j := s.jobs[id];
    assert g in Unsent(j) <==> g.key in j.binder.todo && g.index == |j.history| - 1;
  }

  lemma {:induction false} GapsAreGivenUp(states: seq<State>, acts: seq<Action>, i: nat, id: Id, g: Gap)
    requires IsRun(states, acts) && i < |states|
    ensures g in GapsIn(states[i].jobs, id) <==> WasGivenUp(states, acts, i, id, g)
  {
    if i > 0 {
      hide Inv, IsRun, Step, GapsIn, WasGivenUp, GivesUp;
      RunIsLong(states, acts);
      GapsAreGivenUp(states, acts, i - 1, id, g);
      RunKeepsInv(states, acts, i - 1);
      RunStep(states, acts, i - 1);
      StepAddsGaps(states[i - 1], acts[i - 1], id, g);
      GivenUpSoFar(states, acts, i, id, g);
    }
  }

  lemma GivenUpSoFar(states: seq<State>, acts: seq<Action>, i: nat, id: Id, g: Gap)
    requires 0 < i <= |acts| && i <= |states|
    ensures WasGivenUp(states, acts, i, id, g)
            <==> WasGivenUp(states, acts, i - 1, id, g) || GivesUp(states[i - 1], acts[i - 1], id, g)
  {
    hide GivesUp;
  }

  // ----- what was sent, exactly -----

  /**
   In every run, with or without cancellation: a registered subscription has been sent, of the
   statuses since its registration, exactly those whose broadcast was not given up before reaching it.
   */
  lemma StreamIsExact(states: seq<State>, acts: seq<Action>, i: nat, x: SubId, n: nat)
    requires IsRun(states, acts) && i < |states|
    requires x in states[i].subs && states[i].subs[x].pc.WasGranted() && states[i].subs[x].job in states[i].jobs
    requires Registered(x, states[i].subs[x], states[i].jobs[states[i].subs[x].job])
    requires states[i].subs[x].from <= n < |states[i].jobs[states[i].subs[x].job].history|
    ensures var u := states[i].subs[x];
            var j := states[i].jobs[u.job];
            n in u.stamps <==>
              && !(Pending(x, u, j) && n == |j.history| - 1)
              && !WasGivenUp(states, acts, i, u.job, Gap(u.key, n))
  {
    hide Inv, IsRun, FlagsOk, StreamOk, WasGivenUp;
    RunKeepsInv(states, acts, i);
    FitsNow(states[i], x);
    GapsAreGivenUp(states, acts, i, states[i].subs[x].job, Gap(states[i].subs[x].key, n));
  }

  /**
   A strictly increasing sequence below top is gap-free from its first possible value on exactly when it is
   that long.
   */
  lemma {:induction false} Dense(stamps: seq<nat>, from: nat, top: nat)
    requires from <= top && Increasing(stamps)
    requires forall i :: 0 <= i < |stamps| ==> from <= stamps[i] < top
    ensures |stamps| <= top - from
    ensures |stamps| == top - from <==> forall n :: from <= n < top ==> n in stamps
    ensures |stamps| == top - from ==> forall i :: 0 <= i < |stamps| ==> stamps[i] == from + i
    decreases top
  {
    if stamps != [] {
      var last := |stamps| - 1;
      var front := stamps[..last];
      assert stamps == front + [stamps[last]];
      Dense(front, from, stamps[last]);
      if stamps[last] < top - 1 {
        assert forall i :: 0 <= i < |stamps| ==> stamps[i] <= stamps[last];
        assert top - 1 !in stamps;
      } else {
        assert forall n :: n in stamps <==> n in front || n == top - 1;
      }
    } else if from < top {
      assert from !in stamps;
    }
  }

  /** No broadcast was given up before state i while it had the subscription under key still to reach. */
  ghost predicate NeverSkipped(states: seq<State>, acts: seq<Action>, i: nat, id: Id, key: nat)
    requires i <= |acts| && i <= |states|
  {
    forall n: nat :: !WasGivenUp(states, acts, i, id, Gap(key, n))
  }

  /**
   A channel that its binder has closed has carried the whole history since registration exactly
   when no broadcast was given up on it; and the value before the close is the final status, which
   says why, exactly when the final broadcast was not given up on it.
   */
  lemma ClosedStream(states: seq<State>, acts: seq<Action>, i: nat, x: SubId)
    requires IsRun(states, acts) && i < |states|
    requires x in states[i].subs && states[i].subs[x].chanClosed && states[i].subs[x].pc == Attached
    ensures states[i].subs[x].job in states[i].jobs
    ensures var u := states[i].subs[x];
            var j := states[i].jobs[u.job];
            && (j.curr.phase == Done || j.curr.phase == Cancelled)
            && u.from < |j.history| && u.sent != []
            && (u.sent == j.history[u.from..] <==> NeverSkipped(states, acts, i, u.job, u.key))
            && (u.sent[|u.sent| - 1] == j.curr <==> !WasGivenUp(states, acts, i, u.job, Gap(u.key, |j.history| - 1)))
  {
    hide Inv, IsRun, Fits, WasGivenUp, JobOk, MapOk, GoodHistory;
    RunIsLong(states, acts);
    RunKeepsInv(states, acts, i);
    FitsNow(states[i], x);
    var u := states[i].subs[x];
    var id := u.job;
    var j := states[i].jobs[id];
    HistoryOf(states[i], id);
    JobNow(states[i], id);
    GapsOf(j, IsRunning(states[i].pipe.worker, id), id in states[i].pipe.finished, GivenUp(states[i].pipe, id));
    ClosedIsSettled(x, u, j);
    forall n: nat ensures Gap(u.key, n) in j.missed <==> WasGivenUp(states, acts, i, id, Gap(u.key, n)) {
      GapsAreGivenUp(states, acts, i, id, Gap(u.key, n));
    }
    SettledStream(x, u, j);
  }

  /** While no broadcast was given up on it, a stream is a gap-free segment of the history. */
  lemma StreamHasNoGaps(states: seq<State>, acts: seq<Action>, i: nat, x: SubId)
    requires IsRun(states, acts) && i < |states|
    requires x in states[i].subs && states[i].subs[x].pc.WasGranted()
    requires NeverSkipped(states, acts, i, states[i].subs[x].job, states[i].subs[x].key)
    ensures states[i].subs[x].job in states[i].jobs
    ensures var u := states[i].subs[x];
            var j := states[i].jobs[u.job];
            && u.from + |u.sent| <= |j.history|
            && u.sent == j.history[u.from..u.from + |u.sent|]
            && (u.chanClosed && u.pc == Attached ==> u.sent != [] && u.sent[|u.sent| - 1] == j.curr)
  {
    hide Inv, IsRun, Fits, WasGivenUp, GoodHistory;
    RunIsLong(states, acts);
    RunKeepsInv(states, acts, i);
    FitsNow(states[i], x);
    var u := states[i].subs[x];
    var j := states[i].jobs[u.job];
    HistoryOf(states[i], u.job);
    forall n: nat ensures Gap(u.key, n) !in j.missed {
      GapsAreGivenUp(states, acts, i, u.job, Gap(u.key, n));
    }
    UnskippedFits(x, u, j);
    if u.chanClosed && u.pc == Attached {
      ClosedIsSettled(x, u, j);
    }
  }

  lemma UnskippedFits(x: SubId, u: Sub, j: Job)
    requires Fits(x, u, j) && Unskipped(u.key, j)
    ensures u.from + |u.sent| <= |j.history| && u.sent == j.history[u.from..u.from + |u.sent|]
    ensures Registered(x, u, j) && !Pending(x, u, j) ==> u.from + |u.sent| == |j.history|
  {
    if u.sent != [] {
      assert u.stamps[|u.stamps| - 1] == u.from + |u.stamps| - 1;
    }
  }

  /** Without cancellation no broadcast is given up, and a channel that its binder has closed ends with Done. */
  lemma UncancelledStream(states: seq<State>, acts: seq<Action>, i: nat, x: SubId)
    requires IsRun(states, acts) && i < |states|
    requires x in states[i].subs && states[i].subs[x].pc.WasGranted()
    requires states[i].subs[x].job in states[i].jobs && !states[i].jobs[states[i].subs[x].job].cancelled
    ensures NeverSkipped(states, acts, i, states[i].subs[x].job, states[i].subs[x].key)
    ensures var u := states[i].subs[x];
            u.chanClosed && u.pc == Attached ==> u.sent != [] && u.sent[|u.sent| - 1].phase == Done
  {
    hide Inv, IsRun, Fits, WasGivenUp, GoodHistory, JobOk, MapOk;
    RunIsLong(states, acts);
    RunKeepsInv(states, acts, i);
    var s := states[i];
    var id := s.subs[x].job;
    JobNow(s, id);
    GapsOf(s.jobs[id], IsRunning(s.pipe.worker, id), id in s.pipe.finished, GivenUp(s.pipe, id));
    forall n: nat ensures !WasGivenUp(states, acts, i, id, Gap(s.subs[x].key, n)) {
      GapsAreGivenUp(states, acts, i, id, Gap(s.subs[x].key, n));
    }
    UncancelledIsNotCancelled(s, id);
    if s.subs[x].chanClosed && s.subs[x].pc == Attached {
      StreamHasNoGaps(states, acts, i, x);
      HistoryOf(s, id);
      FitsNow(s, x);
      ClosedIsSettled(x, s.subs[x], s.jobs[id]);
    }
  }

  lemma ClosedIsSettled(x: SubId, u: Sub, j: Job)
    requires Fits(x, u, j) && u.chanClosed && u.pc == Attached && BinderAgrees(j.binder, j.curr.phase)
    ensures Registered(x, u, j) && !Pending(x, u, j) && u.sent != []
    ensures j.curr.phase == Done || j.curr.phase == Cancelled
  {}

  lemma SettledStream(x: SubId, u: Sub, j: Job)
    requires Fits(x, u, j) && Registered(x, u, j) && !Pending(x, u, j) && u.sent != []
    requires MissedOk(j) && GoodHistory(j.history) && j.curr == j.history[|j.history| - 1]
    ensures u.from < |j.history|
    ensures u.sent == j.history[u.from..] <==> Unskipped(u.key, j)
    ensures u.sent[|u.sent| - 1] == j.curr <==> Gap(u.key, |j.history| - 1) !in j.missed
  {
    hide Fits, GoodHistory, Registered, Pending, Increasing, Distinct, MissedOk;
    StampsAreInRange(x, u, j);
    StampsAreExact(x, u, j);
    WholeIffDense(u.sent, u.stamps, j.history, u.from);
    HistoryIsDistinct(j.history);
    LastIffLast(u.sent, u.stamps, j.history, u.from);
    NoneMissing(u.stamps, j.missed, u.key, u.from, |j.history|);
  }

  lemma WholeIffDense(sent: seq<Status>, stamps: seq<nat>, h: seq<Status>, from: nat)
    requires Increasing(stamps) && |stamps| == |sent| && from <= |h|
    requires forall i :: 0 <= i < |stamps| ==> from <= stamps[i] < |h| && sent[i] == h[stamps[i]]
    ensures sent == h[from..] <==> forall n :: from <= n < |h| ==> n in stamps
  {
    Dense(stamps, from, |h|);
    hide Increasing;
    if |stamps| == |h| - from {
      assert sent == h[from..];
    }
  }

  lemma LastIffLast(sent: seq<Status>, stamps: seq<nat>, h: seq<Status>, from: nat)
    requires Increasing(stamps) && |stamps| == |sent| > 0 && Distinct(h) && h != []
    requires forall i :: 0 <= i < |stamps| ==> from <= stamps[i] < |h| && sent[i] == h[stamps[i]]
    ensures sent[|sent| - 1] == h[|h| - 1] <==> |h| - 1 in stamps
  {
    var last := |stamps| - 1;
    if |h| - 1 in stamps {
      var i :| 0 <= i < |stamps| && stamps[i] == |h| - 1;
      AtMostLast(stamps, i);
    }
  }

  lemma AtMostLast(stamps: seq<nat>, i: nat)
    requires Increasing(stamps) && i < |stamps|
    ensures stamps[i] <= stamps[|stamps| - 1]
  {}

  /** Nothing is missing from the stamps exactly when nothing was missed. */
  lemma NoneMissing(stamps: seq<nat>, missed: set<Gap>, key: nat, from: nat, top: nat)
    requires forall n :: from <= n < top ==> (n in stamps <==> Gap(key, n) !in missed)
    requires forall n: nat :: n < from || top <= n ==> Gap(key, n) !in missed
    ensures (forall n :: from <= n < top ==> n in stamps) <==> forall n: nat :: Gap(key, n) !in missed
  {}

  lemma StampsAreInRange(x: SubId, u: Sub, j: Job)
    requires Fits(x, u, j)
    ensures Increasing(u.stamps) && |u.stamps| == |u.sent| && u.from < |j.history|
    ensures forall i :: 0 <= i < |u.stamps| ==>
              u.from <= u.stamps[i] < |j.history| && u.sent[i] == j.history[u.stamps[i]]
  {}

  lemma StampsAreExact(x: SubId, u: Sub, j: Job)
    requires Fits(x, u, j) && Registered(x, u, j) && !Pending(x, u, j) && MissedOk(j)
    ensures forall n :: u.from <= n < |j.history| ==> (n in u.stamps <==> Gap(u.key, n) !in j.missed)
    ensures forall n: nat :: n < u.from || |j.history| <= n ==> Gap(u.key, n) !in j.missed
  {}

  lemma HistoryIsDistinct(h: seq<Status>)
    requires GoodHistory(h)
    ensures Distinct(h)
  {}

  // ----- a stream that does not say why it ended -----

  /** A run in which the only transaction is published, and Subscribe has found its state. */
  lemma RunToOffer(reader: bool) returns (states: seq<State>, acts: seq<Action>)
    ensures IsRun(states, acts)
    ensures var s := states[|acts|];
            && s.lock == Lock(None, {0}) && s.pipe.worker == Vetted(1) && s.registry == {1} && !s.done
            && 1 in s.jobs && s.jobs[1] == NewJob(false)
            && 0 in s.subs && s.subs[0] == Sub(SubscribeSending, 1, reader, 0, false, false, None, 0, [], [], [])
  {
    states, acts := RunToCheck();
    var more := [OfSub(0, BeginSubscribe(1, reader)), OfSub(0, SubscribeLock), OfSub(0, SubscribeCheck),
        OfSub(0, SubscribeLookup)];
    var s1 := After(states[|acts|], more[0]);
    var s2 := After(s1, more[1]);
    var s3 := After(s2, more[2]);
    var s4 := After(s3, more[3]);
    ExtendAll(states, acts, more, [s1, s2, s3, s4]);
    states, acts := states + [s1, s2, s3, s4], acts + more;
  }

  /** A run in which the only transaction is published and subscribed to. */
  lemma RunToSubscribed(reader: bool) returns (states: seq<State>, acts: seq<Action>)
    ensures IsRun(states, acts)
    ensures var s := states[|acts|];
            && s.lock == Lock(None, {}) && s.pipe.worker == Vetted(1) && s.registry == {1} && !s.done
            && 1 in s.jobs && s.jobs[1] == NewJob(false).(subCount := 1, subscriptions := map[1 := 0])
            && 0 in s.subs && s.subs[0]
                == Sub(Attached, 1, reader, 1, false, false, Some(QueuedStatus), 0, [QueuedStatus], [0], [])
  {
    states, acts := RunToOffer(reader);
    var more := [OfSub(0, SubscribeSend), OfBinder(1, BinderGreet), OfSub(0, SubscribeUnlock)];
    var s1 := After(states[|acts|], more[0]);
    var s2 := After(s1, more[1]);
    var s3 := After(s2, more[2]);
    ExtendAll(states, acts, more, [s1, s2, s3]);
    states, acts := states + [s1, s2, s3], acts + more;
  }

  /** Its context is then cancelled, and the broadcast of that is given up. */
  lemma RunToGivenUp(reader: bool) returns (states: seq<State>, acts: seq<Action>)
    ensures IsRun(states, acts)
    ensures var s := states[|acts|];
            && s.lock == Lock(None, {})
            && 1 in s.jobs && s.jobs[1].binder == Exiting && s.jobs[1].subscriptions == map[1 := 0]
            && s.jobs[1].curr == CancelledStatus
            && 0 in s.subs && s.subs[0]
                == Sub(Attached, 1, reader, 1, false, false, Some(QueuedStatus), 0, [QueuedStatus], [0], [])
  {
    states, acts := RunToSubscribed(reader);
    var more := [OfBinder(1, CancelContext), OfBinder(1, BinderCancel), OfBinder(1, BinderAbort)];
    var s1 := After(states[|acts|], more[0]);
    var s2 := After(s1, more[1]);
    assert 1 in s2.jobs[1].binder.todo;
    var s3 := After(s2, more[2]);
    ExtendAll(states, acts, more, [s1, s2, s3]);
    states, acts := states + [s1, s2, s3], acts + more;
  }

  /** So the channel is closed after Queued, and nothing on it says why. */
  lemma StreamCanEndWithoutReason(reader: bool) returns (states: seq<State>, acts: seq<Action>)
    ensures IsRun(states, acts)
    ensures var s := states[|acts|];
            && 1 in s.jobs && s.jobs[1].curr == CancelledStatus
            && 0 in s.subs && s.subs[0].job == 1 && s.subs[0].pc == Attached && s.subs[0].chanClosed
            && s.subs[0].sent == [QueuedStatus]
  {
    states, acts := RunToGivenUp(reader);
    var more := [OfBinder(1, BinderLock), OfBinder(1, BinderSwap(1)), OfBinder(1, BinderCloseChan)];
    var s1 := After(states[|acts|], more[0]);
    assert 1 in s1.jobs[1].binder.todo;
    var s2 := After(s1, more[1]);
    var s3 := After(s2, more[2]);
    ExtendAll(states, acts, more, [s1, s2, s3]);
    states, acts := states + [s1, s2, s3], acts + more;
  }
}
