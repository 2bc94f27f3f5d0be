/** What holds over every run of the work queue, for any interleaving and any number of goroutines. */
module WorkQueueRuns {
  import opened Wrappers
  import opened WorkQueue
  import opened WorkQueueInvariant
  import opened WorkQueueFits
  import opened WorkQueueSteps
  import opened WorkQueueGrowth

  lemma RunStep(states: seq<State>, acts: seq<Action>, i: nat)
    requires IsRun(states, acts) && i < |acts|
    ensures Step(states[i], acts[i]) == Some(states[i + 1])
  {}

  lemma {:induction false} RunKeepsInv(states: seq<State>, acts: seq<Action>, i: nat)
    requires IsRun(states, acts) && i < |states|
    ensures Inv(states[i])
  {
    if i == 0 {
      InitIsOk();
    } else {
      RunKeepsInv(states, acts, i - 1);
      RunStep(states, acts, i - 1);
      StepKeepsInv(states[i - 1], acts[i - 1]);
    }
  }

  lemma InitIsOk()
    ensures Inv(Init)
  {
    assert Line(InitPipe) == [];
  }

  // ----- conservation -----

  function Members<T>(s: seq<T>): set<T> {
    set x | x in s
  }

  /** The six places are disjoint and together hold exactly the ids handed out. */
  ghost predicate Partitioned(q: Pipe) {
    && (forall id: Id :: 1 <= id <= q.idCount <==>
          id in Members(ToSeq(q.pushing)) + Members(q.queue) + Members(ToSeq(Hand(q.worker))) + q.rejected + q.skipped
              + q.finished)
    && Members(ToSeq(q.pushing)) !! Members(q.queue) !! Members(ToSeq(Hand(q.worker)))
       !! q.rejected !! q.skipped !! q.finished
    && (forall i, j :: 0 <= i < j < |q.queue| ==> q.queue[i] != q.queue[j])
  }

  lemma Conservation(states: seq<State>, acts: seq<Action>, i: nat)
    requires IsRun(states, acts) && i < |states|
    ensures Partitioned(states[i].pipe)
    ensures forall id :: id in states[i].pipe.rejected ==> id !in states[i].pipe.starts
  {
    RunKeepsInv(states, acts, i);
    var q := states[i].pipe;
    PipeIsPartitioned(q);
  }

  lemma PipeIsPartitioned(q: Pipe)
    requires PipeInv(q)
    ensures Partitioned(q)
    ensures forall id :: id in q.rejected ==> id !in q.starts
  {
    var a, b, c := Members(ToSeq(q.pushing)), Members(q.queue), Members(ToSeq(Hand(q.worker)));
    forall id: Id
      ensures 1 <= id <= q.idCount <==> id in a + b + c + q.rejected + q.skipped + q.finished
      ensures Count(id in a) + Count(id in b) + Count(id in c)
              + Count(id in q.rejected) + Count(id in q.skipped) + Count(id in q.finished) <= 1
    {
      assert Places(q, id) == Count(1 <= id <= q.idCount);
    }
    var n := |q.starts| + (if HasStarted(q.worker) then 0 else |ToSeq(Hand(q.worker))|);
    forall i | 0 <= i < |q.queue| ensures Line(q)[n + i] == q.queue[i] {}
  }

  // ----- order and mutual exclusion -----

  lemma HandlersRunInOrder(states: seq<State>, acts: seq<Action>, i: nat)
    requires IsRun(states, acts) && i < |states|
    ensures var q := states[i].pipe;
            && Increasing(q.starts)
            && Increasing(q.queue) && |q.queue| <= QUEUE_CAPACITY
            && (forall a, b :: a in q.starts && b in q.queue ==> a < b)
            && q.ends <= q.starts <= q.ends + q.starts[|q.ends|..]
            && |q.starts| <= |q.ends| + 1
            && (|q.starts| == |q.ends| + 1 <==> q.worker.Handling?)
  {
    RunKeepsInv(states, acts, i);
    LineIsOrdered(states[i].pipe);
  }

  lemma LineIsOrdered(q: Pipe)
    requires PipeInv(q)
    ensures Increasing(q.starts) && Increasing(q.queue)
    ensures forall a, b :: a in q.starts && b in q.queue ==> a < b
  {
    var line := Line(q);
    var n := |q.starts| + (if HasStarted(q.worker) then 0 else |ToSeq(Hand(q.worker))|);
    assert forall i :: 0 <= i < |q.starts| ==> line[i] == q.starts[i];
    assert forall i :: 0 <= i < |q.queue| ==> line[n + i] == q.queue[i];
    hide Line, HandlerOk, Places;
    forall i, j | 0 <= i < j < |q.queue| ensures q.queue[i] < q.queue[j] {
      assert line[n + i] < line[n + j];
    }
    forall a, b | a in q.starts && b in q.queue ensures a < b {
      var i :| 0 <= i < |q.starts| && q.starts[i] == a;
      var j :| 0 <= j < |q.queue| && q.queue[j] == b;
      assert line[i] < line[n + j];
    }
  }

  // ----- the registry -----

  lemma RegistryAgrees(states: seq<State>, acts: seq<Action>, i: nat, id: Id)
    requires IsRun(states, acts) && i < |states|
    ensures var s := states[i];
            && (id in s.jobs <==> 1 <= id <= s.pipe.idCount)
            && (id in s.registry <==> id in s.jobs && !BinderGone(s.jobs[id].binder))
            && (id in s.pipe.queue ==> id in s.jobs)
            && (id in s.pipe.queue && !s.jobs[id].cancelled ==> id in s.registry && s.jobs[id].curr == QueuedStatus)
            && (s.pipe.worker == Vetted(id) ==> id in s.jobs)
            && (s.pipe.worker == Vetted(id) && !s.jobs[id].cancelled ==> id in s.registry)
            && (s.pipe.worker == Crashed(id) ==> id in s.jobs && s.jobs[id].cancelled)
  {
    RunKeepsInv(states, acts, i);
    if id in states[i].pipe.queue || states[i].pipe.worker == Vetted(id) || states[i].pipe.worker == Crashed(id) {
      WaitingIsLive(states[i], id);
    }
  }

  /** A transaction that has not reached its handler is Queued, or Cancelled by its context. */
  lemma WaitingIsLive(s: State, id: Id)
    requires Inv(s)
    requires id in s.pipe.queue || (Hand(s.pipe.worker) == Some(id) && !IsRunning(s.pipe.worker, id))
              || s.pipe.pushing == Some(id)
    ensures id in s.jobs
    ensures !s.jobs[id].cancelled ==>
              id in s.registry && s.jobs[id].curr == QueuedStatus && s.jobs[id].history == [QueuedStatus]
    ensures s.pipe.worker == Crashed(id) ==> s.jobs[id].cancelled
    ensures id !in s.pipe.starts
  {
    WaitingIsUnstarted(s.pipe, id);
    hide PipeInv, MapInv, SubInv, MissedOk;
    var j := s.jobs[id];
    assert JobOk(j, IsRunning(s.pipe.worker, id), id in s.pipe.finished, GivenUp(s.pipe, id));
  }

  lemma WaitingIsUnstarted(q: Pipe, id: Id)
    requires PipeInv(q)
    requires id in q.queue || (Hand(q.worker) == Some(id) && !IsRunning(q.worker, id)) || q.pushing == Some(id)
    ensures 1 <= id <= q.idCount && id !in q.finished && id !in q.starts && !IsRunning(q.worker, id)
  {
    assert Places(q, id) == Count(1 <= id <= q.idCount);
  }

  // ----- cancelled or handled, never both -----

  lemma {:induction false} RunGrows(states: seq<State>, acts: seq<Action>, i: nat, j: nat)
    requires IsRun(states, acts) && i <= j < |states|
    ensures Grows(states[i], states[j])
  {
    if i < j {
      hide Inv, Step, Grows;
      RunGrows(states, acts, i, j - 1);
      RunKeepsInv(states, acts, j - 1);
      RunStep(states, acts, j - 1);
      StepGrows(states[j - 1], acts[j - 1]);
      GrowsIsTransitive(states[i], states[j - 1], states[j]);
    }
  }

  lemma GrowsIsTransitive(a: State, b: State, c: State)
    requires Grows(a, b) && Grows(b, c)
    ensures Grows(a, c)
  {
    forall id | id in a.jobs ensures id in c.jobs && JobGrows(a.jobs[id], c.jobs[id]) {
      assert JobGrows(a.jobs[id], b.jobs[id]) && JobGrows(b.jobs[id], c.jobs[id]);
    }
    forall x | x in a.subs ensures x in c.subs && SubGrows(a.subs[x], c.subs[x]) {
      assert SubGrows(a.subs[x], b.subs[x]) && SubGrows(b.subs[x], c.subs[x]);
    }
  }

  /** The statuses a transaction goes through are an initial part of one of two sequences. */
  lemma StatusesAdvance(states: seq<State>, acts: seq<Action>, i: nat, id: Id)
    requires IsRun(states, acts) && i < |states| && id in states[i].jobs
    ensures var h := states[i].jobs[id].history;
            && h[|h| - 1] == states[i].jobs[id].curr
            && (|| (exists done: Status ::
                      done.phase == Done && h <= [Status(Queued, None), Status(Processing, None), done])
                || h <= [Status(Queued, None), Status(Cancelled, Some("context canceled"))])
  {
    RunKeepsInv(states, acts, i);
    JobNow(states[i], id);
    var h := states[i].jobs[id].history;
    var done := if |h| == 3 then h[2] else Status(Done, None);
    assert h <= [QueuedStatus, ProcessingStatus, done] || h <= [QueuedStatus, CancelledStatus];
  }

  /** Once the status is Cancelled the handler is never called, at that point or later. */
  lemma CancelledIsNeverHandled(states: seq<State>, acts: seq<Action>, i: nat, j: nat, id: Id)
    requires IsRun(states, acts) && i < |states| && j < |states| && id in states[i].jobs
    requires states[i].jobs[id].curr.phase == Cancelled
    ensures id !in states[j].pipe.starts
  {
    hide Inv, IsRun, JobOk;
    RunKeepsInv(states, acts, i);
    RunKeepsInv(states, acts, j);
    CancelledShape(states[i], id);
    if id in states[j].pipe.starts {
      StartedIsRunningOrDone(states[j], id);
      if i <= j {
        RunGrows(states, acts, i, j);
      } else {
        RunGrows(states, acts, j, i);
      }
    }
  }

  lemma CancelledShape(s: State, id: Id)
    requires Inv(s) && id in s.jobs && s.jobs[id].curr.phase == Cancelled
    ensures var h := s.jobs[id].history;
            |h| == 2 && h[1].phase == Cancelled
  {
    JobNow(s, id);
  }

  lemma StartedIsRunningOrDone(s: State, id: Id)
    requires Inv(s) && id in s.pipe.starts
    ensures id in s.jobs
    ensures var h := s.jobs[id].history;
            || h == [QueuedStatus, ProcessingStatus]
            || (|h| == 3 && h[..2] == [QueuedStatus, ProcessingStatus] && h[2].phase == Done)
  {
    var n :| 0 <= n < |s.pipe.starts| && s.pipe.starts[n] == id;
    assert Line(s.pipe)[n] == id;
    JobNow(s, id);
  }

  /** Once the handler has been called, the only status that can follow is Done. */
  lemma HandledEndsInDone(states: seq<State>, acts: seq<Action>, i: nat, j: nat, id: Id)
    requires IsRun(states, acts) && i <= j < |states| && id in states[i].pipe.starts
    ensures id in states[i].jobs && id in states[j].jobs
    ensures var h, h' := states[i].jobs[id].history, states[j].jobs[id].history;
            h' == h || (h == [QueuedStatus, ProcessingStatus] && |h'| == 3 && h'[..2] == h && h'[2].phase == Done)
  {
    RunKeepsInv(states, acts, i);
    RunKeepsInv(states, acts, j);
    RunGrows(states, acts, i, j);
    assert PipeGrows(states[i].pipe, states[j].pipe);
    StartedIsRunningOrDone(states[i], id);
    StartedIsRunningOrDone(states[j], id);
    assert JobGrows(states[i].jobs[id], states[j].jobs[id]);
  }

  // ----- subscriber streams -----

  /** sent is h read at the strictly increasing positions stamps. */
  predicate IsSubsequence(sent: seq<Status>, h: seq<Status>, stamps: seq<nat>) {
    && |sent| == |stamps|
    && Increasing(stamps)
    && forall i :: 0 <= i < |sent| ==> stamps[i] < |h| && sent[i] == h[stamps[i]]
  }

  predicate Distinct<T(==)>(s: seq<T>) {
    forall i, j :: 0 <= i < j < |s| ==> s[i] != s[j]
  }

  /** What a granted subscription has been sent, for any interleaving with cancellation and Close. */
  lemma StreamIsSubsequence(states: seq<State>, acts: seq<Action>, i: nat, x: SubId)
    requires IsRun(states, acts) && i < |states|
    requires x in states[i].subs && states[i].subs[x].pc.WasGranted()
    ensures states[i].subs[x].job in states[i].jobs
    ensures var u := states[i].subs[x];
            var h := states[i].jobs[u.job].history;
            && IsSubsequence(u.sent, h, u.stamps)
            && Distinct(u.sent)
            && u.from < |h|
            && (u.sent != [] ==> u.sent[0] == h[u.from])
            && u.sent == u.received + ToSeq(u.buffer)
  {
    hide Inv, IsRun, Fits, JobOk, MapOk, GoodHistory, IsSubsequence, Distinct;
    RunKeepsInv(states, acts, i);
    FitsNow(states[i], x);
    JobNow(states[i], states[i].subs[x].job);
    HistoryOf(states[i], states[i].subs[x].job);
    FitIsSubsequence(x, states[i].subs[x], states[i].jobs[states[i].subs[x].job]);
  }

  lemma HistoryOf(s: State, id: Id)
    requires Inv(s) && id in s.jobs
    ensures var j := s.jobs[id];
            GoodHistory(j.history) && j.curr == j.history[|j.history| - 1] && BinderAgrees(j.binder, j.curr.phase)
  {
    JobNow(s, id);
  }

  lemma FitIsSubsequence(x: SubId, u: Sub, j: Job)
    requires Fits(x, u, j) && GoodHistory(j.history)
    ensures IsSubsequence(u.sent, j.history, u.stamps)
    ensures Distinct(u.sent)
    ensures u.from < |j.history| && (u.sent != [] ==> u.sent[0] == j.history[u.from])
    ensures u.sent == u.received + ToSeq(u.buffer)
  {
    assert Distinct(j.history);
  }

  lemma UncancelledIsNotCancelled(s: State, id: Id)
    requires Inv(s) && id in s.jobs && !s.jobs[id].cancelled
    ensures s.jobs[id].curr.phase != Cancelled
  {
    JobNow(s, id);
  }

  /** The first value of the stream is the status current when the binder registered it. */
  lemma StreamStartsAtRegistration(states: seq<State>, acts: seq<Action>, i: nat, j: nat, x: SubId)
    requires IsRun(states, acts) && i < j < |states| && acts[i] == OfSub(x, SubscribeSend)
    ensures x in states[i].subs && states[i].subs[x].job in states[i].jobs && x in states[j].subs
    ensures var u := states[j].subs[x];
            u.sent != [] ==> u.sent[0] == states[i].jobs[states[i].subs[x].job].curr
  {
    hide Inv, Fits, JobOk, MapOk, GoodHistory, Grows;
    RunStep(states, acts, i);
    var id := states[i].subs[x].job;
    RunKeepsInv(states, acts, i);
    HistoryOf(states[i], id);
    RegistrationTakesCurrent(states[i], x);
    RunGrows(states, acts, i + 1, j);
    GrowthOfSub(states[i + 1], states[j], x);
    StreamIsSubsequence(states, acts, j, x);
  }

  lemma RegistrationTakesCurrent(s: State, x: SubId)
    requires SubStep(s, x, SubscribeSend).Some?
    ensures x in s.subs && s.subs[x].job in s.jobs
    ensures var s', id := SubStep(s, x, SubscribeSend).value, s.subs[x].job;
            && x in s'.subs && s'.subs[x].pc.WasGranted() && s'.subs[x].job == id && id in s'.jobs
            && s'.subs[x].from == |s.jobs[id].history| - 1
            && s'.jobs[id].history == s.jobs[id].history
  {}

  lemma GrowthOfSub(s: State, s': State, x: SubId)
    requires Grows(s, s') && x in s.subs && s.subs[x].pc.WasGranted()
    ensures x in s'.subs && SubGrows(s.subs[x], s'.subs[x])
    ensures s.subs[x].job in s.jobs ==>
              s.subs[x].job in s'.jobs && s.jobs[s.subs[x].job].history <= s'.jobs[s.subs[x].job].history
  {}

  // ----- channel safety -----

  /** No send on, and no second close of, a closed channel; the greeting send never blocks. */
  lemma ChannelsAreSafe(states: seq<State>, acts: seq<Action>, i: nat)
    requires IsRun(states, acts) && i < |states|
    ensures !states[i].fault
    ensures forall id :: id in states[i].jobs && states[i].jobs[id].binder.Greeting? ==>
              BinderStep(states[i], id, BinderGreet).Some?
  {
    hide Inv, IsRun, Fits, JobOk, MapOk;
    RunKeepsInv(states, acts, i);
    var s := states[i];
    NoFault(s);
    forall id | id in s.jobs && s.jobs[id].binder.Greeting? ensures BinderStep(s, id, BinderGreet).Some? {
      JobNow(s, id);
      GreetedIsRegistered(id, s.jobs[id], s.subs);
      FitsNow(s, s.jobs[id].binder.sub);
      HistoryOf(s, id);
      GreetFits(s.jobs[id].binder.sub, s.subs[s.jobs[id].binder.sub], s.jobs[id]);
    }
  }

  lemma NoFault(s: State)
    requires Inv(s)
    ensures !s.fault
  {}

  /** A channel is closed by the client or by the binder, and by no one else: the flag says by whom. */
  lemma EveryChannelHasOneCloser(states: seq<State>, acts: seq<Action>, i: nat, x: SubId)
    requires IsRun(states, acts) && i < |states|
    requires x in states[i].subs && states[i].subs[x].chanClosed
    ensures states[i].subs[x].job in states[i].jobs
    ensures var u := states[i].subs[x];
            var j := states[i].jobs[u.job];
            && u.closed
            && (u.pc == ClientClosed || (u.pc == Attached && Registered(x, u, j) && Swept(j.binder, u.key)))
            && (u.pc == ClientClosed && Registered(x, u, j) ==> j.binder == Removing(x))
  {
    RunKeepsInv(states, acts, i);
    FreshOrFits(states[i], x);
  }

  lemma FreshOrFits(s: State, x: SubId)
    requires Inv(s) && x in s.subs
    ensures s.subs[x].pc.WasGranted() || Fresh(s.subs[x])
    ensures s.subs[x].pc.WasGranted() ==> s.subs[x].job in s.jobs && Fits(x, s.subs[x], s.jobs[s.subs[x].job])
  {
    assert SubOk(x, s.subs[x], s.jobs, s.registry);
  }
}
