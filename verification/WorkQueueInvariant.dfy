/** The invariant of the work queue, and the facts that can be read off a single state. */
module WorkQueueInvariant {
  import opened Wrappers
  import opened WorkQueue

  // ----- the registry lock -----

  predicate BinderHoldsLock(b: BinderPc) {
    b.Sweeping? || b.ClosingOne? || b.Deregistered?
  }

  ghost predicate CallersInv(writer: Option<Owner>, callers: map<CallerId, CallerPc>, pushing: Option<Id>) {
    && (forall p :: p in callers && callers[p].PublishPushing? ==> pushing == Some(callers[p].id))
    && (pushing.Some? ==> writer.Some? && writer.value.ByCaller? && writer.value.caller in callers
                          && callers[writer.value.caller].PublishPushing?)
    && (forall p :: p in callers ==> (callers[p].HoldsLock() <==> writer == Some(ByCaller(p))))
    && (writer.Some? && writer.value.ByCaller? ==> writer.value.caller in callers)
  }

  ghost predicate BindersInv(writer: Option<Owner>, jobs: map<Id, Job>) {
    && (forall id :: id in jobs ==> (BinderHoldsLock(jobs[id].binder) <==> writer == Some(ByBinder(id))))
    && (writer.Some? && writer.value.ByBinder? ==> writer.value.id in jobs)
  }

  ghost predicate ReadersInv(lock: Lock, subs: map<SubId, Sub>) {
    && (forall x :: x in lock.readers <==> x in subs && subs[x].pc.HoldsReadLock())
    && (lock.writer.Some? ==> lock.readers == {})
  }

  // ----- ids -----

  predicate BinderGone(b: BinderPc) {
    b.Deregistered? || b.Finished?
  }

  ghost predicate IdInv(idCount: nat, jobs: map<Id, Job>, registry: set<Id>) {
    && (forall id :: id in jobs <==> 1 <= id <= idCount)
    && (forall id :: id in registry <==> id in jobs && !BinderGone(jobs[id].binder))
  }

  /** The id in the worker's hands. */
  function Hand(w: WorkerPc): Option<Id> {
    if w.Idle? || w.Stopped? then None else Some(w.id)
  }

  predicate HasStarted(w: WorkerPc) {
    w.Handling? || w.Reporting?
  }

  function ToSeq<T>(o: Option<T>): seq<T> {
    if o.Some? then [o.value] else []
  }

  /** Every id on its way to or past the handler, oldest first. */
  function Line(q: Pipe): seq<Id> {
    q.starts + (if HasStarted(q.worker) then [] else ToSeq(Hand(q.worker))) + q.queue + ToSeq(q.pushing)
  }

  predicate Increasing(ids: seq<nat>) {
    forall i, j :: 0 <= i < j < |ids| ==> ids[i] < ids[j]
  }

  predicate LineOk(line: seq<Id>, idCount: nat) {
    && Increasing(line)
    && (forall i :: 0 <= i < |line| ==> 1 <= line[i] <= idCount)
  }

  ghost predicate HandlerOk(q: Pipe) {
    && (forall id :: id in q.starts <==> id in q.finished || (HasStarted(q.worker) && Hand(q.worker) == Some(id)))
    && q.starts == q.ends + (if q.worker.Handling? then [q.worker.id] else [])
    && (q.worker.Reporting? ==> q.worker.status.phase == Done)
  }

  function Count(b: bool): nat {
    if b then 1 else 0
  }

  /** The number of the six places of a transaction that hold id. */
  function Places(q: Pipe, id: Id): nat {
    Count(q.pushing == Some(id)) + Count(id in q.queue) + Count(Hand(q.worker) == Some(id))
    + Count(id in q.rejected) + Count(id in q.skipped) + Count(id in q.finished)
  }

  ghost predicate PipeInv(q: Pipe) {
    && LineOk(Line(q), q.idCount)
    && |q.queue| <= QUEUE_CAPACITY
    && HandlerOk(q)
    && forall id: Id :: Places(q, id) == Count(1 <= id <= q.idCount)
  }

  // ----- the status of one job -----

  predicate IsRunning(w: WorkerPc, id: Id) {
    (w.Calling? || w.Handling? || w.Reporting?) && w.id == id
  }

  /** Queued, then Processing and Done, or Cancelled. */
  predicate GoodHistory(h: seq<Status>) {
    && 1 <= |h| <= 3
    && h[0] == QueuedStatus
    && (|h| == 2 ==> h[1] == ProcessingStatus || h[1] == CancelledStatus)
    && (|h| == 3 ==> h[1] == ProcessingStatus && h[2].phase == Done)
  }

  predicate BinderAgrees(b: BinderPc, phase: Phase) {
    match b
    case Selecting => phase == Queued || phase == Processing
    case Greeting(_) => phase == Queued || phase == Processing
    case Removing(_) => phase == Queued || phase == Processing
    case Broadcasting(_) => phase != Queued
    case _ => phase == Done || phase == Cancelled
  }

  /** Gaps are those of keys and statuses there have been, and of contexts that are done. */
  ghost predicate MissedOk(j: Job) {
    && (forall g :: g in j.missed ==> g.key <= j.subCount && g.index < |j.history|)
    && (j.missed != {} ==> j.cancelled)
  }

  /** j is consistent with running (the worker is between its two sends for j), finished, and given up. */
  ghost predicate JobOk(j: Job, running: bool, finished: bool, givenUp: bool) {
    && GoodHistory(j.history)
    && j.curr == j.history[|j.history| - 1]
    && (j.curr.phase == Processing <==> running)
    && (j.curr.phase == Done <==> finished)
    && (j.curr.phase == Cancelled || givenUp ==> j.cancelled)
    && BinderAgrees(j.binder, j.curr.phase)
    && MissedOk(j)
  }

  /** The worker dropped id at its context check, or found its state gone. */
  predicate GivenUp(q: Pipe, id: Id) {
    id in q.skipped || q.worker == Crashed(id)
  }

  ghost predicate JobInv(jobs: map<Id, Job>, q: Pipe) {
    forall id :: id in jobs ==> JobOk(jobs[id], IsRunning(q.worker, id), id in q.finished, GivenUp(q, id))
  }

  // ----- the subscription maps -----

  /** Every entry of j's map is a granted subscription to id that knows its own key. */
  ghost predicate MapOk(id: Id, j: Job, subs: map<SubId, Sub>) {
    && (forall k :: k in j.subscriptions ==>
          && 1 <= k <= j.subCount
          && j.subscriptions[k] in subs
          && IsEntry(id, k, subs[j.subscriptions[k]]))
    && (j.binder.Broadcasting? || j.binder.Sweeping? || j.binder.ClosingOne? ==> j.binder.todo <= j.subscriptions.Keys)
    && (j.binder.ClosingOne? ==> j.binder.key in j.subscriptions && j.binder.key !in j.binder.todo)
    && (j.binder.Greeting? || j.binder.Removing? ==>
          && j.binder.sub in subs
          && subs[j.binder.sub].key in j.subscriptions
          && j.subscriptions[subs[j.binder.sub].key] == j.binder.sub)
  }

  predicate IsEntry(id: Id, key: nat, u: Sub) {
    u.job == id && u.key == key && u.pc.WasGranted()
  }

  ghost predicate MapInv(jobs: map<Id, Job>, subs: map<SubId, Sub>) {
    forall id :: id in jobs ==> MapOk(id, jobs[id], subs)
  }

  // ----- one subscription x, as u, against its job j -----

  predicate Registered(x: SubId, u: Sub, j: Job) {
    u.key in j.subscriptions && j.subscriptions[u.key] == x
  }

  /** closeSubscriptions has dealt with key. */
  predicate Swept(b: BinderPc, key: nat) {
    match b
    case Sweeping(todo) => key !in todo
    case ClosingOne(k, todo) => key !in todo && key != k
    case Deregistered => true
    case Finished => true
    case _ => false
  }

  /** Who has set the flag and closed the channel, by the two program counters. */
  predicate FlagsOk(x: SubId, u: Sub, j: Job) {
    var b := j.binder;
    var inMap := Registered(x, u, j);
    && (match u.pc
        case SubscribeLeaving(_) => inMap && !u.closed && !u.chanClosed
        case Attached =>
          && inMap
          && (u.chanClosed ==> u.closed && Swept(b, u.key))
          && (u.closed && !u.chanClosed ==> b.ClosingOne? && b.key == u.key)
        case Detaching => inMap && u.closed && !u.chanClosed
        case Detached => (inMap ==> b == Removing(x)) && u.closed && !u.chanClosed
        case ClientClosed => (inMap ==> b == Removing(x)) && u.closed && u.chanClosed
        case _ => false)
    && (b == Removing(x) ==> u.pc.Detached? || u.pc.ClientClosed?)
    && (inMap && b.ClosingOne? && b.key == u.key ==> u.pc == Attached && u.closed && !u.chanClosed)
    && (inMap && Swept(b, u.key) ==> u.closed)
  }

  /** The status current in j has not yet been offered to x. */
  predicate Pending(x: SubId, u: Sub, j: Job) {
    j.binder == Greeting(x) || (j.binder.Broadcasting? && u.key in j.binder.todo)
  }

  /** Every broadcast has reached the subscription under key, or has still to reach it. */
  ghost predicate Unskipped(key: nat, j: Job) {
    forall n: nat :: Gap(key, n) !in j.missed
  }

  /** What has gone through the channel of x. */
  ghost predicate StreamOk(x: SubId, u: Sub, j: Job) {
    var inMap := Registered(x, u, j);
    && u.received + ToSeq(u.buffer) == u.sent
    && |u.stamps| == |u.sent|
    && Increasing(u.stamps)
    && (forall i :: 0 <= i < |u.stamps| ==> u.stamps[i] < |j.history| && u.sent[i] == j.history[u.stamps[i]])
    && u.from < |j.history|
    && (u.sent == [] <==> j.binder == Greeting(x))
    && (u.sent == [] ==> u.from == |j.history| - 1)
    && (u.sent != [] ==> u.stamps[0] == u.from)
    && (inMap && Pending(x, u, j) && u.stamps != [] ==> u.stamps[|u.stamps| - 1] < |j.history| - 1)
    && (Unskipped(u.key, j) ==> forall i :: 0 <= i < |u.stamps| ==> u.stamps[i] == u.from + i)
    && (Unskipped(u.key, j) && inMap ==> u.from + |u.stamps| + Count(Pending(x, u, j)) == |j.history|)
  }

  predicate Fresh(u: Sub) {
    !u.closed && !u.chanClosed && u.buffer == None && u.sent == [] && u.stamps == [] && u.received == []
  }

  /** A registered subscription has been sent every status since its registration but the gaps and the pending one. */
  ghost predicate SentOk(x: SubId, u: Sub, j: Job) {
    Registered(x, u, j) ==>
      && (Pending(x, u, j) ==> Gap(u.key, |j.history| - 1) !in j.missed)
      && (forall n: nat :: n < u.from ==> Gap(u.key, n) !in j.missed)
      && (forall n :: u.from <= n < |j.history| ==>
            (n in u.stamps <==> !(Pending(x, u, j) && n == |j.history| - 1) && Gap(u.key, n) !in j.missed))
  }

  ghost predicate Fits(x: SubId, u: Sub, j: Job) {
    FlagsOk(x, u, j) && StreamOk(x, u, j) && SentOk(x, u, j)
  }

  ghost predicate SubOk(x: SubId, u: Sub, jobs: map<Id, Job>, registry: set<Id>) {
    if u.pc.WasGranted() then
      u.job in jobs && Fits(x, u, jobs[u.job])
    else
      Fresh(u) && (u.pc == SubscribeSending ==> u.job in registry)
  }

  ghost predicate SubInv(subs: map<SubId, Sub>, jobs: map<Id, Job>, registry: set<Id>) {
    forall x :: x in subs ==> SubOk(x, subs[x], jobs, registry)
  }

  ghost predicate Inv(s: State) {
    && CallersInv(s.lock.writer, s.callers, s.pipe.pushing)
    && BindersInv(s.lock.writer, s.jobs)
    && ReadersInv(s.lock, s.subs)
    && IdInv(s.pipe.idCount, s.jobs, s.registry)
    && PipeInv(s.pipe)
    && JobInv(s.jobs, s.pipe)
    && MapInv(s.jobs, s.subs)
    && SubInv(s.subs, s.jobs, s.registry)
    && !s.fault
  }
}
