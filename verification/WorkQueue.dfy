/**
 The in-memory work queue as a step system.

 One worker goroutine pulls transactions off a bounded queue; one binder goroutine per
 transaction owns that transaction's status and its subscriptions; callers publish, shut
 the queue down, subscribe, and close their subscriptions.  Every goroutine has a program
 counter, every step below is one atomic action of one goroutine (two for a rendezvous on
 an unbuffered channel), and a step that is not enabled returns None.
 */
module WorkQueue {
  import opened Wrappers

  type Id = nat        // transaction ids, handed out from 1
  type SubId = nat     // one per call of Subscribe
  type CallerId = nat  // one per call of Publish or Close

  const QUEUE_CAPACITY := 50

  datatype Phase = Queued | Processing | Done | Cancelled

  datatype Status = Status(phase: Phase, error: Option<string>)

  const QueuedStatus := Status(Queued, None)
  const ProcessingStatus := Status(Processing, None)
  const CancelledStatus := Status(Cancelled, Some("context canceled"))

  type History = h: seq<Status> | h != [] witness [QueuedStatus]

  /** The program counter of listen. */
  datatype WorkerPc =
    | Idle                           // at the outer select
    | Taken(id: Id)                  // dequeued, context not yet checked
    | Vetted(id: Id)                 // context check passed, state not yet looked up
    | Announcing(id: Id)             // sending Processing to the binder
    | Calling(id: Id)                // about to call the handler
    | Handling(id: Id)               // inside the handler
    | Reporting(id: Id, status: Status) // sending the final status
    | Stopped                        // returned, done was closed
    | Crashed(id: Id)                // dereferenced a missing state

  /** The program counter of a binder.  Keys are the subscription ids local to its state. */
  datatype BinderPc =
    | Selecting
    | Greeting(sub: SubId)           // registered a subscriber, first send pending
    | Removing(sub: SubId)           // received a subscriber to delete
    | Broadcasting(todo: set<nat>)
    | Exiting                        // returning, waiting for the registry lock
    | Sweeping(todo: set<nat>)       // closeSubscriptions, lock held
    | ClosingOne(key: nat, todo: set<nat>) // won the swap for key, close pending
    | Deregistered                   // deleted from states, lock still held
    | Finished

  datatype CallOutcome = NoOp | Accepted(id: Id) | QueueFull(id: Id) | ShutDown

  /** The program counter of a call of Publish or WorkQueue.Close. */
  datatype CallerPc =
    | PublishWaiting
    | PublishLocked
    | PublishOpen                    // done is not closed
    | PublishPushing(id: Id)
    | PublishLeaving(outcome: CallOutcome)
    | CloseWaiting
    | CloseLocked
    | CloseLeaving
    | Returned(outcome: CallOutcome)
  {
    predicate HoldsLock() {
      PublishLocked? || PublishOpen? || PublishPushing? || PublishLeaving? || CloseLocked? || CloseLeaving?
    }
  }

  datatype SubOutcome = Granted | QueueClosed | Unknown | GaveUp

  /** The program counter of a call of Subscribe and, afterwards, of its client. */
  datatype SubPc =
    | SubscribeWaiting
    | SubscribeLocked
    | SubscribeOpen                  // done is not closed
    | SubscribeSending               // state found, offering the subscription to its binder
    | SubscribeLeaving(outcome: SubOutcome)
    | Refused(outcome: SubOutcome)
    | Attached
    | Detaching                      // Close won the swap, offering itself for deletion
    | Detached                       // deletion received, close of the channel pending
    | ClientClosed
  {
    predicate HoldsReadLock() {
      SubscribeLocked? || SubscribeOpen? || SubscribeSending? || SubscribeLeaving?
    }

    /** The binder has received this subscription. */
    predicate WasGranted() {
      this == SubscribeLeaving(Granted) || Attached? || Detaching? || Detached? || ClientClosed?
    }

    predicate HasClient() {
      Attached? || Detaching? || Detached? || ClientClosed?
    }

    /** The client is inside Subscription.Close. */
    predicate InClose() {
      Detaching? || Detached?
    }
  }

  /** A status that a broadcast gave up before it reached the subscription of key: its index in the history. */
  datatype Gap = Gap(key: nat, index: nat)

  /** A state object with its binder and its transaction's context. */
  datatype Job = Job(
    binder: BinderPc,
    curr: Status,
    subCount: nat,
    subscriptions: map<nat, SubId>,
    cancelled: bool,       // the transaction's context is done
    history: History,      // every value curr has had
    missed: set<Gap>)      // what broadcasts that were given up left out

  /** A Subscription with its one-slot channel. */
  datatype Sub = Sub(
    pc: SubPc,
    job: Id,
    reader: bool,            // another goroutine of the client reads the channel
    key: nat,                // Subscription.Id, set by the binder
    closed: bool,            // the atomic flag
    chanClosed: bool,
    buffer: Option<Status>,
    from: nat,               // history index current at registration
    sent: seq<Status>,       // values sent on the channel
    stamps: seq<nat>,        // their history indices
    received: seq<Status>)   // values read by the client

  datatype Owner = ByCaller(caller: CallerId) | ByBinder(id: Id)

  /** Where the transactions are between Publish and the handler. */
  datatype Pipe = Pipe(
    idCount: nat,
    pushing: Option<Id>,     // registered by the publisher holding the lock, not yet pushed
    queue: seq<Id>,
    worker: WorkerPc,
    rejected: set<Id>,       // Publish returned "queue is full"
    skipped: set<Id>,        // dropped by the worker's context check
    finished: set<Id>,       // final status delivered
    starts: seq<Id>,         // handler calls, in order
    ends: seq<Id>)           // handler returns, in order

  /** statesMu: the holder of the write side and those of the read side. */
  datatype Lock = Lock(writer: Option<Owner>, readers: set<SubId>)

  datatype State = State(
    done: bool,
    lock: Lock,
    callers: map<CallerId, CallerPc>,
    pipe: Pipe,
    registry: set<Id>,       // the keys of states
    jobs: map<Id, Job>,      // every state object ever created
    subs: map<SubId, Sub>,
    fault: bool)             // a send on, or a close of, a closed channel

  const InitPipe := Pipe(0, None, [], Idle, {}, {}, {}, [], [])
  const Init := State(false, Lock(None, {}), map[], InitPipe, {}, map[], map[], false)

  // The first action of each list is the environment's: a call begins.

  datatype CallerAction =
    | BeginPublish
    | BeginClose
    | PublishLock
    | PublishCheck
    | PublishRegister(ctxDone: bool)
    | PublishPush
    | PublishUnlock
    | CloseLock
    | CloseDone
    | CloseUnlock

  datatype SubAction =
    | BeginSubscribe(id: Id, reader: bool)
    | SubscribeLock
    | SubscribeCheck
    | SubscribeLookup
    | SubscribeSend
    | SubscribeGiveUp
    | SubscribeUnlock
    | Receive
    | CloseSubscription
    | DetachSend
    | DetachClose

  datatype WorkerAction =
    | WorkerStop
    | WorkerDequeue
    | WorkerCheck
    | WorkerLookup
    | WorkerSend
    | WorkerCall
    | WorkerReturn(error: Option<string>)

  datatype BinderAction =
    | CancelContext          // by the environment, at any time
    | BinderCancel
    | BinderGreet
    | BinderRemove
    | BinderSend(key: nat)
    | BinderAbort
    | BinderEnd
    | BinderLock
    | BinderSwap(key: nat)
    | BinderCloseChan
    | BinderDeregister
    | BinderUnlock

  datatype Action =
    | OfCaller(caller: CallerId, call: CallerAction)
    | OfSub(sub: SubId, subAct: SubAction)
    | OfWorker(work: WorkerAction)
    | OfBinder(id: Id, bind: BinderAction)

  /** The state after action a, or None when a is not enabled. */
  function Step(s: State, a: Action): Option<State> {
    match a
    case OfCaller(p, act) => CallerStep(s, p, act)
    case OfSub(x, act) => SubStep(s, x, act)
    case OfWorker(act) => WorkerStep(s, act)
    case OfBinder(id, act) => BinderStep(s, id, act)
  }

  function CallerStep(s: State, p: CallerId, act: CallerAction): Option<State> {
    match act
    case BeginPublish => BeginPublishStep(s, p)
    case BeginClose => BeginCloseStep(s, p)
    case PublishLock => PublishLockStep(s, p)
    case PublishCheck => PublishCheckStep(s, p)
    case PublishRegister(ctxDone) => PublishRegisterStep(s, p, ctxDone)
    case PublishPush => PublishPushStep(s, p)
    case PublishUnlock => PublishUnlockStep(s, p)
    case CloseLock => CloseLockStep(s, p)
    case CloseDone => CloseDoneStep(s, p)
    case CloseUnlock => CloseUnlockStep(s, p)
  }

  function SubStep(s: State, x: SubId, act: SubAction): Option<State> {
    match act
    case BeginSubscribe(id, reader) => BeginSubscribeStep(s, x, id, reader)
    case SubscribeLock => SubscribeLockStep(s, x)
    case SubscribeCheck => SubscribeCheckStep(s, x)
    case SubscribeLookup => SubscribeLookupStep(s, x)
    case SubscribeSend => SubscribeSendStep(s, x)
    case SubscribeGiveUp => SubscribeGiveUpStep(s, x)
    case SubscribeUnlock => SubscribeUnlockStep(s, x)
    case Receive => ReceiveStep(s, x)
    case CloseSubscription => CloseSubscriptionStep(s, x)
    case DetachSend => DetachSendStep(s, x)
    case DetachClose => DetachCloseStep(s, x)
  }

  function WorkerStep(s: State, act: WorkerAction): Option<State> {
    match act
    case WorkerStop => WorkerStopStep(s)
    case WorkerDequeue => WorkerDequeueStep(s)
    case WorkerCheck => WorkerCheckStep(s)
    case WorkerLookup => WorkerLookupStep(s)
    case WorkerSend => WorkerSendStep(s)
    case WorkerCall => WorkerCallStep(s)
    case WorkerReturn(error) => WorkerReturnStep(s, error)
  }

  function BinderStep(s: State, id: Id, act: BinderAction): Option<State> {
    match act
    case CancelContext => CancelContextStep(s, id)
    case BinderCancel => BinderCancelStep(s, id)
    case BinderGreet => BinderGreetStep(s, id)
    case BinderRemove => BinderRemoveStep(s, id)
    case BinderSend(k) => BinderSendStep(s, id, k)
    case BinderAbort => BinderAbortStep(s, id)
    case BinderEnd => BinderEndStep(s, id)
    case BinderLock => BinderLockStep(s, id)
    case BinderSwap(k) => BinderSwapStep(s, id, k)
    case BinderCloseChan => BinderCloseChanStep(s, id)
    case BinderDeregister => BinderDeregisterStep(s, id)
    case BinderUnlock => BinderUnlockStep(s, id)
  }

  // ----- the environment -----

  function BeginPublishStep(s: State, p: CallerId): Option<State> {
    if p in s.callers then None else Some(s.(callers := s.callers[p := PublishWaiting]))
  }

  function BeginCloseStep(s: State, p: CallerId): Option<State> {
    if p in s.callers then None else Some(s.(callers := s.callers[p := CloseWaiting]))
  }

  function BeginSubscribeStep(s: State, x: SubId, id: Id, reader: bool): Option<State> {
    if x in s.subs then None
    else Some(s.(subs := s.subs[x := Sub(SubscribeWaiting, id, reader, 0, false, false, None, 0, [], [], [])]))
  }

  function CancelContextStep(s: State, id: Id): Option<State> {
    if id !in s.jobs then None
    else Some(s.(jobs := s.jobs[id := s.jobs[id].(cancelled := true)]))
  }

  /** The compare-and-swap of Subscription.Close; a lost swap is a no-op. */
  function CloseSubscriptionStep(s: State, x: SubId): Option<State> {
    if x !in s.subs || !s.subs[x].pc.HasClient() then None
    else if s.subs[x].closed then Some(s)
    else Some(s.(subs := s.subs[x := s.subs[x].(closed := true, pc := Detaching)]))
  }

  // ----- Publish -----

  predicate AtCaller(s: State, p: CallerId, pc: CallerPc) {
    p in s.callers && s.callers[p] == pc
  }

  predicate LockFree(s: State) {
    s.lock == Lock(None, {})
  }

  function MoveCaller(s: State, p: CallerId, pc: CallerPc): State {
    s.(callers := s.callers[p := pc])
  }

  function PublishLockStep(s: State, p: CallerId): Option<State> {
    if !AtCaller(s, p, PublishWaiting) || !LockFree(s) then None
    else Some(MoveCaller(s, p, PublishLocked).(lock := Lock(Some(ByCaller(p)), {})))
  }

  function PublishCheckStep(s: State, p: CallerId): Option<State> {
    if !AtCaller(s, p, PublishLocked) then None
    else Some(MoveCaller(s, p, if s.done then PublishLeaving(NoOp) else PublishOpen))
  }

  function NewJob(ctxDone: bool): Job {
    Job(Selecting, QueuedStatus, 0, map[], ctxDone, [QueuedStatus], {})
  }

  function PipeRegister(q: Pipe): Pipe {
    q.(idCount := q.idCount + 1, pushing := Some(q.idCount + 1))
  }

  function PublishRegisterStep(s: State, p: CallerId, ctxDone: bool): Option<State> {
    if !AtCaller(s, p, PublishOpen) then None
    else
      var id := s.pipe.idCount + 1;
      Some(s.(pipe := PipeRegister(s.pipe),
              registry := s.registry + {id},
              jobs := s.jobs[id := NewJob(ctxDone)],
              callers := s.callers[p := PublishPushing(id)]))
  }

  function PipePush(q: Pipe, id: Id): Pipe {
    if |q.queue| < QUEUE_CAPACITY then q.(pushing := None, queue := q.queue + [id])
    else q.(pushing := None, rejected := q.rejected + {id})
  }

  function PublishPushStep(s: State, p: CallerId): Option<State> {
    if p !in s.callers || !s.callers[p].PublishPushing? then None
    else
      var id := s.callers[p].id;
      var outcome := if |s.pipe.queue| < QUEUE_CAPACITY then Accepted(id) else QueueFull(id);
      Some(MoveCaller(s, p, PublishLeaving(outcome)).(pipe := PipePush(s.pipe, id)))
  }

  function PublishUnlockStep(s: State, p: CallerId): Option<State> {
    if p !in s.callers || !s.callers[p].PublishLeaving? then None
    else Some(MoveCaller(s, p, Returned(s.callers[p].outcome)).(lock := s.lock.(writer := None)))
  }

  // ----- WorkQueue.Close -----

  function CloseLockStep(s: State, p: CallerId): Option<State> {
    if !AtCaller(s, p, CloseWaiting) || !LockFree(s) then None
    else Some(MoveCaller(s, p, CloseLocked).(lock := Lock(Some(ByCaller(p)), {})))
  }

  function CloseDoneStep(s: State, p: CallerId): Option<State> {
    if !AtCaller(s, p, CloseLocked) then None
    else Some(MoveCaller(s, p, CloseLeaving).(done := true))
  }

  function CloseUnlockStep(s: State, p: CallerId): Option<State> {
    if !AtCaller(s, p, CloseLeaving) then None
    else Some(MoveCaller(s, p, Returned(ShutDown)).(lock := s.lock.(writer := None)))
  }

  // ----- Subscribe -----

  predicate AtSub(s: State, x: SubId, pc: SubPc) {
    x in s.subs && s.subs[x].pc == pc
  }

  function MoveSub(s: State, x: SubId, pc: SubPc): State
    requires x in s.subs
  {
    s.(subs := s.subs[x := s.subs[x].(pc := pc)])
  }

  function SubscribeLockStep(s: State, x: SubId): Option<State> {
    if !AtSub(s, x, SubscribeWaiting) || s.lock.writer != None then None
    else Some(MoveSub(s, x, SubscribeLocked).(lock := s.lock.(readers := s.lock.readers + {x})))
  }

  function SubscribeCheckStep(s: State, x: SubId): Option<State> {
    if !AtSub(s, x, SubscribeLocked) then None
    else Some(MoveSub(s, x, if s.done then SubscribeLeaving(QueueClosed) else SubscribeOpen))
  }

  function SubscribeLookupStep(s: State, x: SubId): Option<State> {
    if !AtSub(s, x, SubscribeOpen) then None
    else Some(MoveSub(s, x, if s.subs[x].job in s.registry then SubscribeSending else SubscribeLeaving(Unknown)))
  }

  /** Rendezvous on newSub: the binder counts, keys and registers the subscription. */
  function SubscribeSendStep(s: State, x: SubId): Option<State> {
    if !AtSub(s, x, SubscribeSending) || s.subs[x].job !in s.jobs || s.jobs[s.subs[x].job].binder != Selecting then None
    else
      var id := s.subs[x].job;
      var j := s.jobs[id];
      var key := j.subCount + 1;
      Some(s.(jobs := s.jobs[id := j.(binder := Greeting(x), subCount := key,
                                      subscriptions := j.subscriptions[key := x])],
              subs := s.subs[x := s.subs[x].(pc := SubscribeLeaving(Granted), key := key, from := |j.history| - 1)]))
  }

  function SubscribeGiveUpStep(s: State, x: SubId): Option<State> {
    if !AtSub(s, x, SubscribeSending) then None
    else Some(MoveSub(s, x, SubscribeLeaving(GaveUp)))
  }

  function SubscribeUnlockStep(s: State, x: SubId): Option<State> {
    if x !in s.subs || !s.subs[x].pc.SubscribeLeaving? then None
    else
      var outcome := s.subs[x].pc.outcome;
      var pc := if outcome == Granted then Attached else Refused(outcome);
      Some(MoveSub(s, x, pc).(lock := s.lock.(readers := s.lock.readers - {x})))
  }

  // ----- the client of a subscription -----

  /** A client that has one goroutine for reading and closing does not read while it is inside Close. */
  function ReceiveStep(s: State, x: SubId): Option<State> {
    if x !in s.subs || !s.subs[x].pc.HasClient() || s.subs[x].buffer == None then None
    else if s.subs[x].pc.InClose() && !s.subs[x].reader then None
    else
      var u := s.subs[x];
      Some(s.(subs := s.subs[x := u.(buffer := None, received := u.received + [u.buffer.value])]))
  }

  /** Rendezvous on delSub. */
  function DetachSendStep(s: State, x: SubId): Option<State> {
    if !AtSub(s, x, Detaching) || s.subs[x].job !in s.jobs || s.jobs[s.subs[x].job].binder != Selecting then None
    else
      var id := s.subs[x].job;
      Some(MoveSub(s, x, Detached).(jobs := s.jobs[id := s.jobs[id].(binder := Removing(x))]))
  }

  function CloseChannel(s: State, x: SubId): State
    requires x in s.subs
  {
    if s.subs[x].chanClosed then s.(fault := true)
    else s.(subs := s.subs[x := s.subs[x].(chanClosed := true)])
  }

  function DetachCloseStep(s: State, x: SubId): Option<State> {
    if !AtSub(s, x, Detached) then None
    else Some(MoveSub(CloseChannel(s, x), x, ClientClosed))
  }

  // ----- the worker -----

  function MoveWorker(s: State, pc: WorkerPc): State {
    s.(pipe := s.pipe.(worker := pc))
  }

  function WorkerStopStep(s: State): Option<State> {
    if s.pipe.worker != Idle || !s.done then None else Some(MoveWorker(s, Stopped))
  }

  function PipeDequeue(q: Pipe): Pipe
    requires q.queue != []
  {
    q.(worker := Taken(q.queue[0]), queue := q.queue[1..])
  }

  function WorkerDequeueStep(s: State): Option<State> {
    if s.pipe.worker != Idle || s.pipe.queue == [] then None
    else Some(s.(pipe := PipeDequeue(s.pipe)))
  }

  function PipeCheck(q: Pipe, id: Id, cancelled: bool): Pipe {
    if cancelled then q.(worker := Idle, skipped := q.skipped + {id}) else q.(worker := Vetted(id))
  }

  function WorkerCheckStep(s: State): Option<State> {
    if !s.pipe.worker.Taken? || s.pipe.worker.id !in s.jobs then None
    else
      var id := s.pipe.worker.id;
      Some(s.(pipe := PipeCheck(s.pipe, id, s.jobs[id].cancelled)))
  }

  function WorkerLookupStep(s: State): Option<State> {
    if !s.pipe.worker.Vetted? then None
    else
      var id := s.pipe.worker.id;
      Some(MoveWorker(s, if id in s.registry then Announcing(id) else Crashed(id)))
  }

  function NewStatus(j: Job, status: Status): Job {
    j.(curr := status, history := j.history + [status], binder := Broadcasting(j.subscriptions.Keys))
  }

  function PipeSend(q: Pipe, id: Id): Pipe {
    if q.worker.Announcing? then q.(worker := Calling(id))
    else q.(worker := Idle, finished := q.finished + {id})
  }

  /** Rendezvous on newSatus, for the Processing status and for the final one. */
  function WorkerSendStep(s: State): Option<State> {
    if !(s.pipe.worker.Announcing? || s.pipe.worker.Reporting?)
       || s.pipe.worker.id !in s.jobs || s.jobs[s.pipe.worker.id].binder != Selecting then None
    else
      var id := s.pipe.worker.id;
      var status := if s.pipe.worker.Announcing? then ProcessingStatus else s.pipe.worker.status;
      Some(s.(pipe := PipeSend(s.pipe, id), jobs := s.jobs[id := NewStatus(s.jobs[id], status)]))
  }

  function PipeCall(q: Pipe, id: Id): Pipe {
    q.(worker := Handling(id), starts := q.starts + [id])
  }

  function WorkerCallStep(s: State): Option<State> {
    if !s.pipe.worker.Calling? then None
    else Some(s.(pipe := PipeCall(s.pipe, s.pipe.worker.id)))
  }

  function PipeReturn(q: Pipe, id: Id, error: Option<string>): Pipe {
    q.(worker := Reporting(id, Status(Done, error)), ends := q.ends + [id])
  }

  function WorkerReturnStep(s: State, error: Option<string>): Option<State> {
    if !s.pipe.worker.Handling? then None
    else Some(s.(pipe := PipeReturn(s.pipe, s.pipe.worker.id, error)))
  }

  // ----- a binder -----

  function MoveBinder(s: State, id: Id, pc: BinderPc): State
    requires id in s.jobs
  {
    s.(jobs := s.jobs[id := s.jobs[id].(binder := pc)])
  }

  predicate AtBinder(s: State, id: Id, pc: BinderPc) {
    id in s.jobs && s.jobs[id].binder == pc
  }

  /** The Ctx.Done case of bind: ignored while processing, otherwise the status becomes Cancelled. */
  function BinderCancelStep(s: State, id: Id): Option<State> {
    if !AtBinder(s, id, Selecting) || !s.jobs[id].cancelled then None
    else if s.jobs[id].curr.phase == Processing then Some(s)
    else Some(s.(jobs := s.jobs[id := NewStatus(s.jobs[id], CancelledStatus)]))
  }

  /** A send of status number |history| - 1 on the channel of x. */
  function SendTo(s: State, j: Job, x: SubId): State
    requires x in s.subs
  {
    var u := s.subs[x];
    if u.chanClosed then s.(fault := true)
    else
      var stamps := u.stamps + [|j.history| - 1];
      s.(subs := s.subs[x := u.(buffer := Some(j.curr), sent := u.sent + [j.curr], stamps := stamps)])
  }

  predicate CanSendTo(s: State, x: SubId) {
    x in s.subs && (s.subs[x].chanClosed || s.subs[x].buffer == None)
  }

  function BinderGreetStep(s: State, id: Id): Option<State> {
    if id !in s.jobs || !s.jobs[id].binder.Greeting? || !CanSendTo(s, s.jobs[id].binder.sub) then None
    else Some(MoveBinder(SendTo(s, s.jobs[id], s.jobs[id].binder.sub), id, Selecting))
  }

  function BinderRemoveStep(s: State, id: Id): Option<State> {
    if id !in s.jobs || !s.jobs[id].binder.Removing? || s.jobs[id].binder.sub !in s.subs then None
    else
      var j := s.jobs[id];
      var key := s.subs[j.binder.sub].key;
      Some(s.(jobs := s.jobs[id := j.(binder := Selecting, subscriptions := j.subscriptions - {key})]))
  }

  function BinderSendStep(s: State, id: Id, key: nat): Option<State> {
    if id !in s.jobs || !s.jobs[id].binder.Broadcasting? || key !in s.jobs[id].binder.todo
       || key !in s.jobs[id].subscriptions || !CanSendTo(s, s.jobs[id].subscriptions[key]) then None
    else
      var j := s.jobs[id];
      Some(MoveBinder(SendTo(s, j, j.subscriptions[key]), id, Broadcasting(j.binder.todo - {key})))
  }

  /** Where bind goes once broadcast has returned. */
  function AfterBroadcast(j: Job): BinderPc {
    if j.curr.phase == Done || j.curr.phase == Cancelled then Exiting else Selecting
  }

  /** The subscribers a broadcast has still to reach, with the status it sends them. */
  function Unsent(j: Job): set<Gap>
    requires j.binder.Broadcasting?
  {
    set key | key in j.binder.todo :: Gap(key, |j.history| - 1)
  }

  function Aborted(j: Job): Job
    requires j.binder.Broadcasting?
  {
    j.(binder := AfterBroadcast(j), missed := j.missed + Unsent(j))
  }

  /** The Ctx.Done case of broadcast: the remaining subscribers are skipped. */
  function BinderAbortStep(s: State, id: Id): Option<State> {
    if id !in s.jobs || !s.jobs[id].binder.Broadcasting? || s.jobs[id].binder.todo == {}
       || !s.jobs[id].cancelled then None
    else Some(s.(jobs := s.jobs[id := Aborted(s.jobs[id])]))
  }

  function BinderEndStep(s: State, id: Id): Option<State> {
    if !AtBinder(s, id, Broadcasting({})) then None
    else Some(MoveBinder(s, id, AfterBroadcast(s.jobs[id])))
  }

  function BinderLockStep(s: State, id: Id): Option<State> {
    if !AtBinder(s, id, Exiting) || !LockFree(s) then None
    else Some(MoveBinder(s, id, Sweeping(s.jobs[id].subscriptions.Keys)).(lock := Lock(Some(ByBinder(id)), {})))
  }

  /** The compare-and-swap of closeSubscriptions for one subscription. */
  function BinderSwapStep(s: State, id: Id, key: nat): Option<State> {
    if id !in s.jobs || !s.jobs[id].binder.Sweeping? || key !in s.jobs[id].binder.todo
       || key !in s.jobs[id].subscriptions || s.jobs[id].subscriptions[key] !in s.subs then None
    else
      var todo := s.jobs[id].binder.todo - {key};
      var x := s.jobs[id].subscriptions[key];
      if s.subs[x].closed then Some(MoveBinder(s, id, Sweeping(todo)))
      else Some(MoveBinder(s, id, ClosingOne(key, todo)).(subs := s.subs[x := s.subs[x].(closed := true)]))
  }

  function BinderCloseChanStep(s: State, id: Id): Option<State> {
    if id !in s.jobs || !s.jobs[id].binder.ClosingOne? || s.jobs[id].binder.key !in s.jobs[id].subscriptions
       || s.jobs[id].subscriptions[s.jobs[id].binder.key] !in s.subs then None
    else
      var j := s.jobs[id];
      Some(MoveBinder(CloseChannel(s, j.subscriptions[j.binder.key]), id, Sweeping(j.binder.todo)))
  }

  function BinderDeregisterStep(s: State, id: Id): Option<State> {
    if !AtBinder(s, id, Sweeping({})) then None
    else Some(MoveBinder(s, id, Deregistered).(registry := s.registry - {id}))
  }

  function BinderUnlockStep(s: State, id: Id): Option<State> {
    if !AtBinder(s, id, Deregistered) then None
    else Some(MoveBinder(s, id, Finished).(lock := s.lock.(writer := None)))
  }

  // ----- runs -----

  /** states is a run: it starts in Init and each state follows from the one before by an action. */
  ghost predicate IsRun(states: seq<State>, acts: seq<Action>) {
    && |states| == |acts| + 1
    && states[0] == Init
    && forall i :: 0 <= i < |acts| ==> Step(states[i], acts[i]) == Some(states[i + 1])
  }
}
