# CSB Open API: work queue, store refreshes and render scanner

A Dafny model of the three parts of the CSB Open API that are hardest to get right, with proofs of
what each promises.

**The in-memory work queue** (`inmem/work_queue.go`) is a step system. The worker, one binder for
each transaction, the callers of `Publish` and `Close`, the callers of `Subscribe` and the clients of
their subscriptions each have a program counter; a step is one atomic action of one goroutine, or of
two for a rendezvous on an unbuffered channel. A client reads and closes its subscription in one
goroutine, as `http/work_queue.go` does, or has a second one for reading; every theorem covers both. Every `select` is a free choice among its enabled
cases, a `range` over a map goes in any order, a broadcast is one step for each subscriber, and a
context can be cancelled at any moment. Theorems are about all runs: any interleaving, any number of
transactions, callers and subscribers.

- `WorkQueue.dfy` the states and steps; `WorkQueueInvariant.dfy` the invariant;
  `WorkQueuePipe.dfy`, `WorkQueueFits.dfy` and `WorkQueueSteps.dfy` prove that every step keeps it.
- `WorkQueueGrowth.dfy` what steps never take back; `WorkQueueRuns.dfy` and
  `WorkQueueShutdown.dfy` the safety theorems over runs; `WorkQueueStreams.dfy` exactly what a
  subscription is sent; `WorkQueueAnswers.dfy` what calls are answered, and where a handler's error goes.
- `WorkQueueBlocking.dfy` how a cancellation can stop the worker; `WorkQueueCompletion.dfy` how a
  client's `Close` can, and that nothing else but shutdown does; `WorkQueueSubscribing.dfy` when a waiting
  `Subscribe` or `Close` can go on; `WorkQueueLocking.dfy` when the registry lock can be freed.
- `WorkQueueLife.dfy` two whole runs, of a transaction and of a shutdown.
- `WorkQueueRefinement.dfy` the atomic job system that the protocol implements;
  `WorkQueueTermination.dfy` the measure that bounds what every run changes; `WorkQueueProgress.dfy`
  that without cancellation, shutdown and `Close` every accepted transaction is handled.

**The refreshes** (`sqlite/student.go`, `sqlite/mark.go`, `sqlite/subject.go`) bring a relational
store in line with Engage. The four tables are the fields of the class `Store.DB`, whose `Valid`
is every UNIQUE, CHECK and FOREIGN KEY clause of the migrations; the loops of the source are methods
on it. Each method is proved against a specification of the tables it leaves, and the laws of the
refreshes (independence of order, idempotence, splitting) are proved about those specifications.
Engage is a function from pupil ids, or periods, to answers.

- `Store.dfy` tables, lookups and statements; `Reconcile.dfy` one pupil's reconciliation as a
  function; `StudentRefresh.dfy` its methods and the range loop.
- `MarkStore.dfy` marks counted up to ids and timestamps; `MarkRefresh.dfy` the methods for marks.

**The render scanner** (`engage/engage.go` and the loop in `sqlite/mark.go`) extracts names, years
and marks from bytes. `Render.dfy` has the byte searches, name and year; `MarkScan.dfy` the marks.
Each search is proved to find the match the regular expression means (leftmost, and then shortest or
greedy), and the scanner is proved to invert printing.

## What the proofs show about the code

- A cancellation that lands between the worker's context check and its Processing send can stop the
  whole queue. It does exactly when the binder takes notice of it first: then the worker waits for a
  binder that no longer listens (`WorkerCanBlock`), or finds the state gone and dereferences it
  (`WorkerCanCrash`), and no later step of any run starts a handler (`HaltedForever`).
- A client that calls `Close` without having read its buffer, and has no other goroutine to read it, can
  jam the queue without any cancellation or shutdown (`CloseCanJam`): the broadcast of Processing waits for
  room in its buffer, the client waits in `Close` for the binder, and the worker waits to report. Until the
  transaction is cancelled no step changes that (`JamForever`).
- These two and the return after shutdown are all. As long as the worker has not returned, is not stuck
  and does not have to report to a jammed binder, each waiting transaction can be completed by the
  goroutines' own steps, whatever else has been cancelled or closed, and otherwise it cannot
  (`CompletesUnlessBlocked`).
- A broadcast whose context is done can skip subscribers. What a subscription is sent is exactly the
  history since its registration without those broadcasts (`StreamIsExact`). The comment on `C` says
  that the value before the close says why; that holds if and only if the final broadcast was not given
  up on the subscription (`ClosedStream`), and it can fail (`StreamCanEndWithoutReason`).
- A waiting `Subscribe` holds the read side of the registry lock. On a transaction whose status is final, or
  whose binder is jammed, it waits until it gives up, and until then no `Publish` can get in (`OfferForever`,
  `SubscribeCanBlock`); on any other it can be granted (`GrantedUnlessDeaf`). A client's `Close` waits on the
  same condition (`ClosesUnlessDeaf`), and apart from such a `Subscribe` whoever holds the lock can leave it
  (`LockFreedUnlessDoomed`).
- The comment on `RefreshStudents` says that an update leaves the newest data. A refresh that returns
  without error does so if and only if the pupil was new, or had the same name and took no subject that
  Engage no longer lists (`ReconciledIsNewest`, `RefreshLeavesNewest`). The name is never written
  (`NameIsKept`), and a pupil who swaps one subject for another keeps the old one, because only the lengths
  are compared (`SwappedSubjectStays`).
- `updateStudent` makes a slice of negative capacity when Engage lists fewer subjects than the store,
  which panics. A pupil who drops one subject and takes up two therefore makes the second refresh
  panic (`DroppedSubjectPanics`); `ReconcileTwice` and `RefreshTwice` give the exact condition.
- Trimming by a set of characters takes the last letter off every name that ends in `a`
  (`FinalLetterIsLost`); `NameInvertsPrinting` gives the exact condition.
- A render without a percentage is reported as ENOTFOUND (`NothingToScan`) and ends a refresh of marks
  (`PeriodWithoutMarksFails`), and so does a render that could not be fetched, whose own error is dropped.
- A comma in last place makes the extraction of a mark slice past the end of its buffer, and a comma
  right before the `<` after a teacher makes it slice from a higher index to a lower; both panic
  (`GetMarkFromRender`).

## Readings of the source

Where the text of the code falls short of its plain intent, the model takes the intent:

- The channels and the parent queue of a `state` are wired up, unbuffered, when it is made.
- `findStudents` and `findMarks` are stubs; they are taken as the filters their comments describe.
- The refreshes never commit. Results are about the tables as their transaction sees them.
- `make([]csb.Subject, diff)` is a capacity; a negative one still panics.
- The subjects of Engage's pupils, and the pupil and period of Engage's marks, are filled in.
- In `GetMarkFromRender` the prefix that is trimmed is the one that was matched. `getSubjectName` counts both
  its offsets from the start of the buffer it is given. `getTeacherName` slices up to the `<` it has found and
  returns the index of that `<`, where the text has the comma again. The comparison of the teacher's
  offset with 1 is kept: a missing teacher is not noticed there and moves the position back by one.

## Model

| member | source | states |
|---|---|---|
| WorkQueueSteps.StepKeepsInv | inmem/work_queue.go:52-263 | every step of every goroutine keeps the invariant of the protocol: lock ownership, ids, the pipe of transactions, statuses, subscription maps, streams, no fault |
| WorkQueueRuns.RunKeepsInv | inmem/work_queue.go:52-263 | the invariant holds in every state of every run |
| WorkQueueRefinement.StepSimulates | inmem/work_queue.go:52-263 | every step is a stutter or exactly one atomic step of the FIFO job system |
| WorkQueueRefinement.RunRefines | inmem/work_queue.go:52-263 | seen through the abstraction, every run of the protocol is a run of the job system |
| WorkQueueRuns.Conservation | inmem/work_queue.go:52-107 | the ids handed out split exactly into being pushed, queued, in the worker's hands, rejected, skipped and finished; no rejected id is ever handled |
| WorkQueueAnswers.CallsAreAnswered | inmem/work_queue.go:81-107 | over every run, Publish has answered nil for a transaction if and only if it is or was queued, in the worker's hands, skipped or finished, "queue is full" if and only if it was rejected, and was a no-op only once done is set, as it is when Close has returned; every id has a call that registered it |
| WorkQueueAnswers.QueueHoldsFifty | inmem/work_queue.go:101-106 | a push is accepted if the queue holds fewer than fifty transactions, and answered "queue is full" if it holds fifty |
| WorkQueueAnswers.SubscribeIsAnswered | inmem/work_queue.go:114-139 | Subscribe has returned nothing if and only if it found done set, ENOTFOUND if and only if the id was not registered at its lookup, its context's error if and only if it gave up, and a subscription if and only if the binder took it |
| WorkQueueRuns.HandlersRunInOrder | inmem/work_queue.go:51-107 | handlers start in strictly increasing id order, one at a time, ahead of everything queued; the queue is increasing and at most 50 long |
| WorkQueueRuns.RegistryAgrees | inmem/work_queue.go:64-102 | an id is registered exactly until its binder has removed it; an uncancelled queued id is registered and Queued; only a cancelled one can be missing at the worker's lookup |
| WorkQueueRuns.StatusesAdvance | inmem/work_queue.go:213-243 | the statuses of a transaction begin Queued, Processing, Done or Queued, Cancelled |
| WorkQueueRuns.CancelledIsNeverHandled | inmem/work_queue.go:57-72 | a transaction whose status is Cancelled at any point of a run has its handler called at no point of it |
| WorkQueueRuns.HandledEndsInDone | inmem/work_queue.go:65-72 | once the handler has started, the status history stays or gains Done, and nothing else |
| WorkQueueAnswers.HandlerErrorIsDelivered | inmem/work_queue.go:67-72 | the error a handler returns is the error of the final status in every later state of the run: the worker reports it, and then the history is Queued, Processing and Done with that error |
| WorkQueueAnswers.SubscribersGetTheError | inmem/work_queue.go:67-72 | a subscription that is sent Done is sent the handler's error with it |
| WorkQueueAnswers.CancelledInTimeIsPassedOver | inmem/work_queue.go:57-62 | a transaction cancelled before the worker checks its context is never handled |
| WorkQueueRuns.StreamIsSubsequence | inmem/work_queue.go:233-254 | what a subscription is sent is a duplicate-free in-order subsequence of the status history beginning with the status at registration, and it is what was received plus the buffer |
| WorkQueueRuns.StreamStartsAtRegistration | inmem/work_queue.go:233-238 | the first value sent is the status current in the very step in which the binder took the subscription |
| WorkQueueStreams.GapsAreGivenUp | inmem/work_queue.go:246-254 | the gaps recorded with a transaction are exactly the broadcasts that were given up in the run, with the subscribers they had still to reach |
| WorkQueueStreams.StreamIsExact | inmem/work_queue.go:226-254 | in every run a registered subscription has been sent a status since its registration if and only if its broadcast is not still under way to it and was not given up before reaching it |
| WorkQueueStreams.ClosedStream | inmem/work_queue.go:161-167 | a channel closed by its binder carried the whole history since registration if and only if no broadcast was given up on it; the value before the close is the final status if and only if the final broadcast was not given up on it |
| WorkQueueStreams.StreamHasNoGaps | inmem/work_queue.go:226-263 | while no broadcast was given up on it a stream is a gap-free segment of the history, also after its client has closed it |
| WorkQueueStreams.UncancelledStream | inmem/work_queue.go:226-263 | without cancellation no broadcast is given up, and a channel closed by its binder ends with Done |
| WorkQueueStreams.StreamCanEndWithoutReason | inmem/work_queue.go:161-167 | a run in which the binder closes a channel after Queued although the status is Cancelled |
| WorkQueueRuns.ChannelsAreSafe | inmem/work_queue.go:170-263 | no run sends on a closed channel or closes one twice, and the first send to a new subscription never blocks |
| WorkQueueRuns.EveryChannelHasOneCloser | inmem/work_queue.go:170-177 | a closed channel was closed by its client, after the binder let go of it, or by its binder while still registered, and the flag is set |
| WorkQueueShutdown.ShutdownAcceptsNothing | inmem/work_queue.go:143-149 | after done is set ids stop, the registry and the queue only shrink, and every handler started later belongs to a transaction accepted before |
| WorkQueueAnswers.IdleWorkerCanReturn | inmem/work_queue.go:53-56 | once done is set an idle worker can return with transactions still queued, which are then never completed |
| WorkQueueShutdown.ClosedQueueHasNoPublisher | inmem/work_queue.go:81-89 | once done is set no publisher is past its check of it |
| WorkQueueTermination.StepWorks | inmem/work_queue.go:52-263 | every step of every run is a stutter, or begins a call and raises a measure by a constant, or lowers the measure |
| WorkQueueTermination.ChangesAreBounded | inmem/work_queue.go:52-263 | in every stretch of every run, with cancellations, shutdown and closing clients, the steps that change something are bounded by the measure at its start and the calls that begin |
| WorkQueueTermination.RunsStopCompleteOrBlocked | inmem/work_queue.go:52-75 | where a run can only stutter or wait for the lock, each accepted transaction has been finished or skipped, or the worker is blocked |
| WorkQueueProgress.EveryAcceptedReachesDone | inmem/work_queue.go:52-75 | once calls stop, a calm run has boundedly many steps left, and where it stops every accepted transaction was handled and is Done |
| WorkQueueBlocking.HaltedForever | inmem/work_queue.go:52-75 | once the worker has returned, or is stuck between its context check and its send on a transaction that was cancelled, no later step of any run starts a handler or finishes or skips a transaction |
| WorkQueueBlocking.StuckForever | inmem/work_queue.go:57-65 | the same for a worker that is stuck, which stays so with the same transaction |
| WorkQueueCompletion.JamForever | inmem/work_queue.go:170-177 | a broadcast that has reached a closing client with a full buffer and no other reader, and that client's Close, wait for each other through every step but the cancellation of the transaction |
| WorkQueueSubscribing.CloseCanJam | inmem/work_queue.go:246-254 | a run without cancellation and shutdown that ends in such a jam, with the worker waiting to report |
| WorkQueueCompletion.BlockedForever | inmem/work_queue.go:52-75 | without a cancellation a worker that has returned, is stuck, or has to report to a jammed binder neither finishes nor skips a transaction any more |
| WorkQueueCompletion.NoDeadlock | inmem/work_queue.go:52-263 | in every run, while an accepted transaction is neither finished nor skipped: there is a step that changes something, takes no lock, gives nothing up and leaves the worker unblocked if and only if the worker is not blocked |
| WorkQueueCompletion.ListensUnlessJammed | inmem/work_queue.go:213-254 | the binder of a transaction that is Queued or Processing can get back to its select, by its own steps and its subscribers', if and only if it is not jammed |
| WorkQueueCompletion.CompletesUnlessBlocked | inmem/work_queue.go:52-75 | a queued transaction, or the one in the worker's hands, can still be completed by the goroutines' own steps if and only if the worker has not returned, is not stuck and does not have to report to a jammed binder |
| WorkQueueSubscribing.OfferForever | inmem/work_queue.go:114-139 | a Subscribe that waits on a transaction whose status is final, or whose binder is jammed and not cancelled, waits until it gives up, and as long there is no writer and the registry stays as it is |
| WorkQueueSubscribing.GrantedUnlessDeaf | inmem/work_queue.go:133-138 | a waiting Subscribe can be granted without giving up if and only if its transaction is Queued or Processing and its binder is not jammed |
| WorkQueueSubscribing.ClosesUnlessDeaf | inmem/work_queue.go:170-177 | a Close that has won its swap can return, with its channel closed, if and only if the transaction is Queued or Processing and its binder is not jammed |
| WorkQueueSubscribing.GivingUpReleases | inmem/work_queue.go:133-138 | a waiting Subscribe can always give up, and then releases the lock |
| WorkQueueLife.WholeLife | inmem/work_queue.go:52-263 | a run in which a transaction is published, subscribed to, handled and removed, and its client has read all three statuses with the handler's error in the last before its channel is closed |
| WorkQueueLife.AfterShutdown | inmem/work_queue.go:81-149 | a run in which Close shuts the queue down, the worker returns, Publish is a no-op and Subscribe returns nothing |
| WorkQueueSubscribing.SubscribeCanBlock | inmem/work_queue.go:203-211 | a run in which a Subscribe waits for a binder that waits for the lock the Subscribe holds |
| WorkQueueLocking.LockFreedUnlessDoomed | inmem/work_queue.go:81-149 | the registry lock can be freed by the goroutines' own steps if and only if no Subscribe that holds it offers, or is bound to offer, to a binder that will not listen |
| WorkQueueBlocking.WorkerCanBlock | inmem/work_queue.go:57-65 | a run with one transaction in which a cancellation after the context check leaves the worker waiting for ever |
| WorkQueueBlocking.WorkerCanCrash | inmem/work_queue.go:64-65 | the same run with the binder gone before the lookup, where the worker finds no state |
| Render.NameFromIsLeftmostShortest | engage/engage.go:20-24 | the search for the name finds the leftmost match and the shortest there |
| Render.NameInvertsPrinting | engage/engage.go:112-123 | a printed name comes back with the index past its match if and only if it neither starts nor ends with a trimmed character |
| Render.FinalLetterIsLost | engage/engage.go:119-120 | a name ending in the letter a comes back without it |
| Render.AnnaBecomesAnn | engage/engage.go:119-120 | a concrete name that is not inverted |
| Render.EveLeeIsRead | engage/engage.go:112-123 | an ordinary name, given byte by byte, is read whole |
| Render.BrokenNameIsNotFound | engage/engage.go:22 | a name with a line break in it is not matched |
| Render.NoName | engage/engage.go:113-116 | ENOTFOUND if and only if nothing matches |
| Render.LastYear | engage/engage.go:128-134 | the last non-overlapping year match is the last match of all, with its digits taken greedily |
| Render.YearOfRender | engage/engage.go:128-144 | the year is the number of the last match if it is preceded by a blank and fits an int, and otherwise an error |
| Render.YearInvertsPrinting | engage/engage.go:128-144 | the last printed year comes back with the index past its match when it fits an int, and an error otherwise |
| Render.YearElevenIsRead | engage/engage.go:128-144 | the year of a render given byte by byte, with a tag right after it, is read with its index |
| Render.WhiteSpaceBeforeYear | engage/engage.go:21 | tab, line feed, form feed and carriage return before the digits match but are not trimmed, so the year is an error; any other byte but a blank is no match |
| Render.NoYear | engage/engage.go:129-132 | ENOTFOUND if and only if nothing matches |
| Render.StudentFails | sqlite/student.go:221-239 | without a name the pair of calls ends with ENOTFOUND, without a year with its error, and the year is not looked for unless the pupil attends |
| Render.StudentInvertsPrinting | sqlite/student.go:221-239 | name and year of one render come back from the pair of calls on the re-sliced buffer exactly when the name survives trimming and the year fits |
| Bytes.AtoiInvertsItoa | engage/engage.go:138-141 | a printed number is read back if it fits an int, and rejected from the first int overflow on |
| Bytes.DecimalDigits | engage/engage.go:20-24 | the digits are the bytes 48 to 57, printed numbers consist of them, and longer numbers are printed in base ten |
| MarkScan.PercentFrom | engage/engage.go:20-24 | the leftmost percentage with its digits taken greedily, or none exists |
| MarkScan.GetMark | engage/engage.go:148-184 | a mark that is found consumes at least one byte and no more than the buffer |
| MarkScan.GetMarkFromRender | engage/engage.go:148-212 | a mark is returned if and only if the buffer holds a first percentage that is an int, a comma after it and another from its second byte on; then the fields are the digits, the text between the commas and the text between the last comma before the next '<' and that '<', with the position there; ENOTFOUND if and only if there is no percentage; a panic if and only if a comma leaves no byte to skip |
| MarkScan.MarkOfCell | engage/engage.go:148-212 | on a printed mark, behind any text without a percentage, percentage, subject and teacher come back and the position is its closing tag |
| MarkScan.OneMarkIsRead | engage/engage.go:148-212 | a whole mark, given byte by byte, is read with its position |
| MarkScan.ScanOfChain | sqlite/mark.go:287-306 | the loop returns the marks of the calls that succeed if the first that fails is ENOTFOUND and not the first of all, and else that call's error in place of them |
| MarkScan.ChainExists | sqlite/mark.go:287-306 | every buffer has such a succession of calls up to one that fails |
| MarkScan.ScanMarks | sqlite/mark.go:285-306 | the loop ends on every buffer and returns what Scan describes |
| MarkScan.ScanInvertsPrinting | sqlite/mark.go:285-306 | on a printed list of marks the loop returns exactly that list, and ENOTFOUND on an empty one |
| MarkScan.NothingToScan | sqlite/mark.go:287-306 | the loop reports ENOTFOUND if and only if the buffer holds no percentage at all |
| Store.FindSubjectByName | sqlite/subject.go:10-33 | the subject of that name, or ENOTFOUND exactly when no row has it |
| Store.FindSubjectByEngageCode | sqlite/subject.go:60-83 | the subject of that code, or ENOTFOUND exactly when no row has it |
| Store.LookupsAgree | db/migrations/000002_create_subjects_table.up.sql:1-8 | lookup by id, by name and by code find the same subject |
| Store.DB.InsertTakes | db/migrations/000002_create_subjects_table.up.sql:11-24 | a pair is inserted once, between an existing pupil and subject, and integrity is kept |
| Store.DB.DeleteStudentRow | db/migrations/000003_create_marks_table.up.sql:12-21 | deleting a pupil takes exactly its takes and marks along, and integrity is kept |
| Store.DB.InsertMark | db/migrations/000003_create_marks_table.up.sql:1-21 | a row under a fresh id if pupil, subject and percentage are in order, else an error and no change |
| Reconcile.AttachAllAdds | sqlite/student.go:303-307 | attaching a list succeeds if and only if its codes are known, new and not repeated, and then adds one subject for each |
| Reconcile.AttachAllFails | sqlite/subject.go:85-102 | attaching fails at the first code that is unknown, with ENOTFOUND, or whose subject is taken or came before, with the constraint's error |
| Reconcile.AdditionsKeepRepeats | sqlite/student.go:326-330 | every entry with a new code is added as often as it is listed |
| Reconcile.ReconcileErrors | sqlite/student.go:136-174 | an error of Engage other than ENOTFOUND, an invalid pupil, and a list shorter than the stored one end the refresh, each with its own error |
| Reconcile.LengthShortcutIsSetDifference | sqlite/student.go:316-338 | for a repeat-free list of known codes an update leaves the new list's subjects if and only if that list contains the old codes; then equal lengths mean equal sets and otherwise the additions number exactly the difference |
| Reconcile.ReconciledIsNewest | sqlite/student.go:124-125 | for a repeat-free list of known codes a reconcile leaves Engage's name, year, attendance and subjects if and only if the pupil is new, or has the same name and takes no subject that Engage no longer lists |
| Reconcile.SwappedSubjectStays | sqlite/student.go:316-331 | a concrete pupil who swaps one subject for another: the refresh succeeds and keeps the old subject |
| StudentRefresh.RefreshLeavesNewest | sqlite/student.go:124-125 | after a refresh without error a pupil of the range that is not purged is Engage's copy if and only if it was new, or had the same name and took no subject that Engage no longer lists |
| Reconcile.ReconcileTwice | sqlite/student.go:311-357 | a second reconcile changes nothing if and only if the entry settles; otherwise it panics |
| Reconcile.SettlesWhenRemoteGrows | sqlite/student.go:316-331 | for repeat-free answers an entry settles if and only if the remote list is as long as the local one or contains it |
| Reconcile.DroppedSubjectPanics | sqlite/student.go:317-319 | a concrete pupil whose first refresh succeeds and whose second panics |
| StudentRefresh.FindStudentByPID | sqlite/student.go:189-198 | the stored pupil with its subjects, each once, or ENOTFOUND exactly when there is no row |
| StudentRefresh.AttachSubjectCodeToStudent | sqlite/subject.go:85-102 | inserts the one pair for the code, or fails without a change when the code is unknown or the pair is there |
| StudentRefresh.CreateStudent | sqlite/student.go:273-309 | a valid new pupil is stored with year, attendance and subjects, both timestamps equal, all other pupils untouched; every error as the source raises it |
| StudentRefresh.AddedSubjects | sqlite/student.go:316-331 | nothing for equal lengths, a panic for a shorter list, otherwise exactly the entries whose code is not among the old |
| StudentRefresh.UpdateStudent | sqlite/student.go:311-357 | year, attendance and subjects are updated, name and creation time and all other pupils kept |
| StudentRefresh.DeleteStudent | sqlite/student.go:359-366 | the pupil, its takes and its marks are gone and all other pupils kept, or ENOTFOUND |
| StudentRefresh.RefreshStudents | sqlite/student.go:126-187 | the refresh returns without error if and only if every pupil of the range can be reconciled and no wait is cancelled, and then each holds the reconcile of its Engage copy, its old copy and the purge flag; otherwise it stops at the first pupil that fails, or with the context's error after the first cancelled wait; every row outside the range is unchanged in any case |
| StudentRefresh.UnfoundPupilIsKept | sqlite/student.go:136-149 | a pupil whom Engage does not find keeps every row in every table, or stays absent |
| StudentRefresh.LeftPupilIsPurged | sqlite/student.go:154-167 | after a purge a pupil who no longer attends has no row in any table |
| StudentRefresh.FoundPupilIsWritten | sqlite/student.go:158-173 | any other pupil is valid and stored with Engage's attendance and year, the year only for one who attends, with its old name if it had one, its marks and its old subjects, and no new subject that is not on Engage's list |
| StudentRefresh.RangesCompose | sqlite/student.go:133-184 | refreshing (a, n) and then (a+n, m) is a refresh of (a, n+m) |
| StudentRefresh.RangesSplit | sqlite/student.go:133-184 | the whole range can be refreshed if and only if its second part can be after the first |
| StudentRefresh.OutcomeIsDetermined | sqlite/student.go:126-187 | two refreshes from the same tables end with the same content, timestamps apart |
| StudentRefresh.TwoHalvesAreTheWhole | sqlite/student.go:133-184 | refreshing in two halves ends with the content of refreshing in one go |
| StudentRefresh.RefreshTwice | sqlite/student.go:126-187 | a second refresh goes through if and only if every pupil of the range settles, and then changes no content |
| MarkStore.AttachByNameThenById | sqlite/mark.go:431-444 | attaching by name and then again by the id found, or by the whole subject, gives the same mark |
| MarkStore.EngageDataIsOfPeriod | sqlite/mark.go:270-307 | Engage's marks are all for the pupil and period that were asked for |
| MarkStore.SubjectsAreUnited | sqlite/mark.go:202-248 | for each refreshed period the pupil's stored subjects become the old united with Engage's; for every other period they stay |
| MarkStore.OthersUntouched | sqlite/mark.go:202-248 | even after a refresh that stopped early, rows of other pupils and other periods are the old rows |
| MarkStore.RefreshesCompose | sqlite/mark.go:220-245 | refreshing some periods and then others, in any order and with repetitions, is a refresh of their union |
| MarkStore.MarksAreDetermined | sqlite/mark.go:202-248 | two refreshes of the same periods end with the same marks, ids and timestamps apart |
| MarkStore.SecondRefreshAddsNothing | sqlite/mark.go:198-201 | refreshing again, all or some of the periods, leaves the very same rows |
| MarkStore.UniquenessIsKept | sqlite/mark.go:385-404 | one mark for each pupil, subject and period is kept if and only if Engage gives at most one new mark per subject |
| MarkStore.PrintedMarksAreRead | sqlite/mark.go:270-307 | a printed render is read if and only if its subjects are known, and then mark for mark with the subject ids the store gives them |
| MarkStore.PrintedMarksAreStored | sqlite/mark.go:202-248 | after a refresh every mark printed for a refreshed period is stored, unless the pupil had a mark in that subject |
| MarkRefresh.FindMarksByFullPeriod | sqlite/mark.go:309-316 | the list holds exactly the pupil's rows of the period |
| MarkRefresh.ListedSubjects | sqlite/mark.go:390-393 | the subject ids of that list are the subjects in which the pupil has a mark for the period |
| MarkRefresh.AttachMarksSubjectsWithStudent | sqlite/mark.go:415-429 | every mark gets its stored subject, or the first error; ENOTFOUND for an unknown pupil |
| MarkRefresh.CreateMark | sqlite/mark.go:354-383 | a mark is inserted under a fresh id if and only if pupil and subject are given and stored, the period is full and valid, there is a teacher and the percentage is from 0 to 100; EINVALID if and only if one of its own fields is missing, and no change on any error |
| MarkRefresh.FirstNotAccepted | sqlite/mark.go:395-401 | a list of new marks passes if and only if each is accepted, and else ends with the error of the first that is not |
| MarkRefresh.CreateDiff | sqlite/mark.go:385-404 | no row is changed or removed; exactly Engage's marks in subjects without a local mark are added, each as often as it occurs; on an error no more than those |
| MarkRefresh.RefreshPeriod | sqlite/mark.go:220-237 | one period is brought up to date or ends with the error the period's own marks determine |
| MarkRefresh.PeriodWithoutMarksFails | sqlite/mark.go:285-291 | a period without a percentage in its render, or whose render could not be fetched, ends the refresh with ENOTFOUND |
| MarkRefresh.OutcomeIsKept | sqlite/mark.go:220-245 | whether and how a period fails does not depend on the periods refreshed before it |
| MarkRefresh.EngageErrorsEnd | sqlite/mark.go:270-306 | the error for a term, an error of the scan, and a pupil that is not stored end the refresh of a period |
| MarkRefresh.PrintedPeriodPasses | sqlite/mark.go:220-237 | a printed period of a stored pupil passes if and only if its subjects are known and every mark in a subject that had none names its subject and a teacher and is at most 100 percent |
| MarkRefresh.RefreshMarks | sqlite/mark.go:202-248 | the refresh returns without error if and only if the pupil is stored, the periods are known, each of them passes and no wait is cancelled, and then all periods are refreshed; otherwise it stops at the first period that does not pass, or with the context's error after the first cancelled wait, and leaves only rows a refresh would add |
| MarkRefresh.FindMarksByFullPeriodFallback | sqlite/mark.go:318-339 | without fallback the local rows and no change; with it Engage's list, and the store brought up to date |

## Left out

- HTTP routes, middleware, the websocket handlers and the Engage HTTP client: input and output. Of `http/work_queue.go` only the actions on the queue remain (cancel, receive, close).
- SQL text, drivers, migrations tooling, commit and rollback; failures of the database itself.
- Wall-clock times: a timestamp is any value, and whether a wait between requests ends with its time or with the caller's context is an oracle.
- `ranking.go`, the period service behind `PeriodRange` and `PeriodToEngageTerm` (oracles here, with full periods), the error-code tables and the comma-joining helpers.
- The work queue is modelled on values and not as a class: its fields are changed by several goroutines at once, which methods of one class cannot interleave.
- The worker reads the map of states without the lock. The model makes that read atomic; a torn read under Go's memory model is not modelled.
- A transaction published twice, which would share one `Id` field between two entries of the queue, is not modelled: every call of Publish brings a new transaction.
- A waiting writer of the registry lock keeps out new readers in Go. The model lets them in, so it has more runs, and the theorems hold for all of them.
- The error text of a cancelled context is fixed.
- The handler is any function that returns; a handler that panics or never returns is not modelled. NoDeadlock and CompletesUnlessBlocked count its return as a step that can be taken.
- WorkQueueProgress.EveryAcceptedReachesDone: bounds the run and says what holds where it stops. That goroutines that can move do move is the scheduler's business.
- WorkQueueCompletion.CompletesUnlessBlocked: says that completion is possible, not that it is inevitable, and counts a client outside Close as one that will read. A binder whose context is done while its transaction is Processing can go round its select for ever without changing anything; ChangesAreBounded does not count such stutters.
- `findStudentByPIDEngage` before its render: the years the client reports decide only whether the pupil attends.
- Marks and pupils are values. That a mark in memory points to its pupil, and that `createMark` writes a timestamp back into it, is not modelled.
- The service methods around the transactions (`FindStudentByPID` with its fallback, `FindMarksByPeriod`, `FindMarksByPeriodRange`) and the single lookups and deletions (`FindMarkByID`, `DeleteMark`): they call the operations modelled here and are not modelled themselves.
- MarkScan.ScanInvertsPrinting: prints marks whose subject holds no comma and whose teacher holds neither a comma nor `<`; other fields cannot be told from their delimiters.
