# Verified model of the scheduling engine

A model in Dafny of a lease-based task scheduler, and proofs about it. A task is registered with a fire
time or a cron expression, becomes ready when it is due, is leased to a worker, and ends succeeded, dead or
canceled, or goes back to ready through a retry, a rollback or an expired lease. Safety rests on a version
number that every state change bumps and on compare-and-set calls that carry a lease's version.

The project has three parts.

**Components**, each a class with the original's fields and methods, proved against functions on its contents.

- `Heap.dfy`, `Queues.dfy`: `container/heap` over a slice of entries with an `index` field, and the ready and
  the delayed queue on top of it. Both queues are proved to be a map from id to entry.
- `TaskStore.dfy`, `RecordStore.dfy`: the versioned store with its name and time indexes, and the history.
- `Calendar.dfy`, `CronText.dfy`, `CronField.dfy`, `CronNext.dfy`, `CronHorizon.dfy`, `CronParse.dfy`: the cron
  parser down to `strings.Split`, `strings.Fields` and `strconv.Atoi`, and the calendar search. `CivilTime.dfy` says what
  the search answers in dates counted from 1970 by the printed lengths of the months; `CronForms.dfy` says which texts
  are accepted and what each lists.
- `Scheduler.dfy`, `LeaseManager.dfy`, `Results.dfy`, `Executor.dfy`: dispatch, leases, results, `RunNext`.
- `Handlers.dfy`: the calls that compose several components (register, batch, cron update) and the wiring.

**The operation level**, one public call per step, built from the same functions that specify the methods.
`TaskLife.dfy` gives every way a call can move one task; `Protocol.dfy` shows that each call makes such a move
on every task and keeps the invariant; `Runs.dfy`, `Progress.dfy`, `Ledger.dfy`, `Draining.dfy` and `MapSum.dfy`
draw the conclusions for whole runs. `Assign` and the worker's report are separate steps, since the handler runs
between them. A history (grants, endings, reported results, back-off) is kept beside the system and never read by it.

**The lock level**, one mutex critical section per step, any number of threads, any interleaving. `LockSteps.dfy`
lists the program points and sections, `LockEffects.dfy` what each touches; `LockLevel.dfy` gives what a section
guarantees to the other threads and what a thread relies on. `LockSafety.dfy` says of one section, and `LockRuns.dfy` and
`LockExact.dfy` of whole interleavings, exactly when they lose no ready task, keep the version fence, the lease maps and
the retry budget. `LockExclusion.dfy` proves mutual exclusion and `LockCounts.dfy` follows records and counters.
`LockSolo.dfy` and `LockAlone.dfy` tie the two levels together: a call whose sections run without interruption ends in
exactly the states that the operation level gives it. `LockHazards.dfy` reaches the states in which something is broken.

Times and durations are integer nanosecond counts in UTC. The answers of the clock, the id generator, the worker
picker and the handler are parameters; the order in which Go walks a map is left open (`Model.NextKey`, and
sequences in any order at the lock level), so every result holds for all orders.

What the code does not do, shown by a lemma with a concrete run or input:

- a cron update on a leased task strands it in leased (`Progress.StrandingRun`, `Progress.StrandedForGood`);
- a cron task fires once: nothing takes a task back to pending, so the next run time that a tick gives it is never used
  (`Progress.FiresOnce`);
- a late `Release` takes away the binding of a newer lease, whose result is then refused (`LockHazards.ReleaseUnbinds`);
  `leases` and `byTask` stay inverse in an interleaving if and only if every grant finds its task without a recorded
  lease (`LockExact.PairsIff`);
- a cron update that is saved after its task's batch was rolled back inserts the task again, at version 1: possibly ready
  and in no queue (`LockHazards.ResurrectionOrphans`), possibly ready and queued while a cancel is under way that then
  removes the entry (`LockHazards.CancelOrphans`), possibly on its way back to the version of a lease granted before,
  which then has a failure retried from ready (`LockHazards.ReadyIsRetried`) or takes the task from a newer lease
  (`LockHazards.FenceBreaks`). An interleaving never loses a task while it is ready if and only if no save puts it back
  where no queue and no thread has it and no cancel removes its only entry (`LockRuns.ReadyNotLostIff`); the versions it was
  leased at stay fenced if and only if no save brings it back once it has been leased (`LockRuns.FencingIff`). A task whose
  batch is not rolled back is never brought back (`LockRuns.NoRollbackNoReturn`, `LockRuns.SafeWithoutReturns`);
- two reports of one lease that overlap can both pass the lease check: both are recorded and counted and one commits
  (`LockHazards.OverlapRecordsTwice`). Once no result is in flight, recorded results are executed plus failed if and only
  if no success was refused after its check (`LockCounts.CountersAddUpIff`), and a task has one record for each committed
  result if and only if none of its results was (`LockCounts.OneRecordEachIff`);
- a cron update that read its task before a failure was recorded hands the retry out again (`LockHazards.RetryRefunded`);
  retries left and retries committed add up if and only if no update writes back an outdated count
  (`LockExact.BudgetKeptIff`);
- a rename breaks the name binding (`Store.SaveKeepsNamesIffNotRename`, `Store.RenameFreesName`); no caller in the
  repository renames a task;
- a step so large that the first addition overflows makes a cron field list values outside its range
  (`CronField.InBoundsIffNoOverflow`, `CronParse.OverflowingStep`);
- eight years need not contain a match when both the day and the weekday are restricted; `Next` then answers an
  instant that need not match (`CronHorizon.FallbackNeedNotMatch`). Its answers all match if and only if every eight
  years in a row have a listed date on a listed weekday, which 400 checks decide (`CronHorizon.AnswersMatchIff`).

## Model

| member | source | states |
|---|---|---|
| `IndexedHeap.Heap.Up` | internal/queue/ready.go:85-114 | sift-up restores heap order around one misplaced entry, permutes only the heap part and keeps every entry's `index` equal to its position |
| `IndexedHeap.Heap.Down` | internal/queue/ready.go:85-114 | sift-down does the same for an entry that may be too large; when it moves nothing, the entry's children already follow it |
| `IndexedHeap.Heap.Fix` | internal/queue/delayed.go:38-41 | after one entry changed in place, heap order is restored and no entry is lost or added |
| `IndexedHeap.Heap.Pop` | internal/queue/ready.go:106-114 | the root leaves with `index` -1 and the rest is again a heap of exactly the other entries |
| `IndexedHeap.Heap.Remove` | internal/queue/delayed.go:75-77 | exactly entry i leaves, wherever it stands, and the rest is a heap |
| `IndexedHeap.RootIsLeast` | internal/queue/ready.go:87-92 | in a heap for a strict weak order no entry precedes the root |
| `Queues.LessesAreStrictWeak` | internal/queue/delayed.go:96-101 | both Less functions are strict weak orders, which `container/heap` demands |
| `Queues.ReadyQueue.Push` | internal/queue/ready.go:35-45 | at most one entry per task: a queued task keeps its entry, any other gets one with its priority and the present time, and the result says which case it was |
| `Queues.ReadyQueue.Pop` | internal/queue/ready.go:48-57 | takes out an entry such that every other one has a lower priority, or the same priority and no earlier time; none exactly when the queue is empty |
| `Queues.ReadyQueue.Remove` | internal/queue/ready.go:60-74 | removes exactly the task's entry; the search never falls through for a present task |
| `Queues.DelayedQueue.Push` | internal/queue/delayed.go:32-49 | one entry per task; an entry that is there keeps its priority and takes the earlier of the two times; the end of the search loop is never reached |
| `Queues.DelayedQueue.PopDue` | internal/queue/delayed.go:52-66 | returns exactly the entries due by now, by time and then descending priority, and leaves exactly those of a later time as they are |
| `Queues.DelayedQueue.Remove` | internal/queue/delayed.go:69-83 | removes exactly the task's entry and says whether there was one |
| `Queues.RootIsForemost` | internal/queue/ready.go:53-55 | the root of the slice is a best entry of the map that the queue stands for |
| `Store.TaskStore.Save` | internal/store/tasks.go:43-80 | the three refusals; an overwrite keeps the state, bumps the version and leaves the name binding alone; both index invariants are kept |
| `Store.SaveKeepsNamesIffNotRename` | internal/store/tasks.go:57-70 | an accepted Save keeps the name binding exact if and only if it is not a rename |
| `Store.RenameFreesName` | internal/store/tasks.go:57-70 | after a rename the new name is still free for a second task, and the old name stays bound |
| `Store.TaskStore.Transition` | internal/store/tasks.go:181-198 | moves the state and bumps the version exactly when the state and the non-negative expected version match |
| `Store.TaskStore.MarkReady` | internal/store/tasks.go:164-178 | takes exactly a pending task to ready |
| `Store.TaskStore.Retry` | internal/store/tasks.go:229-250 | checks version and budget but no state; consumes one retry and reindexes |
| `Store.TaskStore.SetNextRun` | internal/store/tasks.go:215-226 | changes the run time, not the version, and reindexes |
| `Store.TaskStore.Delete` | internal/store/tasks.go:253-276 | removes the task, its name and every index entry |
| `Store.TaskStore.Unindex` | internal/store/tasks.go:89-102 | filters the id out of every key and drops empty keys, in any order of the keys |
| `Store.OccursOnce` | internal/store/tasks.go:82-104 | an id occurs at most once in the whole time index |
| `Store.ReindexedConsistent` | internal/store/tasks.go:89-104 | reindexing keeps every entry under its task's run time and every pending task indexed |
| `Store.TaskStore.ScanDue` | internal/store/tasks.go:139-161 | the index walk returns exactly the pending tasks whose run time is not after now, each once, by descending priority |
| `Records.RecordStore.Compact` | internal/store/records.go:58-67 | the compaction loop keeps exactly the records not before the cutoff and counts the others |
| `Records.RecordStore.PurgeBefore` | internal/store/records.go:53-73 | every list loses exactly its old records, empty lists go, and removed plus remaining equals what was there |
| `Records.KeptExactly` | internal/store/records.go:60-66 | each record stays as often as it was there, or not at all, as its finish time says |
| `Records.KeptTwice` | internal/store/records.go:53-73 | purging twice is purging once with the later cutoff |
| `Records.RecordStore.Count` | internal/store/records.go:76-84 | counts all records of all tasks |
| `Records.AppendCountsOne` | internal/store/records.go:26-35 | appending raises the count by one |
| `CronText.SplitJoin` | internal/cron/parser.go:63 | splitting what was joined gives the parts back, for parts without the separator |
| `CronText.JoinSplit` | internal/cron/parser.go:63 | joining what was split gives the text back |
| `CronText.AtoiOfNumeral` | internal/cron/parser.go:70 | the numeral of an integer, with its sign, reads as that integer if it is an int64 value and is rejected otherwise |
| `CronField.ParsePart` | internal/cron/parser.go:65-95 | base, range and step of one comma part, with every rejection |
| `CronField.AppendSteps` | internal/cron/parser.go:96-98 | the stepping loop terminates and visits what 64-bit wrap-around makes it visit |
| `CronField.ParseField` | internal/cron/parser.go:55-101 | accepts exactly the fields all of whose parts are well formed, and lists their values in order; `CronForms.FieldIff` and `CronForms.FieldLists` say which they are |
| `CronField.ListedDenotes` | internal/cron/parser.go:96-98 | without overflow the list is exactly the union over the parts of lo + k * step up to hi |
| `CronField.VisitedIffNoOverflow` | internal/cron/parser.go:96-98 | a part lists its arithmetic progression if and only if its first addition does not overflow |
| `CronField.InBoundsIffNoOverflow` | internal/cron/parser.go:96-98 | the list stays within min and max if and only if no part's first addition overflows |
| `CronField.StarForms` | internal/cron/parser.go:56-62 | `*`, `*/1` and `min-max` are read alike |
| `CronField.ReadFieldOfTexts` | internal/cron/parser.go:63-95 | any list of ranges within the bounds can be written as a field that is read back as that list |
| `CronForms.PartIff` | internal/cron/parser.go:65-95 | a part is read as a range if and only if it is a star, a number within the bounds, which stands for itself alone, or two of them with a dash, in order, each possibly with a slash and a positive int64; a number is digits after an optional plus sign |
| `CronForms.FieldIff` | internal/cron/parser.go:55-99 | a field is read as ranges if and only if its comma parts say them one by one |
| `CronForms.FieldLists` | internal/cron/parser.go:96-98 | without overflow a value is listed if and only if it lies in one of the ranges and the step divides its distance from the start |
| `CronForms.RejectedIff` | internal/cron/parser.go:55-99 | every other text is rejected |
| `CronForms.ValueListsItself` | internal/cron/parser.go:79-84 | the numeral of a value lists that value alone, with a step too |
| `CronForms.RangeForms` | internal/cron/parser.go:77-98 | what `a-b`, `a-b/n` and `*/n` list, for every a, b and n |
| `CronForms.FieldsOfSpaced` | internal/cron/parser.go:22 | the fields of an expression are its words, whatever white space is before, between and after them |
| `CronForms.SpacedOfFields` | internal/cron/parser.go:22 | and every text is its fields with white space around them |
| `CronForms.AcceptedIff` | internal/cron/parser.go:21-53 | an expression is accepted if and only if it has five words that say something within 0-59, 0-23, 1-31, 1-12 and 0-6 |
| `CronForms.ExpressionFires` | internal/cron/parser.go:21-139 | an accepted expression fires at exactly the minutes of real dates that its words hit |
| `CronParse.FieldListsSome` | internal/cron/parser.go:55-101 | an accepted field lists at least one value within its bounds, overflow or not |
| `CronParse.Parse` | internal/cron/parser.go:21-53 | five fields with their five ranges, or rejection |
| `CronParse.ParseOfWritten` | internal/cron/parser.go:21-53 | every five lists of ranges within the bounds can be written as an expression that parses back to them |
| `CronParse.OverflowingStep` | internal/cron/parser.go:96-98 | the field `59-59/9223372036854775807` is accepted and lists 57, below its range |
| `CronParse.OpenWeekdayFires` | internal/cron/parser.go:104-139 | an expression whose weekday is `*` fires from every instant if and only if it names a date that exists |
| `CronParse.OpenDayFires` | internal/cron/parser.go:104-139 | an expression whose day of the month is `*` fires from every instant |
| `CronParse.FireTimesMatchIff` | internal/cron/parser.go:21-139 | an accepted expression's fire times all match if and only if every eight years in a row have a day it names |
| `CronNext.Next` | internal/cron/parser.go:104-139 | the five loops return the least instant strictly after the given one that matches all five fields or, exactly when there is none through the end of the eighth year, the instant eight years on |
| `CronNext.NextIsUnique` | internal/cron/parser.go:104-139 | that answer is unique |
| `CronNext.Contains` | internal/cron/parser.go:141-148 | linear search decides membership |
| `Calendar.DaysInMonthIsLength` | internal/cron/parser.go:150-152 | day 0 of the next month is the last day of the month, leap years and December included |
| `Calendar.CivilUnique` | internal/cron/parser.go:118-122 | a day number has one date on the proleptic Gregorian calendar, and the conversion back finds it |
| `CivilTime.DaysAgree` | internal/cron/parser.go:118-122 | day numbers, weekdays and instants are what counting from Thursday, 1970-01-01, year by year and month by month gives, for every date before and after |
| `CivilTime.MatchesIff` | internal/cron/parser.go:107-131 | an instant matches if and only if it is a minute of a real date whose minute, hour, day, month and weekday the five lists name |
| `CivilTime.NextInNumbers` | internal/cron/parser.go:104-139 | in those terms, Next answers the least such minute after the given instant and before the ninth new year or, when there is none, the same time eight years on, March 1 for a February 29 that is missing |
| `CronHorizon.LeapWithinEightYears` | internal/cron/parser.go:106 | the eight years after any year hold a leap year, skipped centuries included |
| `CronHorizon.HorizonSufficesForDates` | internal/cron/parser.go:104-139 | with the weekday unrestricted, Next finds a match if and only if some listed date exists in a leap year |
| `CronHorizon.HorizonSufficesForWeekdays` | internal/cron/parser.go:104-139 | with the day of the month unrestricted, Next always finds a match |
| `CronHorizon.HorizonSufficesIff` | internal/cron/parser.go:104-139 | with any schedule, a match within the horizon of every instant if and only if each eight years in a row, from 400 starting years, have a listed date on a listed weekday |
| `CronHorizon.AnswerMatchesIff` | internal/cron/parser.go:104-139 | an answer of Next matches if and only if its horizon holds a match: the eight-years-on answer never matches by accident |
| `CronHorizon.AnswersMatchIff` | internal/cron/parser.go:104-139 | all answers of Next match if and only if that condition on eight years holds |
| `CronHorizon.FallbackNeedNotMatch` | internal/cron/parser.go:138 | February 29 on a Monday, asked on March 1, 1972: the answer is March 1, 1980, which does not match, though 1988 has a match |
| `Dispatch.Scheduler.Tick` | internal/dispatch/scheduler.go:71-120 | each pending task whose fire time has come is ready, one version up and queued, and a recurring one goes on to the first time after now that its expression names, in the task and in the index; every due ready entry is promoted; nothing else changes; the count says how many |
| `Dispatch.FireOneMore` | internal/dispatch/scheduler.go:81-106 | one round of the first loop on one more id is the simultaneous firing of all of them |
| `Dispatch.TickSays` | internal/dispatch/scheduler.go:71-120 | what a tick does to one task, its fire time and its queue entries, in numbers |
| `Dispatch.Scheduler.TriggerNow` | internal/dispatch/scheduler.go:123-137 | a pending task becomes ready, one version up; a pending or ready one is queued unless it is; others are refused unchanged |
| `Dispatch.Scheduler.Cancel` | internal/dispatch/scheduler.go:150-172 | a task that is not terminal becomes canceled and leaves both queues and the fire index |
| `Dispatch.Scheduler.ScheduleRetry` | internal/dispatch/scheduler.go:140-147 | puts the task into the delayed queue, keeping an earlier time |
| `Dispatch.Scheduler.NextCron` | internal/dispatch/scheduler.go:62-68 | the next fire time, or 365 days on when the expression does not parse |
| `Leasing.LeaseManager.Assign` | internal/lease/manager.go:55-88 | drops entries of tasks that are not ready, settles on one that no ready task's entry outranks by priority or, at equal priority, by time, leases it at its new version until now plus the time to live, or rolls back and queues it again without a lease |
| `Leasing.LeaseManager.Renew` | internal/lease/manager.go:91-116 | moves the deadline of a lease at the task's version to now plus the time to live, drops a stale one, refuses the rest |
| `Protocol.CurrentIffRecorded` | internal/lease/manager.go:119-132 | with inverse maps, Current gives exactly the recorded leases |
| `Leasing.LeaseManager.ReapExpired` | internal/lease/manager.go:149-178 | drops exactly the leases whose deadline is before now and gives back exactly the tasks still leased at the version of one of them, each queued and counted once |
| `Leasing.GivenIsReapable` | internal/lease/manager.go:149-178 | the order in which the expired leases were collected does not matter |
| `Protocol.ReleaseKeepsPairs` | internal/lease/manager.go:181-190 | with inverse maps, Release takes away exactly that lease as its task's current one and leaves the maps inverse |
| `Execution.ResultManager.RecordResult` | internal/execution/manager.go:47-102 | a result is accepted only for the current lease at the task's version; the task's history then has one more record, the last, with the report's id, status, message and times and the lease's worker, and the task, its delayed entry, the lease and the counters are as a success, a retry or a death leaves them |
| `Execution.ResultSays` | internal/execution/manager.go:47-102 | the same of the function that specifies it, field by field |
| `Worker.Executor.RunNext` | internal/worker/executor.go:32-60 | assign, run, record; a refused result releases the lease |
| `TaskLife.MovesKeepSound` | internal/store/tasks.go:164-250 | every move of one task keeps its placement, version fence, grant account, retry budget and back-off |
| `Protocol.CallsMove` | internal/dispatch/scheduler.go:71-172 | every public call makes on every task exactly the move that belongs to it |
| `Protocol.AcceptedIsApplied` | internal/execution/manager.go:69-101 | once the lease check has passed, no later check of RecordResult can fail |
| `Protocol.InvKept` | internal/lease/manager.go:55-190 | every public call keeps the invariant: inverse lease maps, and every task placed, fenced and accounted for |
| `Runs.RunInv` | internal/lease/manager.go:55-190 | the invariant holds throughout every run |
| `Runs.OneLeasePerTask` | internal/lease/manager.go:55-190 | throughout every run `leases` and `byTask` are mutual inverses, so a task has at most one recorded lease |
| `Runs.MutualExclusion` | internal/lease/manager.go:55-190 | between two grants of a task the first one's result was accepted, or it was reaped after its last renewed deadline and no later than the second grant |
| `Runs.EndsOnce` | internal/execution/manager.go:52-55 | no lease yields two results, a result and a reap, or two reaps |
| `Runs.Backoff` | internal/execution/manager.go:83-90 | a failed task that is never triggered while it waits is granted again only after a tick at or past the failure plus the retry delay |
| `Progress.LeasedHasLease` | internal/store/tasks.go:57-70 | a leased task has a recorded lease at its very version if and only if it was never saved while leased |
| `Progress.NoneStuck` | internal/lease/manager.go:149-178 | after a reap every leased task that was never saved while leased is held by a lease whose deadline has not passed |
| `Progress.StrandedForGood` | internal/store/tasks.go:57-70 | a task saved while leased stays leased or canceled for the rest of the run, and no result or reap ever ends its lease |
| `Progress.StrandingRun` | internal/api/handlers.go:170-204 | for any two cron expressions that parse, a run that registers a task under the first, updates it to the second while leased, and ends with it leased and no lease recorded |
| `Progress.NeverPendingAgain` | internal/store/tasks.go:164-178 | a task that has left pending never returns there |
| `Progress.FiresOnce` | internal/dispatch/scheduler.go:81-106 | a tick fires a task at most once in a run, recurring or not |
| `Progress.ReadyIsQueued` | internal/dispatch/scheduler.go:71-137 | between calls a ready task is in one of the queues, and the ready queue holds ready tasks only |
| `Progress.AssignTakesForemost` | internal/lease/manager.go:55-88 | on a reachable system Assign leases the task of an entry that has the highest priority in the whole queue and of those the earliest time, or finds the queue empty, or finds no worker and leaves states and queued ids alone |
| `Progress.FireTimes` | internal/dispatch/scheduler.go:41-59 | on a reachable system every pending task has its run time in the fire index |
| `Progress.TickIsExact` | internal/dispatch/scheduler.go:71-120 | a tick makes ready exactly what ScanDue would return, the ready ids grow by those and the due delayed ready tasks, and nothing due remains; a recurring task's run time and fire time are then the first that its expression names after now, any other's stay |
| `Ledger.RetryBudget` | internal/execution/manager.go:56-101 | failure records plus retries left equal the maximum, plus one when dead; success records are one when succeeded and else none |
| `Ledger.RecordsKept` | internal/execution/manager.go:56-68 | as long as nothing is purged, the stored records are the accepted results in order |
| `Ledger.ReportRecords` | internal/execution/manager.go:56-68 | in a run, an accepted report adds one record, the last, with its own id, status, message and times and the worker of its lease |
| `Ledger.RecordLasts` | internal/store/records.go:53-73 | in a run, a record stays if and only if no purge has a cutoff past its finish time |
| `Ledger.GrantAccounting` | internal/lease/manager.go:74-86 | grants are results plus reaps, plus one while leased or when canceled while leased |
| `Ledger.CountersAddUp` | internal/execution/manager.go:69-101 | expired leases are the reaps; recorded results are executed plus failed; executed is the number of succeeded tasks |
| `Draining.GrantedIsAccepted` | internal/worker/executor.go:37-54 | a result reported right after its grant is accepted |
| `Draining.StepSpends` | internal/execution/manager.go:70-101 | no call but a registration raises the attempts left, and every accepted result lowers them |
| `Draining.Drains` | internal/worker/executor.go:32-60 | in a closed set at most the sum of the maximum retries plus one RunNext calls lease a task |
| `LockLevel.SectionKeeps` | internal/store/tasks.go:43-80 | no critical section lowers a version or changes a state without its version, takes a grant back, or leaves the store or the lease maps out of order; the leases in them are ones that were granted |
| `LockLevel.ReliesIsStable` | internal/execution/manager.go:47-102 | what a thread relies on at any program point survives the sections of all others |
| `LockLevel.OnlyAtReadVersion` | internal/store/tasks.go:181-250 | a rollback, a result, a reaping and a cancel change the store only while the task is at the version that the thread read, and then that task alone |
| `LockSafety.InvKept` | internal/lease/manager.go:55-190 | every section of every thread keeps the lock-level invariant and the guarantee, those that bring back a discarded task too |
| `LockSafety.TokensHoldIff` | internal/store/tasks.go:72-78 | a section leaves every version of a task that a lease was granted on or a thread has in hand the mark of a leased task if and only if it does not bring the task back once it has been leased |
| `LockSafety.TokensStayUnique` | internal/lease/manager.go:60-86 | while that holds, no two leases, no lease and a thread, and no two threads share a version of the task |
| `LockSafety.NotLostIff` | internal/dispatch/scheduler.go:71-172 | a section leaves a task, if it is ready, queued or in a thread's hands if and only if it neither puts it back where nothing has it nor removes its only entry |
| `LockRuns.ReadyNotLostIff` | internal/dispatch/scheduler.go:71-172 | in an interleaving a task that is ready is, throughout, in the ready queue, in the delayed queue, or with a thread between its store write or pop and the push or look that follows, if and only if no section does either of these |
| `LockRuns.ReadyAtRest` | internal/lease/manager.go:55-88 | in such an interleaving, once no call is under way the task, if ready, is in a queue |
| `LockRuns.FencingIff` | internal/store/tasks.go:181-198 | in an interleaving every version that a task was leased at is the mark of a leased task throughout if and only if no section brings the task back once it has been leased |
| `LockRuns.VersionFences` | internal/store/tasks.go:181-198 | in such an interleaving the task at the version of a granted lease is leased, and no other lease was granted on that version |
| `LockRuns.CommitsOnce` | internal/execution/manager.go:47-102 | in such an interleaving each lease commits at most one of success, death, retry and reaping |
| `LockRuns.CommitsFromLeased` | internal/store/tasks.go:229-250 | in such an interleaving a commit finds the task leased at the lease's version, so Retry only ever fires from leased |
| `LockRuns.TerminalIsFinal` | internal/store/tasks.go:181-198 | in such an interleaving, from any point on, a task that is not brought back never loses a version and never leaves a terminal state |
| `LockRuns.NoRollbackNoReturn` | internal/api/handlers.go:117-123 | in an interleaving a task that no batch rollback takes is never brought back |
| `LockRuns.SafeWithoutReturns` | internal/dispatch/scheduler.go:150-172 | a task that is not brought back is not lost while it is ready, cancels included, and its leased versions stay fenced |
| `LockExact.ContinuesIff` | internal/store/tasks.go:57-80 | in an interleaving every section moves a task on, out of no terminal state, and leaves it gone once discarded, if and only if none brings it back |
| `LockExact.GrantKeepsPairsIff` | internal/lease/manager.go:82-85 | a new lease keeps the lease maps inverse if and only if its task has none recorded |
| `LockExact.PairsIff` | internal/lease/manager.go:55-190 | in any interleaving `leases` and `byTask` are inverse throughout if and only if every grant finds its task without a recorded lease |
| `LockExact.BudgetRuns` | internal/store/tasks.go:57-70 | as long as a task is stored, its retries left change by committed retries and by counts that cron updates write back, and by nothing else |
| `LockExact.BudgetKeptIff` | internal/store/tasks.go:57-70 | retries left plus committed retries stay the same throughout if and only if no cron update writes back an outdated count |
| `LockExact.RetriesBounded` | internal/store/tasks.go:229-250 | then a task is retried at most as often as it had retries left |
| `LockExclusion.HandsRuns` | internal/lease/manager.go:60-86 | in an interleaving in which a task stays fenced, no two threads have leased it and not yet handed it out, and the task of the one that has is kept from all others |
| `LockExclusion.ReapedFrom` | internal/lease/manager.go:149-178 | a lease that a reap is dealing with was recorded and expired when the same thread collected it |
| `LockExclusion.MutualExclusion` | internal/lease/manager.go:55-190 | in an interleaving in which a task stays fenced, between two grants of it some section commits a retry or the reaping of the first lease, and such a reaping was begun after the grant by a section that found the lease recorded and past its deadline |
| `LockCounts.ResultsAddUp` | internal/execution/manager.go:52-101 | in any interleaving the results recorded and counted, of a task, failed, successful or all, are those committed, those refused after the check, and those between check and commit |
| `LockCounts.RecordsAreCounted` | internal/execution/manager.go:56-69 | in any interleaving as many records are stored as results are counted |
| `LockCounts.CommitsAreCounted` | internal/execution/manager.go:70-80 | in any interleaving executed are the successes committed, and expired the tasks taken back |
| `LockCounts.OneRecordEachIff` | internal/execution/manager.go:56-101 | once none is in flight, a task has one record for each committed result if and only if none was refused after its check |
| `LockCounts.CountersAddUpIff` | internal/execution/manager.go:69-82 | once none is in flight, recorded results are executed plus failed if and only if no success was refused after its check |
| `LockAlone.TickAlone` | internal/dispatch/scheduler.go:71-120 | every uninterrupted Tick, in any order of the due tasks and entries, ends in exactly the state that the operation level gives it |
| `LockAlone.ReapAlone` | internal/lease/manager.go:149-178 | the same for ReapExpired, in any order of the expired leases, with the count of those given back |
| `LockAlone.AssignAlone` | internal/lease/manager.go:55-88 | an uninterrupted Assign can end in a state if and only if its specification allows it: stale entries, an empty queue, a missing task, a failed pick and a grant |
| `LockAlone.FinishAlone` | internal/execution/manager.go:47-102 | every uninterrupted report and release ends in exactly the operation level's state, records and counters included |
| `LockAlone.TriggerAlone` | internal/dispatch/scheduler.go:123-137 | the same for TriggerNow |
| `LockAlone.CancelAlone` | internal/dispatch/scheduler.go:150-172 | the same for Cancel |
| `LockAlone.RegisterAlone` | internal/api/handlers.go:72-90 | the same for a registration, names included |
| `LockAlone.UpdateAlone` | internal/api/handlers.go:170-204 | every uninterrupted cron update ends in exactly the state, names included, that the handler's outcome gives |
| `LockAlone.RenewAlone` | internal/lease/manager.go:91-116 | every uninterrupted Renew ends in exactly the operation level's state |
| `LockAlone.UninterruptedDoes` | internal/dispatch/scheduler.go:71-172 | an uninterrupted Cancel, TriggerNow, Tick, report, Renew or ReapExpired is a call of the operation level |
| `LockAlone.AssignDoes` | internal/lease/manager.go:55-88 | so is an uninterrupted Assign, with whatever the picker and the generator answer |
| `LockAlone.UpdateCronDoes` | internal/api/handlers.go:170-204 | so is an uninterrupted cron update, unless it leaves everything as it was |
| `LockAlone.RegisterDoes` | internal/api/handlers.go:72-90 | so is an uninterrupted registration |
| `LockHazards.ReleaseUnbinds` | internal/lease/manager.go:181-190 | for any task with a retry left, an interleaving after which a lease is recorded and holds its task but is no longer the task's current one, and goes on to a result of that lease that is refused without a record |
| `LockHazards.ResurrectionOrphans` | internal/api/handlers.go:117-123 | for any cron task, an interleaving in which its own batch takes it back while an update holds its copy, and that ends at rest with the task ready and in no queue |
| `LockHazards.CancelOrphans` | internal/dispatch/scheduler.go:158-170 | for any cron task, an interleaving in which such a save loses nothing, as the canceled task's entry is still queued, and a cancel under way then removes the entry: at rest the task is ready and in no queue |
| `LockHazards.ReadyIsRetried` | internal/store/tasks.go:229-250 | an interleaving with one such save that comes to rest with the task ready at the version of its current lease, and goes on to a failure of that lease that passes the check, commits its retry from ready and uses up a retry |
| `LockHazards.FenceBreaks` | internal/lease/manager.go:149-178 | an interleaving with one such save of a leased task after which two recorded leases hold the task at the same version, and the expiry of the older gives the task back before the newer one's deadline |
| `LockHazards.ReapTakesBoth` | internal/lease/manager.go:149-178 | from any such state a reap past the older deadline takes the newer lease's task |
| `LockHazards.RetryRefunded` | internal/store/tasks.go:57-70 | an interleaving in which a committed retry is handed out again by a cron update that read the task before it |
| `LockHazards.OverlapRecordsTwice` | internal/execution/manager.go:52-82 | for any task and successful result, an interleaving with two overlapping reports of one lease that ends at rest with two records, two results counted, one executed and none failed |
| `Handlers.Handler.RegisterTask` | internal/api/handlers.go:72-90 | saves and tracks the task, or refuses it and leaves everything as it was |
| `Handlers.Handler.RegisterBatch` | internal/api/handlers.go:115-126 | registers all tasks, each at version 1 with its fire time and the others as they were, exactly when no Save is refused; otherwise tasks and names are as before and only the fire index keeps what had been tracked |
| `Handlers.NoneRefusedIff` | internal/api/handlers.go:115-126 | with exact name bindings, no Save of a batch is refused if and only if its ids are given and its names are new and distinct |
| `Handlers.Handler.UpdateCron` | internal/api/handlers.go:180-201 | parses, reads, changes, saves and refreshes, with its four refusals: an accepted update stores the new expression and its first time after now, at the next version, and nothing else, and the fire index has that time |
| `Handlers.RefusedBatchAborts` | internal/api/handlers.go:117-123 | a refused batch is the operation level's abort |
| `Handlers.UpdateDoes` | internal/api/handlers.go:180-201 | an update is accepted exactly when the operation level allows it and the name is not another task's, and then does what that says |
| `Handlers.Wire` | internal/harness/harness.go:71-82 | the components, put together by their constructors, are valid and empty |

## Left out

- HTTP, routing, JSON, `main`, signals and tickers; only the composite steps register, batch, cron update and heartbeat renewal are taken from the handlers, without the batch's size limit and the audit entries.
- Snapshot export and import, `Reset` and `SetState`: import resets versions and leaves leases, queues and the fire index behind, so the protocol's invariants are not meant to survive it.
- `TaskStore.List`, `RecordStore.List`, `LeaseManager.ByWorker`, queue lengths, audit log, configuration, validation and worker registry: easy members. `Pick` is a free choice between no worker and any worker.
- Id hashing: ids are assumed fresh, as the generator's sequence number makes them.
- `AttemptCount`, the record's `Attempt` and the `CreatedAt`, `UpdatedAt` and `LastAttemptAt` stamps: written or never written, but not read by the protocol.
- Heap entries are values in a sequence that the heap reassigns, with their `index` field, not shared pointers; aliasing between a queue and the caller's entry is not modelled.
- Tasks are values in the store's map; the original returns clones, so no aliasing is lost.
- Local time zones and daylight saving: instants are UTC, and `Next` is stated for UTC.
- The range of `UnixNano`: a run time is its own index key, as it is for all times that fit 64 bits.
- Invalid UTF-8 in cron text: text is a sequence of characters.
- Lock level: the time index is kept at the operation level only, and records are not purged. A record and a counter are written as part of the section before or at which the code writes them, since no section reads either. Any registered id may be discarded at any moment, which allows more than a batch rollback does.
- `RunNext` at the lock level is a grant followed by a report; reports may also come from anyone holding a granted lease, repeatedly, which allows more than the executor does.
