# event-center: a verification model

event-center is an append-only event log with a cursor reader, and a push delivery queue drained by a
retrying dispatcher. This project models those parts and proves what they promise.
`dafny verify dfyconfig.toml` checks all of it.

## How the model is built

**One value per table, one function per SQL statement.** `Queue` and `EventLog` hold the statements of
`internal/store/deliveries.go` and `internal/store/events.go` as functions from one committed state to the
next. Two forms of the system are built on those same functions:

* the *object* form, as the source writes it: `Store.Store` is a class whose fields are the tables and whose
  methods update them in place; `Service.Ingest`, `Dispatcher.DeliverSubscription`, `Consumer.HandlePull`,
  the matcher in `Filter` and the encoders in `Encoding` are methods and loops over it. A `fault`, `fails` or
  `failing` parameter says which database call fails. A `Dispatcher.Input` is everything one turn of the
  delivery loop does not decide itself (cancellation, failures, the answer, the clock), so a whole call is a
  function of tables and inputs, `Dispatcher.CallOf`, and `Backlog` proves what that function promises.
* the *concurrent* form: `Protocol` cuts the dispatcher at every transaction, channel operation and network
  exchange, and `Writers` cuts `AppendEvent` and `PurgeOlderThan` at every lock operation, statement and
  commit. Any action that is enabled may come next, so a theorem about `Runs(...)` holds for every
  interleaving with ingestion, requeues, purges, deletions, acks, failed writes and crashes.

| part of the source | where it is |
|---|---|
| lease SELECT, lease UPDATE, event fetch, POST, outcome write as separate steps | `Protocol.WorkStep`, `NextPc`, `Effect` |
| `DrainOnce` with its `sem` and `done` channels; process start, recovery and crash | `Protocol.ProcStep`, `ProcApply` |
| admin calls, ingestion, retention, acks and the clock | `Protocol.EnvStep`, `EnvApply` |
| a write that commits but reports an error | `Protocol.WriteResult` |
| the ordering contract's interleaved calls | `Writers.Phase`, `Writers.Move` |
| a consumer that follows NextCursor | `Consumer.Reader`, `Consumer.World` |

`Protocol.History` holds history variables: which rows an endpoint acknowledged, which rows a worker lost,
what was ever written to a cursor, how often a row was renewed or headed a batch. No guard reads them, and
the main theorems tie each to the actions of the run (`Guarantees.DeliveredMeansAcknowledged` names the
answering step, `Guarantees.InflightHasAReason` the abandoning one, `Guarantees.CursorIsRunningMaximum` reads
the cursor writes off the run, `Budget.BatchesAreBounded` counts lease writes and
`Attempts.AttemptBound` counts renewals).
`Safety.Inv` is proved one actor at a time: a worker's claim about its rows survives whatever the others may
do to them (`Tame`, `Stable`), and workers serve different subscriptions.

## Where the code and its description differ

The model follows the code. Each point below has a lemma with a concrete input or the exact condition.

* The filter documentation says `*` is exactly one segment; `matchAny` lets a bare `*` accept any type
  (`Filter.ShortCutsAgree`).
* Identifiers made in one millisecond are said to stay monotonic; the bumped counter never reaches the text
  (`Encoding.IdsSortByTime`, `Encoding.SameMillisecondMayDescend`).
* A row's `attempt` can exceed MaxAttempts: only the batch head is compared with it
  (`Examples.AttemptExceedsLimit`), and a recovery after a crash keeps attempts
  (`Examples.RecoveredRowExceedsLimit`). It stays within the limit if and only if no lease takes a pending
  row that has used its attempts up (`Limits.AttemptsStayWithin`); `Attempts.AttemptBound` is the bound that
  always holds.
* A cursor can be below a delivered row: a worker does not look its subscription up again, so it may deliver
  a row enqueued after the subscription was deleted, and a new subscription of the same id starts lower
  (`Examples.CursorCanLag`). `Guarantees.CursorCoversDelivered` gives the exact condition.
* The cursor is a maximum, not a mark below which everything is delivered: a later batch can succeed while an
  earlier row waits for its retry (`Examples.CursorSkipsWaitingRow`). `Marks.CursorIsMark` gives the exact
  condition.
* A retry of a keyed event whose fan-out failed is only a duplicate and does not fan out
  (`Service.RetryDoesNotFanOut`, for every such event).
* A row may also be left in flight when the events of its batch cannot be read after the lease committed,
  or when the lease commits but reports an error (`Guarantees.InflightHasAReason` names the step).
* `backoff` is described as `base * 2^(attempt-1)` capped at `max`; the exponent also stops at 10, and the
  base passes through a float64. `Backoff.DescribedDelay` says exactly when the description holds,
  `Backoff.DescribedDelayFails` is an input for which it does not.

## Model

| member | source | states |
|---|---|---|
| Guarantees.DeliveredMeansAcknowledged | internal/dispatch/dispatcher.go:139-176 | in every run from an empty installation, a row that is delivered was, at some earlier step, in a payload of its own subscription that was answered 2xx |
| Guarantees.AckComesFromPost | internal/dispatch/push.go:41-51 | only a 2xx answer acknowledges rows, and only those the payload carried |
| Guarantees.DeliveredStepwise | internal/store/deliveries.go:89-148 | a delivered row loses that status in a step if and only if the step requeues it, purges its event or deletes its subscription; no worker, late write or recovery does |
| Guarantees.DeliveredStays | internal/store/deliveries.go:173-204 | the same over whole runs |
| Guarantees.NothingLost | internal/store/deliveries.go:12-43 | after any run the rows present are exactly those owed by the enqueues, purges and deletions of the run, read off the actions alone |
| Guarantees.RequeueStaysInScope | internal/store/deliveries.go:264-293 | as a step of the protocol, a requeue changes only rows of the status and subscription asked for, at most as many as the limit, each pending and never tried afterwards |
| Guarantees.LogIsUntouched | internal/store/events.go:219-252 | after any run the events retained are exactly those published and not purged: no delivery step, crash or recovery touches the log |
| Guarantees.InflightHasAReason | internal/dispatch/dispatcher.go:88-94 | a row in flight is held by a live worker, or some step of the run crashed with it in flight or let go of its very batch unsettled, with no recovery or requeue of it since; a recovery would make it due at once |
| Guarantees.InflightIsHeld | internal/dispatch/dispatcher.go:150-175 | in a run without a crash, a failed outcome write or a failed event fetch, every row in flight is held by a live worker |
| Guarantees.RecoveryEmptiesInflight | internal/store/deliveries.go:45-58 | a successful recovery leaves nothing in flight, keeps attempts, makes every recovered row due now and touches no other row |
| Guarantees.RecordRow | internal/dispatch/push.go:41-61 | recording an answer, as a step of the protocol: 2xx delivers, not retryable buries, retryable buries at the limit and otherwise waits; an unwritten outcome changes nothing |
| Guarantees.FetchesWhatIsRetained | internal/store/deliveries.go:299-324 | a fetch finds exactly the retained events of the leased rows, in order |
| Guarantees.PostsWhatIsThere | internal/dispatch/dispatcher.go:161-174 | in every reachable state a fetched batch can be posted if and only if its payload is the leased rows in order, and parked if and only if an event is missing |
| Guarantees.WorkerReturns | internal/dispatch/dispatcher.go:139-176 | a worker ends exactly when its subscription is not an active push one with an endpoint, the context is cancelled, nothing is due, or a lease, fetch or parking fails; no answer and no failed outcome write ends it |
| Guarantees.PauseHolds | internal/store/subscriptions.go:185-190 | from when a subscription is not served and no worker is past its lookup, no run leases or posts anything of it until it is resumed or created anew |
| Guarantees.LeasesExclusive | internal/store/deliveries.go:60-84 | in every reachable state no two workers of a pass serve one subscription, so no row is held twice |
| Guarantees.SpawnsFirst | internal/dispatch/dispatcher.go:124-135 | a pass collects no worker before it has started the last one |
| Guarantees.ConcurrencyIsBounded | internal/dispatch/dispatcher.go:122-132 | in every reachable state of a pass at most Concurrency workers run |
| Guarantees.CursorIsRunningMaximum | internal/store/subscriptions.go:168-183 | over every run a cursor is the maximum of what the actions wrote to it since its subscription was created: its initial value, all acks and the last seq of every batch marked delivered, whatever their order |
| Guarantees.InputsAreWritten | internal/store/deliveries.go:198-202 | those inputs, as the state machine records them, are the ones read off the run |
| Guarantees.CoverStep | internal/store/deliveries.go:192-203 | a step keeps every cursor at or above the delivered rows if and only if it does not create a subscription over a delivered row left under its id |
| Guarantees.CursorCoversDelivered | internal/store/subscriptions.go:67-74 | over every run: the cursor is never below a delivered row if and only if no subscription of the run is created over leftover delivered rows above its cursor |
| Marks.MarkStep | internal/store/deliveries.go:192-203 | a step keeps every row at or below its cursor delivered if and only if it adds or resets no row there and moves no cursor over an undelivered row outside the batch it marks |
| Marks.CursorIsMark | internal/store/subscriptions.go:168-183 | over every run: cursors are marks below which everything is delivered if and only if no action leaves an undelivered row behind |
| Examples.CursorCanLag | internal/dispatch/dispatcher.go:139-160 | a run from an empty installation that ends with a cursor below a delivered row |
| Examples.CursorSkipsWaitingRow | internal/store/deliveries.go:94-100 | a run from an empty installation that ends with a row waiting for its retry below the cursor |
| Safety.RunKeeps | internal/store/deliveries.go:89-148 | every run keeps the protocol invariant: batches ordered and within the size, selected rows still due or gone, leased rows settled by nobody else, channel levels matching the workers, rows in flight accounted for |
| Safety.WorkKeeps | internal/dispatch/dispatcher.go:139-176 | each worker step keeps that invariant, for its own rows and everybody else's |
| Budget.BatchesAreBounded | internal/dispatch/push.go:23-61 | in any run, crashes and failed writes included, the leases that commit number at most (MaxAttempts + 1) times the rows enqueued, requeued or recovered |
| Budget.RetryingTerminates | internal/dispatch/dispatcher.go:150-175 | with nothing enqueued, requeued or recovered, the sum over pending rows of 1 + max(0, MaxAttempts - attempt) bounds the batches to come, and each batch lowers it |
| Budget.WorkPays | internal/store/deliveries.go:130-132 | whatever the answer and whatever fails, a committed lease costs one from the budget and no worker step adds to it, although only the head is judged |
| Budget.CrashPays | internal/dispatch/dispatcher.go:88-94 | a crash gives back at most the leases it interrupted before they were written |
| Attempts.AttemptBound | internal/dispatch/push.go:23-25 | a row heads at most MaxAttempts leases per insertion, requeue or recovery, so no attempt exceeds MaxAttempts times those renewals among the rows of its subscription numbered at most its own |
| Attempts.RunCounts | internal/store/deliveries.go:94-100 | over every run each attempt is at most the leases headed by rows at or below it, and a pending row has a turn as head left |
| Attempts.LivesAreRenewals | internal/store/deliveries.go:264-293 | a row's renewals, counted by the state machine, are those read off the actions |
| Limits.WithinStep | internal/store/deliveries.go:130-132 | with all attempts within MaxAttempts, a step keeps them so if and only if it does not commit a lease of a batch holding a pending row that has used its attempts up |
| Limits.AttemptsStayWithin | internal/dispatch/push.go:53-59 | over every run: no attempt ever exceeds MaxAttempts if and only if no lease of the run does that |
| Examples.AttemptExceedsLimit | internal/dispatch/push.go:23-25 | a run from an empty installation under MaxAttempts 2 that leases a row a third time, because a younger row heads its batches |
| Examples.RecoveredRowExceedsLimit | internal/store/deliveries.go:45-58 | a run under MaxAttempts 1 that leases a lone row twice, across a crash and its recovery |
| Alone.AloneDiesOnTime | internal/dispatch/push.go:53-59 | in any run that inserts a row once, never requeues or recovers it, and leases it only alone: its attempt is the number of its leases, never above MaxAttempts, and a retryable failure of it kills it if and only if that was attempt MaxAttempts |
| Pass.PassCannotStick | internal/dispatch/dispatcher.go:122-135 | while a pass runs some goroutine can move: neither channel can block everybody, for any number of workers at any control points |
| Pass.PassReturnsLast | internal/dispatch/dispatcher.go:133-136 | a pass returns only after every subscription had its worker and every worker ended |
| Pass.PassFinishes | internal/dispatch/dispatcher.go:113-137 | the moves of one pass are bounded by its rank at the start and the rows renewed while it runs, for any endpoint behaviour |
| Pass.PassServesDue | internal/store/deliveries.go:60-84 | a pass serves only subscriptions with a pending row whose retry time, if any, has come, and all of them if and only if there are at most 4 * Concurrency |
| Pass.LeftOutSortsLast | internal/store/deliveries.go:66-69 | a due subscription is left out of a pass only if at least 4 * Concurrency due ones sort before it |
| Queue.PayloadCorresponds | internal/store/deliveries.go:299-324 | equal counts hold exactly when every leased event is retained, and then the payload is the leased rows in order |
| Queue.BatchIsLowestDue | internal/store/deliveries.go:94-100 | the batch is within the limit, nothing due and unselected is below it, and it is cut short only when more is due |
| Store.Envelope.Normalize | internal/model/model.go:15-59 | accepts exactly events with provider, type and a stream that is not blank; an empty id, stream or receipt time gets its default, and every field that was given is kept |
| Store.Store.AppendEvent | internal/store/events.go:48-121 | the exact conditions of refusal; a duplicate exactly when an event with the provider and non-empty key is retained, and then that event; a refused or duplicate event changes nothing; a new one is stored under the next stream number with every field as given or defaulted |
| Store.Store.PurgeOlderThan | internal/store/events.go:219-252 | an event stays if and only if it was received at or after the cutoff, a delivery row goes if and only if its event goes, nothing else changes, and the count of events removed is returned; a failure changes nothing |
| Store.Store.EnqueueDeliveries | internal/store/deliveries.go:12-43 | all numbers are inserted or none, new rows pending and never tried, and existing rows are left alone |
| Store.Store.RecoverInflight | internal/store/deliveries.go:45-58 | each row in flight is pending again with attempt and retry time kept, no other row changes, and their number is returned; or it fails and changes nothing |
| Store.Store.LeaseDeliveries | internal/store/deliveries.go:86-148 | the batch is what was due, each of its rows in flight with one attempt more and no other row changed; it carries the head attempt as it was before, and stays leased even when the events cannot be read |
| Store.Store.MarkDelivered | internal/store/deliveries.go:171-204 | afterwards each given row that exists is delivered with no retry time and its attempt kept, the cursor is the higher of its old value and the last seq, and nothing else has changed; a failure changes nothing |
| Store.Store.MarkFailed | internal/store/deliveries.go:206-235 | afterwards each given row that exists is dead without a retry time, or pending until the given one, with its attempt kept, and no other row has changed; a failure changes nothing |
| Store.Store.RequeueDeliveries | internal/store/deliveries.go:264-293 | the rows reset are of the chosen status (dead if none is given) and subscription, lowest numbers first, as many as there are up to the limit (100 if not positive), pending and untried afterwards, and their count is returned; rows of other subscriptions and all others stay; a failure changes nothing |
| Store.Store.CreateSubscription | internal/store/subscriptions.go:38-75 | refuses exactly a missing id, a push without endpoint, a taken id or a failed write; stored streams are never empty |
| Store.Store.DeleteSubscription | internal/store/subscriptions.go:121-147 | afterwards no record and no row of the id is left and all of the others is; an unknown id or a failure changes nothing |
| Store.Store.AdvanceCursor | internal/store/subscriptions.go:168-183 | the cursor becomes the maximum of what it was and the ack, no other subscription changes, and an unknown id is no error |
| Store.PayloadIsBatch | internal/dispatch/dispatcher.go:154-174 | the events fetched are those of the leased rows one for one in order, or fewer because some leased row's event is gone |
| Store.FetchIsPayload | internal/store/deliveries.go:299-324 | the object form's fetch and the protocol's payload are the same numbers in the same order |
| Writers.NoVisibilityHole | internal/store/store.go:4-10 | for any interleaving of appends and purges, an event committed after a read is numbered above everything committed before it, purged or not, in seq and in stream_seq |
| Writers.StepIsAtomic | internal/store/events.go:61-120 | however calls interleave, the committed log changes only by whole appends and purges of itself; failures and duplicates change nothing |
| Writers.StreamsAreGapless | internal/store/events.go:82-120 | over the whole history, purged events included, a stream carries 1, 2, ..., last_seq in seq order |
| Writers.RetainedAreUnique | internal/store/store.go:89-107 | at every moment no two retained events share an id, or a provider and a non-empty key |
| Writers.CheckDecides | internal/store/events.go:70-80 | the check inside the transaction ends a call exactly if an event with its provider and key is committed |
| Writers.CallsReturn | internal/store/events.go:61-120 | while any call is open some open call can move, every exit lets go of the lock, and a call returns after at most seven moves of its own |
| Writers.TransactionsExclude | internal/store/events.go:61-68 | two calls are never inside their transactions together |
| Writers.RunKeeps | internal/store/events.go:221-252 | history only grows and no counter ever falls, purges included, so no number is reused |
| EventLog.ChangeKeeps | internal/store/events.go:82-120 | an append or a purge keeps order, gapless numbering and uniqueness |
| Consumer.ReplayIsExact | internal/store/events.go:133-184 | with any appends, purges and page sizes in between, in both modes, and following the answer of any long-poll exit, pages come strictly increasing and every event beyond the starting cursor was returned once, is still ahead, or was purged before the cursor came |
| Consumer.ListEvents | internal/store/events.go:139-184 | for one stream by stream_seq and for all of them by seq: a page is the first events beyond the cursor in strictly increasing order without a skip, NextCursor is the last one, HasMore holds if and only if one more lies beyond it, and the limit is 100 if not positive |
| Consumer.ReadPage | internal/store/events.go:163-183 | the look-ahead row is never returned and never moves the cursor |
| Consumer.HandlePull | internal/api/consume.go:37-83 | an asked limit within the bounds is the one used, a larger one is capped and none gets the default; the request is held through exactly the turns that give no reason to answer; every answer is a page of the snapshot read then, or empty with the cursor unmoved, which are the answers replay follows |
| Consumer.WritersDriveTheWorld | internal/store/store.go:4-10 | whatever the interleaved writers do is, to a reader, one of the changes replay is proved for |
| Filter.MatchTypeSegments | internal/filter/filter.go:63-83 | true exactly when the values split into one non-empty block per pattern segment, each block under a plain segment being one accepted value; it terminates for any placement of `**` |
| Filter.DeclarativeIsRecursive | internal/filter/filter.go:63-83 | the backtracking recursion and the splitting definition agree on every input |
| Filter.MatchType | internal/filter/filter.go:54-61 | the equality short cut agrees with the glob |
| Filter.MatchesItself | internal/filter/filter.go:57-59 | any segments match themselves, wildcards or not |
| Filter.MatchNeedsLength | internal/filter/filter.go:54-83 | a match needs at least as many value segments as pattern segments |
| Filter.DoubleStarWidens | internal/filter/filter.go:67-75 | replacing any segment by `**` never loses a match |
| Filter.ShortCutsAgree | internal/filter/filter.go:42-52 | the `**` short cut agrees with the glob on every value, the `*` one exactly on one-segment values, the empty one exactly on the empty value |
| Filter.OneSegment | internal/filter/filter.go:54-55 | a one-segment pattern matches exactly the one-segment values it accepts |
| Filter.SplitInverts | internal/filter/filter.go:60 | splitting on dots loses nothing and leaves no dot |
| Filter.MatchAnyType | internal/filter/filter.go:42-52 | some type filter is empty, `*`, `**` or matches |
| Filter.MatchAnyProvider | internal/filter/filter.go:42-52 | some provider filter is empty, `*`, `**` or matches as one segment |
| Subscriptions.Matches | internal/filter/filter.go:22-38 | stream, provider, type and subject filters each accept their own field of the event, an omitted one accepting everything |
| Subscriptions.PreFilterDropsNone | internal/store/subscriptions.go:192-198 | the SQL pre-filter agrees with the filter about the stream if and only if the subscription's stream is not empty (or the event's is) |
| Subscriptions.MatchingSubscriptions | internal/store/subscriptions.go:185-217 | exactly the enabled subscriptions of the mode that address the event, paused ones included, each once |
| Service.Ingest | internal/service/service.go:29-62 | log and rows become what one ingest is defined to make of them: nothing at all for a refused or duplicate event, otherwise one appended event and the rows owed; a duplicate is reported exactly when an event with the key is retained, and that event is returned |
| Service.FanOutIsExact | internal/service/service.go:48-60 | whatever has happened since the tables were empty, an error-free ingest of a new event adds exactly one pending, never tried row for each enabled push subscription that addresses the event as given, and no other row changes |
| Service.RowsAreNumbered | internal/store/deliveries.go:29-41 | over any ingests and any work that adds no row, every row carries a number that was given to an event |
| Service.FanOut | internal/service/service.go:52-60 | a failing enqueue is skipped and costs no other subscription its row |
| Service.EnqueueIsIdempotent | internal/store/deliveries.go:29-41 | an enqueue adds exactly the missing rows, never tried, and changes no row of any status, so repeating it changes nothing |
| Service.DuplicateIsOriginal | internal/store/events.go:70-80 | the duplicate reported is the one retained event with that key |
| Service.ReplayChangesNothing | internal/service/service.go:29-41 | without purges, ingesting already stored keyed events again, in any order and number and after any other calls, leaves log, counters and delivery rows unchanged and reports the original events |
| Service.AllRetained | internal/store/events.go:70-80 | over any calls without purges, stored events stay and stay unique |
| Service.RetryDoesNotFanOut | internal/service/service.go:33-53 | a keyed event whose fan-out failed is stored without those rows, and a retry under its key is a duplicate that adds none of them |
| Dispatcher.DeliverSubscription | internal/dispatch/dispatcher.go:139-176 | tables and result are those of the turns the inputs determine, for an active push subscription with an endpoint, and otherwise nothing happens; it ends for any inputs |
| Backlog.ResumeDrainsInOrder | internal/store/subscriptions.go:185-190 | when every pending row is due at the start and no retry set in the call falls due before it ends, the batches are the backlog cut from the front in order, each row once, all of it if the call drains, and posted if the events are retained; it drains unless one of the listed failures ends it |
| Backlog.ResumeDeliversBacklog | internal/dispatch/dispatcher.go:150-175 | with nothing failing and every batch answered 2xx, the call posts the whole backlog in order, delivers every row of it at its next attempt, leaves the cursor at the higher of its old value and the last row, and changes no other row |
| Backlog.CallDrains | internal/dispatch/dispatcher.go:150-160 | a call ends with nothing due, or because of a cancelled context, a failed lease or fetch, or a failed write of a batch with an event gone; no endpoint answer ends it |
| Backlog.CallConfined | internal/store/deliveries.go:130-132 | a call changes no row of another subscription, no row that was not pending, and of the subscriptions only its own cursor, upwards |
| Dispatcher.OneTurn | internal/dispatch/dispatcher.go:150-175 | one turn of the loop does what its input determines, although the loop tells a missing event only by counting |
| Dispatcher.TurnEnds | internal/dispatch/dispatcher.go:150-175 | a turn stops on exactly a cancelled context, a failed lease or fetch, or a failed parking; drains exactly when nothing is due; and otherwise settles what is due, posted if and only if no event is missing |
| Dispatcher.TurnRow | internal/dispatch/dispatcher.go:154-174 | what a turn leaves of each row, for every input: in flight after a failed fetch or write, dead without its event, and otherwise as the answer and the head decide |
| Dispatcher.BatchSpends | internal/dispatch/dispatcher.go:150-175 | leasing and settling a batch lowers the pending sum, whether delivered, retried, buried, orphaned or left in flight |
| Dispatcher.Send | internal/dispatch/push.go:18-69 | row by row: 2xx delivers the batch and moves the cursor, an answer that is not retryable buries it, a retryable one buries it when the head has used its attempts up and otherwise retries it after the delay of that attempt plus at most a tenth; a failed write changes nothing |
| Backoff.WaitBounds | internal/dispatch/push.go:110-122 | the delay is min(float64(base) * 2^min(attempt-1, 10), max) even if the conversion overflows, and the wait adds at most a tenth |
| Backoff.FloatIsClose | internal/dispatch/push.go:116 | the base is exact below 2^53 and otherwise moved by at most half the float64 spacing around it |
| Backoff.DelayMonotone | internal/dispatch/push.go:110-122 | delays never shrink with the attempt and are constant from attempt 11 |
| Backoff.DescribedDelay | internal/dispatch/push.go:110-122 | the described base * 2^(attempt-1) capped at max is the delay if and only if, up to attempt 11, the base is exact as a float64 or the cap hides the difference, and later, the cap is reached with the tenth doubling |
| Encoding.EncodeUint | internal/idgen/idgen.go:58-65 | filling the buffer from the right gives the most significant digit first |
| Encoding.EncodeInverts | internal/idgen/idgen.go:58-65 | below 32^length the number can be read back |
| Encoding.EncodeAscends | internal/idgen/idgen.go:58-65 | string order is number order for every width that holds both numbers |
| Encoding.IncrementedAddsOne | internal/idgen/idgen.go:49-56 | incr adds one to the big-endian counter, modulo 256^n |
| Encoding.IdState.Incr | internal/idgen/idgen.go:49-56 | the in-place loop does that increment |
| Encoding.IdState.EncodeTime | internal/idgen/idgen.go:30-47 | the counter is bumped within a millisecond and redrawn otherwise, and the text holds the time digits alone |
| Encoding.IdLayout | internal/idgen/idgen.go:17-20 | an identifier is the prefix, an underscore, ten digits that decode to the millisecond, and the random text |
| Encoding.IdsSortByTime | internal/idgen/idgen.go:17-20 | identifiers of one prefix sort by millisecond and, within one, exactly as their random text does |
| Encoding.SameMillisecondMayDescend | internal/idgen/idgen.go:1-7 | two identifiers of one millisecond of which the later sorts first |
| Timestamps.StoredOrderIsTimeOrder | internal/store/store.go:161-167 | stored timestamps compare as strings exactly as their instants do, so SQL selects exactly the due and the expired |
| Timestamps.FieldsOrderInstants | internal/store/store.go:161-167 | calendar field order is the order of instants, leap years included |
| Timestamps.YearsCount | internal/store/store.go:161-167 | the day count behind the instants is the Gregorian one in closed form |
| Timestamps.LayoutIsFixed | internal/store/store.go:165-167 | every stamp is written at the widths and with the separators of the layout |
| Timestamps.ParseInvertsFormat | internal/store/store.go:167-169 | reading the layout's positions gives back the fields written |

## Left out

- HTTP routing, JSON, authentication, request signing, the dashboard, metrics, the audit log, event sources and configuration loading: no deep state.
- SQLite: statements and transactions are atomic, reads see one committed state, keys and unique indexes hold, and AUTOINCREMENT gives some number above every committed one.
- `path.Match`: an arbitrary total function (`Filter.PathMatcher`), because its code is outside the repository.
- Event bodies, headers, source times, `last_error`, `updated_at`, subscription names and creation times: nothing modelled reads them.
- GetEvent, ListStreams, Stats, ListDeliveries and ListSubscriptions: plain reads.
- Goroutines and channels are control points and fill levels of a state machine, not objects; `Store.Store` and `Dispatcher.DeliverSubscription` are the object form of one worker with nothing in between; a lease that commits but reports an error ends a turn there exactly as a failed event fetch does.
- Multi-instance dispatch: one process at a time, restarted after a crash.
- The lock of the ordering contract is modelled for appends and purges; other writers that take it do not touch events or streams.
- Retry times in `Protocol` are arbitrary, which covers every backoff; `Dispatcher.Send` computes them.
- A payload that cannot be encoded is one of the answers that are not retried; nothing is sent then, and the rows are buried in the same way.
- A request deadline and the poll interval of a long poll are inputs of `HandlePull`, one record per turn.
- Strings other than the known constants for subscription status, delivery mode and requeue status; a missing requeue status, stream or limit is modelled.
- The two uses of `matchAny` are two methods, because the matcher passed to it is itself a loop.
- Identifiers: the random text is a parameter, and the fallback when the random source fails is not modelled.
- Store.Envelope.Normalize: does not model the payload's JSON check and quoting, its data type default, or the conversion of times to UTC, because nothing modelled reads payloads and instants have no zone.
- Timestamps.StoredOrderIsTimeOrder: years 0 to 9999, the range the fixed-width layout can hold.
- Numbers are unbounded, except where `Backoff` converts to a 64-bit duration and `Encoding` rolls bytes over.
