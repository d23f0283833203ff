# checkin-service: a verified model of the check-in pipeline

This project models the core of checkin-service, a Go service that records
employees' shifts. Its check-in service toggles the employee's state. With
no open shift, it inserts a new shift. Otherwise it closes the latest open
shift with the clock-out time and the hours worked. By the service's design,
an HTTP endpoint calls this toggle and each check-out is published as an
event to two queues. Two queue workers then carry out the side effects of a
check-out:

- the labor worker reports the check-out to a legacy labor system, through a
  circuit breaker;
- the email worker sends a summary mail to `<employee id>@factory.com`.

Each worker marks its own track (status and retry count) in the shift's row.
On failure it asks the queue to show the message again after a delay. For
email, the delay grows exponentially with the retry count. For labor, the
code as written always asks for 20 seconds (see Findings).

The model is in Dafny:

| file | models |
|---|---|
| `wrappers.dfy` | the `Option` and `Result` types |
| `model.dfy` | the `WorkingTime` record, the two queue events, the status values and the error kinds |
| `backoff.dfy` | `calculateBackoff` as written, and the capped schedule it evidently means |
| `repository.dfy` | the `working_times` table, as a class over a map from id to row, with pure specification functions for each query |
| `checkin.dfy` | `CheckInOut`, and the alternation of check-in and check-out it produces |
| `worker.dfy` | the queue, as a class holding a map from receipt handle to visibility timeout; `handleMessage` and the polling loop `Start` |
| `labor.dfy` | the labor processor and the breaker's trip rule |
| `email.dfy` | the email processor and its recipient rule |

Each method that changes state is proved against a pure function of the old
state. The properties of the system are lemmas about those functions.

Everything outside the process is a parameter of the operation that uses it:

- the clock: the `now` of `CheckInOut`;
- database driver failures: the fault flags;
- JSON decoding: the `decode` function;
- the breaker's decision for a call: `BreakerVerdict`;
- whether a call to the legacy API or the mail service succeeds: a boolean;
- what each poll of the queue returns, and whether the context has been
  cancelled: the `Tick` script of `Worker.Start`.

Times are integer clock readings. Hours worked is the integer duration
clock-out minus clock-in.

## Model

| member | source | states |
|---|---|---|
| RetryBackoff.ScaledDelay | internal/worker/labor/labor_processor.go:92 | `int32(2^n * 10)` stays within 0 and the int32 maximum for every count up to 27, truncating for negative counts |
| RetryBackoff.CalculateBackoff | internal/worker/labor/labor_processor.go:91-97 | calculateBackoff as written, on the counts where the int32 conversion is defined: the delay is between 0 and the one-hour cap, and for 0 <= n <= 27 it is `min(10 * 2^n, 3600)` |
| RetryBackoff.CalculateBackoffOverflowsAt28 | internal/worker/labor/labor_processor.go:92 | at retry count 28, `10 * 2^28` exceeds the int32 maximum, so the as-written conversion is no longer exact |
| RetryBackoff.Backoff | internal/worker/email/email_processor.go:66-72 | for every count the delay is between 0 and 3600; for a non-negative count it is `min(10 * 2^n, 3600)` |
| RetryBackoff.BackoffMonotone | internal/worker/email/email_processor.go:66-72 | the delay never decreases as the retry count grows |
| RetryBackoff.BackoffSaturates | internal/worker/email/email_processor.go:68-70 | from retry count 9 on, the delay is the one-hour cap |
| RetryBackoff.BackoffSchedule | internal/worker/labor/labor_processor.go:91-97 | the schedule starts 10, 20, 40, 80 seconds; count 8 gives 2560 and count 9 gives 3600 |
| Repository.Insert | internal/ports/repository/workingtime_repo.go:41-44 | a new row takes the next id; every other row is unchanged; the new row is open, with both tracks pending and both counts zero |
| Repository.CheckOut | internal/ports/repository/workingtime_repo.go:56-62 | only row id changes: it gets the clock-out, the hours and a pending labor status, and keeps its other columns; a missing id changes nothing |
| Repository.SetLabor | internal/ports/repository/workingtime_repo.go:68-78 | only the labor status and labor count of row id change, to the values given; a missing id changes nothing |
| Repository.SetEmail | internal/ports/repository/workingtime_repo.go:137-141 | only the email status and email count of row id change, to the values given; a missing id changes nothing |
| Repository.Fetch | internal/ports/repository/workingtime_repo.go:122-134 | a driver fault or a missing row is an error; a NULL hours_worked fails the scan; otherwise the record carries exactly the selected columns, and the other fields are zero |
| Repository.InsertOpensShift | internal/ports/repository/workingtime_repo.go:41-44 | a check-in keeps the table invariant and opens exactly one new shift, for its own employee |
| Repository.CheckOutClosesShift | internal/ports/repository/workingtime_repo.go:56-62 | a check-out keeps the table invariant and closes row id and no other shift |
| Repository.StatusWritesKeepShifts | internal/ports/repository/workingtime_repo.go:68-78 | the labor and email status writes keep the invariant and never open or close a shift |
| Repository.LatestOpen | internal/ports/repository/workingtime_repo.go:89-93 | given one open shift of the employee, there is an open shift with the latest clock-in (the row `ORDER BY clock_in_time DESC LIMIT 1` picks) |
| Repository.WorkingTimeTable.constructor | internal/ports/repository/workingtime_repo.go:30-32 | a new table is empty and satisfies the invariant |
| Repository.WorkingTimeTable.CreateCheckIn | internal/ports/repository/workingtime_repo.go:35-50 | on success it returns the fresh id and the table becomes Insert of the old one; a fault returns the error and changes nothing |
| Repository.WorkingTimeTable.UpdateCheckOut | internal/ports/repository/workingtime_repo.go:53-65 | the table becomes CheckOut of the old one, or is unchanged on a fault, which is returned |
| Repository.WorkingTimeTable.UpdateLaborStatus | internal/ports/repository/workingtime_repo.go:68-78 | the table becomes SetLabor of the old one, or is unchanged on a fault, which is returned; the table invariant is kept |
| Repository.WorkingTimeTable.UpdateEmailStatus | internal/ports/repository/workingtime_repo.go:137-141 | the table becomes SetEmail of the old one, or is unchanged on a fault, which is returned; the table invariant is kept |
| Repository.WorkingTimeTable.FindLastCheckIn | internal/ports/repository/workingtime_repo.go:81-106 | no row exactly when the employee has no open shift; otherwise the open shift with the latest clock-in, carrying only the id, clock-in, labor status, labor count and employee id |
| Repository.WorkingTimeTable.GetStatus | internal/ports/repository/workingtime_repo.go:109-119 | returns the labor status of the row, and an error for a missing row or a fault |
| Repository.WorkingTimeTable.GetCheckInOut | internal/ports/repository/workingtime_repo.go:122-134 | returns what Fetch specifies for the current table |
| CheckIn.CheckInOpensOne | internal/core/checkin_service.go:28-40 | a check-in for an employee with no open shift keeps the invariant and leaves exactly one open shift, the new row |
| CheckIn.CheckOutClosesOnly | internal/core/checkin_service.go:43-49 | closing an employee's only open shift keeps the invariant and leaves the employee with no open shift |
| CheckIn.CheckOutKeepsOthers | internal/core/checkin_service.go:43-49 | closing an open shift of one employee leaves every other employee's open shifts exactly as they were |
| CheckIn.CheckOutStep | internal/core/checkin_service.go:43-49 | closing the employee's latest open shift keeps the invariant and the other employees' open shifts, and when that was the employee's only open shift, leaves none |
| CheckIn.ToggleKeepsOthers | internal/core/checkin_service.go:21-55 | a successful call leaves every other employee's open shifts exactly as they were |
| CheckIn.ToggleFlips | internal/core/checkin_service.go:21-55 | a successful call flips whether the employee has an open shift; it keeps the invariant and the one-open-shift discipline, and leaves other employees' shifts alone |
| CheckIn.AlternationAlongRun | internal/core/checkin_service.go:21-55 | along any run of successful calls, check-ins and check-outs alternate: after n calls, an open shift exists exactly when one existed at the start xor n is odd |
| CheckIn.CheckInService.constructor | internal/core/checkin_service.go:15-19 | the service keeps the repository it is given |
| CheckIn.CheckInService.CheckInOut | internal/core/checkin_service.go:21-55 | it fails exactly when the lookup or the write fails, and then changes nothing; with no open shift it inserts one and returns the new id, employee and clock-in; otherwise it closes the latest open shift and returns that record with the clock-out and the hours |
| Worker.Dispatch | internal/worker/consumer.go:65-89 | success deletes the message whatever the retry flag says; a retryable error sets the visibility timeout to exactly the delay; an unrecoverable error makes no queue call |
| Worker.Polls | internal/worker/consumer.go:41-50 | the loop makes one receive call per tick before the first cancelled tick, and none after it |
| Worker.UntouchedHandleKept | internal/worker/consumer.go:56-58 | a handle that no message of the batch acts on keeps its place and timeout; this covers other messages' handles and every unrecoverable message |
| Worker.RetrySetsTimeout | internal/worker/consumer.go:68-76 | a retry sets the message's timeout to exactly the delay when the queue accepts it; a delay outside 0..43200 is refused, the error is ignored, and the message keeps its timeout |
| Worker.DeletedStaysDeleted | internal/worker/consumer.go:79-84 | once a handle is deleted, no later message of the batch brings it back |
| Worker.SucceededMessageDeleted | internal/worker/consumer.go:56-58 | every message of a batch whose processing succeeded is gone from the queue after the batch, in a queue that accepts every delete (see Left out) |
| Worker.RunSteps | internal/worker/consumer.go:41-54 | a cancelled tick ends the loop with nothing changed; a receive error changes nothing and the loop goes on |
| Worker.Queue.constructor | internal/worker/consumer.go:11-15 | a new queue has no in-flight messages and no requests |
| Worker.Queue.ReceiveMessage | internal/worker/consumer.go:12 | the request is recorded, and the handles of the returned messages enter flight with the default timeout |
| Worker.Queue.DeleteMessage | internal/worker/consumer.go:13 | the handle leaves the queue; the call never fails (see Left out) |
| Worker.Queue.ChangeMessageVisibility | internal/worker/consumer.go:14 | the handle's timeout becomes the one given, if the handle is still in flight and the timeout is within 0..43200; otherwise nothing changes; no other failure is modelled (see Left out) |
| Worker.Worker.constructor | internal/worker/consumer.go:32-34 | the worker keeps its queue and URL and has handled nothing |
| Worker.Worker.HandleMessage | internal/worker/consumer.go:65-89 | the queue changes exactly as Dispatch prescribes for the processor's outcome, and no receive is made |
| Worker.Worker.HandleAll | internal/worker/consumer.go:56-58 | the messages of a batch are handled one at a time, in the order received |
| Worker.Worker.Poll | internal/worker/consumer.go:46-58 | one turn of the loop: one receive request with 10 messages and a 20-second wait, then every returned message handled in order; a receive error changes nothing else |
| Worker.Worker.Start | internal/worker/consumer.go:38-61 | until cancellation, every turn sends the same receive request (10 messages, 20-second wait) and hands every received message to the processor in order; the queue ends as Run prescribes |
| Labor.ReadyToTrip | internal/worker/labor/labor_processor.go:36-40 | the breaker trips exactly when there were at least ten requests and at least half of them failed |
| Labor.TripBoundaries | internal/worker/labor/labor_processor.go:36-40 | 5 failures out of 10 trip; 4 out of 10 do not; 9 out of 9 do not |
| Labor.LaborStepWith | internal/worker/labor/labor_processor.go:52-87 | the delay is between 0 and the cap; a retry is asked for only with an error; at most one call reaches the legacy API; with the GenericCount column (LaborStep) it is the code as written, which counts from the never-scanned RetryCount, and with LaborCount (IntendedLaborStep) it counts from the labor retry count as intended |
| Labor.LaborPoisonMessage | internal/worker/labor/labor_processor.go:54-57 | a body that does not decode gives no retry and an error, changes nothing, and so is left on the queue |
| Labor.LaborLookupFailure | internal/worker/labor/labor_processor.go:61-64 | an unreadable shift is retried after 10 seconds, with nothing written and nothing sent |
| Labor.LaborSuccessCompletes | internal/worker/labor/labor_processor.go:70-86 | an accepted call marks the labor track completed with count 0 and the worker asks the queue to delete the message; if that write fails, the error comes back without a retry and the message is left on the queue |
| Labor.LaborFailureRetries | internal/worker/labor/labor_processor.go:70-83 | a failed or breaker-rejected call stores (pending, count + 1) and asks for a retry after the backoff of that count; the outcome ignores whether the write succeeded; only an admitted call reaches the legacy API |
| Labor.LaborTouchesOnlyLabor | internal/worker/labor/labor_processor.go:79 | Process writes only the labor status and count of the event's own shift, and keeps the table invariant |
| Labor.LaborCompletedStays | internal/worker/labor/labor_processor.go:66-68 | a completed labor track stays completed with the same count, whatever message is processed |
| Labor.LaborCompletedIdempotent | internal/worker/labor/labor_processor.go:66-68 | redelivering the message of a completed shift, any number of times, writes nothing and calls nothing; a delivery that reads the shift acknowledges it |
| Labor.LaborFailurePersistsCountOne | internal/worker/labor/labor_processor.go:78-82 | as written, after any number of failed calls the stored labor count is 1, and the delay is 20 seconds |
| Labor.IntendedLaborFailureIncrements | internal/worker/labor/labor_processor.go:78-82 | counting from the labor retry count, n failed calls raise the stored count by n, and the delay is Backoff of the new count |
| Labor.LegacyApi.constructor | internal/worker/legacyAPI/client.go:27-34 | a new client has no attempted calls |
| Labor.LegacyApi.RecordCheckOut | internal/worker/legacyAPI/client.go:37-61 | the call is attempted and its event appended to `attempted`; it fails exactly when `ok` is false, which stands for a marshal or request-building error, a transport error, the 10-second timeout, or a status of 300 or more |
| Labor.LaborProcessor.constructor | internal/worker/labor/labor_processor.go:30-48 | the processor keeps its repository and legacy client |
| Labor.LaborProcessor.Process | internal/worker/labor/labor_processor.go:52-87 | on a valid table: the table stays valid, and the outcome, the table afterwards and the calls attempted on the legacy API are those of IntendedLaborStep |
| Email.Recipient | internal/worker/email/email_processor.go:51 | the address is the employee id followed by `@factory.com` |
| Email.EmployeeOf | internal/worker/email/email_processor.go:51 | exactly the addresses ending in the factory domain give back an employee id |
| Email.RecipientRoundTrip | internal/worker/email/email_processor.go:51 | the address gives back its employee, and no two employees share an address |
| Email.EmailStep | internal/worker/email/email_processor.go:33-62 | the delay is between 0 and the cap; a retry is asked for only with an error; at most one mail is attempted |
| Email.EmailPoisonMessage | internal/worker/email/email_processor.go:35-38 | a body that does not decode gives no retry and an error, changes nothing, and so is left on the queue |
| Email.EmailLookupFailure | internal/worker/email/email_processor.go:40-44 | an unreadable shift is retried after 10 seconds, with nothing written and nothing sent |
| Email.EmailSuccessCompletes | internal/worker/email/email_processor.go:51-61 | the summary goes to the event's employee at the factory domain, with the event's hours; success marks the email track completed with count 0 and the worker asks the queue to delete the message, unless that write fails |
| Email.EmailFailureRetries | internal/worker/email/email_processor.go:51-58 | a failed send stores (pending, email count + 1) and asks for a retry after the backoff of that count; the outcome ignores whether the write succeeded |
| Email.EmailTouchesOnlyEmail | internal/worker/email/email_processor.go:54 | Process writes only the email status and count of the event's own shift, and keeps the table invariant |
| Email.EmailCompletedIdempotent | internal/worker/email/email_processor.go:46-49 | redelivering the message of a shift whose mail was sent, any number of times, writes nothing and sends nothing |
| Email.EmailFailureIncrements | internal/worker/email/email_processor.go:52-57 | n failed sends raise the stored email count by n; the delay is Backoff of the new count; every delivery attempts the same mail |
| Email.Mailer.constructor | internal/core/email_service.go:25-27 | a new mail service has no attempted sends |
| Email.Mailer.SendCheckOutSummary | internal/core/email_service.go:29-58 | the send is attempted and its mail appended to `attempted`; it fails exactly when `ok` is false, which stands for any error the mail service call returns |
| Email.EmailProcessor.constructor | internal/worker/email/email_processor.go:24-29 | the processor keeps its mail service and repository |
| Email.EmailProcessor.Process | internal/worker/email/email_processor.go:33-62 | on a valid table: the table stays valid, and the outcome, the table afterwards and the mails attempted are those of EmailStep |

## Left out

- Clock, floating point: times are integers and hours worked is an integer duration, not `float64` hours; `time.Now()` is the `now` parameter.
- The breaker's state machine (closed, open and half-open; the 60-second interval, the 30-second open timeout, 5 half-open requests) is library code. Only its trip rule (TripMinRequests and the failure ratio) and its verdict for each call are modelled.
- JSON encoding and decoding, the SQL driver, the queue, mail and HTTP transports: modelled as parameters or as the small classes above. The HTTP body and status codes of the legacy call are reduced to "accepted or not".
- Telemetry, logging and span attributes: not modelled.
- Concurrency: several workers, and check-in calls racing on one employee, are not modelled; each operation is atomic.
- A failed write changes nothing: partial commits are not modelled.
- The table schema is not part of this model. It is assumed that hours_worked has no default, so a row is NULL there from its INSERT until its check-out. Repository.Fetch's NullColumn error rests on that assumption.
- The queue's own settings (its default visibility timeout, retention period and redrive policy) are not part of this model. Queue.defaultTimeout is a parameter, and the timeout range 0..43200 is the queue service's documented limit.
- 64-bit id and count overflow: ids and counts are unbounded integers.
- UpdateWorkingTimeStatus (internal/core/checkin_service.go:57-59) calls a repository method `UpdateStatus` that the repository does not declare. The `Status` field and `StatusPending` that CheckInOut sets do not exist in model.go either. Both are left out. The three-argument call to UpdateCheckOut is modelled with the employee id as the fourth argument.
- Labor.LaborProcessor.Process: counts failures from the labor retry count, as intended, and not from `RetryCount` as written. The as-written step is LaborStep; see Findings.
- Worker.Worker.Start: the Go loop runs until cancellation. The model runs through a finite tick script and stops at its end or at the first cancelled tick.
- Labor.ReadyToTrip: the ratio is computed on reals. Float64 division of two 32-bit counts, compared with 0.5, gives the same answer, but that equivalence is argued here rather than proved.
- Poison messages: a message that does not decode returns an error without a retry, so the worker neither deletes it nor changes its visibility. It reappears after the queue's own visibility timeout, and is redelivered until the queue's redrive policy, if there is one, moves it away. This is modelled as written (LaborPoisonMessage, EmailPoisonMessage, UntouchedHandleKept).
- Worker.Queue.DeleteMessage: in the Go code the call can fail for any reason the queue service gives (consumer.go:13), and handleMessage ignores the error (consumer.go:81-84). A failed delete leaves the message to reappear after its visibility timeout. The model's queue never fails a delete, so "the message is deleted" in SucceededMessageDeleted, LaborSuccessCompletes and EmailSuccessCompletes holds for a queue that accepts the delete.
- Worker.Queue.ChangeMessageVisibility: in the Go code the call can fail for any reason the queue service gives (consumer.go:14), and handleMessage ignores the error (consumer.go:71), so the message keeps its old timeout. The model's queue fails it only for a handle no longer in flight or a timeout outside 0..43200.
- The HTTP entry point and the publishing of check-out events are not part of this model. In the code as written, the check-in route's handler (internal/api/router.go:16-22) is an empty stub. The other handler (internal/api/handler/handler.go:31) calls a ProcessCheckInOut method that CheckInService does not declare. CheckInOut holds no producer, and nothing calls PublishLabor or PublishEmail. So, as written, nothing connects a check-out to either queue; the workers are modelled on the events they consume.
- Email.EmailStep: the delay is the capped Backoff(emailRetryCount + 1), which is at most 3600 for every count. From count 28 on, the Go code's `int32(math.Pow(2, n) * 10)` leaves the int32 range, and Go's conversion is implementation-defined (CalculateBackoffOverflowsAt28; see Findings). The model uses the capped delay from count 28 on instead. Email.EmailFailureRetries and Email.EmailProcessor.Process inherit this.
- For a failed labor call going from count 2 to 3, the code's schedule gives 80 seconds (BackoffSchedule). As written, the processor instead stores count 1 and asks for 20 seconds (LaborFailurePersistsCountOne).
- The check-out step of CheckInOut does not reset the email track; the repository's UPDATE only sets the labor status to pending. This is modelled as written.

## Findings

| source | as written | input that shows it | evidently intended | confidence | as-written member | corrected member |
|---|---|---|---|---|---|---|
| internal/worker/labor/labor_processor.go:78 | the failure path counts from `record.RetryCount`, which GetCheckInOut never selects, so it is always 0 | any shift whose legacy call fails twice: the stored labor count stays 1 and the delay stays 20 seconds | count from `LaborRetryCount`, so the count grows and the delay backs off | high, not executed | Labor.LaborFailurePersistsCountOne | Labor.IntendedLaborFailureIncrements |
| internal/worker/email/email_processor.go:67 | `int32(math.Pow(2, n) * 10)` leaves the int32 range from n = 28, where Go's conversion is implementation-defined; on amd64 it is negative, so the cap check passes it through, and the queue refuses the timeout (RetrySetsTimeout) | an email whose send fails 28 times in a row (retry count 28) | the one-hour cap for every count: `min(10 * 2^n, 3600)` | medium, not executed | RetryBackoff.CalculateBackoffOverflowsAt28 | RetryBackoff.Backoff |
