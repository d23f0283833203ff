/**
 * The records and payloads of the check-in service (internal/core/model/model.go
 * and internal/ports/messaging/events.go).
 *
 * Clock readings are integers and hours worked is the integer duration
 * clock-out minus clock-in; the source uses time.Time and float64 hours.
 */
module Model {
  import opened Wrappers

  /**
   * The processing state of one side-effect track (labor or email).
   * Go declares two string types with the same four values; Unset stands for
   * the zero value "" that a freshly allocated WorkingTime carries.
   */
  datatype Status = Unset | Pending | Processing | Completed | Failed

  /** model.WorkingTime: one shift as the Go code passes it around. */
  datatype WorkingTime = WorkingTime(
    id: int,
    employeeId: string,
    clockIn: int,
    clockOut: Option<int>,
    hoursWorked: int,
    retryCount: int,
    laborStatus: Status,
    emailStatus: Status,
    laborRetryCount: int,
    emailRetryCount: int)

  /** A WorkingTime with every field at Go's zero value. */
  const ZeroWorkingTime := WorkingTime(0, "", 0, None, 0, 0, Unset, Unset, 0, 0)

  /** messaging.CheckOutEvent: the payload of the labor queue. */
  datatype CheckOutEvent = CheckOutEvent(
    workingTimeId: int,
    employeeId: string,
    hoursWorked: int,
    clockOutTime: int)

  /** messaging.EmailEvent: the payload of the email queue. */
  datatype EmailEvent = EmailEvent(
    workingTimeId: int,
    employeeId: string,
    hoursWorked: int,
    occurredAt: int)

  /** The errors the core produces or passes on. */
  datatype Error =
    | DriverFault                 // the SQL driver or connection failed
    | NoRows                      // sql.ErrNoRows: no row matched
    | NullColumn                  // Scan of a NULL column into a plain value field
    | Malformed                   // json.Unmarshal failed on the message body
    | LookupFailed(cause: Error)  // "failed to get record from db: %w"
    | LegacyFailure               // the legacy API call failed (network or status >= 300)
    | BreakerOpen                 // the circuit breaker rejected the call without making it
    | SendFailure                 // the email sender failed
}
