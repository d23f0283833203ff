/**
 * The labor-queue processor of internal/worker/labor/labor_processor.go.
 *
 * Process decodes a check-out event, reads the shift, skips it when the labor
 * track is already completed, and otherwise reports the check-out to the
 * legacy API through a circuit breaker. A failed call stores the track as
 * pending with an incremented retry count and asks for a retry after the
 * backoff; a successful one stores it as completed.
 *
 * The breaker itself is a library; what it decides for a call is the verdict
 * parameter (rejected because open, or admitted and then succeeding or not).
 * Driver failures are the readFault and writeFault parameters, and JSON
 * decoding is the decode parameter.
 */
module Labor {
  import opened Wrappers
  import opened Model
  import opened RetryBackoff
  import opened Repository
  import Worker

  /** The fewest requests in the breaker's window before its trip rule can open it. */
  const TripMinRequests := 10

  /** The delay asked for when the shift cannot be read. */
  const LookupRetryDelay := 10

  /** gobreaker.Counts: the breaker's request statistics in the current interval. */
  datatype Counts = Counts(
    requests: nat,
    totalSuccesses: nat,
    totalFailures: nat,
    consecutiveSuccesses: nat,
    consecutiveFailures: nat)

  lemma RatioAtLeastHalf(failures: nat, requests: nat)
    requires requests > 0
    ensures (failures as real) / (requests as real) >= 0.5 <==> 2 * failures >= requests
  {
  }

  /**
   * ReadyToTrip: the breaker opens once at least ten requests were made and
   * at least half of them failed; the quotient is a real here, as float64
   * division of two 32-bit counts followed by a comparison with 0.5 is exact.
   */
  function ReadyToTrip(counts: Counts): (trip: bool)
    ensures trip <==> counts.requests >= TripMinRequests && 2 * counts.totalFailures >= counts.requests
  {
    if counts.requests >= TripMinRequests then
      RatioAtLeastHalf(counts.totalFailures, counts.requests);
      (counts.totalFailures as real) / (counts.requests as real) >= 0.5
    else
      false
  }

  /** Boundary cases of the trip rule: exactly half of ten trips; fewer than ten never trips. */
  lemma TripBoundaries()
    ensures ReadyToTrip(Counts(10, 5, 5, 0, 5))
    ensures !ReadyToTrip(Counts(10, 6, 4, 6, 0))
    ensures !ReadyToTrip(Counts(9, 0, 9, 0, 9))
    ensures ReadyToTrip(Counts(100, 0, 100, 0, 100))
  {
  }

  /** What the breaker does with one call. */
  datatype BreakerVerdict = Rejected | Admitted(succeeds: bool)

  /** Everything outside the processor that decides one run of Process. */
  datatype LaborEnv = LaborEnv(readFault: bool, verdict: BreakerVerdict, writeFault: bool)

  /**
   * The field the failure path increments: the code reads the generic
   * RetryCount, which GetCheckInOut never fills; the labor track's own count
   * is what the retry scheme is built on.
   */
  datatype CountColumn = GenericCount | LaborCount

  function PriorCount(record: WorkingTime, column: CountColumn): int {
    match column
    case GenericCount => record.retryCount
    case LaborCount => record.laborRetryCount
  }

  /** One run of Process: its outcome, the table afterwards, and the calls attempted on the legacy API. */
  datatype LaborResult = LaborResult(outcome: Worker.Outcome, state: TableState, calls: seq<CheckOutEvent>)

  function LaborStepWith(s: TableState, body: string, decode: string -> Option<CheckOutEvent>,
                         env: LaborEnv, column: CountColumn): (r: LaborResult)
    ensures 0 <= r.outcome.retryDelay <= MaxDelay
    ensures r.outcome.shouldRetry ==> r.outcome.err.Some?
    ensures |r.calls| <= 1
  {
    match decode(body)
    case None => LaborResult(Worker.Outcome(false, 0, Some(Malformed)), s, [])
    case Some(event) =>
      var id := event.workingTimeId;
      match Fetch(s, id, env.readFault)
      case Err(e) => LaborResult(Worker.Outcome(true, LookupRetryDelay, Some(LookupFailed(e))), s, [])
      case Ok(record) =>
        if record.laborStatus == Completed then
          LaborResult(Worker.Outcome(false, 0, None), s, [])
        else
          var calls := if env.verdict.Admitted? then [event] else [];
          if env.verdict == Admitted(true) then
            if env.writeFault then LaborResult(Worker.Outcome(false, 0, Some(DriverFault)), s, calls)
            else LaborResult(Worker.Outcome(false, 0, None), SetLabor(s, id, Completed, 0), calls)
          else
            var newCount := PriorCount(record, column) + 1;
            var err := if env.verdict.Rejected? then BreakerOpen else LegacyFailure;
            var t := if env.writeFault then s else SetLabor(s, id, Pending, newCount);
            LaborResult(Worker.Outcome(true, Backoff(newCount), Some(err)), t, calls)
  }

  /** Process as written, counting from the generic RetryCount. */
  function LaborStep(s: TableState, body: string, decode: string -> Option<CheckOutEvent>, env: LaborEnv): LaborResult {
    LaborStepWith(s, body, decode, env, GenericCount)
  }

  /** Process as evidently intended, counting from the labor retry count. */
  function IntendedLaborStep(s: TableState, body: string, decode: string -> Option<CheckOutEvent>, env: LaborEnv): LaborResult {
    LaborStepWith(s, body, decode, env, LaborCount)
  }

  /** The same message delivered once per environment, in order: the last outcome, the final table, all calls. */
  function Redeliver(s: TableState, body: string, decode: string -> Option<CheckOutEvent>,
                     envs: seq<LaborEnv>, column: CountColumn): LaborResult
    requires |envs| >= 1
    decreases |envs|
  {
    var first := LaborStepWith(s, body, decode, envs[0], column);
    if |envs| == 1 then first
    else
      var rest := Redeliver(first.state, body, decode, envs[1..], column);
      LaborResult(rest.outcome, rest.state, first.calls + rest.calls)
  }

  /** A body that does not decode is dropped without a retry, so the worker leaves it on the queue. */
  lemma LaborPoisonMessage(s: TableState, body: string, decode: string -> Option<CheckOutEvent>,
                           env: LaborEnv, column: CountColumn, h: Worker.Handle)
    requires decode(body).None?
    ensures var r := LaborStepWith(s, body, decode, env, column);
      && r.outcome == Worker.Outcome(false, 0, Some(Malformed))
      && r.state == s && r.calls == []
      && Worker.Dispatch(r.outcome, h) == Worker.Leave
  {
  }

  /** A shift that cannot be read is retried after ten seconds, with nothing written and nothing sent. */
  lemma LaborLookupFailure(s: TableState, body: string, decode: string -> Option<CheckOutEvent>,
                           env: LaborEnv, column: CountColumn, h: Worker.Handle)
    requires decode(body).Some?
    requires Fetch(s, decode(body).value.workingTimeId, env.readFault).Err?
    ensures var r := LaborStepWith(s, body, decode, env, column);
      && r.outcome == Worker.Outcome(true, LookupRetryDelay,
                                     Some(LookupFailed(Fetch(s, decode(body).value.workingTimeId, env.readFault).error)))
      && r.state == s && r.calls == []
      && Worker.Dispatch(r.outcome, h) == Worker.ChangeVisibility(h, LookupRetryDelay)
  {
  }

  /**
   * A call the breaker admits and the legacy API accepts marks the labor track
   * completed with count zero and the message is deleted; if that write fails
   * the error is returned without a retry, so the message is left on the queue
   * and the legacy API has already been called.
   */
  lemma LaborSuccessCompletes(s: TableState, body: string, decode: string -> Option<CheckOutEvent>,
                              env: LaborEnv, column: CountColumn, h: Worker.Handle)
    requires decode(body).Some? && env.verdict == Admitted(true)
    requires Fetch(s, decode(body).value.workingTimeId, env.readFault).Ok?
    requires Fetch(s, decode(body).value.workingTimeId, env.readFault).value.laborStatus != Completed
    ensures var r := LaborStepWith(s, body, decode, env, column);
      var id := decode(body).value.workingTimeId;
      && r.calls == [decode(body).value]
      && (!env.writeFault ==>
            && r.outcome == Worker.Outcome(false, 0, None)
            && r.state == SetLabor(s, id, Completed, 0)
            && Worker.Dispatch(r.outcome, h) == Worker.Delete(h))
      && (env.writeFault ==>
            && r.outcome == Worker.Outcome(false, 0, Some(DriverFault))
            && r.state == s
            && Worker.Dispatch(r.outcome, h) == Worker.Leave)
  {
  }

  /**
   * A failed call, including a rejection by the open breaker, stores the track
   * as pending with the count one higher and asks for a retry after the backoff
   * of that count. The outcome is the same whether or not that write succeeds,
   * and only an admitted call reaches the legacy API.
   */
  lemma LaborFailureRetries(s: TableState, body: string, decode: string -> Option<CheckOutEvent>,
                            env: LaborEnv, column: CountColumn)
    requires decode(body).Some? && env.verdict != Admitted(true)
    requires Fetch(s, decode(body).value.workingTimeId, env.readFault).Ok?
    requires Fetch(s, decode(body).value.workingTimeId, env.readFault).value.laborStatus != Completed
    ensures var r := LaborStepWith(s, body, decode, env, column);
      var event := decode(body).value;
      var n := PriorCount(Fetch(s, event.workingTimeId, env.readFault).value, column) + 1;
      && r.outcome == Worker.Outcome(true, Backoff(n), Some(if env.verdict.Rejected? then BreakerOpen else LegacyFailure))
      && r.state == (if env.writeFault then s else SetLabor(s, event.workingTimeId, Pending, n))
      && r.calls == (if env.verdict.Rejected? then [] else [event])
  {
  }

  /** Process writes nothing but the labor status and count of the event's shift. */
  lemma LaborTouchesOnlyLabor(s: TableState, body: string, decode: string -> Option<CheckOutEvent>,
                              env: LaborEnv, column: CountColumn)
    ensures var t := LaborStepWith(s, body, decode, env, column).state;
      && t.nextId == s.nextId && t.rows.Keys == s.rows.Keys
      && (forall k :: k in s.rows ==> SameOutsideLabor(s.rows[k], t.rows[k]))
      && (ValidState(s) ==> ValidState(t))
      && (decode(body).Some? ==> forall k :: k in s.rows && k != decode(body).value.workingTimeId ==> t.rows[k] == s.rows[k])
  {
  }

  /** A completed labor track stays completed, with the same count, whatever message is processed. */
  lemma LaborCompletedStays(s: TableState, body: string, decode: string -> Option<CheckOutEvent>,
                            env: LaborEnv, column: CountColumn, id: int)
    requires id in s.rows && s.rows[id].laborStatus == Completed
    ensures var t := LaborStepWith(s, body, decode, env, column).state;
      id in t.rows && t.rows[id].laborStatus == Completed && t.rows[id].laborRetryCount == s.rows[id].laborRetryCount
  {
    var t := LaborStepWith(s, body, decode, env, column).state;
    if decode(body).Some? && decode(body).value.workingTimeId == id && Fetch(s, id, env.readFault).Ok? {
      assert Fetch(s, id, env.readFault).value.laborStatus == Completed;
      assert t == s;
    }
  }

  /**
   * Redelivering a message whose shift is completed changes nothing and calls
   * nothing, however often it arrives; each delivery that can read the shift
   * acknowledges it.
   */
  lemma {:induction false} LaborCompletedIdempotent(s: TableState, body: string, decode: string -> Option<CheckOutEvent>,
                                                     envs: seq<LaborEnv>, column: CountColumn)
    requires |envs| >= 1 && decode(body).Some?
    requires decode(body).value.workingTimeId in s.rows
    requires s.rows[decode(body).value.workingTimeId].laborStatus == Completed
    ensures var r := Redeliver(s, body, decode, envs, column);
      && r.state == s && r.calls == []
      && (!envs[|envs| - 1].readFault && s.rows[decode(body).value.workingTimeId].hoursWorked.Some? ==>
            r.outcome == Worker.Outcome(false, 0, None))
    decreases |envs|
  {
    var first := LaborStepWith(s, body, decode, envs[0], column);
    assert first.state == s && first.calls == [];
    if |envs| > 1 {
      LaborCompletedIdempotent(s, body, decode, envs[1..], column);
      assert envs[1..][|envs[1..]| - 1] == envs[|envs| - 1];
    }
  }

  /** A message whose legacy call fails on every delivery, with every read and write going through. */
  ghost predicate AlwaysFails(s: TableState, body: string, decode: string -> Option<CheckOutEvent>, envs: seq<LaborEnv>) {
    && decode(body).Some?
    && decode(body).value.workingTimeId in s.rows
    && s.rows[decode(body).value.workingTimeId].hoursWorked.Some?
    && s.rows[decode(body).value.workingTimeId].laborStatus != Completed
    && forall i :: 0 <= i < |envs| ==> !envs[i].readFault && !envs[i].writeFault && envs[i].verdict != Admitted(true)
  }

  /**
   * As written: however many times the legacy call fails, the stored labor
   * retry count is 1 and the delay 20 seconds, because the count is taken from
   * a field the read never fills.
   */
  lemma {:induction false} LaborFailurePersistsCountOne(s: TableState, body: string, decode: string -> Option<CheckOutEvent>,
                                                         envs: seq<LaborEnv>)
    requires |envs| >= 1 && AlwaysFails(s, body, decode, envs)
    ensures var r := Redeliver(s, body, decode, envs, GenericCount);
      && r.state == SetLabor(s, decode(body).value.workingTimeId, Pending, 1)
      && r.outcome.shouldRetry && r.outcome.retryDelay == 20 && r.outcome.err.Some?
    decreases |envs|
  {
    var id := decode(body).value.workingTimeId;
    var first := LaborStepWith(s, body, decode, envs[0], GenericCount);
    Pow2Landmarks();
    assert first.state == SetLabor(s, id, Pending, 1);
    if |envs| > 1 {
      var rest := envs[1..];
      assert AlwaysFails(first.state, body, decode, rest) by {
        forall i | 0 <= i < |rest|
          ensures !rest[i].readFault && !rest[i].writeFault && rest[i].verdict != Admitted(true)
        {
          assert rest[i] == envs[i + 1];
        }
      }
      LaborFailurePersistsCountOne(first.state, body, decode, rest);
      assert SetLabor(first.state, id, Pending, 1) == first.state;
    }
  }

  /**
   * As intended: each failed delivery stores a count one higher, and the
   * delay follows the backoff of that count.
   */
  lemma {:induction false} IntendedLaborFailureIncrements(s: TableState, body: string,
                                                           decode: string -> Option<CheckOutEvent>, envs: seq<LaborEnv>)
    requires |envs| >= 1 && AlwaysFails(s, body, decode, envs)
    ensures var id := decode(body).value.workingTimeId;
      var n := s.rows[id].laborRetryCount + |envs|;
      var r := Redeliver(s, body, decode, envs, LaborCount);
      && r.state == SetLabor(s, id, Pending, n)
      && r.outcome == Worker.Outcome(true, Backoff(n), r.outcome.err)
      && r.outcome.err.Some?
    decreases |envs|
  {
    var id := decode(body).value.workingTimeId;
    var first := LaborStepWith(s, body, decode, envs[0], LaborCount);
    assert first.state == SetLabor(s, id, Pending, s.rows[id].laborRetryCount + 1);
    if |envs| > 1 {
      var rest := envs[1..];
      assert AlwaysFails(first.state, body, decode, rest) by {
        forall i | 0 <= i < |rest|
          ensures !rest[i].readFault && !rest[i].writeFault && rest[i].verdict != Admitted(true)
        {
          assert rest[i] == envs[i + 1];
        }
      }
      IntendedLaborFailureIncrements(first.state, body, decode, rest);
      var n := s.rows[id].laborRetryCount + |envs|;
      assert SetLabor(first.state, id, Pending, n) == SetLabor(s, id, Pending, n);
    }
  }

  /** legacyAPI.LegacyAPIClient: every call attempted on it, in order. */
  class LegacyApi {
    /** The events of every RecordCheckOut call, whether or not it succeeded. */
    var attempted: seq<CheckOutEvent>

    constructor ()
      ensures attempted == []
    {
      attempted := [];
    }

    /**
     * RecordCheckOut: the call is attempted and recorded. It fails exactly
     * when ok is false, which stands for every way the HTTP call can fail: a
     * payload or request that cannot be built, a transport error, the
     * ten-second client timeout, or a status of 300 or more.
     */
    method RecordCheckOut(event: CheckOutEvent, ok: bool) returns (err: Option<Error>)
      modifies this
      ensures attempted == old(attempted) + [event]
      ensures err == if ok then None else Some(LegacyFailure)
    {
      attempted := attempted + [event];
      err := if ok then None else Some(LegacyFailure);
    }
  }

  /** LaberProcessor: the repository and the legacy client it was built with. */
  class LaborProcessor {
    const repo: WorkingTimeTable
    const legacy: LegacyApi

    constructor (repo: WorkingTimeTable, legacy: LegacyApi)
      ensures this.repo == repo && this.legacy == legacy
    {
      this.repo := repo;
      this.legacy := legacy;
    }

    /**
     * Process, with the retry count taken from the labor track as intended:
     * it does what IntendedLaborStep describes, to the table and to the legacy
     * API. LaborStep keeps the count as written.
     */
    method Process(msg: Worker.Message, decode: string -> Option<CheckOutEvent>, env: LaborEnv)
      returns (o: Worker.Outcome)
      requires repo.Valid()
      modifies repo, legacy
      ensures repo.Valid()
      ensures var r := IntendedLaborStep(old(repo.State()), msg.body, decode, env);
        && o == r.outcome
        && repo.State() == r.state
        && legacy.attempted == old(legacy.attempted) + r.calls
    {
      var decoded := decode(msg.body);
      if decoded.None? {
        return Worker.Outcome(false, 0, Some(Malformed));
      }
      var event := decoded.value;
      var record := repo.GetCheckInOut(event.workingTimeId, env.readFault);
      if record.Err? {
        return Worker.Outcome(true, LookupRetryDelay, Some(LookupFailed(record.error)));
      }
      if record.value.laborStatus == Completed {
        return Worker.Outcome(false, 0, None);
      }
      var err: Option<Error>;
      match env.verdict {
        case Rejected =>
          err := Some(BreakerOpen);
        case Admitted(succeeds) =>
          err := legacy.RecordCheckOut(event, succeeds);
      }
      if err.Some? {
        var newCount := record.value.laborRetryCount + 1;
        var _ := repo.UpdateLaborStatus(event.workingTimeId, Pending, newCount, env.writeFault);
        var delay := Backoff(newCount);
        return Worker.Outcome(true, delay, err);
      }
      err := repo.UpdateLaborStatus(event.workingTimeId, Completed, 0, env.writeFault);
      return Worker.Outcome(false, 0, err);
    }
  }
}
