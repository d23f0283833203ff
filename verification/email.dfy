/**
 * The email-queue processor of internal/worker/email/email_processor.go.
 *
 * Process decodes an email event, reads the shift, skips it when the email
 * track is already completed, and otherwise sends the check-out summary to
 * the employee's factory address. A failed send stores the track as pending
 * with its retry count one higher and asks for a retry after the backoff of
 * that count; a successful one stores it as completed.
 *
 * Whether the mail service accepts the message, and driver failures, are
 * parameters; JSON decoding is the decode parameter.
 */
module Email {
  import opened Wrappers
  import opened Model
  import opened RetryBackoff
  import opened Repository
  import Worker

  /** The domain every summary is addressed to. */
  const FactoryDomain := "@factory.com"

  /** The delay asked for when the shift cannot be read. */
  const LookupRetryDelay := 10

  /** The address of an employee: the employee id followed by the factory domain. */
  function Recipient(employeeId: string): (address: string)
    ensures |address| == |employeeId| + |FactoryDomain|
    ensures address[..|employeeId|] == employeeId && address[|employeeId|..] == FactoryDomain
  {
    employeeId + FactoryDomain
  }

  /** The employee id an address was built from, if it is a factory address. */
  function EmployeeOf(address: string): (employeeId: Option<string>)
    ensures employeeId.Some? <==> |address| >= |FactoryDomain| && address[|address| - |FactoryDomain|..] == FactoryDomain
  {
    if |address| >= |FactoryDomain| && address[|address| - |FactoryDomain|..] == FactoryDomain then
      Some(address[..|address| - |FactoryDomain|])
    else
      None
  }

  /** Every employee gets an address of their own, and the address gives the employee back. */
  lemma RecipientRoundTrip(employeeId: string, other: string)
    ensures EmployeeOf(Recipient(employeeId)) == Some(employeeId)
    ensures Recipient(employeeId) == Recipient(other) ==> employeeId == other
  {
    var a := Recipient(employeeId);
    assert a[|a| - |FactoryDomain|..] == FactoryDomain;
    assert a[..|a| - |FactoryDomain|] == employeeId;
    if a == Recipient(other) {
      assert |other| == |employeeId|;
      assert other == Recipient(other)[..|other|];
    }
  }

  /** One summary handed to the mail service. */
  datatype Mail = Mail(to: string, hours: int)

  /** Everything outside the processor that decides one run of Process. */
  datatype EmailEnv = EmailEnv(readFault: bool, sendOk: bool, writeFault: bool)

  /** One run of Process: its outcome, the table afterwards, and the mails attempted. */
  datatype EmailResult = EmailResult(outcome: Worker.Outcome, state: TableState, mails: seq<Mail>)

  function EmailStep(s: TableState, body: string, decode: string -> Option<EmailEvent>, env: EmailEnv): (r: EmailResult)
    ensures 0 <= r.outcome.retryDelay <= MaxDelay
    ensures r.outcome.shouldRetry ==> r.outcome.err.Some?
    ensures |r.mails| <= 1
  {
    match decode(body)
    case None => EmailResult(Worker.Outcome(false, 0, Some(Malformed)), s, [])
    case Some(event) =>
      var id := event.workingTimeId;
      match Fetch(s, id, env.readFault)
      case Err(e) => EmailResult(Worker.Outcome(true, LookupRetryDelay, Some(LookupFailed(e))), s, [])
      case Ok(record) =>
        if record.emailStatus == Completed then
          EmailResult(Worker.Outcome(false, 0, None), s, [])
        else
          var mails := [Mail(Recipient(event.employeeId), event.hoursWorked)];
          if env.sendOk then
            if env.writeFault then EmailResult(Worker.Outcome(false, 0, Some(DriverFault)), s, mails)
            else EmailResult(Worker.Outcome(false, 0, None), SetEmail(s, id, Completed, 0), mails)
          else
            var newCount := record.emailRetryCount + 1;
            var t := if env.writeFault then s else SetEmail(s, id, Pending, newCount);
            EmailResult(Worker.Outcome(true, Backoff(newCount), Some(SendFailure)), t, mails)
  }

  /** The same message delivered once per environment, in order: the last outcome, the final table, all mails. */
  function Redeliver(s: TableState, body: string, decode: string -> Option<EmailEvent>, envs: seq<EmailEnv>): EmailResult
    requires |envs| >= 1
    decreases |envs|
  {
    var first := EmailStep(s, body, decode, envs[0]);
    if |envs| == 1 then first
    else
      var rest := Redeliver(first.state, body, decode, envs[1..]);
      EmailResult(rest.outcome, rest.state, first.mails + rest.mails)
  }

  /** A body that does not decode is dropped without a retry, so the worker leaves it on the queue. */
  lemma EmailPoisonMessage(s: TableState, body: string, decode: string -> Option<EmailEvent>,
                           env: EmailEnv, h: Worker.Handle)
    requires decode(body).None?
    ensures var r := EmailStep(s, body, decode, env);
      && r.outcome == Worker.Outcome(false, 0, Some(Malformed))
      && r.state == s && r.mails == []
      && Worker.Dispatch(r.outcome, h) == Worker.Leave
  {
  }

  /** A shift that cannot be read is retried after ten seconds, with nothing written and nothing sent. */
  lemma EmailLookupFailure(s: TableState, body: string, decode: string -> Option<EmailEvent>,
                           env: EmailEnv, h: Worker.Handle)
    requires decode(body).Some?
    requires Fetch(s, decode(body).value.workingTimeId, env.readFault).Err?
    ensures var r := EmailStep(s, body, decode, env);
      && r.outcome == Worker.Outcome(true, LookupRetryDelay,
                                     Some(LookupFailed(Fetch(s, decode(body).value.workingTimeId, env.readFault).error)))
      && r.state == s && r.mails == []
      && Worker.Dispatch(r.outcome, h) == Worker.ChangeVisibility(h, LookupRetryDelay)
  {
  }

  /**
   * For a shift whose email is still due, the summary goes to the event's
   * employee at the factory domain with the event's hours; a successful send
   * marks the email track completed with count zero and the message is
   * deleted, unless that write fails, in which case the message is left on the
   * queue.
   */
  lemma EmailSuccessCompletes(s: TableState, body: string, decode: string -> Option<EmailEvent>,
                              env: EmailEnv, h: Worker.Handle)
    requires decode(body).Some? && env.sendOk
    requires Fetch(s, decode(body).value.workingTimeId, env.readFault).Ok?
    requires Fetch(s, decode(body).value.workingTimeId, env.readFault).value.emailStatus != Completed
    ensures var r := EmailStep(s, body, decode, env);
      var event := decode(body).value;
      && r.mails == [Mail(Recipient(event.employeeId), event.hoursWorked)]
      && (!env.writeFault ==>
            && r.outcome == Worker.Outcome(false, 0, None)
            && r.state == SetEmail(s, event.workingTimeId, Completed, 0)
            && Worker.Dispatch(r.outcome, h) == Worker.Delete(h))
      && (env.writeFault ==>
            && r.outcome == Worker.Outcome(false, 0, Some(DriverFault))
            && r.state == s
            && Worker.Dispatch(r.outcome, h) == Worker.Leave)
  {
  }

  /**
   * A failed send stores the track as pending with the email count one higher
   * and asks for a retry after the backoff of that count; the outcome is the
   * same whether or not that write succeeds.
   */
  lemma EmailFailureRetries(s: TableState, body: string, decode: string -> Option<EmailEvent>, env: EmailEnv)
    requires decode(body).Some? && !env.sendOk
    requires Fetch(s, decode(body).value.workingTimeId, env.readFault).Ok?
    requires Fetch(s, decode(body).value.workingTimeId, env.readFault).value.emailStatus != Completed
    ensures var r := EmailStep(s, body, decode, env);
      var event := decode(body).value;
      var n := s.rows[event.workingTimeId].emailRetryCount + 1;
      && r.outcome == Worker.Outcome(true, Backoff(n), Some(SendFailure))
      && r.state == (if env.writeFault then s else SetEmail(s, event.workingTimeId, Pending, n))
      && r.mails == [Mail(Recipient(event.employeeId), event.hoursWorked)]
  {
  }

  /** Process writes nothing but the email status and count of the event's shift. */
  lemma EmailTouchesOnlyEmail(s: TableState, body: string, decode: string -> Option<EmailEvent>, env: EmailEnv)
    ensures var t := EmailStep(s, body, decode, env).state;
      && t.nextId == s.nextId && t.rows.Keys == s.rows.Keys
      && (forall k :: k in s.rows ==> SameOutsideEmail(s.rows[k], t.rows[k]))
      && (ValidState(s) ==> ValidState(t))
      && (decode(body).Some? ==> forall k :: k in s.rows && k != decode(body).value.workingTimeId ==> t.rows[k] == s.rows[k])
  {
  }

  /**
   * Redelivering a message whose email was already sent changes nothing and
   * sends nothing, however often it arrives; each delivery that can read the
   * shift acknowledges it.
   */
  lemma {:induction false} EmailCompletedIdempotent(s: TableState, body: string, decode: string -> Option<EmailEvent>,
                                                     envs: seq<EmailEnv>)
    requires |envs| >= 1 && decode(body).Some?
    requires decode(body).value.workingTimeId in s.rows
    requires s.rows[decode(body).value.workingTimeId].emailStatus == Completed
    ensures var r := Redeliver(s, body, decode, envs);
      && r.state == s && r.mails == []
      && (!envs[|envs| - 1].readFault && s.rows[decode(body).value.workingTimeId].hoursWorked.Some? ==>
            r.outcome == Worker.Outcome(false, 0, None))
    decreases |envs|
  {
    var first := EmailStep(s, body, decode, envs[0]);
    assert first.state == s && first.mails == [];
    if |envs| > 1 {
      EmailCompletedIdempotent(s, body, decode, envs[1..]);
      assert envs[1..][|envs[1..]| - 1] == envs[|envs| - 1];
    }
  }

  /** A message whose send fails on every delivery, with every read and write going through. */
  ghost predicate AlwaysFails(s: TableState, body: string, decode: string -> Option<EmailEvent>, envs: seq<EmailEnv>) {
    && decode(body).Some?
    && decode(body).value.workingTimeId in s.rows
    && s.rows[decode(body).value.workingTimeId].hoursWorked.Some?
    && s.rows[decode(body).value.workingTimeId].emailStatus != Completed
    && forall i :: 0 <= i < |envs| ==> !envs[i].readFault && !envs[i].writeFault && !envs[i].sendOk
  }

  /**
   * Each failed send stores a retry count one higher, the delay follows the
   * backoff of that count, and every delivery attempts the same mail.
   */
  lemma {:induction false} EmailFailureIncrements(s: TableState, body: string, decode: string -> Option<EmailEvent>,
                                                   envs: seq<EmailEnv>)
    requires |envs| >= 1 && AlwaysFails(s, body, decode, envs)
    ensures var event := decode(body).value;
      var n := s.rows[event.workingTimeId].emailRetryCount + |envs|;
      var r := Redeliver(s, body, decode, envs);
      && r.state == SetEmail(s, event.workingTimeId, Pending, n)
      && r.outcome == Worker.Outcome(true, Backoff(n), Some(SendFailure))
      && |r.mails| == |envs|
      && forall i :: 0 <= i < |r.mails| ==> r.mails[i] == Mail(Recipient(event.employeeId), event.hoursWorked)
    decreases |envs|
  {
    var event := decode(body).value;
    var id := event.workingTimeId;
    var first := EmailStep(s, body, decode, envs[0]);
    assert first.state == SetEmail(s, id, Pending, s.rows[id].emailRetryCount + 1);
    if |envs| > 1 {
      var rest := envs[1..];
      assert AlwaysFails(first.state, body, decode, rest) by {
        forall i | 0 <= i < |rest|
          ensures !rest[i].readFault && !rest[i].writeFault && !rest[i].sendOk
        {
          assert rest[i] == envs[i + 1];
        }
      }
      EmailFailureIncrements(first.state, body, decode, rest);
      var n := s.rows[id].emailRetryCount + |envs|;
      assert SetEmail(first.state, id, Pending, n) == SetEmail(s, id, Pending, n);
    }
  }

  /** core.EmailService: every send attempted on it, in order. */
  class Mailer {
    /** The mails of every SendCheckOutSummary call, whether or not it succeeded. */
    var attempted: seq<Mail>

    constructor ()
      ensures attempted == []
    {
      attempted := [];
    }

    /**
     * SendCheckOutSummary: the send is attempted and recorded. It fails
     * exactly when ok is false, which stands for every way the mail service
     * call can fail.
     */
    method SendCheckOutSummary(to: string, hours: int, ok: bool) returns (err: Option<Error>)
      modifies this
      ensures attempted == old(attempted) + [Mail(to, hours)]
      ensures err == if ok then None else Some(SendFailure)
    {
      attempted := attempted + [Mail(to, hours)];
      err := if ok then None else Some(SendFailure);
    }
  }

  /** EmailProcessor: the mail service and the repository it was built with. */
  class EmailProcessor {
    const mailer: Mailer
    const repo: WorkingTimeTable

    constructor (mailer: Mailer, repo: WorkingTimeTable)
      ensures this.mailer == mailer && this.repo == repo
    {
      this.mailer := mailer;
      this.repo := repo;
    }

    /** Process: it does what EmailStep describes, to the table and to the mail service. */
    method Process(msg: Worker.Message, decode: string -> Option<EmailEvent>, env: EmailEnv)
      returns (o: Worker.Outcome)
      requires repo.Valid()
      modifies repo, mailer
      ensures repo.Valid()
      ensures var r := EmailStep(old(repo.State()), msg.body, decode, env);
        && o == r.outcome
        && repo.State() == r.state
        && mailer.attempted == old(mailer.attempted) + r.mails
    {
      var decoded := decode(msg.body);
      if decoded.None? {
        return Worker.Outcome(false, 0, Some(Malformed));
      }
      var event := decoded.value;
      var record := repo.GetCheckInOut(event.workingTimeId, env.readFault);
      if record.Err? {
        return Worker.Outcome(true, LookupRetryDelay, Some(LookupFailed(record.error)));
      }
      if record.value.emailStatus == Completed {
        return Worker.Outcome(false, 0, None);
      }
      var err := mailer.SendCheckOutSummary(Recipient(event.employeeId), event.hoursWorked, env.sendOk);
      if err.Some? {
        var newCount := record.value.emailRetryCount + 1;
        var _ := repo.UpdateEmailStatus(event.workingTimeId, Pending, newCount, env.writeFault);
        var delay := Backoff(newCount);
        return Worker.Outcome(true, delay, err);
      }
      err := repo.UpdateEmailStatus(event.workingTimeId, Completed, 0, env.writeFault);
      return Worker.Outcome(false, 0, err);
    }
  }
}
