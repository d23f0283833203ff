/**
 * The working_times table and the store operations of
 * internal/ports/repository/workingtime_repo.go.
 *
 * The table is a map from row id to the row's columns. Each SQL statement
 * becomes a method of WorkingTimeTable that reads or replaces that map, and
 * each method is specified by a pure function on TableState, the abstract
 * value of the table; the properties of the statements are stated on those
 * functions. A `fault` argument stands for an error reported by the SQL
 * driver: the statement then changes nothing and the error is returned.
 */
module Repository {
  import opened Wrappers
  import opened Model

  /** The columns of one working_times row; clock_out_time and hours_worked are nullable. */
  datatype Row = Row(
    employeeId: string,
    clockIn: int,
    clockOut: Option<int>,
    hoursWorked: Option<int>,
    laborStatus: Status,
    laborRetryCount: int,
    emailStatus: Status,
    emailRetryCount: int)

  /** The whole table, with the next value of its id sequence. */
  datatype TableState = TableState(rows: map<int, Row>, nextId: int)

  /**
   * Ids come from a sequence starting at 1, so every id in use lies below
   * nextId; clock-out time and hours worked are set together or not at all.
   */
  ghost predicate ValidState(s: TableState) {
    && s.nextId >= 1
    && forall id :: id in s.rows ==>
         && 1 <= id < s.nextId
         && (s.rows[id].clockOut.Some? <==> s.rows[id].hoursWorked.Some?)
  }

  /** The two rows agree on every column outside the labor status track. */
  predicate SameOutsideLabor(a: Row, b: Row) {
    b.(laborStatus := a.laborStatus, laborRetryCount := a.laborRetryCount) == a
  }

  /** The two rows agree on every column outside the email status track. */
  predicate SameOutsideEmail(a: Row, b: Row) {
    b.(emailStatus := a.emailStatus, emailRetryCount := a.emailRetryCount) == a
  }

  /** The two rows agree on every column that UpdateCheckOut does not set. */
  predicate SameOutsideCheckOut(a: Row, b: Row) {
    b.(clockOut := a.clockOut, hoursWorked := a.hoursWorked, laborStatus := a.laborStatus) == a
  }

  /** t differs from s at most in the columns of row id: same ids, same sequence, other rows equal. */
  ghost predicate OnlyRowChanges(s: TableState, t: TableState, id: int) {
    && t.nextId == s.nextId
    && t.rows.Keys == s.rows.Keys
    && forall k :: k in s.rows && k != id ==> t.rows[k] == s.rows[k]
  }

  /** Row id is a shift of the employee that has not been clocked out. */
  predicate IsOpenShift(rows: map<int, Row>, employeeId: string, id: int) {
    id in rows && rows[id].employeeId == employeeId && rows[id].clockOut.None?
  }

  /** The employee has at least one open shift. */
  predicate HasOpenShift(rows: map<int, Row>, employeeId: string) {
    exists id :: id in rows && IsOpenShift(rows, employeeId, id)
  }

  /** id is an open shift of the employee with the latest clock-in among them. */
  predicate IsLatestOpen(rows: map<int, Row>, employeeId: string, id: int) {
    && IsOpenShift(rows, employeeId, id)
    && forall k :: k in rows && IsOpenShift(rows, employeeId, k) ==> rows[k].clockIn <= rows[id].clockIn
  }

  /** The row CreateCheckIn inserts. */
  function NewShift(employeeId: string, clockIn: int): Row {
    Row(employeeId, clockIn, None, None, Pending, 0, Pending, 0)
  }

  /** INSERT ... VALUES ($1, $2, PENDING, 0, PENDING, 0) RETURNING id. */
  function Insert(s: TableState, employeeId: string, clockIn: int): (t: TableState)
    ensures t.nextId == s.nextId + 1
    ensures t.rows.Keys == s.rows.Keys + {s.nextId}
    ensures forall k :: k in s.rows && k != s.nextId ==> t.rows[k] == s.rows[k]
    ensures var row := t.rows[s.nextId];
      && row.employeeId == employeeId && row.clockIn == clockIn
      && row.clockOut.None? && row.hoursWorked.None?
      && row.laborStatus == Pending && row.laborRetryCount == 0
      && row.emailStatus == Pending && row.emailRetryCount == 0
  {
    TableState(s.rows[s.nextId := NewShift(employeeId, clockIn)], s.nextId + 1)
  }

  /** UPDATE ... SET clock_out_time, hours_worked, labor_status = PENDING WHERE id = $4. */
  function CheckOut(s: TableState, id: int, clockOut: int, hoursWorked: int): (t: TableState)
    ensures OnlyRowChanges(s, t, id)
    ensures id in s.rows ==>
      && SameOutsideCheckOut(s.rows[id], t.rows[id])
      && t.rows[id].clockOut == Some(clockOut)
      && t.rows[id].hoursWorked == Some(hoursWorked)
      && t.rows[id].laborStatus == Pending
    ensures id !in s.rows ==> t == s
  {
    if id in s.rows then
      var row := s.rows[id];
      s.(rows := s.rows[id := row.(clockOut := Some(clockOut), hoursWorked := Some(hoursWorked), laborStatus := Pending)])
    else
      s
  }

  /** UPDATE ... SET labor_status = $1, labor_retry_count = $2 WHERE id = $3. */
  function SetLabor(s: TableState, id: int, status: Status, retryCount: int): (t: TableState)
    ensures OnlyRowChanges(s, t, id)
    ensures id in s.rows ==>
      && SameOutsideLabor(s.rows[id], t.rows[id])
      && t.rows[id].laborStatus == status
      && t.rows[id].laborRetryCount == retryCount
    ensures id !in s.rows ==> t == s
  {
    if id in s.rows then
      s.(rows := s.rows[id := s.rows[id].(laborStatus := status, laborRetryCount := retryCount)])
    else
      s
  }

  /** UPDATE ... SET email_status = $1, email_retry_count = $2 WHERE id = $3. */
  function SetEmail(s: TableState, id: int, status: Status, retryCount: int): (t: TableState)
    ensures OnlyRowChanges(s, t, id)
    ensures id in s.rows ==>
      && SameOutsideEmail(s.rows[id], t.rows[id])
      && t.rows[id].emailStatus == status
      && t.rows[id].emailRetryCount == retryCount
    ensures id !in s.rows ==> t == s
  {
    if id in s.rows then
      s.(rows := s.rows[id := s.rows[id].(emailStatus := status, emailRetryCount := retryCount)])
    else
      s
  }

  /**
   * GetCheckInOut: SELECT id, employee_id, both statuses, both retry counts
   * and hours_worked. The generic RetryCount and the clock times stay at their
   * zero values. Scanning a NULL hours_worked into a float64 fails.
   */
  function Fetch(s: TableState, id: int, fault: bool): (r: Result<WorkingTime, Error>)
    ensures fault ==> r == Err(DriverFault)
    ensures !fault && id !in s.rows ==> r == Err(NoRows)
    ensures r.Ok? <==> !fault && id in s.rows && s.rows[id].hoursWorked.Some?
    ensures r.Ok? ==>
      var row, w := s.rows[id], r.value;
      && w.id == id && w.employeeId == row.employeeId
      && w.laborStatus == row.laborStatus && w.laborRetryCount == row.laborRetryCount
      && w.emailStatus == row.emailStatus && w.emailRetryCount == row.emailRetryCount
      && Some(w.hoursWorked) == row.hoursWorked
      && w.retryCount == 0 && w.clockIn == 0 && w.clockOut.None?
  {
    if fault then Err(DriverFault)
    else if id !in s.rows then Err(NoRows)
    else
      var row := s.rows[id];
      match row.hoursWorked
      case None => Err(NullColumn)
      case Some(hours) =>
        Ok(ZeroWorkingTime.(
          id := id, employeeId := row.employeeId,
          laborStatus := row.laborStatus, laborRetryCount := row.laborRetryCount,
          emailStatus := row.emailStatus, emailRetryCount := row.emailRetryCount,
          hoursWorked := hours))
  }

  /**
   * What FindLastCheckIn returns for an open row: id, clock-in, labor status
   * and labor retry count, with the employee id it was asked for.
   */
  function OpenView(id: int, row: Row): WorkingTime {
    ZeroWorkingTime.(
      id := id, employeeId := row.employeeId, clockIn := row.clockIn,
      laborStatus := row.laborStatus, laborRetryCount := row.laborRetryCount)
  }

  /** A check-in keeps the invariant and opens exactly one new shift, for its employee only. */
  lemma InsertOpensShift(s: TableState, employeeId: string, clockIn: int)
    requires ValidState(s)
    ensures ValidState(Insert(s, employeeId, clockIn))
    ensures s.nextId !in s.rows
    ensures forall e, k :: (IsOpenShift(Insert(s, employeeId, clockIn).rows, e, k)
      <==> IsOpenShift(s.rows, e, k) || (e == employeeId && k == s.nextId))
  {
  }

  /** A check-out keeps the invariant and closes row id and nothing else. */
  lemma CheckOutClosesShift(s: TableState, id: int, clockOut: int, hoursWorked: int)
    requires ValidState(s)
    ensures ValidState(CheckOut(s, id, clockOut, hoursWorked))
    ensures forall e, k :: (IsOpenShift(CheckOut(s, id, clockOut, hoursWorked).rows, e, k)
      <==> IsOpenShift(s.rows, e, k) && k != id)
  {
  }

  /** The status writes of the processors keep the invariant and never open or close a shift. */
  lemma StatusWritesKeepShifts(s: TableState, id: int, status: Status, retryCount: int)
    requires ValidState(s)
    ensures ValidState(SetLabor(s, id, status, retryCount))
    ensures ValidState(SetEmail(s, id, status, retryCount))
    ensures forall e, k :: IsOpenShift(SetLabor(s, id, status, retryCount).rows, e, k) <==> IsOpenShift(s.rows, e, k)
    ensures forall e, k :: IsOpenShift(SetEmail(s, id, status, retryCount).rows, e, k) <==> IsOpenShift(s.rows, e, k)
  {
  }

  /**
   * Among finitely many shifts one has the latest clock-in, so the query of
   * FindLastCheckIn has an answer whenever the employee has an open shift:
   * the latest open shift among the rows in ids, given one open shift seed.
   */
  lemma {:induction false} LatestOpen(rows: map<int, Row>, employeeId: string, ids: set<int>, seed: int)
    returns (latest: int)
    requires seed in ids && IsOpenShift(rows, employeeId, seed)
    ensures latest in ids && IsOpenShift(rows, employeeId, latest)
    ensures forall k :: k in ids && IsOpenShift(rows, employeeId, k) ==> rows[k].clockIn <= rows[latest].clockIn
    decreases |ids|
  {
    if other :| other in ids && other != seed && IsOpenShift(rows, employeeId, other) {
      var rest := LatestOpen(rows, employeeId, ids - {seed}, other);
      latest := if rows[seed].clockIn <= rows[rest].clockIn then rest else seed;
    } else {
      latest := seed;
    }
  }

  /** The working_times table of WorkingTimeRepository. */
  class WorkingTimeTable {
    var rows: map<int, Row>
    var nextId: int

    function State(): TableState
      reads this
    {
      TableState(rows, nextId)
    }

    ghost predicate Valid()
      reads this
    {
      ValidState(State())
    }

    constructor ()
      ensures Valid() && rows == map[]
    {
      rows := map[];
      nextId := 1;
    }

    /** CreateCheckIn: insert an open shift and return its new id. */
    method CreateCheckIn(employeeId: string, clockIn: int, fault: bool) returns (r: Result<int, Error>)
      requires Valid()
      modifies this
      ensures Valid()
      ensures fault ==> r == Err(DriverFault) && State() == old(State())
      ensures !fault ==> r == Ok(old(nextId)) && old(nextId) !in old(rows)
      ensures !fault ==> State() == Insert(old(State()), employeeId, clockIn)
    {
      if fault {
        return Err(DriverFault);
      }
      InsertOpensShift(State(), employeeId, clockIn);
      r := Ok(nextId);
      rows, nextId := rows[nextId := NewShift(employeeId, clockIn)], nextId + 1;
    }

    /**
     * UpdateCheckOut: set clock-out, hours worked and labor status PENDING on
     * row id. The employee id only annotates the trace; an id that matches
     * no row changes nothing and is no error.
     */
    method UpdateCheckOut(id: int, clockOut: int, hoursWorked: int, employeeId: string, fault: bool)
      returns (err: Option<Error>)
      requires Valid()
      modifies this
      ensures Valid()
      ensures err == if fault then Some(DriverFault) else None
      ensures State() == if fault then old(State()) else CheckOut(old(State()), id, clockOut, hoursWorked)
    {
      if fault {
        return Some(DriverFault);
      }
      CheckOutClosesShift(State(), id, clockOut, hoursWorked);
      rows := CheckOut(State(), id, clockOut, hoursWorked).rows;
      err := None;
    }

    /** UpdateLaborStatus: set labor_status and labor_retry_count of row id. */
    method UpdateLaborStatus(id: int, status: Status, retryCount: int, fault: bool) returns (err: Option<Error>)
      requires Valid()
      modifies this
      ensures Valid()
      ensures err == if fault then Some(DriverFault) else None
      ensures State() == if fault then old(State()) else SetLabor(old(State()), id, status, retryCount)
    {
      if fault {
        return Some(DriverFault);
      }
      StatusWritesKeepShifts(State(), id, status, retryCount);
      if id in rows {
        rows := rows[id := rows[id].(laborStatus := status, laborRetryCount := retryCount)];
      }
      err := None;
    }

    /** UpdateEmailStatus: set email_status and email_retry_count of row id. */
    method UpdateEmailStatus(id: int, status: Status, retryCount: int, fault: bool) returns (err: Option<Error>)
      requires Valid()
      modifies this
      ensures Valid()
      ensures err == if fault then Some(DriverFault) else None
      ensures State() == if fault then old(State()) else SetEmail(old(State()), id, status, retryCount)
    {
      if fault {
        return Some(DriverFault);
      }
      StatusWritesKeepShifts(State(), id, status, retryCount);
      if id in rows {
        rows := rows[id := rows[id].(emailStatus := status, emailRetryCount := retryCount)];
      }
      err := None;
    }

    /**
     * FindLastCheckIn: the employee's open shift with the latest clock-in
     * (ORDER BY clock_in_time DESC LIMIT 1, any one of several with equal
     * clock-in), or none, which is not an error, when there is no open shift.
     */
    method FindLastCheckIn(employeeId: string, fault: bool) returns (r: Result<Option<WorkingTime>, Error>)
      ensures fault ==> r == Err(DriverFault)
      ensures !fault ==> r.Ok?
      ensures r.Ok? ==> (r.value.None? <==> !HasOpenShift(rows, employeeId))
      ensures r.Ok? && r.value.Some? ==>
        var w := r.value.value;
        IsLatestOpen(rows, employeeId, w.id) && w == OpenView(w.id, rows[w.id])
    {
      if fault {
        return Err(DriverFault);
      }
      if open :| open in rows && IsOpenShift(rows, employeeId, open) {
        var latest := LatestOpen(rows, employeeId, rows.Keys, open);
        assert IsLatestOpen(rows, employeeId, latest);
        var id :| id in rows && IsLatestOpen(rows, employeeId, id);
        r := Ok(Some(OpenView(id, rows[id])));
      } else {
        r := Ok(None);
      }
    }

    /** GetStatus: the labor status of row id, and nothing else. */
    method GetStatus(id: int, fault: bool) returns (r: Result<Status, Error>)
      ensures fault ==> r == Err(DriverFault)
      ensures !fault && id !in rows ==> r == Err(NoRows)
      ensures !fault && id in rows ==> r == Ok(rows[id].laborStatus)
    {
      if fault {
        r := Err(DriverFault);
      } else if id !in rows {
        r := Err(NoRows);
      } else {
        r := Ok(rows[id].laborStatus);
      }
    }

    /** GetCheckInOut: the record of row id as Fetch describes it. */
    method GetCheckInOut(id: int, fault: bool) returns (r: Result<WorkingTime, Error>)
      ensures r == Fetch(State(), id, fault)
    {
      if fault {
        return Err(DriverFault);
      }
      if id !in rows {
        return Err(NoRows);
      }
      var row := rows[id];
      if row.hoursWorked.None? {
        return Err(NullColumn);
      }
      r := Ok(ZeroWorkingTime.(
        id := id, employeeId := row.employeeId,
        laborStatus := row.laborStatus, laborRetryCount := row.laborRetryCount,
        emailStatus := row.emailStatus, emailRetryCount := row.emailRetryCount,
        hoursWorked := row.hoursWorked.value));
    }
  }
}
