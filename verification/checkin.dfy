/**
 * The check-in/check-out toggle of internal/core/checkin_service.go.
 *
 * CheckInOut looks up the employee's latest open shift: with none it inserts
 * a new shift, otherwise it closes that shift with the current time and the
 * hours worked. The clock is the parameter `now`; hours worked is the integer
 * duration now - clock-in.
 */
module CheckIn {
  import opened Wrappers
  import opened Model
  import opened Repository

  /** Which store calls report a driver error: the lookup, and the write after it. */
  datatype StoreFaults = StoreFaults(lookup: bool, write: bool)

  /** The employee has no more than one open shift. */
  ghost predicate AtMostOneOpen(rows: map<int, Row>, employeeId: string) {
    forall a, b :: IsOpenShift(rows, employeeId, a) && IsOpenShift(rows, employeeId, b) ==> a == b
  }

  /**
   * t is the table after a successful CheckInOut of the employee at time now
   * on table s: a new shift when none is open, otherwise the latest open
   * shift closed.
   */
  ghost predicate Toggled(s: TableState, t: TableState, employeeId: string, now: int) {
    if !HasOpenShift(s.rows, employeeId) then
      t == Insert(s, employeeId, now)
    else
      exists id :: ClosesLatest(s, t, employeeId, now, id)
  }

  /** t is s with the employee's latest open shift, id, closed at time now. */
  predicate ClosesLatest(s: TableState, t: TableState, employeeId: string, now: int, id: int) {
    IsLatestOpen(s.rows, employeeId, id) && t == CheckOut(s, id, now, now - s.rows[id].clockIn)
  }

  /** A check-in on a table where the employee has no open shift opens exactly the new row. */
  lemma CheckInOpensOne(s: TableState, employeeId: string, now: int)
    requires ValidState(s) && !HasOpenShift(s.rows, employeeId)
    ensures var t := Insert(s, employeeId, now);
      && ValidState(t)
      && IsOpenShift(t.rows, employeeId, s.nextId)
      && HasOpenShift(t.rows, employeeId)
      && AtMostOneOpen(t.rows, employeeId)
  {
    var t := Insert(s, employeeId, now);
    InsertOpensShift(s, employeeId, now);
    assert IsOpenShift(t.rows, employeeId, s.nextId);
    forall a | IsOpenShift(t.rows, employeeId, a)
      ensures a == s.nextId
    {
      assert !IsOpenShift(s.rows, employeeId, a);
    }
  }

  /** Closing an open shift of the employee leaves the open shifts of every other employee as they were. */
  lemma CheckOutKeepsOthers(s: TableState, t: TableState, id: int, employeeId: string, now: int, hours: int)
    requires ValidState(s) && IsOpenShift(s.rows, employeeId, id)
    requires t == CheckOut(s, id, now, hours)
    ensures forall e, k :: e != employeeId ==> (IsOpenShift(t.rows, e, k) <==> IsOpenShift(s.rows, e, k))
  {
    CheckOutClosesShift(s, id, now, hours);
    forall e, k | e != employeeId
      ensures IsOpenShift(t.rows, e, k) <==> IsOpenShift(s.rows, e, k)
    {
      if k == id {
        assert s.rows[id].employeeId != e;
      }
    }
  }

  /** Closing the only open shift of the employee leaves the employee with none. */
  lemma CheckOutClosesOnly(s: TableState, id: int, employeeId: string, now: int, hours: int)
    requires ValidState(s) && AtMostOneOpen(s.rows, employeeId) && IsOpenShift(s.rows, employeeId, id)
    ensures var t := CheckOut(s, id, now, hours);
      && ValidState(t)
      && !HasOpenShift(t.rows, employeeId)
      && AtMostOneOpen(t.rows, employeeId)
  {
    var t := CheckOut(s, id, now, hours);
    CheckOutClosesShift(s, id, now, hours);
    forall k | k in t.rows
      ensures !IsOpenShift(t.rows, employeeId, k)
    {
      if k != id {
        assert !IsOpenShift(s.rows, employeeId, k);
      }
    }
  }

  /**
   * The check-out branch of a successful call keeps the invariant and the
   * other employees' open shifts, and closing the employee's only open shift
   * leaves none.
   */
  lemma CheckOutStep(s: TableState, t: TableState, employeeId: string, now: int, id: int)
    requires ValidState(s) && ClosesLatest(s, t, employeeId, now, id)
    ensures ValidState(t)
    ensures forall e, k :: e != employeeId ==> (IsOpenShift(t.rows, e, k) <==> IsOpenShift(s.rows, e, k))
    ensures AtMostOneOpen(s.rows, employeeId) ==> !HasOpenShift(t.rows, employeeId) && AtMostOneOpen(t.rows, employeeId)
  {
    var hours := now - s.rows[id].clockIn;
    CheckOutKeepsOthers(s, t, id, employeeId, now, hours);
    if AtMostOneOpen(s.rows, employeeId) {
      CheckOutClosesOnly(s, id, employeeId, now, hours);
    }
  }

  /** A successful call leaves the open shifts of every other employee as they were. */
  lemma ToggleKeepsOthers(s: TableState, t: TableState, employeeId: string, now: int)
    requires ValidState(s) && Toggled(s, t, employeeId, now)
    ensures forall e, k :: e != employeeId ==> (IsOpenShift(t.rows, e, k) <==> IsOpenShift(s.rows, e, k))
  {
    if !HasOpenShift(s.rows, employeeId) {
      assert t == Insert(s, employeeId, now);
      InsertOpensShift(s, employeeId, now);
      forall e, k | e != employeeId
        ensures IsOpenShift(t.rows, e, k) <==> IsOpenShift(s.rows, e, k)
      {
      }
    } else {
      var id :| ClosesLatest(s, t, employeeId, now, id);
      CheckOutStep(s, t, employeeId, now, id);
    }
  }

  /**
   * A successful call flips whether the employee has an open shift, keeps the
   * table invariant and the one-open-shift discipline, and leaves the open
   * shifts of every other employee as they were.
   */
  lemma ToggleFlips(s: TableState, t: TableState, employeeId: string, now: int)
    requires ValidState(s) && AtMostOneOpen(s.rows, employeeId)
    requires Toggled(s, t, employeeId, now)
    ensures ValidState(t) && AtMostOneOpen(t.rows, employeeId)
    ensures HasOpenShift(t.rows, employeeId) <==> !HasOpenShift(s.rows, employeeId)
    ensures forall e, k :: e != employeeId ==> (IsOpenShift(t.rows, e, k) <==> IsOpenShift(s.rows, e, k))
  {
    ToggleKeepsOthers(s, t, employeeId, now);
    if !HasOpenShift(s.rows, employeeId) {
      CheckInOpensOne(s, employeeId, now);
    } else {
      var id :| ClosesLatest(s, t, employeeId, now, id);
      CheckOutStep(s, t, employeeId, now, id);
    }
  }

  /**
   * Along any run of successful calls for one employee, starting from a table
   * where the employee has at most one open shift, the calls alternate
   * between check-in and check-out: after an even number of calls the
   * employee has an open shift exactly when they had one at the start.
   */
  lemma AlternationAlongRun(states: seq<TableState>, employeeId: string, times: seq<int>)
    requires |states| == |times| + 1
    requires ValidState(states[0]) && AtMostOneOpen(states[0].rows, employeeId)
    requires forall i :: 0 <= i < |times| ==> Toggled(states[i], states[i + 1], employeeId, times[i])
    ensures ValidState(states[|times|]) && AtMostOneOpen(states[|times|].rows, employeeId)
    ensures HasOpenShift(states[|times|].rows, employeeId)
      == (HasOpenShift(states[0].rows, employeeId) != (|times| % 2 == 1))
  {
    AlternationUpTo(states, employeeId, times, |times|);
  }

  /** The first n calls of a run, by induction on n. */
  lemma {:induction false} AlternationUpTo(states: seq<TableState>, employeeId: string, times: seq<int>, n: nat)
    requires |states| == |times| + 1 && n <= |times|
    requires ValidState(states[0]) && AtMostOneOpen(states[0].rows, employeeId)
    requires forall i :: 0 <= i < |times| ==> Toggled(states[i], states[i + 1], employeeId, times[i])
    ensures ValidState(states[n]) && AtMostOneOpen(states[n].rows, employeeId)
    ensures HasOpenShift(states[n].rows, employeeId) == (HasOpenShift(states[0].rows, employeeId) != (n % 2 == 1))
  {
    if n > 0 {
      AlternationUpTo(states, employeeId, times, n - 1);
      ToggleFlips(states[n - 1], states[n], employeeId, times[n - 1]);
    }
  }

  /** The service that toggles shifts over the working_times table. */
  class CheckInService {
    const repo: WorkingTimeTable

    constructor (repo: WorkingTimeTable)
      ensures this.repo == repo
    {
      this.repo := repo;
    }

    /**
     * CheckInOut: check the employee in when no shift is open, otherwise
     * check out the latest open shift. A failed lookup or write is returned
     * as the error and leaves the table as it was.
     */
    method CheckInOut(employeeId: string, now: int, faults: StoreFaults) returns (r: Result<WorkingTime, Error>)
      requires repo.Valid()
      modifies repo
      ensures repo.Valid()
      ensures r.Ok? <==> !faults.lookup && !faults.write
      ensures r.Err? ==> r.error == DriverFault && repo.State() == old(repo.State())
      ensures r.Ok? ==> Toggled(old(repo.State()), repo.State(), employeeId, now)
      ensures r.Ok? && !old(HasOpenShift(repo.rows, employeeId)) ==>
        && r.value == ZeroWorkingTime.(id := old(repo.nextId), employeeId := employeeId, clockIn := now)
        && old(repo.nextId) !in old(repo.rows)
        && repo.State() == Insert(old(repo.State()), employeeId, now)
      ensures r.Ok? && old(HasOpenShift(repo.rows, employeeId)) ==>
        var id, before := r.value.id, old(repo.rows);
        && IsLatestOpen(before, employeeId, id)
        && r.value == OpenView(id, before[id]).(clockOut := Some(now), hoursWorked := now - before[id].clockIn)
        && repo.State() == CheckOut(old(repo.State()), id, now, now - before[id].clockIn)
      ensures r.Ok? && old(AtMostOneOpen(repo.rows, employeeId)) ==>
        && AtMostOneOpen(repo.rows, employeeId)
        && (HasOpenShift(repo.rows, employeeId) <==> !old(HasOpenShift(repo.rows, employeeId)))
    {
      var last := repo.FindLastCheckIn(employeeId, faults.lookup);
      if last.Err? {
        return Err(last.error);
      }
      ghost var before := repo.State();
      match last.value {
      case None =>
        var created := repo.CreateCheckIn(employeeId, now, faults.write);
        if created.Err? {
          return Err(created.error);
        }
        r := Ok(ZeroWorkingTime.(id := created.value, employeeId := employeeId, clockIn := now));
        InsertOpensShift(before, employeeId, now);
        assert IsOpenShift(repo.rows, employeeId, before.nextId);
        if AtMostOneOpen(before.rows, employeeId) {
          ToggleFlips(before, repo.State(), employeeId, now);
        }
      case Some(lastCheckIn) =>
        var hoursWorked := now - lastCheckIn.clockIn;
        var err := repo.UpdateCheckOut(lastCheckIn.id, now, hoursWorked, employeeId, faults.write);
        if err.Some? {
          return Err(err.value);
        }
        r := Ok(lastCheckIn.(clockOut := Some(now), hoursWorked := hoursWorked));
        CheckOutClosesShift(before, lastCheckIn.id, now, hoursWorked);
        assert ClosesLatest(before, repo.State(), employeeId, now, lastCheckIn.id);
        if AtMostOneOpen(before.rows, employeeId) {
          ToggleFlips(before, repo.State(), employeeId, now);
        }
      }
    }
  }
}
