/**
 * The attendance dashboard (`Dash`): which employee and month it loads, the
 * rule that turns a requested status into at most one remote mutation, and
 * how the page's state follows the outcome of each request.
 */
module Attendance {
  import opened Common

  datatype Status = PRESENT | LATE | ABSENT | ON_LEAVE

  /** One day of the monthly log; a day without a stored record is reported ABSENT. */
  datatype AttendanceRecord = AttendanceRecord(date: string, day: string, status: Status)

  datatype Summary = Summary(absentThisMonth: int, absentLastMonth: int, availablePaidLeaves: int)

  /** The monthly view: the log and the summary figures the service computes (none before the first load). */
  datatype AttendanceData = AttendanceData(logs: seq<AttendanceRecord>, summary: Option<Summary>)

  /** The monthly query: `/api/attendances/{month}/` or `/api/attendances/{month}/{employeeId}/`. */
  datatype AttendanceQuery = AttendanceQuery(month: string, employeeId: Option<string>)

  /** The three remote mutations a status change can issue. */
  datatype Mutation =
    | Create(employeeId: string, date: string, status: Status)   // POST   /api/attendances/ {status, employee_id, date}
    | Delete(date: string, employeeId: string)                   // DELETE /api/attendances/{date}/{employeeId}/
    | Patch(date: string, employeeId: string, status: Status)    // PATCH  /api/attendances/{date}/{employeeId}/ {status}

  /** A request the page has sent, in order. */
  datatype Call = ListEmployees | ListAttendance(query: AttendanceQuery) | Mutate(mutation: Mutation)

  // ---------------------------------------------------------------------
  // Endpoints

  function StatusName(s: Status): string
  {
    match s
    case PRESENT => "PRESENT"
    case LATE => "LATE"
    case ABSENT => "ABSENT"
    case ON_LEAVE => "ON_LEAVE"
  }

  const EmployeesPath := "/api/employees/"
  const AttendancesPath := "/api/attendances/"

  /** The path of a monthly query: the month, then the employee when the query names one. */
  function QueryPath(q: AttendanceQuery): (p: string)
    ensures AttendancesPath + q.month + "/" <= p
    ensures q.employeeId.None? ==> p == AttendancesPath + q.month + "/"
    ensures q.employeeId.Some? ==> p == AttendancesPath + q.month + "/" + q.employeeId.value + "/"
  {
    AttendancesPath + q.month + "/" + (if q.employeeId.Some? then q.employeeId.value + "/" else "")
  }

  /**
   * The request a mutation sends: CREATE posts the status, employee and
   * date to the collection; DELETE and PATCH address the record by date
   * and employee, and only PATCH carries a body, the new status.
   */
  function MutationRequest(m: Mutation): (r: Request)
    ensures r.verb == POST <==> m.Create?
    ensures r.verb == DELETE <==> m.Delete?
    ensures r.verb == PATCH <==> m.Patch?
    ensures m.Create? ==> r.path == AttendancesPath
    ensures !m.Create? ==> r.path == AttendancesPath + m.date + "/" + m.employeeId + "/"
    ensures m.Create? ==>
      && r.body.Keys == {"status", "employee_id", "date"}
      && r.body["status"] == StatusName(m.status) && r.body["employee_id"] == m.employeeId && r.body["date"] == m.date
    ensures m.Delete? ==> r.body == map[]
    ensures m.Patch? ==> r.body.Keys == {"status"} && r.body["status"] == StatusName(m.status)
  {
    match m
    case Create(id, date, s) => Request(POST, AttendancesPath, map["status" := StatusName(s), "employee_id" := id, "date" := date])
    case Delete(date, id) => Request(DELETE, AttendancesPath + date + "/" + id + "/", map[])
    case Patch(date, id, s) => Request(PATCH, AttendancesPath + date + "/" + id + "/", map["status" := StatusName(s)])
  }

  /** The request behind each entry of the log: the two lists are bodiless GETs, every mutation writes. */
  function CallRequest(c: Call): (r: Request)
    ensures r.verb == GET <==> !c.Mutate?
    ensures !c.Mutate? ==> r.body == map[]
    ensures c.ListEmployees? ==> r.path == EmployeesPath
    ensures c.ListAttendance? ==> r.path == QueryPath(c.query)
    ensures c.Mutate? ==> r == MutationRequest(c.mutation)
  {
    match c
    case ListEmployees => Request(GET, EmployeesPath, map[])
    case ListAttendance(q) => Request(GET, QueryPath(q), map[])
    case Mutate(m) => MutationRequest(m)
  }

  /** The text stored in `error` when a mutation's request fails. */
  function MutationFailure(m: Mutation): string
  {
    if m.Delete? then "Failed to delete attendance record" else "Failed to update attendance status"
  }

  // ---------------------------------------------------------------------
  // Scoping

  /** `selectedEmployeeId || employeeId`: the selection when it is truthy, else the fallback. */
  function Target(selectedId: Option<string>, fallback: Option<string>): Option<string>
  {
    if Truthy(selectedId) then selectedId else fallback
  }

  function OwnId(actor: Option<Employee>): Option<string>
  {
    if actor.Some? then Some(actor.value.employeeId) else None
  }

  /** The employee directory is requested only with a token, by a privileged actor. */
  predicate LoadsDirectory(token: Option<string>, actor: Option<Employee>)
  {
    Truthy(token) && IsPrivileged(actor)
  }

  /**
   * The monthly query `fetchAttendance` sends, or None when it sends none:
   * it targets the selected employee, else the actor; it asks for the
   * chosen month, else the current one; and only a privileged actor's
   * query names the target.
   */
  function PlanAttendanceFetch(token: Option<string>, actor: Option<Employee>, selectedId: Option<string>,
                               month: Option<string>, currentMonth: string): (q: Option<AttendanceQuery>)
    ensures q.Some? <==> Truthy(token) && Truthy(Target(selectedId, OwnId(actor)))
    ensures q.Some? ==> q.value.month == (if Truthy(month) then month.value else currentMonth)
    ensures q.Some? ==> (q.value.employeeId.Some? <==> IsPrivileged(actor))
    ensures q.Some? && q.value.employeeId.Some? ==>
      q.value.employeeId == (if Truthy(selectedId) then selectedId else OwnId(actor))
  {
    var target := Target(selectedId, OwnId(actor));
    if Truthy(token) && Truthy(target) then
      var date := if Truthy(month) then month.value else currentMonth;
      Some(AttendanceQuery(date, if IsPrivileged(actor) then target else None))
    else
      None
  }

  // ---------------------------------------------------------------------
  // The transition rule

  /** The employee a status change acts on: the selection, else the actor. */
  function ChangeTarget(actorId: string, selectedId: Option<string>): string
  {
    Target(selectedId, Some(actorId)).value
  }

  /**
   * A status change reaches the service only when its target is truthy,
   * is not the actor, and the record is not ON_LEAVE.
   */
  predicate MayChange(actorId: string, selectedId: Option<string>, record: AttendanceRecord)
  {
    var target := ChangeTarget(actorId, selectedId);
    target != "" && target != actorId && record.status != ON_LEAVE
  }

  /**
   * `handleStatusChange`: the mutation a request for `newStatus` on
   * `record` issues, checked in order: no target, self, ON_LEAVE, then
   * CREATE for an ABSENT record (whatever `newStatus` is), DELETE for a
   * request of ABSENT, PATCH otherwise (also when nothing would change).
   */
  function Decide(actorId: string, selectedId: Option<string>, record: AttendanceRecord, newStatus: Status): (r: Option<Mutation>)
    ensures r.Some? <==> MayChange(actorId, selectedId, record)
    ensures r.Some? ==> r.value.employeeId == ChangeTarget(actorId, selectedId) != actorId
    ensures r.Some? ==> r.value.date == record.date
    ensures r.Some? ==> (r.value.Create? <==> record.status == ABSENT)
    ensures r.Some? ==> (r.value.Delete? <==> record.status != ABSENT && newStatus == ABSENT)
    ensures r.Some? && !r.value.Delete? ==> r.value.status == newStatus
  {
    var target := ChangeTarget(actorId, selectedId);
    if target == "" then None
    else if target == actorId then None
    else if record.status == ON_LEAVE then None
    else if record.status == ABSENT then Some(Create(target, record.date, newStatus))
    else if newStatus == ABSENT then Some(Delete(record.date, target))
    else Some(Patch(record.date, target, newStatus))
  }

  /** Asking to mark an ABSENT day ABSENT still creates a record. */
  lemma AbsentToAbsentCreates(actorId: string, selectedId: Option<string>, record: AttendanceRecord)
    requires MayChange(actorId, selectedId, record) && record.status == ABSENT
    ensures Decide(actorId, selectedId, record, ABSENT) == Some(Create(ChangeTarget(actorId, selectedId), record.date, ABSENT))
  {
  }

  /** Asking for the status a stored record already has still patches it. */
  lemma SameStatusStillPatches(actorId: string, selectedId: Option<string>, record: AttendanceRecord)
    requires MayChange(actorId, selectedId, record) && record.status in {PRESENT, LATE}
    ensures Decide(actorId, selectedId, record, record.status) == Some(Patch(record.date, ChangeTarget(actorId, selectedId), record.status))
  {
  }

  /**
   * The request a permitted status change puts on the wire: a POST of the
   * status, target and date for an ABSENT record, a bodiless DELETE of the
   * target's record when ABSENT is requested, a PATCH of the status otherwise.
   */
  lemma StatusChangeRequest(actorId: string, selectedId: Option<string>, record: AttendanceRecord, newStatus: Status)
    requires MayChange(actorId, selectedId, record)
    ensures var target := ChangeTarget(actorId, selectedId);
      var r := CallRequest(Mutate(Decide(actorId, selectedId, record, newStatus).value));
      && (record.status == ABSENT ==>
            r.verb == POST && r.path == AttendancesPath &&
            r.body == map["status" := StatusName(newStatus), "employee_id" := target, "date" := record.date])
      && (record.status != ABSENT && newStatus == ABSENT ==>
            r.verb == DELETE && r.path == AttendancesPath + record.date + "/" + target + "/" && r.body == map[])
      && (record.status != ABSENT && newStatus != ABSENT ==>
            r.verb == PATCH && r.path == AttendancesPath + record.date + "/" + target + "/" &&
            r.body == map["status" := StatusName(newStatus)])
  {
  }

  /**
   * The URL `fetchAttendance` requests: the chosen month (else the current
   * one), followed by the target's id only when the actor is privileged.
   */
  lemma FetchAttendanceRequest(token: Option<string>, actor: Option<Employee>, selectedId: Option<string>,
                               month: Option<string>, currentMonth: string)
    requires Truthy(token) && Truthy(Target(selectedId, OwnId(actor)))
    ensures var m := if Truthy(month) then month.value else currentMonth;
      var r := CallRequest(ListAttendance(PlanAttendanceFetch(token, actor, selectedId, month, currentMonth).value));
      && r.verb == GET && r.body == map[]
      && (IsPrivileged(actor) ==> r.path == AttendancesPath + m + "/" + Target(selectedId, OwnId(actor)).value + "/")
      && (!IsPrivileged(actor) ==> r.path == AttendancesPath + m + "/")
  {
  }

  // ---------------------------------------------------------------------
  // What the mutation does at the service

  /**
   * The service's stored records, keyed by (date, employee id). This is
   * the model's reading of the endpoints: CREATE stores a record, DELETE
   * removes it, PATCH rewrites an existing one.
   */
  type Rows = map<(string, string), Status>

  function StatusOn(rows: Rows, date: string, id: string): Status
  {
    if (date, id) in rows then rows[(date, id)] else ABSENT
  }

  function Applied(rows: Rows, m: Mutation): Rows
  {
    match m
    case Create(id, date, s) => rows[(date, id) := s]
    case Delete(date, id) => rows - {(date, id)}
    case Patch(date, id, s) => if (date, id) in rows then rows[(date, id) := s] else rows
  }

  /**
   * When the page shows the day as the service has it, the mutation that
   * a permitted status change issues leaves that day with the requested
   * status, and no other day or employee is touched.
   */
  lemma DecisionRealisesRequest(rows: Rows, actorId: string, selectedId: Option<string>,
                                record: AttendanceRecord, newStatus: Status)
    requires MayChange(actorId, selectedId, record)
    requires StatusOn(rows, record.date, ChangeTarget(actorId, selectedId)) == record.status
    ensures var after := Applied(rows, Decide(actorId, selectedId, record, newStatus).value);
      && StatusOn(after, record.date, ChangeTarget(actorId, selectedId)) == newStatus
      && (forall k :: k in rows && k != (record.date, ChangeTarget(actorId, selectedId)) ==> k in after && after[k] == rows[k])
      && (forall d, id :: (d, id) != (record.date, ChangeTarget(actorId, selectedId)) ==>
            StatusOn(after, d, id) == StatusOn(rows, d, id))
      && after.Keys <= rows.Keys + {(record.date, ChangeTarget(actorId, selectedId))}
  {
  }

  // ---------------------------------------------------------------------
  // The page's state

  datatype DashState = DashState(
    attendanceData: AttendanceData,
    loading: bool,
    error: Option<string>,
    employees: seq<Employee>,
    selectedEmployeeId: Option<string>,
    month: Option<string>,
    sent: seq<Call>)

  function InitialDash(): DashState
  {
    DashState(AttendanceData([], None), true, None, [], None, None, [])
  }

  function MutationCount(calls: seq<Call>): nat
  {
    if calls == [] then 0 else (if calls[0].Mutate? then 1 else 0) + MutationCount(calls[1..])
  }

  lemma {:induction false} MutationCountAppend(a: seq<Call>, b: seq<Call>)
    ensures MutationCount(a + b) == MutationCount(a) + MutationCount(b)
  {
    if a != [] {
      assert (a + b)[1..] == a[1..] + b;
      MutationCountAppend(a[1..], b);
    } else {
      assert a + b == b;
    }
  }

  /**
   * `fetchEmployees`: with a token and a privileged actor, request the
   * directory; success replaces the list, failure sets `error`.
   */
  function EmployeesFetched(st: DashState, token: Option<string>, actor: Option<Employee>,
                            reply: Reply<seq<Employee>>): (r: DashState)
    ensures !LoadsDirectory(token, actor) ==> r == st
    ensures LoadsDirectory(token, actor) ==> r.sent == st.sent + [ListEmployees]
    ensures LoadsDirectory(token, actor) && reply.Ok? ==> r.employees == reply.value && r.error == st.error
    ensures LoadsDirectory(token, actor) && !reply.Ok? ==>
      r.employees == st.employees && r.error == Some(FailureMessage(reply, "Failed to fetch employees"))
    ensures r.attendanceData == st.attendanceData && r.loading == st.loading
    ensures r.selectedEmployeeId == st.selectedEmployeeId && r.month == st.month
  {
    if !LoadsDirectory(token, actor) then st
    else
      var st' := st.(sent := st.sent + [ListEmployees]);
      if reply.Ok? then st'.(employees := reply.value)
      else st'.(error := Some(FailureMessage(reply, "Failed to fetch employees")))
  }

  /**
   * `fetchAttendance`: send the planned query if there is one; success
   * replaces the whole view, failure sets `error` and keeps the view.
   * Success does not clear an earlier error.
   */
  function AttendanceFetched(st: DashState, token: Option<string>, actor: Option<Employee>,
                             currentMonth: string, reply: Reply<AttendanceData>): (r: DashState)
    ensures var q := PlanAttendanceFetch(token, actor, st.selectedEmployeeId, st.month, currentMonth);
      && (q.None? ==> r == st)
      && (q.Some? ==> r.sent == st.sent + [ListAttendance(q.value)] && !r.loading)
      && (q.Some? && reply.Ok? ==> r.attendanceData == reply.value && r.error == st.error)
      && (q.Some? && !reply.Ok? ==>
            r.attendanceData == st.attendanceData &&
            r.error == Some(FailureMessage(reply, "Failed to fetch attendance data")))
    ensures r.employees == st.employees && r.selectedEmployeeId == st.selectedEmployeeId && r.month == st.month
    ensures MutationCount(r.sent) == MutationCount(st.sent)
  {
    match PlanAttendanceFetch(token, actor, st.selectedEmployeeId, st.month, currentMonth)
    case None => st
    case Some(q) =>
      MutationCountAppend(st.sent, [ListAttendance(q)]);
      var st' := st.(loading := true, sent := st.sent + [ListAttendance(q)]);
      var st'' :=
        if reply.Ok? then st'.(attendanceData := reply.value)
        else st'.(error := Some(FailureMessage(reply, "Failed to fetch attendance data")));
      st''.(loading := false)
  }

  /**
   * `handleStatusChange`: issue the decided mutation, if any; on success
   * reload the view, on failure set `error` and keep the view.
   */
  function StatusChanged(st: DashState, token: Option<string>, actor: Employee, record: AttendanceRecord,
                         newStatus: Status, currentMonth: string,
                         reply: Reply<()>, refetch: Reply<AttendanceData>): (r: DashState)
    ensures var m := Decide(actor.employeeId, st.selectedEmployeeId, record, newStatus);
      && (m.None? ==> r == st)
      && (m.Some? ==> |r.sent| > |st.sent| && r.sent[|st.sent|] == Mutate(m.value))
      && (m.Some? && reply.Ok? ==>
            r == AttendanceFetched(st.(sent := st.sent + [Mutate(m.value)]), token, Some(actor), currentMonth, refetch))
      && (m.Some? && !reply.Ok? ==>
            r == st.(sent := st.sent + [Mutate(m.value)], error := Some(FailureMessage(reply, MutationFailure(m.value)))))
    ensures MutationCount(r.sent) <= MutationCount(st.sent) + 1
    ensures !reply.Ok? ==> r.attendanceData == st.attendanceData
  {
    match Decide(actor.employeeId, st.selectedEmployeeId, record, newStatus)
    case None => st
    case Some(m) =>
      var st' := st.(sent := st.sent + [Mutate(m)]);
      MutationCountAppend(st.sent, [Mutate(m)]);
      if reply.Ok? then
        AttendanceFetched(st', token, Some(actor), currentMonth, refetch)
      else
        st'.(error := Some(FailureMessage(reply, MutationFailure(m))))
  }

  /** The `Dash` component: its state fields over one session snapshot. */
  class AttendanceView {
    const token: Option<string>
    const employee: Option<Employee>
    var attendanceData: AttendanceData
    var loading: bool
    var error: Option<string>
    var employees: seq<Employee>
    var selectedEmployeeId: Option<string>
    var month: Option<string>
    var sent: seq<Call>

    function State(): DashState
      reads this
    {
      DashState(attendanceData, loading, error, employees, selectedEmployeeId, month, sent)
    }

    constructor (token: Option<string>, employee: Option<Employee>)
      ensures this.token == token && this.employee == employee
      ensures State() == InitialDash()
    {
      this.token := token;
      this.employee := employee;
      attendanceData := AttendanceData([], None);
      loading := true;
      error := None;
      employees := [];
      selectedEmployeeId := None;
      month := None;
      sent := [];
    }

    method FetchEmployees(reply: Reply<seq<Employee>>)
      modifies this
      ensures State() == EmployeesFetched(old(State()), token, employee, reply)
    {
      if Truthy(token) && IsPrivileged(employee) {
        sent := sent + [ListEmployees];
        match reply {
          case Ok(results) => employees := results;
          case _ => error := Some(FailureMessage(reply, "Failed to fetch employees"));
        }
      }
    }

    method FetchAttendance(currentMonth: string, reply: Reply<AttendanceData>)
      modifies this
      ensures State() == AttendanceFetched(old(State()), token, employee, currentMonth, reply)
    {
      var targetEmployeeId := Target(selectedEmployeeId, OwnId(employee));
      if Truthy(token) && Truthy(targetEmployeeId) {
        loading := true;
        var date := if Truthy(month) then month.value else currentMonth;
        var query := AttendanceQuery(date, None);
        if IsPrivileged(employee) && Truthy(targetEmployeeId) {
          query := AttendanceQuery(date, targetEmployeeId);
        }
        sent := sent + [ListAttendance(query)];
        match reply {
          case Ok(data) => attendanceData := data;
          case _ => error := Some(FailureMessage(reply, "Failed to fetch attendance data"));
        }
        loading := false;
      }
    }

    /** Picking an employee in the selector; the selection change reloads the view. */
    method SelectEmployee(id: string, currentMonth: string, reply: Reply<AttendanceData>)
      modifies this
      ensures State() == AttendanceFetched(old(State()).(selectedEmployeeId := Some(id)), token, employee, currentMonth, reply)
    {
      selectedEmployeeId := Some(id);
      FetchAttendance(currentMonth, reply);
    }

    /** Picking a month only records it; the next fetch uses it. */
    method ChooseMonth(m: string)
      modifies this
      ensures State() == old(State()).(month := Some(m))
    {
      month := Some(m);
    }

    method HandleStatusChange(record: AttendanceRecord, newStatus: Status, currentMonth: string,
                              reply: Reply<()>, refetch: Reply<AttendanceData>)
      requires employee.Some?
      modifies this
      ensures State() == StatusChanged(old(State()), token, employee.value, record, newStatus, currentMonth, reply, refetch)
    {
      var actorId := employee.value.employeeId;
      var targetEmployeeId := ChangeTarget(actorId, selectedEmployeeId);
      if targetEmployeeId == "" { return; }
      if targetEmployeeId == actorId { return; }
      if record.status == ON_LEAVE { return; }
      var m;
      if record.status == ABSENT {
        m := Create(targetEmployeeId, record.date, newStatus);
      } else if newStatus == ABSENT {
        m := Delete(record.date, targetEmployeeId);
      } else {
        m := Patch(record.date, targetEmployeeId, newStatus);
      }
      sent := sent + [Mutate(m)];
      if reply.Ok? {
        FetchAttendance(currentMonth, refetch);
      } else {
        error := Some(FailureMessage(reply, MutationFailure(m)));
      }
    }
  }
}
