/**
 * The leave-request page (`LeaveRequests`): which requests it lists, who may
 * decide a request, the two-step approve/deny confirmation, the local patch
 * of the list after a decision, and submitting a new request.
 */
module Leave {
  import opened Common

  datatype LeaveStatus = PENDING | APPROVED | DENIED

  datatype LeaveRequest = LeaveRequest(
    uuid: string,
    employee: Employee,
    date: string,
    message: string,
    status: LeaveStatus,
    responseMessage: Option<string>)

  /** The paginated list object the service returns; `results` holds the requests. */
  datatype LeaveList = LeaveList(count: int, next: Option<string>, previous: Option<string>, results: seq<LeaveRequest>)

  datatype Decision = Approve | Deny

  /** The list query: every request, or one employee's, always `ordering=-date`. */
  datatype LeaveQuery = LeaveQuery(employeeId: Option<string>)

  /** The JSON body of a new request. */
  datatype SubmitBody = SubmitBody(employeeId: string, date: string, message: string, status: LeaveStatus)

  /** A request the page has sent, in order. */
  datatype Call = ListLeave(query: LeaveQuery) | Submit(body: SubmitBody) | Post(decision: Decision, uuid: string, responseMessage: string)

  // ---------------------------------------------------------------------
  // Endpoints and messages

  const LeaveRequestsPath := "/api/leave-requests/"
  const NewestFirst := "ordering=-date"

  /** The list URL: an optional `employee_id` filter, and always newest first. */
  function QueryPath(q: LeaveQuery): (p: string)
    ensures LeaveRequestsPath + "?" <= p
    ensures |p| >= |NewestFirst| && p[|p| - |NewestFirst|..] == NewestFirst
    ensures q.employeeId.None? ==> p == LeaveRequestsPath + "?" + NewestFirst
    ensures q.employeeId.Some? ==> p == LeaveRequestsPath + "?employee_id=" + q.employeeId.value + "&" + NewestFirst
  {
    if q.employeeId.Some? then LeaveRequestsPath + "?employee_id=" + q.employeeId.value + "&" + NewestFirst
    else LeaveRequestsPath + "?" + NewestFirst
  }

  /** The action URL of a decision: below the request's uuid, `approve/` or `deny/`. */
  function DecisionPath(d: Decision, uuid: string): (p: string)
    ensures LeaveRequestsPath + uuid + "/" <= p
    ensures d == Approve ==> p == LeaveRequestsPath + uuid + "/approve/"
    ensures d == Deny ==> p == LeaveRequestsPath + uuid + "/deny/"
  {
    LeaveRequestsPath + uuid + (if d == Approve then "/approve/" else "/deny/")
  }

  /** Approving and denying the same request never hit the same URL. */
  lemma DecisionPathsDiffer(uuid: string)
    ensures DecisionPath(Approve, uuid) != DecisionPath(Deny, uuid)
  {
  }

  function LeaveStatusName(s: LeaveStatus): string
  {
    match s
    case PENDING => "PENDING"
    case APPROVED => "APPROVED"
    case DENIED => "DENIED"
  }

  function DecidedStatus(d: Decision): LeaveStatus
  {
    if d == Approve then APPROVED else DENIED
  }

  function DecisionFailure(d: Decision): string
  {
    if d == Approve then "Failed to approve leave request" else "Failed to deny leave request"
  }

  const SubmitFallback := "Failed to submit leave request"

  // ---------------------------------------------------------------------
  // Scoping and eligibility

  /**
   * The list query `fetchLeaveRequests` sends, or None without a token and
   * a profile: a privileged actor lists everyone's requests, anyone else
   * only their own.
   */
  function PlanLeaveFetch(token: Option<string>, actor: Option<Employee>): (q: Option<LeaveQuery>)
    ensures q.Some? <==> Truthy(token) && actor.Some?
    ensures q.Some? ==> (q.value.employeeId.None? <==> IsPrivileged(actor))
    ensures q.Some? && q.value.employeeId.Some? ==> q.value.employeeId.value == actor.value.employeeId
  {
    if Truthy(token) && actor.Some? then
      Some(LeaveQuery(if actor.value.employeeType != PRIVILEGED then Some(actor.value.employeeId) else None))
    else
      None
  }

  /**
   * The approve and deny buttons are shown for a request only to a
   * privileged actor, for someone else's request, while it is pending.
   * The handlers themselves do not check this.
   */
  function CanDecide(actor: Option<Employee>, request: LeaveRequest): (b: bool)
    ensures b ==> IsPrivileged(actor) && request.status == PENDING
    ensures actor.Some? && request.employee.employeeId == actor.value.employeeId ==> !b
    ensures actor.Some? && request.employee.employeeId != actor.value.employeeId && request.status == PENDING ==>
      (b <==> IsPrivileged(actor))
  {
    && IsPrivileged(actor)
    && request.employee.employeeId != actor.value.employeeId
    && request.status == PENDING
  }

  /** No actor may decide their own request, whatever their type. */
  lemma OwnRequestNotDecidable(actor: Employee, request: LeaveRequest)
    requires request.employee.employeeId == actor.employeeId
    ensures !CanDecide(Some(actor), request)
  {
  }

  /** Every pending request of someone else is decidable by a privileged actor, and only by one. */
  lemma PrivilegeDecides(actor: Employee, request: LeaveRequest)
    requires request.employee.employeeId != actor.employeeId && request.status == PENDING
    ensures CanDecide(Some(actor), request) <==> actor.employeeType == PRIVILEGED
  {
  }

  // ---------------------------------------------------------------------
  // The local patch after a decision

  function PatchEntry(req: LeaveRequest, uuid: string, status: LeaveStatus, response: string): LeaveRequest
  {
    if req.uuid == uuid then req.(status := status, responseMessage := Some(response)) else req
  }

  /**
   * `results.map(...)`: every entry with the decided uuid takes the new
   * status and response message; every other entry, the length and the
   * order stay as they were.
   */
  function PatchResults(rs: seq<LeaveRequest>, uuid: string, status: LeaveStatus, response: string): (ps: seq<LeaveRequest>)
    ensures |ps| == |rs|
    ensures forall i :: 0 <= i < |rs| && rs[i].uuid == uuid ==>
      ps[i] == rs[i].(status := status, responseMessage := Some(response))
    ensures forall i :: 0 <= i < |rs| && rs[i].uuid != uuid ==> ps[i] == rs[i]
  {
    if rs == [] then [] else [PatchEntry(rs[0], uuid, status, response)] + PatchResults(rs[1..], uuid, status, response)
  }

  /** The list after a decision: only `results` changes. */
  function Decided(list: LeaveList, d: Decision, uuid: string, response: string): (r: LeaveList)
    ensures r.count == list.count && r.next == list.next && r.previous == list.previous
    ensures r.results == PatchResults(list.results, uuid, DecidedStatus(d), response)
  {
    list.(results := PatchResults(list.results, uuid, DecidedStatus(d), response))
  }

  function Uuids(rs: seq<LeaveRequest>): (us: seq<string>)
    ensures |us| == |rs|
  {
    if rs == [] then [] else [rs[0].uuid] + Uuids(rs[1..])
  }

  /** Patching keeps the sequence of uuids, hence which request sits where. */
  lemma {:induction false} PatchKeepsUuids(rs: seq<LeaveRequest>, uuid: string, status: LeaveStatus, response: string)
    ensures Uuids(PatchResults(rs, uuid, status, response)) == Uuids(rs)
  {
    if rs != [] {
      var ps := PatchResults(rs, uuid, status, response);
      assert ps[1..] == PatchResults(rs[1..], uuid, status, response);
      PatchKeepsUuids(rs[1..], uuid, status, response);
    }
  }

  /** Applying the same decision twice is the same as applying it once. */
  lemma PatchIdempotent(rs: seq<LeaveRequest>, uuid: string, status: LeaveStatus, response: string)
    ensures PatchResults(PatchResults(rs, uuid, status, response), uuid, status, response)
         == PatchResults(rs, uuid, status, response)
  {
  }

  /** A decision on a uuid the list does not hold leaves the list as it was. */
  lemma PatchAbsentUuid(rs: seq<LeaveRequest>, uuid: string, status: LeaveStatus, response: string)
    requires forall i :: 0 <= i < |rs| ==> rs[i].uuid != uuid
    ensures PatchResults(rs, uuid, status, response) == rs
  {
  }

  /**
   * With distinct uuids, the decided request is the one entry that shows
   * the new status and response; it can no longer be decided.
   */
  lemma DecisionShowsOnce(actor: Option<Employee>, rs: seq<LeaveRequest>, j: nat, d: Decision, response: string)
    requires j < |rs|
    requires forall i, k :: 0 <= i < k < |rs| ==> rs[i].uuid != rs[k].uuid
    ensures var ps := PatchResults(rs, rs[j].uuid, DecidedStatus(d), response);
      && ps[j].status == DecidedStatus(d) && ps[j].responseMessage == Some(response)
      && !CanDecide(actor, ps[j])
      && forall i :: 0 <= i < |rs| && i != j ==> ps[i] == rs[i]
  {
    var ps := PatchResults(rs, rs[j].uuid, DecidedStatus(d), response);
    forall i | 0 <= i < |rs| && i != j
      ensures ps[i] == rs[i]
    {
      if i < j {
        assert rs[i].uuid != rs[j].uuid;
      } else {
        assert rs[j].uuid != rs[i].uuid;
      }
    }
  }

  // ---------------------------------------------------------------------
  // Submitting

  /** The body of a new request: always the actor's own, always PENDING. */
  function SubmitPayload(actor: Employee, date: string, message: string): (b: SubmitBody)
    ensures b.employeeId == actor.employeeId && b.status == PENDING
    ensures b.date == date && b.message == message
  {
    SubmitBody(actor.employeeId, date, message, PENDING)
  }

  /**
   * The request behind each entry of the log: the list is a bodiless GET;
   * a submit posts the new request's four fields; a decision posts the
   * response message to the decision's action URL.
   */
  function CallRequest(c: Call): (r: Request)
    ensures r.verb == GET <==> c.ListLeave?
    ensures !c.ListLeave? ==> r.verb == POST
    ensures c.ListLeave? ==> r.path == QueryPath(c.query) && r.body == map[]
    ensures c.Submit? ==> r.path == LeaveRequestsPath
    ensures c.Submit? ==>
      && r.body.Keys == {"employee_id", "date", "message", "status"}
      && r.body["employee_id"] == c.body.employeeId && r.body["date"] == c.body.date
      && r.body["message"] == c.body.message && r.body["status"] == LeaveStatusName(c.body.status)
    ensures c.Post? ==> r.path == DecisionPath(c.decision, c.uuid) && r.body == map["response_message" := c.responseMessage]
  {
    match c
    case ListLeave(q) => Request(GET, QueryPath(q), map[])
    case Submit(b) =>
      Request(POST, LeaveRequestsPath,
              map["employee_id" := b.employeeId, "date" := b.date, "message" := b.message, "status" := LeaveStatusName(b.status)])
    case Post(d, uuid, response) => Request(POST, DecisionPath(d, uuid), map["response_message" := response])
  }

  /**
   * The URL `fetchLeaveRequests` requests: everyone's requests for a
   * privileged actor, else filtered to the actor's own id; newest first.
   */
  lemma LeaveFetchRequest(token: Option<string>, actor: Option<Employee>)
    requires Truthy(token) && actor.Some?
    ensures var r := CallRequest(ListLeave(PlanLeaveFetch(token, actor).value));
      && r.verb == GET
      && (IsPrivileged(actor) ==> r.path == LeaveRequestsPath + "?ordering=-date")
      && (!IsPrivileged(actor) ==> r.path == LeaveRequestsPath + "?employee_id=" + actor.value.employeeId + "&ordering=-date")
  {
  }

  /** A submit posts the actor's own id, the form's date and message, and PENDING. */
  lemma SubmitRequest(actor: Employee, date: string, message: string)
    ensures var r := CallRequest(Submit(SubmitPayload(actor, date, message)));
      && r.verb == POST && r.path == LeaveRequestsPath
      && r.body == map["employee_id" := actor.employeeId, "date" := date, "message" := message, "status" := "PENDING"]
  {
  }

  /** The error a failed submit shows: the service's `detail` when truthy, else the fallback. */
  function SubmitError(reply: Reply<()>): (m: string)
    requires !reply.Ok?
    ensures reply.NotOk? && Truthy(reply.detail) ==> m == reply.detail.value
    ensures reply.NotOk? && !Truthy(reply.detail) ==> m == SubmitFallback
    ensures reply.NetworkError? ==> m == reply.message
  {
    match reply
    case NotOk(detail) => if Truthy(detail) then detail.value else SubmitFallback
    case NetworkError(message) => message
  }

  // ---------------------------------------------------------------------
  // The page's state

  datatype LeaveState = LeaveState(
    leaveRequests: Option<LeaveList>,
    date: string,
    message: string,
    loading: bool,
    error: Option<string>,
    isModalOpen: bool,
    responseMessage: string,
    selectedRequest: Option<LeaveRequest>,
    currentAction: Option<Decision>,
    sent: seq<Call>)

  /** The modal is open exactly while a request and an action are staged. */
  predicate Staged(st: LeaveState)
  {
    st.isModalOpen == st.selectedRequest.Some? && st.currentAction.Some? == st.selectedRequest.Some?
  }

  function InitialLeave(): (st: LeaveState)
    ensures Staged(st)
  {
    LeaveState(None, "", "", true, None, false, "", None, None, [])
  }

  /**
   * `fetchLeaveRequests`: send the planned query if there is one; success
   * replaces the list, failure sets `error`.
   */
  function ListFetched(st: LeaveState, token: Option<string>, actor: Option<Employee>, reply: Reply<LeaveList>): (r: LeaveState)
    ensures PlanLeaveFetch(token, actor).None? ==> r == st
    ensures PlanLeaveFetch(token, actor).Some? ==>
      r.sent == st.sent + [ListLeave(PlanLeaveFetch(token, actor).value)] && !r.loading
    ensures PlanLeaveFetch(token, actor).Some? && reply.Ok? ==>
      r.leaveRequests == Some(reply.value) && r.error == st.error
    ensures PlanLeaveFetch(token, actor).Some? && !reply.Ok? ==>
      r.leaveRequests == st.leaveRequests && r.error == Some(FailureMessage(reply, "Failed to fetch leave requests"))
    ensures r.date == st.date && r.message == st.message
    ensures r.isModalOpen == st.isModalOpen && r.responseMessage == st.responseMessage
    ensures r.selectedRequest == st.selectedRequest && r.currentAction == st.currentAction
    ensures Staged(st) ==> Staged(r)
  {
    match PlanLeaveFetch(token, actor)
    case None => st
    case Some(q) =>
      var st' := st.(loading := true, sent := st.sent + [ListLeave(q)]);
      var st'' :=
        if reply.Ok? then st'.(leaveRequests := Some(reply.value))
        else st'.(error := Some(FailureMessage(reply, "Failed to fetch leave requests")));
      st''.(loading := false)
  }

  /**
   * `handleSubmit`: clear the error, post the actor's PENDING request; on
   * success reload the list and clear the form, on failure show the
   * service's detail or the fallback.
   */
  function Submitted(st: LeaveState, token: Option<string>, actor: Employee,
                     reply: Reply<()>, refetch: Reply<LeaveList>): (r: LeaveState)
    ensures |r.sent| > |st.sent| && r.sent[|st.sent|] == Submit(SubmitPayload(actor, st.date, st.message))
    ensures reply.Ok? ==> r.date == "" && r.message == ""
    ensures reply.Ok? && Truthy(token) ==>
      r.sent == st.sent + [Submit(SubmitPayload(actor, st.date, st.message)), ListLeave(PlanLeaveFetch(token, Some(actor)).value)]
    ensures reply.Ok? && !Truthy(token) ==> r.sent == st.sent + [Submit(SubmitPayload(actor, st.date, st.message))]
    ensures reply.Ok? && refetch.Ok? ==> r.error.None?
    ensures reply.Ok? && refetch.Ok? && Truthy(token) ==> r.leaveRequests == Some(refetch.value)
    ensures reply.Ok? && !refetch.Ok? && Truthy(token) ==>
      r.leaveRequests == st.leaveRequests && r.error == Some(FailureMessage(refetch, "Failed to fetch leave requests"))
    ensures reply.Ok? && !Truthy(token) ==> r.leaveRequests == st.leaveRequests && r.error.None?
    ensures reply.Ok? ==>
      r == ListFetched(st.(error := None, sent := st.sent + [Submit(SubmitPayload(actor, st.date, st.message))]),
                       token, Some(actor), refetch).(date := "", message := "")
    ensures !reply.Ok? ==> r == st.(error := Some(SubmitError(reply)), sent := st.sent + [Submit(SubmitPayload(actor, st.date, st.message))])
    ensures Staged(st) ==> Staged(r)
  {
    var st' := st.(error := None, sent := st.sent + [Submit(SubmitPayload(actor, st.date, st.message))]);
    if reply.Ok? then
      ListFetched(st', token, Some(actor), refetch).(date := "", message := "")
    else
      st'.(error := Some(SubmitError(reply)))
  }

  /** `openModal(request, action)`: stage the request and the action, open the modal. */
  function Opened(st: LeaveState, request: LeaveRequest, d: Decision): (r: LeaveState)
    ensures Staged(r)
    ensures r.selectedRequest == Some(request) && r.currentAction == Some(d) && r.isModalOpen
    ensures r.sent == st.sent && r.leaveRequests == st.leaveRequests && r.responseMessage == st.responseMessage
    ensures r.date == st.date && r.message == st.message && r.loading == st.loading && r.error == st.error
  {
    st.(selectedRequest := Some(request), currentAction := Some(d), isModalOpen := true)
  }

  /** `closeModal()`: drop what was staged and the typed response; nothing is sent. */
  function Closed(st: LeaveState): (r: LeaveState)
    ensures Staged(r) && !r.isModalOpen
    ensures r.selectedRequest.None? && r.currentAction.None? && r.responseMessage == ""
    ensures r.sent == st.sent && r.leaveRequests == st.leaveRequests && r.error == st.error
    ensures r.date == st.date && r.message == st.message && r.loading == st.loading
  {
    st.(selectedRequest := None, currentAction := None, responseMessage := "", isModalOpen := false)
  }

  /**
   * `handleApprove` / `handleDeny`: post the decision; on success patch the
   * loaded list locally, on failure set `error` and keep the list.
   */
  function DecisionSent(st: LeaveState, d: Decision, uuid: string, response: string, reply: Reply<()>): (r: LeaveState)
    ensures r.sent == st.sent + [Post(d, uuid, response)]
    ensures reply.Ok? && st.leaveRequests.Some? ==> r.leaveRequests == Some(Decided(st.leaveRequests.value, d, uuid, response))
    ensures reply.Ok? ==> r.error == st.error
    ensures !reply.Ok? ==> r.leaveRequests == st.leaveRequests && r.error == Some(FailureMessage(reply, DecisionFailure(d)))
    ensures reply.Ok? && st.leaveRequests.None? ==> r.leaveRequests.None?
    ensures r.date == st.date && r.message == st.message && r.loading == st.loading
    ensures r.isModalOpen == st.isModalOpen && r.responseMessage == st.responseMessage
    ensures r.selectedRequest == st.selectedRequest && r.currentAction == st.currentAction
    ensures Staged(st) ==> Staged(r)
  {
    var st' := st.(sent := st.sent + [Post(d, uuid, response)]);
    if reply.Ok? then
      if st.leaveRequests.Some? then st'.(leaveRequests := Some(Decided(st.leaveRequests.value, d, uuid, response))) else st'
    else
      st'.(error := Some(FailureMessage(reply, DecisionFailure(d))))
  }

  /**
   * `handleConfirm()`: exactly one decision on the staged request with the
   * typed response when an action is staged, none otherwise; then the
   * modal closes.
   */
  function Confirmed(st: LeaveState, reply: Reply<()>): (r: LeaveState)
    requires Staged(st)
    ensures Staged(r) && !r.isModalOpen
    ensures r.selectedRequest.None? && r.currentAction.None? && r.responseMessage == ""
    ensures st.currentAction.None? ==> r.sent == st.sent && r.leaveRequests == st.leaveRequests && r.error == st.error
    ensures st.currentAction.Some? ==>
      r.sent == st.sent + [Post(st.currentAction.value, st.selectedRequest.value.uuid, st.responseMessage)]
    ensures st.currentAction.Some? && reply.Ok? && st.leaveRequests.Some? ==>
      r.leaveRequests == Some(Decided(st.leaveRequests.value, st.currentAction.value, st.selectedRequest.value.uuid, st.responseMessage))
    ensures !reply.Ok? ==> r.leaveRequests == st.leaveRequests
    ensures st.currentAction.Some? && reply.Ok? && st.leaveRequests.None? ==> r.leaveRequests.None?
    ensures st.currentAction.Some? && reply.Ok? ==> r.error == st.error
    ensures st.currentAction.Some? && !reply.Ok? ==>
      r.error == Some(FailureMessage(reply, DecisionFailure(st.currentAction.value)))
    ensures r.date == st.date && r.message == st.message && r.loading == st.loading
  {
    var st' :=
      if st.currentAction.Some? then
        DecisionSent(st, st.currentAction.value, st.selectedRequest.value.uuid, st.responseMessage, reply)
      else st;
    Closed(st')
  }

  /**
   * Confirming a staged action sends one POST: the typed response, to that
   * action's URL for the staged request.
   */
  lemma ConfirmedRequest(st: LeaveState, reply: Reply<()>)
    requires Staged(st) && st.currentAction.Some?
    ensures var r := Confirmed(st, reply);
      && |r.sent| == |st.sent| + 1
      && CallRequest(r.sent[|st.sent|]) ==
         Request(POST, DecisionPath(st.currentAction.value, st.selectedRequest.value.uuid),
                 map["response_message" := st.responseMessage])
  {
  }

  /** The `LeaveRequests` component: its state fields over one session snapshot. */
  class LeavePage {
    const token: Option<string>
    const employee: Option<Employee>
    var leaveRequests: Option<LeaveList>
    var date: string
    var message: string
    var loading: bool
    var error: Option<string>
    var isModalOpen: bool
    var responseMessage: string
    var selectedRequest: Option<LeaveRequest>
    var currentAction: Option<Decision>
    var sent: seq<Call>

    function State(): LeaveState
      reads this
    {
      LeaveState(leaveRequests, date, message, loading, error, isModalOpen,
                 responseMessage, selectedRequest, currentAction, sent)
    }

    ghost predicate Valid()
      reads this
    {
      Staged(State())
    }

    constructor (token: Option<string>, employee: Option<Employee>)
      ensures Valid()
      ensures this.token == token && this.employee == employee
      ensures State() == InitialLeave()
    {
      this.token := token;
      this.employee := employee;
      leaveRequests := None;
      date := "";
      message := "";
      loading := true;
      error := None;
      isModalOpen := false;
      responseMessage := "";
      selectedRequest := None;
      currentAction := None;
      sent := [];
    }

    method FetchLeaveRequests(reply: Reply<LeaveList>)
      requires Valid()
      modifies this
      ensures Valid()
      ensures State() == ListFetched(old(State()), token, employee, reply)
    {
      if Truthy(token) && employee.Some? {
        loading := true;
        var query := LeaveQuery(None);
        if employee.value.employeeType != PRIVILEGED {
          query := LeaveQuery(Some(employee.value.employeeId));
        }
        sent := sent + [ListLeave(query)];
        match reply {
          case Ok(data) => leaveRequests := Some(data);
          case _ => error := Some(FailureMessage(reply, "Failed to fetch leave requests"));
        }
        loading := false;
      }
    }

    /** Typing in the date field. */
    method SetDate(d: string)
      modifies this
      ensures State() == old(State()).(date := d)
    {
      date := d;
    }

    /** Typing in the message field. */
    method SetMessage(m: string)
      modifies this
      ensures State() == old(State()).(message := m)
    {
      message := m;
    }

    /** Typing in the modal's response field. */
    method SetResponseMessage(m: string)
      requires Valid()
      modifies this
      ensures Valid()
      ensures State() == old(State()).(responseMessage := m)
    {
      responseMessage := m;
    }

    method HandleSubmit(reply: Reply<()>, refetch: Reply<LeaveList>)
      requires Valid() && employee.Some?
      modifies this
      ensures Valid()
      ensures State() == Submitted(old(State()), token, employee.value, reply, refetch)
    {
      error := None;
      sent := sent + [Submit(SubmitBody(employee.value.employeeId, date, message, PENDING))];
      if !reply.Ok? {
        error := Some(SubmitError(reply));
        return;
      }
      FetchLeaveRequests(refetch);
      date := "";
      message := "";
    }

    method OpenModal(request: LeaveRequest, action: Decision)
      modifies this
      ensures Valid()
      ensures State() == Opened(old(State()), request, action)
    {
      selectedRequest := Some(request);
      currentAction := Some(action);
      isModalOpen := true;
    }

    method CloseModal()
      modifies this
      ensures Valid()
      ensures State() == Closed(old(State()))
    {
      selectedRequest := None;
      currentAction := None;
      responseMessage := "";
      isModalOpen := false;
    }

    /** `handleApprove(uuid, response)` and `handleDeny(uuid, response)`. */
    method HandleDecision(d: Decision, uuid: string, response: string, reply: Reply<()>)
      requires Valid()
      modifies this
      ensures Valid()
      ensures State() == DecisionSent(old(State()), d, uuid, response, reply)
    {
      sent := sent + [Post(d, uuid, response)];
      if !reply.Ok? {
        error := Some(FailureMessage(reply, DecisionFailure(d)));
        return;
      }
      if leaveRequests.Some? {
        var list := leaveRequests.value;
        leaveRequests := Some(list.(results := PatchResults(list.results, uuid, DecidedStatus(d), response)));
      }
    }

    method HandleConfirm(reply: Reply<()>)
      requires Valid()
      modifies this
      ensures Valid()
      ensures State() == Confirmed(old(State()), reply)
    {
      match currentAction {
        case Some(Approve) => HandleDecision(Approve, selectedRequest.value.uuid, responseMessage, reply);
        case Some(Deny) => HandleDecision(Deny, selectedRequest.value.uuid, responseMessage, reply);
        case None =>
      }
      CloseModal();
    }
  }
}
