/** Values shared by the session store and the two pages. */
module Common {

  datatype Option<+T> = None | Some(value: T) {
    predicate IsFailure() { None? }
    function PropagateFailure<U>(): Option<U> requires None? { None }
    function Extract(): T requires Some? { value }
  }

  /** JavaScript truthiness of a possibly-null string: `null` and `""` are falsy. */
  predicate Truthy(s: Option<string>)
  {
    s.Some? && s.value != ""
  }

  datatype EmployeeType = STANDARD | PRIVILEGED

  /** The employee profile the service returns and the session keeps. */
  datatype Employee = Employee(
    employeeId: string,
    firstName: string,
    lastName: string,
    employeeType: EmployeeType,
    availablePaidLeaves: int)

  /** `employee?.employee_type === "PRIVILEGED"` on a possibly-null profile. */
  predicate IsPrivileged(actor: Option<Employee>)
  {
    actor.Some? && actor.value.employeeType == PRIVILEGED
  }

  /**
   * What became of one HTTP request: a 2xx answer with its decoded body, a
   * non-2xx answer with the `detail` field of its body if it had one, or a
   * transport failure whose message the `catch` block sees.
   */
  datatype Reply<+T> = Ok(value: T) | NotOk(detail: Option<string>) | NetworkError(message: string)

  datatype HttpMethod = GET | POST | PATCH | DELETE

  /**
   * What goes over the wire for one logged request: the verb, the path
   * below the service's host, and the JSON body as field name to string
   * value (empty when the request has no body).
   */
  datatype Request = Request(verb: HttpMethod, path: string, body: map<string, string>)

  /**
   * The message a handler stores in `error` when its request failed: a
   * non-2xx answer throws `new Error(fallback)`, a transport failure keeps
   * its own message.
   */
  function FailureMessage<T>(reply: Reply<T>, fallback: string): (m: string)
    requires !reply.Ok?
    ensures reply.NotOk? ==> m == fallback
    ensures reply.NetworkError? ==> m == reply.message
  {
    if reply.NotOk? then fallback else reply.message
  }
}
