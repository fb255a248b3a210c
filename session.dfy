/**
 * The session store (`AuthProvider`): an in-memory token and employee
 * profile, mirrored into the browser's key/value storage under the keys
 * "token" and "employee" so that a reload can restore them.
 */
module Session {
  import opened Common
  import EmployeeJson

  const TokenKey := "token"
  const EmployeeKey := "employee"

  /** The whole state: the two in-memory fields and the storage they mirror. */
  datatype SessionState = SessionState(
    token: Option<string>,
    employee: Option<Employee>,
    storage: map<string, string>)

  /** The state when the provider mounts: nothing in memory yet. */
  function Mounted(storage: map<string, string>): SessionState
  {
    SessionState(None, None, storage)
  }

  /** `localStorage.getItem(key)`: the stored string, or null. */
  function Get(storage: map<string, string>, key: string): (r: Option<string>)
    ensures r.Some? <==> key in storage
    ensures r.Some? ==> r.value == storage[key]
  {
    if key in storage then Some(storage[key]) else None
  }

  /** Token and employee are set together or cleared together. */
  predicate Consistent(st: SessionState)
  {
    st.token.Some? <==> st.employee.Some?
  }

  /**
   * Storage holds exactly what memory holds: both keys with the token and
   * the encoded profile while a session is open, neither key otherwise.
   */
  predicate Mirrored(st: SessionState)
  {
    match st.token
    case Some(t) =>
      st.employee.Some? &&
      Get(st.storage, TokenKey) == Some(t) &&
      Get(st.storage, EmployeeKey) == Some(EmployeeJson.Encode(st.employee.value))
    case None =>
      st.employee.None? && TokenKey !in st.storage && EmployeeKey !in st.storage
  }

  /**
   * The restore effect takes the stored token when both stored strings are
   * truthy (present and non-empty) and the profile text is an encoded
   * profile or JSON `null`.
   */
  predicate RestoresToken(storage: map<string, string>)
  {
    && Truthy(Get(storage, TokenKey))
    && Truthy(Get(storage, EmployeeKey))
    && !EmployeeJson.Parse(storage[EmployeeKey]).Unreadable?
  }

  /** ... and it takes a profile as well only when the text is an encoded profile. */
  predicate Restorable(storage: map<string, string>)
  {
    && Truthy(Get(storage, TokenKey))
    && Truthy(Get(storage, EmployeeKey))
    && EmployeeJson.Parse(storage[EmployeeKey]).Profile?
  }

  /** Storage holds no profile text that parses to JSON `null`. */
  predicate NullFree(storage: map<string, string>)
  {
    Get(storage, EmployeeKey) != Some(EmployeeJson.NullText)
  }

  /** `login(t, e)`: set both fields, write both keys. */
  function AfterLogin(st: SessionState, t: string, e: Employee): (r: SessionState)
    ensures r.token == Some(t) && r.employee == Some(e)
    ensures Mirrored(r)
    ensures forall k :: k != TokenKey && k != EmployeeKey ==> Get(r.storage, k) == Get(st.storage, k)
  {
    SessionState(Some(t), Some(e), st.storage[TokenKey := t][EmployeeKey := EmployeeJson.Encode(e)])
  }

  /** `logout()`: clear both fields, remove both keys. */
  function AfterLogout(st: SessionState): (r: SessionState)
    ensures r.token.None? && r.employee.None?
    ensures Mirrored(r)
    ensures forall k :: k != TokenKey && k != EmployeeKey ==> Get(r.storage, k) == Get(st.storage, k)
  {
    SessionState(None, None, st.storage - {TokenKey, EmployeeKey})
  }

  /**
   * The restore effect: when the storage is restorable, memory takes the
   * stored token and the decoded profile; when the profile text is JSON
   * `null`, the token is taken and the profile becomes null; otherwise
   * nothing changes. Storage is only read.
   */
  function AfterRestore(st: SessionState): (r: SessionState)
    ensures r.storage == st.storage
    ensures Restorable(st.storage) ==>
      r.token == Some(st.storage[TokenKey]) && r.employee == EmployeeJson.Decode(st.storage[EmployeeKey])
    ensures RestoresToken(st.storage) && !Restorable(st.storage) ==>
      r == st.(token := Some(st.storage[TokenKey]), employee := None)
    ensures !RestoresToken(st.storage) ==> r == st
  {
    var storedToken := Get(st.storage, TokenKey);
    var storedEmployee := Get(st.storage, EmployeeKey);
    if Truthy(storedToken) && Truthy(storedEmployee) then
      match EmployeeJson.Parse(storedEmployee.value)
      case Profile(e) => SessionState(storedToken, Some(e), st.storage)
      case Null => SessionState(storedToken, None, st.storage)
      case Unreadable => st
    else
      st
  }

  /**
   * Restoring right after mount takes a token exactly when both values are
   * truthy and the profile text is an encoded profile or `null`, and a
   * profile exactly when it is an encoded profile.
   */
  lemma RestoreNeedsBothKeys(storage: map<string, string>)
    ensures AfterRestore(Mounted(storage)).token.Some? <==> RestoresToken(storage)
    ensures AfterRestore(Mounted(storage)).employee.Some? <==> Restorable(storage)
  {
  }

  /**
   * A stored profile text `null` beside a truthy token restores the token
   * without a profile, the one way a session holds one without the other.
   */
  lemma NullProfileSplitsSession(storage: map<string, string>)
    requires Truthy(Get(storage, TokenKey)) && Get(storage, EmployeeKey) == Some(EmployeeJson.NullText)
    ensures var r := AfterRestore(Mounted(storage));
      r.token == Some(storage[TokenKey]) && r.employee.None? && !Consistent(r)
  {
  }

  /** A login never stores the text `null`: an encoded profile is a JSON object. */
  lemma LoginIsNullFree(st: SessionState, t: string, e: Employee)
    ensures NullFree(AfterLogin(st, t, e).storage)
  {
    var text := EmployeeJson.Encode(e);
    assert text[0] == EmployeeJson.EmployeeIdKey[0] == '{';
    assert EmployeeJson.NullText[0] == 'n';
  }

  /** A reload after `login(t, e)` restores the token t and a profile equal to e. */
  lemma RestoreAfterLogin(st: SessionState, t: string, e: Employee)
    requires t != ""
    ensures var r := AfterRestore(Mounted(AfterLogin(st, t, e).storage));
      r.token == Some(t) && r.employee == Some(e)
  {
    EmployeeJson.DecodeEncode(e);
  }

  /** A login with an empty token is not restored: `""` is falsy in the restore test. */
  lemma EmptyTokenIsNotRestored(st: SessionState, e: Employee)
    ensures AfterRestore(Mounted(AfterLogin(st, "", e).storage)) == Mounted(AfterLogin(st, "", e).storage)
  {
  }

  /** A reload after `logout()` finds no session: restore leaves the mounted state as it is. */
  lemma RestoreAfterLogout(st: SessionState)
    ensures AfterRestore(Mounted(AfterLogout(st).storage)).token.None?
    ensures AfterRestore(Mounted(AfterLogout(st).storage)) == Mounted(AfterLogout(st).storage)
  {
  }

  /** Logging out twice is the same as logging out once. */
  lemma LogoutIdempotent(st: SessionState)
    ensures AfterLogout(AfterLogout(st)) == AfterLogout(st)
  {
  }

  /** The operations a session can go through, in any order. */
  datatype SessionOp = Restore | Logout | Login(token: string, employee: Employee)

  function Step(st: SessionState, op: SessionOp): SessionState
  {
    match op
    case Restore => AfterRestore(st)
    case Logout => AfterLogout(st)
    case Login(t, e) => AfterLogin(st, t, e)
  }

  function Run(st: SessionState, ops: seq<SessionOp>): SessionState
    decreases |ops|
  {
    if ops == [] then st else Run(Step(st, ops[0]), ops[1..])
  }

  /**
   * Each single operation keeps token and employee set or cleared together,
   * as long as storage holds no profile text `null`; none of them writes one.
   */
  lemma StepConsistent(st: SessionState, op: SessionOp)
    requires Consistent(st) && NullFree(st.storage)
    ensures Consistent(Step(st, op)) && NullFree(Step(st, op).storage)
  {
    if op.Login? {
      LoginIsNullFree(st, op.token, op.employee);
    }
  }

  /** Token and employee stay set or cleared together along any run from null-free storage. */
  lemma {:induction false} RunConsistent(st: SessionState, ops: seq<SessionOp>)
    requires Consistent(st) && NullFree(st.storage)
    ensures Consistent(Run(st, ops)) && NullFree(Run(st, ops).storage)
    decreases |ops|
  {
    if ops != [] {
      StepConsistent(st, ops[0]);
      RunConsistent(Step(st, ops[0]), ops[1..]);
    }
  }

  /** The provider component: its two state fields and the storage it writes. */
  class SessionStore {
    var token: Option<string>
    var employee: Option<Employee>
    var storage: map<string, string>

    function State(): SessionState
      reads this
    {
      SessionState(token, employee, storage)
    }

    ghost predicate Valid()
      reads this
    {
      Consistent(State()) && NullFree(storage)
    }

    /** Mounting the provider: both fields start null, then the restore effect runs. */
    constructor (stored: map<string, string>)
      ensures NullFree(stored) ==> Valid()
      ensures State() == AfterRestore(Mounted(stored))
    {
      token := None;
      employee := None;
      storage := stored;
      new;
      Restore();
    }

    method Restore()
      modifies this
      ensures old(Valid()) ==> Valid()
      ensures State() == AfterRestore(old(State()))
    {
      var storedToken := Get(storage, TokenKey);
      var storedEmployee := Get(storage, EmployeeKey);
      if Truthy(storedToken) && Truthy(storedEmployee) {
        match EmployeeJson.Parse(storedEmployee.value) {
          case Profile(e) =>
            token := storedToken;
            employee := Some(e);
          case Null =>
            token := storedToken;
            employee := None;
          case Unreadable =>
        }
      }
    }

    method Login(t: string, e: Employee)
      modifies this
      ensures Valid()
      ensures State() == AfterLogin(old(State()), t, e)
    {
      LoginIsNullFree(State(), t, e);
      token := Some(t);
      employee := Some(e);
      storage := storage[TokenKey := t];
      storage := storage[EmployeeKey := EmployeeJson.Encode(e)];
    }

    method Logout()
      modifies this
      ensures Valid()
      ensures State() == AfterLogout(old(State()))
    {
      token := None;
      employee := None;
      storage := storage - {TokenKey};
      storage := storage - {EmployeeKey};
    }
  }
}
