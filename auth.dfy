/**
 * The employee session routes (api-server/src/routes/auth.js): register,
 * login, refresh-token rotation and logout, over the employee collection
 * (api-server/src/models/Employee.js). Signed tokens are opaque strings
 * supplied by the caller, the outcome of verifying one is a parameter, and a
 * password matches when it equals the stored one.
 */
module Auth {
  import opened Wrappers
  import opened Text

  /** The values the `role` enum admits. */
  const Roles: set<string> := {"admin", "employee"}

  /** An employee document; `refreshToken` is `null` until the first login or registration. */
  datatype Employee = Employee(
    id: string,
    email: string,
    password: string,
    name: string,
    role: string,
    refreshToken: Option<string>)

  /** What `toJSON` exposes: the document without the password and the stored token. */
  datatype PublicUser = PublicUser(id: string, email: string, name: string, role: string)

  function Public(e: Employee): PublicUser {
    PublicUser(e.id, e.email, e.name, e.role)
  }

  /** The pair `generateTokens` signs for an employee id. */
  datatype TokenPair = TokenPair(accessToken: string, refreshToken: string)

  /**
   * A register body after the validation chain: the normalised email and
   * whether it passed `isEmail`, the password, the name, and the optional role.
   */
  datatype RegisterBody = RegisterBody(email: string, emailValid: bool, password: string, name: string,
                                       role: Option<string>)

  predicate RegisterBodyValid(b: RegisterBody) {
    && b.emailValid
    && |b.password| >= 6
    && Trim(b.name) != ""
    && (b.role.None? || b.role.value in Roles)
  }

  /** A login body after the validation chain. */
  datatype LoginBody = LoginBody(email: string, emailValid: bool, password: string)

  predicate LoginBodyValid(b: LoginBody) {
    b.emailValid && b.password != ""
  }

  /** What `jwt.verify` does with a token: decodes it, or throws an error of some name. */
  datatype VerifyOutcome = Decoded(id: string) | JsonWebTokenError | TokenExpiredError | OtherError

  /** The responses of the four routes. */
  datatype AuthResponse =
    | ValidationFailed
    | EmailTaken
    | Registered(user: PublicUser, tokens: TokenPair)
    | InvalidCredentials
    | LoggedIn(user: PublicUser, tokens: TokenPair)
    | RefreshRequired
    | InvalidRefresh
    | InvalidOrExpired
    | ServerError
    | Refreshed(tokens: TokenPair)
    | LoggedOut

  /** The HTTP status of each response. */
  function Status(r: AuthResponse): (code: int)
    ensures code == 401 <==> r.InvalidCredentials? || r.RefreshRequired? || r.InvalidRefresh? || r.InvalidOrExpired?
  {
    match r
    case ValidationFailed => 400
    case EmailTaken => 400
    case Registered(_, _) => 201
    case InvalidCredentials => 401
    case LoggedIn(_, _) => 200
    case RefreshRequired => 401
    case InvalidRefresh => 401
    case InvalidOrExpired => 401
    case ServerError => 500
    case Refreshed(_) => 200
    case LoggedOut => 200
  }

  /** The collection's constraints: unique ids, unique emails, roles from the enum. */
  predicate ValidEmployees(emps: seq<Employee>) {
    && (forall i, j :: 0 <= i < j < |emps| ==> emps[i].id != emps[j].id && emps[i].email != emps[j].email)
    && (forall i :: 0 <= i < |emps| ==> emps[i].role in Roles)
  }

  /** The two fields the routes look an employee up by. */
  datatype Key = ByEmail | ById

  function KeyOf(e: Employee, k: Key): string {
    match k
    case ByEmail => e.email
    case ById => e.id
  }

  /**
   * `Employee.findOne({ email })` and `Employee.findById(id)`: the first
   * employee whose field `k` holds `v`.
   */
  function FindBy(emps: seq<Employee>, k: Key, v: string): (r: Option<nat>)
    ensures r.Some? ==> r.value < |emps| && KeyOf(emps[r.value], k) == v
    ensures r.None? <==> forall i :: 0 <= i < |emps| ==> KeyOf(emps[i], k) != v
  {
    if emps == [] then None
    else if KeyOf(emps[0], k) == v then Some(0)
    else
      match FindBy(emps[1..], k, v)
      case None => None
      case Some(i) => Some(i + 1)
  }

  /** A route's response and the collection it leaves. */
  datatype Step = Step(response: AuthResponse, employees: seq<Employee>)

  /**
   * `POST /register`: a validation failure or a registered email is a 400 that
   * creates nothing; otherwise the employee is created (role defaulting to
   * 'employee') and stored with the refresh token that is returned.
   */
  function RegisterStep(emps: seq<Employee>, b: RegisterBody, newId: string, tokens: TokenPair): (s: Step)
    ensures s.response == ValidationFailed <==> !RegisterBodyValid(b)
    ensures s.response == EmailTaken <==> RegisterBodyValid(b) && FindBy(emps, ByEmail, b.email).Some?
    ensures s.response.Registered? <==> RegisterBodyValid(b) && FindBy(emps, ByEmail, b.email).None?
    ensures !s.response.Registered? ==> s.employees == emps
    ensures s.response.Registered? ==>
              && |s.employees| == |emps| + 1 && s.employees[..|emps|] == emps
              && var e := s.employees[|emps|];
                 && e.id == newId && e.email == b.email && e.password == b.password
                 && e.name == Trim(b.name) && e.role == b.role.GetOr("employee")
                 && e.refreshToken == Some(tokens.refreshToken)
                 && s.response == Registered(Public(e), tokens)
  {
    if !RegisterBodyValid(b) then Step(ValidationFailed, emps)
    else if FindBy(emps, ByEmail, b.email).Some? then Step(EmailTaken, emps)
    else
      var e := Employee(newId, b.email, b.password, Trim(b.name), b.role.GetOr("employee"), Some(tokens.refreshToken));
      assert (emps + [e])[..|emps|] == emps;
      Step(Registered(Public(e), tokens), emps + [e])
  }

  /**
   * `POST /login`: an unknown email and a wrong password give the same 401;
   * otherwise the new refresh token is stored and returned.
   */
  function LoginStep(emps: seq<Employee>, b: LoginBody, tokens: TokenPair): (s: Step)
    ensures s.response == ValidationFailed <==> !LoginBodyValid(b)
    ensures s.response == InvalidCredentials <==>
              LoginBodyValid(b) && (FindBy(emps, ByEmail, b.email).None? || emps[FindBy(emps, ByEmail, b.email).value].password != b.password)
    ensures s.response.LoggedIn? <==>
              LoginBodyValid(b) && FindBy(emps, ByEmail, b.email).Some? && emps[FindBy(emps, ByEmail, b.email).value].password == b.password
    ensures !s.response.LoggedIn? ==> s.employees == emps
    ensures s.response.LoggedIn? ==>
              var i := FindBy(emps, ByEmail, b.email).value;
              && s.employees == emps[i := emps[i].(refreshToken := Some(tokens.refreshToken))]
              && s.response == LoggedIn(Public(emps[i]), tokens)
  {
    if !LoginBodyValid(b) then Step(ValidationFailed, emps)
    else
      match FindBy(emps, ByEmail, b.email)
      case None => Step(InvalidCredentials, emps)
      case Some(i) =>
        if emps[i].password != b.password then Step(InvalidCredentials, emps)
        else Step(LoggedIn(Public(emps[i]), tokens), emps[i := emps[i].(refreshToken := Some(tokens.refreshToken))])
  }

  /**
   * `POST /refresh`: a missing or empty token is a 401; a token that does not
   * verify is a 401 when the error is a malformed or expired token and a 500
   * otherwise; a token that verifies is accepted only if it is the one stored
   * for that employee, and is then rotated.
   */
  function RefreshStep(emps: seq<Employee>, token: Option<string>, verify: VerifyOutcome, tokens: TokenPair): (s: Step)
    ensures s.response == RefreshRequired <==> token.None? || token.value == ""
    ensures s.response == InvalidOrExpired <==>
              token.Some? && token.value != "" && (verify.JsonWebTokenError? || verify.TokenExpiredError?)
    ensures s.response == ServerError <==> token.Some? && token.value != "" && verify.OtherError?
    ensures s.response == InvalidRefresh <==>
              && token.Some? && token.value != "" && verify.Decoded?
              && (FindBy(emps, ById, verify.id).None? || emps[FindBy(emps, ById, verify.id).value].refreshToken != token)
    ensures s.response.Refreshed? <==>
              && token.Some? && token.value != "" && verify.Decoded? && FindBy(emps, ById, verify.id).Some?
              && emps[FindBy(emps, ById, verify.id).value].refreshToken == token
    ensures !s.response.Refreshed? ==> s.employees == emps
    ensures s.response.Refreshed? ==>
              var i := FindBy(emps, ById, verify.id).value;
              && s.employees == emps[i := emps[i].(refreshToken := Some(tokens.refreshToken))]
              && s.response == Refreshed(tokens)
  {
    if token.None? || token.value == "" then Step(RefreshRequired, emps)
    else
      match verify
      case JsonWebTokenError => Step(InvalidOrExpired, emps)
      case TokenExpiredError => Step(InvalidOrExpired, emps)
      case OtherError => Step(ServerError, emps)
      case Decoded(id) =>
        match FindBy(emps, ById, id)
        case None => Step(InvalidRefresh, emps)
        case Some(i) =>
          if emps[i].refreshToken != token then Step(InvalidRefresh, emps)
          else Step(Refreshed(tokens), emps[i := emps[i].(refreshToken := Some(tokens.refreshToken))])
  }

  /** `POST /logout` for the authenticated employee: its stored token becomes `null`. */
  function LogoutStep(emps: seq<Employee>, userId: string): (s: Step)
    ensures s.response == LoggedOut
    ensures |s.employees| == |emps|
    ensures forall i :: 0 <= i < |emps| ==>
              s.employees[i] == if emps[i].id == userId && FindBy(emps, ById, userId) == Some(i)
                                then emps[i].(refreshToken := None) else emps[i]
  {
    match FindBy(emps, ById, userId)
    case None => Step(LoggedOut, emps)
    case Some(i) => Step(LoggedOut, emps[i := emps[i].(refreshToken := None)])
  }

  // ---------------------------------------------------------------------------
  // Properties of the token state machine

  /** In a valid collection the id lookup finds the one employee with that id. */
  lemma FindByIdUnique(emps: seq<Employee>, i: nat)
    requires ValidEmployees(emps) && i < |emps|
    ensures FindBy(emps, ById, emps[i].id) == Some(i)
  {
    var r := FindBy(emps, ById, emps[i].id);
    assert r.Some?;
  }

  /** Changing one employee's stored token keeps the collection valid. */
  lemma TokenUpdateKeepsValid(emps: seq<Employee>, i: nat, token: Option<string>)
    requires ValidEmployees(emps) && i < |emps|
    ensures ValidEmployees(emps[i := emps[i].(refreshToken := token)])
  {
    var emps' := emps[i := emps[i].(refreshToken := token)];
    assert forall j :: 0 <= j < |emps| ==>
        emps'[j].id == emps[j].id && emps'[j].email == emps[j].email && emps'[j].role == emps[j].role;
  }

  /** Registering a fresh id keeps ids, emails and roles unique and valid. */
  lemma RegisterKeepsValid(emps: seq<Employee>, b: RegisterBody, newId: string, tokens: TokenPair)
    requires ValidEmployees(emps)
    requires forall i :: 0 <= i < |emps| ==> emps[i].id != newId
    ensures ValidEmployees(RegisterStep(emps, b, newId, tokens).employees)
  {
    var s := RegisterStep(emps, b, newId, tokens);
    if s.response.Registered? {
      var e := s.employees[|emps|];
      assert forall i :: 0 <= i < |emps| ==> s.employees[i] == emps[i];
      assert forall i :: 0 <= i < |emps| ==> emps[i].email != e.email;
    }
  }

  /** Login, refresh and logout keep the collection valid. */
  lemma SessionStepsKeepValid(emps: seq<Employee>, b: LoginBody, token: Option<string>, verify: VerifyOutcome,
                              userId: string, tokens: TokenPair)
    requires ValidEmployees(emps)
    ensures ValidEmployees(LoginStep(emps, b, tokens).employees)
    ensures ValidEmployees(RefreshStep(emps, token, verify, tokens).employees)
    ensures ValidEmployees(LogoutStep(emps, userId).employees)
  {
    if LoginStep(emps, b, tokens).response.LoggedIn? {
      TokenUpdateKeepsValid(emps, FindBy(emps, ByEmail, b.email).value, Some(tokens.refreshToken));
    }
    if RefreshStep(emps, token, verify, tokens).response.Refreshed? {
      TokenUpdateKeepsValid(emps, FindBy(emps, ById, verify.id).value, Some(tokens.refreshToken));
    }
    match FindBy(emps, ById, userId)
    case None =>
    case Some(i) => TokenUpdateKeepsValid(emps, i, None);
  }

  /** After a logout no refresh for that employee succeeds, whatever token is presented. */
  lemma LogoutRevokesRefresh(emps: seq<Employee>, userId: string, token: Option<string>, tokens: TokenPair)
    ensures !RefreshStep(LogoutStep(emps, userId).employees, token, Decoded(userId), tokens).response.Refreshed?
  {
    var after := LogoutStep(emps, userId).employees;
    match FindBy(emps, ById, userId)
    case None =>
    case Some(i) =>
      assert FindBy(after, ById, userId).Some?;
      FindByIdStable(emps, i, emps[i].(refreshToken := None));
  }

  /** Changing only the token of the found employee does not change what the id lookup finds. */
  lemma FindByIdStable(emps: seq<Employee>, i: nat, e: Employee)
    requires i < |emps| && FindBy(emps, ById, emps[i].id) == Some(i) && e.id == emps[i].id
    ensures FindBy(emps[i := e], ById, e.id) == Some(i)
  {
    var emps' := emps[i := e];
    var r := FindBy(emps', ById, e.id);
    assert forall j :: 0 <= j < i ==> KeyOf(emps'[j], ById) != KeyOf(emps'[i], ById) by {
      forall j | 0 <= j < i
        ensures KeyOf(emps'[j], ById) != KeyOf(emps'[i], ById)
      {
        FindByFirst(emps, ById, emps[i].id, j);
      }
    }
    FindByOfFirst(emps', ById, i);
  }

  /** No employee before the found one holds the value. */
  lemma {:induction false} FindByFirst(emps: seq<Employee>, k: Key, v: string, j: nat)
    requires FindBy(emps, k, v).Some? && j < FindBy(emps, k, v).value
    ensures KeyOf(emps[j], k) != v
  {
    if KeyOf(emps[0], k) != v && j > 0 {
      FindByFirst(emps[1..], k, v, j - 1);
    }
  }

  /** A value at index i with no earlier occurrence is found at i. */
  lemma {:induction false} FindByOfFirst(emps: seq<Employee>, k: Key, i: nat)
    requires i < |emps| && forall j :: 0 <= j < i ==> KeyOf(emps[j], k) != KeyOf(emps[i], k)
    ensures FindBy(emps, k, KeyOf(emps[i], k)) == Some(i)
  {
    if i > 0 {
      FindByOfFirst(emps[1..], k, i - 1);
    }
  }

  /**
   * A refresh token works once: after a successful refresh that issued a
   * different token, presenting the old one again is rejected. The condition
   * that the new token differs is real: `generateTokens` signs only the id with
   * a whole-second issue time, so a refresh within the second the old token
   * was issued yields the same string, and the old token stays valid.
   */
  lemma RotatedTokenIsSingleUse(emps: seq<Employee>, token: string, userId: string, tokens: TokenPair,
                                tokens2: TokenPair)
    requires RefreshStep(emps, Some(token), Decoded(userId), tokens).response.Refreshed?
    requires tokens.refreshToken != token
    ensures RefreshStep(RefreshStep(emps, Some(token), Decoded(userId), tokens).employees,
                        Some(token), Decoded(userId), tokens2).response == InvalidRefresh
  {
    var i := FindBy(emps, ById, userId).value;
    FindByIdStable(emps, i, emps[i].(refreshToken := Some(tokens.refreshToken)));
  }

  /** The token a login returns is accepted by the next refresh, which rotates it. */
  lemma LoginTokenRefreshes(emps: seq<Employee>, b: LoginBody, tokens: TokenPair, tokens2: TokenPair)
    requires ValidEmployees(emps)
    requires LoginStep(emps, b, tokens).response.LoggedIn?
    requires tokens.refreshToken != ""
    ensures var s := LoginStep(emps, b, tokens);
            var r := RefreshStep(s.employees, Some(tokens.refreshToken), Decoded(s.response.user.id), tokens2);
            r.response == Refreshed(tokens2)
  {
    var i := FindBy(emps, ByEmail, b.email).value;
    FindByIdUnique(emps, i);
    FindByIdStable(emps, i, emps[i].(refreshToken := Some(tokens.refreshToken)));
  }

  // ---------------------------------------------------------------------------
  // The routes as they run

  /** The employee collection the routes read and save. */
  class AuthService {
    var employees: seq<Employee>

    constructor(initial: seq<Employee>)
      ensures employees == initial
    {
      employees := initial;
    }

    /** `POST /register`: create and save, sign the tokens, store the refresh token, save again. */
    method Register(b: RegisterBody, newId: string, tokens: TokenPair) returns (response: AuthResponse)
      modifies this
      ensures Step(response, employees) == RegisterStep(old(employees), b, newId, tokens)
    {
      if !RegisterBodyValid(b) {
        return ValidationFailed;
      }
      var existing := FindBy(employees, ByEmail, b.email);
      if existing.Some? {
        return EmailTaken;
      }
      var employee := Employee(newId, b.email, b.password, Trim(b.name), b.role.GetOr("employee"), None);
      employees := employees + [employee];
      employee := employee.(refreshToken := Some(tokens.refreshToken));
      employees := employees[|employees| - 1 := employee];
      return Registered(Public(employee), tokens);
    }

    /** `POST /login`: find by email, compare the password, store the new refresh token. */
    method Login(b: LoginBody, tokens: TokenPair) returns (response: AuthResponse)
      modifies this
      ensures Step(response, employees) == LoginStep(old(employees), b, tokens)
    {
      if !LoginBodyValid(b) {
        return ValidationFailed;
      }
      var found := FindBy(employees, ByEmail, b.email);
      if found.None? {
        return InvalidCredentials;
      }
      var i := found.value;
      var employee := employees[i];
      if employee.password != b.password {
        return InvalidCredentials;
      }
      response := LoggedIn(Public(employee), tokens);
      employee := employee.(refreshToken := Some(tokens.refreshToken));
      employees := employees[i := employee];
    }

    /** `POST /refresh`: verify, compare with the stored token, rotate. */
    method Refresh(token: Option<string>, verify: VerifyOutcome, tokens: TokenPair) returns (response: AuthResponse)
      modifies this
      ensures Step(response, employees) == RefreshStep(old(employees), token, verify, tokens)
    {
      if token.None? || token.value == "" {
        return RefreshRequired;
      }
      if verify.JsonWebTokenError? || verify.TokenExpiredError? {
        return InvalidOrExpired;
      }
      if verify.OtherError? {
        return ServerError;
      }
      var found := FindBy(employees, ById, verify.id);
      if found.None? || employees[found.value].refreshToken != token {
        return InvalidRefresh;
      }
      var i := found.value;
      employees := employees[i := employees[i].(refreshToken := Some(tokens.refreshToken))];
      return Refreshed(tokens);
    }

    /** `POST /logout` for the authenticated employee. */
    method Logout(userId: string) returns (response: AuthResponse)
      modifies this
      ensures Step(response, employees) == LogoutStep(old(employees), userId)
    {
      var found := FindBy(employees, ById, userId);
      if found.Some? {
        var i := found.value;
        employees := employees[i := employees[i].(refreshToken := None)];
      }
      return LoggedOut;
    }
  }
}
