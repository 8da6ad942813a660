/** The server's HTTP endpoints (server/app.py) that the client's sign-in flow uses:
    `/health`, `/auth/register` and `/auth/login`. */
module App {
  import opened Wrappers
  import opened Tables
  import opened Auth
  import Text

  /** `RegisterBody`: the `role` field may be omitted, and is then `CUSTOMER`. */
  datatype RegisterBody = RegisterBody(email: string, password: string, role: Option<string>)

  datatype LoginBody = LoginBody(email: string, password: string)

  /** `{"token": token, "role": role}`. */
  datatype AuthResponse = AuthResponse(token: Jwt, role: string)

  datatype HealthResponse = HealthResponse(ok: bool)

  const BadCredentials: HttpError := HttpError(401, "Bad credentials")

  /** `GET /health` always reports that the service is up. */
  function Health(): (r: HealthResponse)
    ensures r.ok
  {
    HealthResponse(true)
  }

  /** The role name `register` asks for: the body's `role`, or its default, upper-cased. */
  function RequestedRole(b: RegisterBody): (name: string)
    ensures |name| == |b.role.GetOr(DefaultRoleName)|
    ensures forall i :: 0 <= i < |name| ==> !('a' <= name[i] <= 'z')
    ensures var s := b.role.GetOr(DefaultRoleName);
            forall i :: 0 <= i < |s| && !('a' <= s[i] <= 'z') ==> name[i] == s[i]
    ensures var s := b.role.GetOr(DefaultRoleName);
            forall i :: 0 <= i < |s| && 'a' <= s[i] <= 'z' ==> name[i] as int == s[i] as int - 32
  {
    Text.ToUpper(b.role.GetOr(DefaultRoleName))
  }

  /** A body without a role registers a customer, and so does one naming the role in
      lower case. */
  lemma DefaultRoleIsCustomer(email: string, password: string)
    ensures RequestedRole(RegisterBody(email, password, None)) == "CUSTOMER"
    ensures RequestedRole(RegisterBody(email, password, Some("customer"))) == "CUSTOMER"
  {
    assert Text.ToUpper("CUSTOMER") == "CUSTOMER";
    assert Text.ToUpper("customer") == "CUSTOMER";
  }

  /** Python's `not uid` on the result of `verify_user`: no uid, or the uid 0. */
  predicate Truthy(uid: Option<int>) {
    uid.Some? && uid.value != 0
  }

  /** A uid `verify_user` returns belongs to a user, so `user_role` finds its role. */
  lemma VerifiedUserHasRole(db: Database, email: string, password: string)
    requires db.Valid()
    requires VerifyUser(db, email, password).Some?
    ensures UserRole(db, VerifyUser(db, email, password).value).Some?
  {
    var row := FirstWhere(db.users, EmailIs(email)).value;
    assert UserIdIs(row.id)(row);
  }

  /** `POST /auth/login`: 401 "Bad credentials" unless the password verifies for the
      email's user and that user's id is truthy; otherwise a token for that uid and its
      role, issued at `now` and signed with the `JWT_SECRET` that `env` gives. */
  function Login(db: Database, b: LoginBody, now: nat, env: Option<string>): (r: Result<AuthResponse, HttpError>)
    reads db
    requires db.Valid()
    ensures r.Success? <==> Truthy(VerifyUser(db, b.email, b.password))
    ensures r.Failure? ==> r.error == BadCredentials
    ensures r.Success? ==>
              && UserRole(db, VerifyUser(db, b.email, b.password).value) == Some(r.value.role)
              && DecodeJwt(r.value.token, JwtSecret(env))
                 == Some(JwtPayload(VerifyUser(db, b.email, b.password).value, r.value.role, now))
  {
    var uid := VerifyUser(db, b.email, b.password);
    if !Truthy(uid) then Failure(BadCredentials)
    else
      VerifiedUserHasRole(db, b.email, b.password);
      var role := UserRole(db, uid.value).value;
      Success(AuthResponse(MakeJwt(uid.value, role, now, JwtSecret(env)), role))
  }

  /** Logging in as a registered user succeeds exactly when the password is the one its
      hash was made from and its id is not 0, and then carries its id and its role. */
  lemma LoginAt(db: Database, b: LoginBody, now: nat, env: Option<string>, i: int, k: int)
    requires db.Valid() && 0 <= i < |db.users| && 0 <= k < |db.roles|
    requires db.users[i].email == b.email && db.roles[k].id == db.users[i].roleId
    ensures Login(db, b, now, env).Success?
            <==> PasswordVerifies(b.password, db.users[i].passwordHash) && db.users[i].id != 0
    ensures Login(db, b, now, env).Success? ==>
              Login(db, b, now, env).value.role == db.roles[k].name
              && DecodeJwt(Login(db, b, now, env).value.token, JwtSecret(env))
                 == Some(JwtPayload(db.users[i].id, db.roles[k].name, now))
  {
    VerifyUserAt(db, i, b.password);
    UserRoleAt(db, i, k);
  }

  /** An email nobody registered never logs in; nor does the empty email, which Oracle
      compares as NULL. */
  lemma LoginUnknown(db: Database, b: LoginBody, now: nat, env: Option<string>)
    requires db.Valid()
    requires b.email == "" || forall i :: 0 <= i < |db.users| ==> db.users[i].email != b.email
    ensures Login(db, b, now, env) == Failure(BadCredentials)
  {
    VerifyUserUnknown(db, b.email, b.password);
  }

  /** `POST /auth/register`: `create_user` with the requested role (its errors pass
      through unchanged), then a token for the new uid and the role it was given. The
      new account can log in with the same email and password, unless its uid is 0. */
  method Register(db: Database, b: RegisterBody, salt: nat, now: nat, env: Option<string>)
    returns (r: Result<AuthResponse, HttpError>)
    requires db.Valid()
    modifies db
    ensures db.Valid()
    ensures db.roles == old(db.roles)
    ensures r.Success? <==> RoleNamed(old(db.roles), RequestedRole(b)).Some?
                            && UserWithEmail(old(db.users), b.email).None? && b.email != ""
    ensures RoleNamed(old(db.roles), RequestedRole(b)).None? ==> r == Failure(InvalidRole)
    ensures RoleNamed(old(db.roles), RequestedRole(b)).Some? && UserWithEmail(old(db.users), b.email).Some?
            ==> r == Failure(EmailTaken)
    ensures RoleNamed(old(db.roles), RequestedRole(b)).Some? && b.email == "" ==> r == Failure(ServerError)
    ensures r.Failure? ==> db.users == old(db.users) && db.wallets == old(db.wallets)
                           && db.nextUserId == old(db.nextUserId)
    ensures r.Success? ==>
              && r.value.role == RequestedRole(b)
              && DecodeJwt(r.value.token, JwtSecret(env)) == Some(JwtPayload(old(db.nextUserId), RequestedRole(b), now))
              && db.users == old(db.users) + [UserRow(old(db.nextUserId), b.email, HashPassword(b.password, salt),
                                                      RoleNamed(old(db.roles), RequestedRole(b)).value.id)]
              && db.wallets == old(db.wallets) + [WalletRow(old(db.nextUserId), 0)]
              && db.nextUserId == old(db.nextUserId) + 1
    ensures r.Success? ==>
              (Login(db, LoginBody(b.email, b.password), now, env).Success? <==> old(db.nextUserId) != 0)
              && (old(db.nextUserId) != 0 ==> Login(db, LoginBody(b.email, b.password), now, env) == r)
  {
    var created := CreateUser(db, b.email, b.password, salt, RequestedRole(b));
    if created.Failure? {
      return Failure(created.error);
    }
    var uid := created.value;
    var role := UserRole(db, uid).value;
    r := Success(AuthResponse(MakeJwt(uid, role, now, JwtSecret(env)), role));
  }
}
