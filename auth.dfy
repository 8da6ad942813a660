/** The server's account rules (server/auth.py): registering a user with a wallet,
    checking a password, looking up a user's role, and the token payload. */
module Auth {
  import opened Wrappers
  import opened Tables

  datatype HttpError = HttpError(status: int, detail: string)

  const InvalidRole: HttpError := HttpError(400, "Invalid role")
  const EmailTaken: HttpError := HttpError(400, "Email already registered")
  /** What FastAPI answers when a handler raises anything other than an `HTTPException`. */
  const ServerError: HttpError := HttpError(500, "Internal Server Error")
  const DefaultRoleName: string := "CUSTOMER"
  /** `JWT_SECRET` when the environment does not set it. */
  const DefaultJwtSecret: string := "devsecret"

  /** The signing secret: the environment's `JWT_SECRET` when it is set (even to the
      empty string), otherwise the development default. */
  function JwtSecret(env: Option<string>): (secret: string)
    ensures env.None? ==> secret == DefaultJwtSecret
    ensures env.Some? ==> secret == env.value
  {
    env.GetOr(DefaultJwtSecret)
  }
  const JwtAlgorithm: string := "HS256"

  /** `pwd_ctx.hash(password)`; the random salt is a parameter. */
  function HashPassword(password: string, salt: nat): PasswordHash {
    Argon2(salt, password)
  }

  /** `pwd_ctx.verify(password, pwh)`. */
  predicate PasswordVerifies(password: string, hash: PasswordHash) {
    hash.secret == password
  }

  /** A hash verifies exactly the password it was made from, whatever the salt. */
  lemma HashThenVerify(password: string, attempt: string, salt: nat)
    ensures PasswordVerifies(attempt, HashPassword(password, salt)) <==> attempt == password
  {
  }

  /** `verify_user(email, password)`: the uid of the first user row with that email when
      the password verifies against its hash (VerifyUserAt, VerifyUserUnknown). */
  function VerifyUser(db: Database, email: string, password: string): (uid: Option<int>)
    reads db
    ensures uid.Some? ==> exists u :: u in db.users && u.email == email && u.id == uid.value
                                      && PasswordVerifies(password, u.passwordHash)
    ensures email == "" ==> uid.None?
  {
    match FirstWhere(db.users, EmailIs(email))
    case None => None
    case Some(row) => if PasswordVerifies(password, row.passwordHash) then Some(row.id) else None
  }

  /** `user_role(uid)`: the name of the role of the user with id `uid`; none (the
      source's failing `r[0][0]`) when no such user exists (UserRoleAt, UserRoleUnknown). */
  function UserRole(db: Database, uid: int): (role: Option<string>)
    reads db
    requires db.Valid()
    ensures role.None? <==> forall i :: 0 <= i < |db.users| ==> db.users[i].id != uid
    ensures role.Some? ==> exists r :: r in db.roles && r.name == role.value
  {
    match FirstWhere(db.users, UserIdIs(uid))
    case None => None
    case Some(user) => Some(FirstWhere(db.roles, RoleIdIs(user.roleId)).value.name)
  }

  /** The claims `make_jwt` signs. */
  datatype JwtPayload = JwtPayload(uid: int, role: string, iat: int)

  /** An HS256-signed token: its encoding is abstracted to the payload and the secret it
      was signed with. */
  datatype Jwt = Jwt(algorithm: string, payload: JwtPayload, signedWith: string)

  /** What a holder of `secret` reads back from a token: its payload when the signature checks. */
  function DecodeJwt(token: Jwt, secret: string): Option<JwtPayload> {
    if token.algorithm == JwtAlgorithm && token.signedWith == secret then Some(token.payload) else None
  }

  /** `make_jwt(uid, role)` at time `now` (whole seconds): a token carrying exactly
      `uid`, `role` and `iat`, readable with the signing secret and with no other. */
  function MakeJwt(uid: int, role: string, now: nat, secret: string): (token: Jwt)
    ensures DecodeJwt(token, secret) == Some(JwtPayload(uid, role, now))
    ensures forall other :: other != secret ==> DecodeJwt(token, other).None?
  {
    Jwt(JwtAlgorithm, JwtPayload(uid, role, now), secret)
  }

  /** `create_user(email, password, role_name)`: an unknown role is refused first, then
      an email already registered; an empty email (NULL to Oracle) then fails the insert
      into the NOT NULL `email` column, which FastAPI answers with a 500. Otherwise one
      user row with the role's id and one wallet with zero credits are inserted for the
      new uid, which is returned, and nothing else changes. The new user can then be
      verified with that password and has that role. */
  method CreateUser(db: Database, email: string, password: string, salt: nat,
                    roleName: string := DefaultRoleName) returns (r: Result<int, HttpError>)
    requires db.Valid()
    modifies db
    ensures db.Valid()
    ensures db.roles == old(db.roles)
    ensures r.Success? <==> RoleNamed(old(db.roles), roleName).Some? && UserWithEmail(old(db.users), email).None?
                            && email != ""
    ensures RoleNamed(old(db.roles), roleName).None? ==> r == Failure(InvalidRole)
    ensures RoleNamed(old(db.roles), roleName).Some? && UserWithEmail(old(db.users), email).Some?
            ==> r == Failure(EmailTaken)
    ensures RoleNamed(old(db.roles), roleName).Some? && email == "" ==> r == Failure(ServerError)
    ensures r.Failure? ==> db.users == old(db.users) && db.wallets == old(db.wallets)
                           && db.nextUserId == old(db.nextUserId)
    ensures r.Success? ==>
              && r.value == old(db.nextUserId)
              && db.users == old(db.users) + [UserRow(r.value, email, HashPassword(password, salt),
                                                      RoleNamed(old(db.roles), roleName).value.id)]
              && db.wallets == old(db.wallets) + [WalletRow(r.value, 0)]
              && db.nextUserId == old(db.nextUserId) + 1
    ensures r.Success? ==> && VerifyUser(db, email, password) == Some(r.value)
                           && UserRole(db, r.value) == Some(roleName)
                           && WalletOf(db.wallets, r.value) == Some(WalletRow(r.value, 0))
  {
    var role := RoleNamed(db.roles, roleName);
    if role.None? {
      return Failure(InvalidRole);
    }
    var roleId := role.value.id;

    var existing := UserWithEmail(db.users, email);
    if existing.Some? {
      return Failure(EmailTaken);
    }
    if email == "" {
      return Failure(ServerError);
    }

    var uid := InsertUser(db, email, password, salt, role.value);
    r := Success(uid);
  }

  /** The inserting half of `create_user`, once the role is known and the email is free
      and not empty:
      the user row (its id from the identity column), the uid read back by email, and a
      wallet with zero credits for that uid. */
  method InsertUser(db: Database, email: string, password: string, salt: nat, role: RoleRow) returns (uid: int)
    requires db.Valid()
    requires role in db.roles
    requires UserWithEmail(db.users, email).None? && email != ""
    modifies db
    ensures db.Valid()
    ensures db.roles == old(db.roles)
    ensures uid == old(db.nextUserId)
    ensures db.users == old(db.users) + [UserRow(uid, email, HashPassword(password, salt), role.id)]
    ensures db.wallets == old(db.wallets) + [WalletRow(uid, 0)]
    ensures db.nextUserId == old(db.nextUserId) + 1
    ensures VerifyUser(db, email, password) == Some(uid)
    ensures UserRole(db, uid) == Some(role.name)
    ensures WalletOf(db.wallets, uid) == Some(WalletRow(uid, 0))
  {
    var row := UserRow(db.nextUserId, email, HashPassword(password, salt), role.id);
    InsertedUserFound(db.roles, db.users, db.wallets, db.nextUserId, row, role, 0);
    db.users, db.wallets, db.nextUserId := db.users + [row], db.wallets + [WalletRow(row.id, 0)], db.nextUserId + 1;
    uid := row.id;
  }

  /** A registered user is verified exactly by the password its hash was made from,
      and then yields its own uid. */
  lemma VerifyUserAt(db: Database, i: int, password: string)
    requires db.Valid() && 0 <= i < |db.users|
    ensures VerifyUser(db, db.users[i].email, password)
            == if PasswordVerifies(password, db.users[i].passwordHash) then Some(db.users[i].id) else None
  {
    FirstWhereUnique(db.users, i, EmailIs(db.users[i].email));
  }

  /** No uid is returned for an email nobody registered. */
  lemma VerifyUserUnknown(db: Database, email: string, password: string)
    requires forall i :: 0 <= i < |db.users| ==> db.users[i].email != email
    ensures VerifyUser(db, email, password).None?
  {
  }

  /** A user's role is the name of the role row its role id refers to. */
  lemma UserRoleAt(db: Database, i: int, k: int)
    requires db.Valid() && 0 <= i < |db.users| && 0 <= k < |db.roles|
    requires db.roles[k].id == db.users[i].roleId
    ensures UserRole(db, db.users[i].id) == Some(db.roles[k].name)
  {
    FirstWhereUnique(db.users, i, UserIdIs(db.users[i].id));
    FirstWhereUnique(db.roles, k, RoleIdIs(db.roles[k].id));
  }

  /** No role is found for an id no user has. */
  lemma UserRoleUnknown(db: Database, uid: int)
    requires db.Valid()
    requires forall i :: 0 <= i < |db.users| ==> db.users[i].id != uid
    ensures UserRole(db, uid).None?
  {
  }
}
