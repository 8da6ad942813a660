/** The server's database, reduced to the three tables registration and login touch:
    `roles`, `users` and `wallets`, each a sequence of rows in the order a query returns
    them. A query's `row[0]` is the first matching row. */
module Tables {
  import opened Wrappers

  /** What `argon2` stores for a password: modelled as the salt with the password it was
      made from, so that verification is exact (no collisions). */
  datatype PasswordHash = Argon2(salt: nat, secret: string)

  datatype RoleRow = RoleRow(id: int, name: string)
  datatype UserRow = UserRow(id: int, email: string, passwordHash: PasswordHash, roleId: int)
  datatype WalletRow = WalletRow(userId: int, credits: int)

  /** The first row that matches, as `query(...)[0]` reads it, or none when no row
      matches (FirstWhereIsFirst says which row it is). */
  function FirstWhere<T>(rows: seq<T>, matches: T -> bool): (r: Option<T>)
    ensures r.None? <==> forall i :: 0 <= i < |rows| ==> !matches(rows[i])
    ensures r.Some? ==> r.value in rows && matches(r.value)
  {
    if rows == [] then None
    else if matches(rows[0]) then Some(rows[0])
    else FirstWhere(rows[1..], matches)
  }

  /** The row found is the earliest matching one. */
  lemma {:induction false} FirstWhereIsFirst<T>(rows: seq<T>, matches: T -> bool)
    ensures FirstWhere(rows, matches).Some? ==>
              exists i :: 0 <= i < |rows| && rows[i] == FirstWhere(rows, matches).value
                          && forall j :: 0 <= j < i ==> !matches(rows[j])
  {
    if rows != [] && !matches(rows[0]) {
      FirstWhereIsFirst(rows[1..], matches);
      var r := FirstWhere(rows[1..], matches);
      if r.Some? {
        var i :| 0 <= i < |rows| - 1 && rows[1..][i] == r.value && forall j :: 0 <= j < i ==> !matches(rows[1..][j]);
        assert rows[i + 1] == r.value;
        assert forall j :: 0 <= j < i + 1 ==> !matches(rows[j]) by {
          forall j | 0 <= j < i + 1 ensures !matches(rows[j]) {
            if j > 0 { assert rows[j] == rows[1..][j - 1]; }
          }
        }
      }
    } else if rows != [] {
      assert rows[0] == FirstWhere(rows, matches).value;
    }
  }

  /** A row inserted after the others is found only when none of them matched. */
  lemma {:induction false} FirstWhereAppend<T>(rows: seq<T>, row: T, matches: T -> bool)
    ensures FirstWhere(rows + [row], matches)
            == if FirstWhere(rows, matches).Some? then FirstWhere(rows, matches)
               else if matches(row) then Some(row) else None
  {
    if rows != [] {
      assert (rows + [row])[1..] == rows[1..] + [row];
      FirstWhereAppend(rows[1..], row, matches);
    }
  }

  /** When a single row matches, it is the one found. */
  lemma {:induction false} FirstWhereUnique<T>(rows: seq<T>, i: int, matches: T -> bool)
    requires 0 <= i < |rows| && matches(rows[i])
    requires forall j :: 0 <= j < |rows| && j != i ==> !matches(rows[j])
    ensures FirstWhere(rows, matches) == Some(rows[i])
  {
    if i > 0 {
      assert !matches(rows[0]);
      forall j | 0 <= j < |rows| - 1 && j != i - 1 ensures !matches(rows[1..][j]) {
        assert rows[1..][j] == rows[j + 1];
      }
      FirstWhereUnique(rows[1..], i - 1, matches);
    }
  }

  /** The `WHERE` conditions of the queries. Oracle stores the empty string as NULL,
      and a comparison with NULL is never true, so an empty name or email matches no row. */
  function RoleNameIs(name: string): RoleRow -> bool {
    (r: RoleRow) => name != "" && r.name == name
  }

  function RoleIdIs(id: int): RoleRow -> bool {
    (r: RoleRow) => r.id == id
  }

  function EmailIs(email: string): UserRow -> bool {
    (u: UserRow) => email != "" && u.email == email
  }

  function UserIdIs(id: int): UserRow -> bool {
    (u: UserRow) => u.id == id
  }

  function OwnerIs(userId: int): WalletRow -> bool {
    (w: WalletRow) => w.userId == userId
  }

  /** `SELECT id FROM roles WHERE name=:n`. */
  function RoleNamed(roles: seq<RoleRow>, name: string): (r: Option<RoleRow>)
    ensures r.Some? ==> r.value in roles && r.value.name == name
    ensures r.None? <==> name == "" || forall i :: 0 <= i < |roles| ==> roles[i].name != name
  {
    FirstWhere(roles, RoleNameIs(name))
  }

  /** `SELECT ... FROM users WHERE email=:e`. */
  function UserWithEmail(users: seq<UserRow>, email: string): (r: Option<UserRow>)
    ensures r.Some? ==> r.value in users && r.value.email == email
    ensures r.None? <==> email == "" || forall i :: 0 <= i < |users| ==> users[i].email != email
  {
    FirstWhere(users, EmailIs(email))
  }

  /** A user's wallet row. */
  function WalletOf(wallets: seq<WalletRow>, userId: int): Option<WalletRow> {
    FirstWhere(wallets, OwnerIs(userId))
  }

  ghost predicate RoleIdsDistinct(roles: seq<RoleRow>) {
    forall i, j :: 0 <= i < j < |roles| ==> roles[i].id != roles[j].id
  }

  ghost predicate HasRole(roles: seq<RoleRow>, roleId: int) {
    exists k :: 0 <= k < |roles| && roles[k].id == roleId
  }

  ghost predicate HasWallet(wallets: seq<WalletRow>, userId: int) {
    exists k :: 0 <= k < |wallets| && wallets[k].userId == userId
  }

  /** User ids and emails are unique, and no email is NULL (empty). */
  ghost predicate UsersKeyed(users: seq<UserRow>) {
    && (forall i, j :: 0 <= i < j < |users| ==> users[i].id != users[j].id)
    && (forall i, j :: 0 <= i < j < |users| ==> users[i].email != users[j].email)
    && (forall i :: 0 <= i < |users| ==> users[i].email != "")
  }

  ghost predicate WalletOwnersDistinct(wallets: seq<WalletRow>) {
    forall i, j :: 0 <= i < j < |wallets| ==> wallets[i].userId != wallets[j].userId
  }

  /** Every identity already handed out is below `nextUserId`. */
  ghost predicate IdsBelow(users: seq<UserRow>, wallets: seq<WalletRow>, nextUserId: int) {
    && (forall i :: 0 <= i < |users| ==> users[i].id < nextUserId)
    && (forall k :: 0 <= k < |wallets| ==> wallets[k].userId < nextUserId)
  }

  /** Every user's role exists and every user has a wallet. */
  ghost predicate UsersReferenced(roles: seq<RoleRow>, users: seq<UserRow>, wallets: seq<WalletRow>) {
    && (forall i :: 0 <= i < |users| ==> HasRole(roles, users[i].roleId))
    && (forall i :: 0 <= i < |users| ==> HasWallet(wallets, users[i].id))
  }

  /** Keys and references: role ids, user ids, user emails and wallet owners are each
      unique; every user's role exists and every user has a wallet; identities already
      handed out are below `nextUserId`; no email is NULL (empty). */
  ghost predicate WellKeyed(roles: seq<RoleRow>, users: seq<UserRow>, wallets: seq<WalletRow>, nextUserId: int) {
    && RoleIdsDistinct(roles)
    && UsersKeyed(users)
    && WalletOwnersDistinct(wallets)
    && IdsBelow(users, wallets, nextUserId)
    && UsersReferenced(roles, users, wallets)
  }

  /** Registering a user under a fresh email and an existing role, with the next
      identity and a wallet of its own, keeps the tables well keyed. */
  lemma InsertUserKeepsKeys(roles: seq<RoleRow>, users: seq<UserRow>, wallets: seq<WalletRow>, nextUserId: int,
                            row: UserRow, credits: int)
    requires WellKeyed(roles, users, wallets, nextUserId)
    requires row.id == nextUserId && row.email != ""
    requires forall i :: 0 <= i < |users| ==> users[i].email != row.email
    requires HasRole(roles, row.roleId)
    ensures WellKeyed(roles, users + [row], wallets + [WalletRow(row.id, credits)], nextUserId + 1)
  {
    var users', wallets' := users + [row], wallets + [WalletRow(row.id, credits)];
    var w := WalletRow(row.id, credits);
    forall i | 0 <= i < |users'|
      ensures HasWallet(wallets', users'[i].id)
    {
      if i < |users| {
        assert HasWallet(wallets, users[i].id);
        var k :| 0 <= k < |wallets| && wallets[k].userId == users[i].id;
        assert wallets'[k] == wallets[k] && users'[i] == users[i];
      } else {
        assert wallets'[|wallets|] == w && users'[i] == row;
      }
    }
    forall i | 0 <= i < |users'|
      ensures HasRole(roles, users'[i].roleId)
    {
      if i < |users| {
        assert users'[i] == users[i];
      }
    }
    forall i, j | 0 <= i < j < |users'| ensures users'[i].id != users'[j].id && users'[i].email != users'[j].email {
      if j == |users| {
        assert users'[i] == users[i] && users'[j] == row;
      } else {
        assert users'[i] == users[i] && users'[j] == users[j];
      }
    }
    forall i, j | 0 <= i < j < |wallets'| ensures wallets'[i].userId != wallets'[j].userId {
      if j == |wallets| {
        assert wallets'[i] == wallets[i] && wallets'[j] == w;
      } else {
        assert wallets'[i] == wallets[i] && wallets'[j] == wallets[j];
      }
    }
  }

  /** After such an insertion the new user is the row found by its email and by its id,
      its role id finds the role it was given, and its owner id finds the new wallet. */
  lemma InsertedUserFound(roles: seq<RoleRow>, users: seq<UserRow>, wallets: seq<WalletRow>, nextUserId: int,
                          row: UserRow, role: RoleRow, credits: int)
    requires WellKeyed(roles, users, wallets, nextUserId)
    requires row.id == nextUserId && row.email != ""
    requires UserWithEmail(users, row.email).None?
    requires role in roles && role.id == row.roleId
    ensures WellKeyed(roles, users + [row], wallets + [WalletRow(row.id, credits)], nextUserId + 1)
    ensures FirstWhere(users + [row], EmailIs(row.email)) == Some(row)
    ensures FirstWhere(users + [row], UserIdIs(row.id)) == Some(row)
    ensures FirstWhere(roles, RoleIdIs(row.roleId)) == Some(role)
    ensures WalletOf(wallets + [WalletRow(row.id, credits)], row.id) == Some(WalletRow(row.id, credits))
  {
    InsertUserKeepsKeys(roles, users, wallets, nextUserId, row, credits);
    FirstWhereAppend(users, row, EmailIs(row.email));
    FirstWhereAppend(users, row, UserIdIs(row.id));
    FirstWhereAppend(wallets, WalletRow(row.id, credits), OwnerIs(row.id));
    var k :| 0 <= k < |roles| && roles[k] == role;
    FirstWhereUnique(roles, k, RoleIdIs(row.roleId));
  }

  class Database {
    var roles: seq<RoleRow>
    var users: seq<UserRow>
    var wallets: seq<WalletRow>
    /** The next value of the users table's identity column. */
    var nextUserId: int

    ghost predicate Valid()
      reads this
    {
      WellKeyed(roles, users, wallets, nextUserId)
    }

    /** A database holding the given roles and no users yet. */
    constructor (roles: seq<RoleRow>, firstUserId: int)
      requires RoleIdsDistinct(roles)
      ensures Valid()
      ensures this.roles == roles && users == [] && wallets == [] && nextUserId == firstUserId
    {
      this.roles := roles;
      users := [];
      wallets := [];
      nextUserId := firstUserId;
    }
  }
}
