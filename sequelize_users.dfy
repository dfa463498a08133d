/** The Sequelize user handlers: admin bootstrap by find-or-create on the
    email, list, detail, create, a self-or-admin update that assigns the
    loaded user's fields in place, and delete. */
module SequelizeUsers {
  import opened Base
  import opened Keys
  import opened Accounts

  /** The Sequelize `User` model has no name column. */
  type User = Accounts.User<()>
  type Table = Accounts.Table<()>

  datatype UserInput = UserInput(email: Option<string>, password: Option<string>, role: Option<string>)

  const Forbidden: string := "Acesso proibido"

  /** `findOrCreate({ where: { email }, defaults })` with defaults
      (password, role). */
  function FindOrCreate(t: Table, email: string, password: string, role: string): (r: Table)
    requires TableValid(t)
    ensures TableValid(r)
    ensures ByEmail(r, email).Some?
    // a user that already has the email is left exactly as it was
    ensures ByEmail(t, email).Some? ==> r == t
    // otherwise one user is added, built from the defaults, and nobody else changes
    ensures ByEmail(t, email).None? ==>
              && t.nextId !in t.users
              && r.users == t.users[t.nextId := User(t.nextId, (), email, password, role)]
              && r.nextId == t.nextId + 1
  {
    if ByEmail(t, email).Some? then t
    else
      var r := Table(t.users[t.nextId := User(t.nextId, (), email, password, role)], t.nextId + 1);
      PutValid(t, User(t.nextId, (), email, password, role), t.nextId + 1);
      ByEmailFinds(r, t.nextId);
      r
  }

  /** A second run changes nothing, whatever defaults it carries: the first
      run leaves a user with that email. */
  lemma FindOrCreateTwice(t: Table, email: string, password: string, role: string, password2: string, role2: string)
    requires TableValid(t)
    ensures FindOrCreate(FindOrCreate(t, email, password, role), email, password2, role2)
            == FindOrCreate(t, email, password, role)
  {
  }

  predicate AllGiven(input: UserInput)
  {
    Given(input.email) && Given(input.password) && Given(input.role)
  }

  /** `!isAdmin(req) && req.user.id !== parseInt(uid, 10)` */
  predicate Refused(uid: int, isAdmin: bool, callerId: int)
  {
    !isAdmin && callerId != uid
  }

  /** The user table (`User` model). */
  class UserTable {
    var users: map<int, User>
    var nextId: int

    function State(): Table
      reads this
    {
      Table(users, nextId)
    }

    ghost predicate Valid()
      reads this
    {
      TableValid(State())
    }

    constructor ()
      ensures Valid() && users == map[] && nextId == 1
    {
      users, nextId := map[], 1;
    }

    /** initAdminUser: without both settings nothing is written; otherwise an
        admin is created unless a user with that email already exists. */
    method InitAdminUser(adminEmail: Option<string>, adminPassword: Option<string>, hash: string -> string)
      requires Valid()
      modifies this
      ensures Valid()
      ensures !(Given(adminEmail) && Given(adminPassword)) ==> users == old(users) && nextId == old(nextId)
      ensures Given(adminEmail) && Given(adminPassword) ==>
                State() == FindOrCreate(old(State()), adminEmail.value, hash(adminPassword.value), AdminRole)
    {
      if !Given(adminEmail) || !Given(adminPassword) {
        return;
      }
      var t := FindOrCreate(State(), adminEmail.value, hash(adminPassword.value), AdminRole);
      users, nextId := t.users, t.nextId;
    }

    /** getUsers: every stored user, in increasing id order (the model's
        choice: `findAll()` promises no order). */
    method GetUsers() returns (r: Reply<seq<User>>)
      requires Valid()
      ensures r.Ok? && r.status == 200
      ensures Lists(r.body, users, nextId)
    {
      r := Ok(200, RowsOf(users, IdsBelow(users, nextId)));
    }

    /** getUserById: the 404 goes through `next`. */
    method GetUserById(uid: int) returns (r: Reply<User>)
      requires Valid()
      ensures uid !in users ==> r == Err(404, UserNotFound)
      ensures uid in users ==> r == Ok(200, users[uid]) && r.body.id == uid
    {
      if uid !in users {
        return Err(404, UserNotFound);
      }
      r := Ok(200, users[uid]);
    }

    /** createUser: email, password and role are required; the password is
        stored hashed; an email already in use violates its uniqueness, which
        the catch turns into a 500. */
    method CreateUser(input: UserInput, hash: string -> string) returns (r: Reply<User>)
      requires Valid()
      modifies this
      ensures Valid()
      ensures !AllGiven(input) ==> r == Err(400, FieldsRequired) && users == old(users) && nextId == old(nextId)
      ensures AllGiven(input) && ByEmail(old(State()), input.email.value).Some? ==>
                r == Err(500, InternalError) && users == old(users) && nextId == old(nextId)
      ensures AllGiven(input) && ByEmail(old(State()), input.email.value).None? ==>
                && old(nextId) !in old(users)
                && r.Ok? && r.status == 201
                && r.body == User(old(nextId), (), input.email.value, hash(input.password.value), input.role.value)
                && users == old(users)[old(nextId) := r.body]
                && nextId == old(nextId) + 1
    {
      if !AllGiven(input) {
        return Err(400, FieldsRequired);
      }
      if ByEmail(State(), input.email.value).Some? {
        return Err(500, InternalError);
      }
      var u := User(nextId, (), input.email.value, hash(input.password.value), input.role.value);
      PutValid(State(), u, nextId + 1);
      users := users[nextId := u];
      nextId := nextId + 1;
      r := Ok(201, u);
    }

    /** updateUser: the self-or-admin gate comes before any lookup; then a
        missing user is a 404; then email, password and role are assigned on
        the loaded user and saved, unless the email belongs to another user. */
    method UpdateUser(uid: int, input: UserInput, isAdmin: bool, callerId: int, hash: string -> string)
      returns (r: Reply<User>)
      requires Valid()
      modifies this
      ensures Valid() && nextId == old(nextId)
      ensures Refused(uid, isAdmin, callerId) ==> r == Err(403, Forbidden) && users == old(users)
      ensures !Refused(uid, isAdmin, callerId) && uid !in old(users) ==>
                r == Err(404, UserNotFound) && users == old(users)
      ensures !Refused(uid, isAdmin, callerId) && uid in old(users) ==>
                var u := old(users)[uid];
                var saved := User(uid, (),
                                  Or(input.email, u.email),
                                  if Given(input.password) then hash(input.password.value) else u.password,
                                  Or(input.role, u.role));
                if Clashes(old(State()), saved) then r == Err(500, InternalError) && users == old(users)
                else users == old(users)[uid := saved] && r == Ok(200, saved)
    {
      if Refused(uid, isAdmin, callerId) {
        return Err(403, Forbidden);
      }
      if uid !in users {
        return Err(404, UserNotFound);
      }
      var user := users[uid];
      user := user.(email := Or(input.email, user.email));
      if Given(input.password) {
        user := user.(password := hash(input.password.value));
      }
      user := user.(role := Or(input.role, user.role));
      assert user.name == ();
      if Clashes(State(), user) {
        return Err(500, InternalError);
      }
      PutValid(State(), user, nextId);
      users := users[uid := user];
      r := Ok(200, user);
    }

    /** deleteUser: the 404 goes through `next`. */
    method DeleteUser(uid: int) returns (r: Reply<string>)
      requires Valid()
      modifies this
      ensures Valid() && nextId == old(nextId)
      ensures uid !in old(users) ==> r == Err(404, UserNotFound) && users == old(users)
      ensures uid in old(users) ==> r == Ok(200, UserDeleted) && users == old(users) - {uid}
    {
      if uid !in users {
        return Err(404, UserNotFound);
      }
      users := users - {uid};
      r := Ok(200, UserDeleted);
    }
  }
}
