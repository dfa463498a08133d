/** The Prisma user handlers: admin bootstrap by upsert on the email, list,
    detail, create, merge-update with rehash, and delete. Passwords are
    stored through `hash`, an abstract stand-in for bcrypt. */
module PrismaUsers {
  import opened Base
  import opened Keys
  import opened Accounts

  /** The Prisma user row: its extra column is the user's `name`. */
  type User = Accounts.User<string>
  type Table = Accounts.Table<string>

  datatype UserInput = UserInput(email: Option<string>, password: Option<string>, role: Option<string>, name: Option<string>)

  const AdminName: string := "Admin"

  /** `upsert({ where: { email }, update: record, create: record })` for the
      record (name, email, password, role). */
  function Upsert(t: Table, name: string, email: string, password: string, role: string): (r: Table)
    requires TableValid(t)
    ensures TableValid(r)
    // afterwards a user with that email exists, and every such user is the record
    ensures exists id :: id in r.users && r.users[id].email == email
    ensures forall id :: id in r.users && r.users[id].email == email ==>
              r.users[id] == User(id, name, email, password, role)
    // a user that already had the email becomes the record under its own id
    ensures forall id :: id in t.users && t.users[id].email == email ==>
              id in r.users && r.users[id] == User(id, name, email, password, role)
    ensures ByEmail(t, email).Some? ==> r.nextId == t.nextId
    // otherwise the record is created under the next id
    ensures ByEmail(t, email).None? ==>
              && t.nextId !in t.users
              && r.users == t.users[t.nextId := User(t.nextId, name, email, password, role)]
              && r.nextId == t.nextId + 1
    // every other user is kept as it was, and no other user appears
    ensures forall id :: id in t.users && t.users[id].email != email ==> id in r.users && r.users[id] == t.users[id]
    ensures forall id :: id in r.users && r.users[id].email != email ==> id in t.users
  {
    match ByEmail(t, email)
    case Some(id) =>
      var r := Table(t.users[id := User(id, name, email, password, role)], t.nextId);
      PutValid(t, User(id, name, email, password, role), t.nextId);
      assert r.users[id].email == email;
      r
    case None =>
      var r := Table(t.users[t.nextId := User(t.nextId, name, email, password, role)], t.nextId + 1);
      PutValid(t, User(t.nextId, name, email, password, role), t.nextId + 1);
      assert r.users[t.nextId].email == email;
      r
  }

  /** Running the upsert twice for the same email and name leaves the table as
      one run with the second password would; bcrypt salts every hash, so the
      two passwords are not assumed equal. */
  lemma {:induction false} UpsertTwice(t: Table, name: string, email: string, first: string, second: string, role: string)
    requires TableValid(t)
    ensures Upsert(Upsert(t, name, email, first, role), name, email, second, role) == Upsert(t, name, email, second, role)
  {
    var once := Upsert(t, name, email, first, role);
    match ByEmail(t, email)
    case Some(id) =>
      assert once == Table(t.users[id := User(id, name, email, first, role)], t.nextId);
      ByEmailFinds(once, id);
      assert once.users[id := User(id, name, email, second, role)] == t.users[id := User(id, name, email, second, role)];
    case None =>
      assert once == Table(t.users[t.nextId := User(t.nextId, name, email, first, role)], t.nextId + 1);
      ByEmailFinds(once, t.nextId);
      assert once.users[t.nextId := User(t.nextId, name, email, second, role)] == t.users[t.nextId := User(t.nextId, name, email, second, role)];
  }

  /** The data `updateUser` writes: a falsy field keeps the stored value, and
      the password is rehashed only when a new one is given. */
  function Merged(u: User, input: UserInput, hash: string -> string): User
  {
    User(u.id,
         Or(input.name, u.name),
         Or(input.email, u.email),
         if Given(input.password) then hash(input.password.value) else u.password,
         Or(input.role, u.role))
  }

  lemma MergedFields(u: User, input: UserInput, hash: string -> string)
    ensures var m := Merged(u, input, hash);
            && m.id == u.id
            && (Given(input.email) ==> m.email == input.email.value)
            && (!Given(input.email) ==> m.email == u.email)
            && (Given(input.name) ==> m.name == input.name.value)
            && (!Given(input.name) ==> m.name == u.name)
            && (Given(input.role) ==> m.role == input.role.value)
            && (!Given(input.role) ==> m.role == u.role)
            && (Given(input.password) ==> m.password == hash(input.password.value))
            && (!Given(input.password) ==> m.password == u.password)
  {
  }

  /** A body with no truthy field writes the user back unchanged. */
  lemma MergedNothing(u: User, hash: string -> string)
    ensures Merged(u, UserInput(None, None, None, None), hash) == u
  {
  }

  predicate AllGiven(input: UserInput)
  {
    Given(input.email) && Given(input.password) && Given(input.role) && Given(input.name)
  }

  /** The user table (`prisma.user`). */
  class UserTable {
    var users: map<int, User>
    var nextId: int

    function State(): Table
      reads this
    {
      Table(users, nextId)
    }

    ghost predicate Valid()
      reads this
    {
      TableValid(State())
    }

    constructor ()
      ensures Valid() && users == map[] && nextId == 1
    {
      users, nextId := map[], 1;
    }

    /** initAdminUser: without both settings nothing is written; otherwise the
        admin record is upserted by email. */
    method InitAdminUser(adminEmail: Option<string>, adminPassword: Option<string>, hash: string -> string)
      requires Valid()
      modifies this
      ensures Valid()
      ensures !(Given(adminEmail) && Given(adminPassword)) ==> users == old(users) && nextId == old(nextId)
      ensures Given(adminEmail) && Given(adminPassword) ==>
                State() == Upsert(old(State()), AdminName, adminEmail.value, hash(adminPassword.value), AdminRole)
    {
      if !Given(adminEmail) || !Given(adminPassword) {
        return;
      }
      var t := Upsert(State(), AdminName, adminEmail.value, hash(adminPassword.value), AdminRole);
      users, nextId := t.users, t.nextId;
    }

    /** getUsers: every stored user, in increasing id order (the model's
        choice: `findMany()` promises no order). */
    method GetUsers() returns (r: Reply<seq<User>>)
      requires Valid()
      ensures r.Ok? && r.status == 200
      ensures Lists(r.body, users, nextId)
    {
      r := Ok(200, RowsOf(users, IdsBelow(users, nextId)));
    }

    /** getUserById */
    method GetUserById(uid: int) returns (r: Reply<User>)
      requires Valid()
      ensures uid !in users ==> r == Err(404, UserNotFound)
      ensures uid in users ==> r == Ok(200, users[uid]) && r.body.id == uid
    {
      if uid !in users {
        return Err(404, UserNotFound);
      }
      r := Ok(200, users[uid]);
    }

    /** createUser: all four fields are required; the password is stored
        hashed; an email already in use violates its uniqueness, which the
        catch turns into a 500. */
    method CreateUser(input: UserInput, hash: string -> string) returns (r: Reply<User>)
      requires Valid()
      modifies this
      ensures Valid()
      ensures !AllGiven(input) ==> r == Err(400, FieldsRequired) && users == old(users) && nextId == old(nextId)
      ensures AllGiven(input) && ByEmail(old(State()), input.email.value).Some? ==>
                r == Err(500, InternalError) && users == old(users) && nextId == old(nextId)
      ensures AllGiven(input) && ByEmail(old(State()), input.email.value).None? ==>
                && old(nextId) !in old(users)
                && r.Ok? && r.status == 201
                && r.body == User(old(nextId), input.name.value, input.email.value, hash(input.password.value), input.role.value)
                && users == old(users)[old(nextId) := r.body]
                && nextId == old(nextId) + 1
    {
      if !AllGiven(input) {
        return Err(400, FieldsRequired);
      }
      if ByEmail(State(), input.email.value).Some? {
        return Err(500, InternalError);
      }
      var u := User(nextId, input.name.value, input.email.value, hash(input.password.value), input.role.value);
      PutValid(State(), u, nextId + 1);
      users := users[nextId := u];
      nextId := nextId + 1;
      r := Ok(201, u);
    }

    /** updateUser: a missing user is answered with 404 before any write;
        otherwise the merged data is written, unless its email belongs to
        another user. */
    method UpdateUser(uid: int, input: UserInput, hash: string -> string) returns (r: Reply<User>)
      requires Valid()
      modifies this
      ensures Valid() && nextId == old(nextId)
      ensures uid !in old(users) ==> r == Err(404, UserNotFound) && users == old(users)
      ensures uid in old(users) && Clashes(old(State()), Merged(old(users)[uid], input, hash)) ==>
                r == Err(500, InternalError) && users == old(users)
      ensures uid in old(users) && !Clashes(old(State()), Merged(old(users)[uid], input, hash)) ==>
                && users == old(users)[uid := Merged(old(users)[uid], input, hash)]
                && r == Ok(200, users[uid])
    {
      if uid !in users {
        return Err(404, UserNotFound);
      }
      var updated := Merged(users[uid], input, hash);
      if Clashes(State(), updated) {
        return Err(500, InternalError);
      }
      PutValid(State(), updated, nextId);
      users := users[uid := updated];
      r := Ok(200, updated);
    }

    /** deleteUser */
    method DeleteUser(uid: int) returns (r: Reply<string>)
      requires Valid()
      modifies this
      ensures Valid() && nextId == old(nextId)
      ensures uid !in old(users) ==> r == Err(404, UserNotFound) && users == old(users)
      ensures uid in old(users) ==> r == Ok(200, UserDeleted) && users == old(users) - {uid}
    {
      if uid !in users {
        return Err(404, UserNotFound);
      }
      users := users - {uid};
      r := Ok(200, UserDeleted);
    }
  }
}
