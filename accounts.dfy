/** The user table as both handler revisions use it: rows keyed by an
    autoincrement id, a unique email column, and the lookup by email. The
    revisions differ in one column: the Prisma revision stores a `name`
    (`User<string>`), the Sequelize revision has none (`User<()>`). */
module Accounts {
  import opened Base
  import opened Keys

  datatype User<Name> = User(id: int, name: Name, email: string, password: string, role: string)

  const UserNotFound: string := "Usuário não encontrado"
  const FieldsRequired: string := "Todos os campos são obrigatórios."
  const InternalError: string := "Erro interno do servidor."
  const UserDeleted: string := "Usuário excluído com sucesso!"
  const AdminRole: string := "admin"

  /** The user table: its rows and the next id the table hands out. */
  datatype Table<Name> = Table(users: map<int, User<Name>>, nextId: int)

  /** Both revisions look users up by email as by a unique column: the
      Prisma upsert is keyed on it, the Sequelize model declares it unique. */
  predicate EmailsUnique<Name>(users: map<int, User<Name>>)
  {
    forall i, j :: i in users && j in users && users[i].email == users[j].email ==> i == j
  }

  predicate TableValid<Name>(t: Table<Name>)
  {
    && t.nextId >= 1
    && (forall id :: id in t.users ==> 1 <= id < t.nextId && t.users[id].id == id)
    && EmailsUnique(t.users)
  }

  /** `findUnique({ where: { email } })` in the Prisma revision,
      `findOne({ where: { email } })` in the Sequelize one. */
  function ByEmail<Name>(t: Table<Name>, email: string): (r: Option<int>)
    requires TableValid(t)
    ensures r.Some? ==> r.value in t.users && t.users[r.value].email == email
    ensures r.None? ==> forall id :: id in t.users ==> t.users[id].email != email
  {
    Find(t.users, t.nextId, (u: User<Name>) => u.email == email)
  }

  /** The user holding an email is the one the lookup finds. */
  lemma ByEmailFinds<Name>(t: Table<Name>, id: int)
    requires TableValid(t) && id in t.users
    ensures ByEmail(t, t.users[id].email) == Some(id)
  {
  }

  /** Writing `u` under its id clashes with another user's email. */
  predicate Clashes<Name>(t: Table<Name>, u: User<Name>)
    requires TableValid(t)
  {
    ByEmail(t, u.email).Some? && ByEmail(t, u.email).value != u.id
  }

  /** Writing `u` under its own id keeps the table valid when no other user
      holds its email. */
  lemma {:induction false} PutValid<Name>(t: Table<Name>, u: User<Name>, n: int)
    requires TableValid(t)
    requires 1 <= u.id < n && t.nextId <= n
    requires !Clashes(t, u)
    ensures TableValid(Table(t.users[u.id := u], n))
  {
    forall k | k in t.users && k != u.id
      ensures t.users[k].email != u.email
    {
      var found := ByEmail(t, u.email);
      if found.Some? {
        assert found.value == u.id;
      }
    }
  }
}
