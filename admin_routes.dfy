/** The admin routes over the user collection: list, update, delete. */
module AdminRoutes {
  import opened Wrappers
  import opened UserSchema

  /** The roles the list shows: customers and sellers, never admins. */
  predicate Managed(u: User) {
    u.role == Customer || u.role == Seller
  }

  /** GET `/users`: every customer and seller, without passwords. */
  function ListUsers(users: map<Id, User>): (r: map<Id, UserView>)
    ensures forall id :: id in r <==> id in users && users[id].role != Admin
    ensures forall id :: id in r ==> r[id] == View(id, users[id])
  {
    map id | id in users && Managed(users[id]) :: View(id, users[id])
  }

  /** The role whitelist of PUT: a truthy role naming one of the three. */
  predicate Whitelisted(role: Option<string>) {
    Truthy(role) && ParseRole(role.value).Some?
  }

  /** PUT's overwrite as one record update: name and email when provided, the
      role when whitelisted; the password is kept. */
  function Edited(u: User, name: Option<string>, email: Option<string>, role: Option<string>): User {
    User(if name.Some? then name.value else u.name,
         if email.Some? then email.value else u.email,
         u.password,
         if Whitelisted(role) then ParseRole(role.value).value else u.role)
  }

  /** The role changes only to a whitelisted role, and then to the role it names. */
  lemma EditedRole(u: User, name: Option<string>, email: Option<string>, role: Option<string>)
    ensures Edited(u, name, email, role).role != u.role ==>
      role.Some? && (role.value == "customer" || role.value == "seller" || role.value == "admin")
    ensures Whitelisted(role) ==> RoleName(Edited(u, name, email, role).role) == role.value
    ensures Edited(u, name, email, role).password == u.password
  {
    if role.Some? {
      ParseRoleName(Customer, role.value);
      ParseRoleName(Seller, role.value);
      ParseRoleName(Admin, role.value);
    }
  }

  /** Repeating an edit changes nothing more, and an empty edit changes nothing. */
  lemma EditedIdempotent(u: User, name: Option<string>, email: Option<string>, role: Option<string>)
    ensures Edited(Edited(u, name, email, role), name, email, role) == Edited(u, name, email, role)
    ensures Edited(u, None, None, None) == u
  {
  }

  /** The unique index on `email` refuses a write that gives user `id` the
      email of another user. */
  predicate EmailClash(users: map<Id, User>, id: Id, email: string) {
    exists other :: other in users && other != id && users[other].email == email
  }

  /** A save the validators and the unique index accept keeps the collection valid. */
  lemma EditKeepsStoreValid(users: map<Id, User>, id: Id, u: User)
    requires ValidStore(users) && id in users
    requires ValidUser(u) && !EmailClash(users, id, u.email)
    ensures ValidStore(users[id := u])
  {
    var users' := users[id := u];
    forall a, b | a in users' && b in users' && a != b
      ensures users'[a].email != users'[b].email
    {
      if a == id { assert users'[b] == users[b]; }
      else if b == id { assert users'[a] == users[a]; }
    }
  }

  /** PUT `/users/:id`: overwrite name and email when provided, the role when
      whitelisted, then save and return the user without its password. */
  method UpdateUser(db: UserCollection, id: Id, name: Option<string>, email: Option<string>,
                    role: Option<string>) returns (r: Result<UserView>)
    requires db.Valid()
    modifies db
    ensures db.Valid()
    ensures id !in old(db.users) ==> r == Err(NotFound) && db.users == old(db.users)
    ensures id in old(db.users) ==>
      var u := Edited(old(db.users)[id], name, email, role);
      && (!ValidUser(u) ==> r == Err(ValidationFailed) && db.users == old(db.users))
      && (ValidUser(u) && EmailClash(old(db.users), id, u.email) ==>
            r == Err(DuplicateKey) && db.users == old(db.users))
      && (ValidUser(u) && !EmailClash(old(db.users), id, u.email) ==>
            r == Ok(View(id, u)) && db.users == old(db.users)[id := u])
  {
    if id !in db.users {
      return Err(NotFound);
    }
    var user := db.users[id];
    user := user.(name := if name.Some? then name.value else user.name);
    user := user.(email := if email.Some? then email.value else user.email);
    if role.Some? && role.value != "" && ParseRole(role.value).Some? {
      user := user.(role := ParseRole(role.value).value);
    }
    assert user == Edited(db.users[id], name, email, role);
    if !ValidUser(user) {
      return Err(ValidationFailed);
    }
    if exists other :: other in db.users && other != id && db.users[other].email == user.email {
      return Err(DuplicateKey);
    }
    EditKeepsStoreValid(db.users, id, user);
    db.users := db.users[id := user];
    r := Ok(View(id, user));
  }

  /** DELETE `/users/:id`. */
  method DeleteUser(db: UserCollection, id: Id) returns (r: Result<()>)
    requires db.Valid()
    modifies db
    ensures db.Valid()
    ensures id !in old(db.users) ==> r == Err(NotFound) && db.users == old(db.users)
    ensures id in old(db.users) ==> r == Ok(()) && db.users == old(db.users) - {id}
  {
    if id !in db.users {
      return Err(NotFound);
    }
    db.users := db.users - {id};
    r := Ok(());
  }
}
