/** The authentication routes: register a user, log in. */
module AuthRoutes {
  import opened Wrappers
  import opened UserSchema

  /** `User.findOne({ email })` finds a user: some stored user has that email.
      A request without an email matches no user here. */
  predicate EmailInUse(users: map<Id, User>, email: Option<string>) {
    email.Some? && exists id :: id in users && users[id].email == email.value
  }

  /** Some stored user has exactly this email and this password. */
  ghost predicate Authenticates(users: map<Id, User>, email: Option<string>, password: Option<string>) {
    && email.Some? && password.Some?
    && exists id :: id in users && users[id].email == email.value && users[id].password == password.value
  }

  /** POST `/register`. The new document's id, allocated by the database, is `newId`. */
  method Register(db: UserCollection, name: Option<string>, email: Option<string>,
                  password: Option<string>, role: Option<string>, newId: Id) returns (r: Result<()>)
    requires db.Valid() && newId !in db.users
    modifies db
    ensures db.Valid()
    ensures EmailInUse(old(db.users), email) ==> r == Err(EmailTaken) && db.users == old(db.users)
    ensures !EmailInUse(old(db.users), email) && NewUser(name, email, password, role).None? ==>
      r == Err(ValidationFailed) && db.users == old(db.users)
    ensures !EmailInUse(old(db.users), email) && NewUser(name, email, password, role).Some? ==>
      r == Ok(()) && db.users == old(db.users)[newId := NewUser(name, email, password, role).value]
  {
    if email.Some? && exists id :: id in db.users && db.users[id].email == email.value {
      return Err(EmailTaken);
    }
    var user := NewUser(name, email, password, role);
    if user.None? {
      return Err(ValidationFailed);
    }
    RegisterKeepsStoreValid(db.users, name, email, password, role, newId);
    db.users := db.users[newId := user.value];
    r := Ok(());
  }

  /** Registering a fresh email keeps emails unique and every user valid. */
  lemma RegisterKeepsStoreValid(users: map<Id, User>, name: Option<string>, email: Option<string>,
                                password: Option<string>, role: Option<string>, newId: Id)
    requires ValidStore(users) && newId !in users
    requires !EmailInUse(users, email) && NewUser(name, email, password, role).Some?
    ensures ValidStore(users[newId := NewUser(name, email, password, role).value])
  {
    var u := NewUser(name, email, password, role).value;
    NewUserValid(name, email, password, role);
    var users' := users[newId := u];
    forall a, b | a in users' && b in users' && a != b
      ensures users'[a].email != users'[b].email
    {
      if a == newId { assert users'[b] == users[b]; }
      else if b == newId { assert users'[a] == users[a]; }
    }
  }

  /** POST `/login`: the user with that email, if its password is exactly the
      given one, as a view without the password. Both failures give the same
      error. */
  method Login(db: UserCollection, email: Option<string>, password: Option<string>) returns (r: Result<UserView>)
    requires db.Valid()
    ensures r.Ok? <==> Authenticates(db.users, email, password)
    ensures r.Err? ==> r.error == BadCredentials
    ensures r.Ok? ==>
      && r.value.id in db.users
      && r.value == View(r.value.id, db.users[r.value.id])
      && db.users[r.value.id].email == email.value
      && db.users[r.value.id].password == password.value
  {
    if email.None? || !exists id :: id in db.users && db.users[id].email == email.value {
      return Err(BadCredentials);
    }
    var id :| id in db.users && db.users[id].email == email.value;
    var user := db.users[id];
    if password.None? || user.password != password.value {
      return Err(BadCredentials);
    }
    r := Ok(View(id, user));
  }

  /** A user who has just registered can log in with the same email and
      password. */
  lemma RegisterThenLogin(users: map<Id, User>, name: Option<string>, email: Option<string>,
                          password: Option<string>, role: Option<string>, newId: Id)
    requires ValidStore(users) && newId !in users
    requires !EmailInUse(users, email) && NewUser(name, email, password, role).Some?
    ensures var users' := users[newId := NewUser(name, email, password, role).value];
      ValidStore(users') && Authenticates(users', email, password)
  {
    NewUserValid(name, email, password, role);
    RegisterKeepsStoreValid(users, name, email, password, role, newId);
    var users' := users[newId := NewUser(name, email, password, role).value];
    assert users'[newId].email == email.value && users'[newId].password == password.value;
  }
}
