/** The user documents: `userSchema` and the `User` collection. */
module UserSchema {
  import opened Wrappers

  /** The values the `role` path's `enum` validator admits. */
  datatype Role = Customer | Seller | Admin

  /** The string stored for a role. */
  function RoleName(r: Role): string {
    match r
    case Customer => "customer"
    case Seller => "seller"
    case Admin => "admin"
  }

  /** The enum check on a role string: the role it names, if it names one. */
  function ParseRole(s: string): Option<Role> {
    if s == "customer" then Some(Customer)
    else if s == "seller" then Some(Seller)
    else if s == "admin" then Some(Admin)
    else None
  }

  /** Role names and the enum check are inverse to each other: exactly the
      three names are admitted, each for its own role. */
  lemma ParseRoleName(r: Role, s: string)
    ensures ParseRole(RoleName(r)) == Some(r)
    ensures ParseRole(s) == Some(r) <==> s == RoleName(r)
    ensures ParseRole(s).Some? <==> s == "customer" || s == "seller" || s == "admin"
  {
  }

  /** The `role` path on a new document: `default: 'customer'` when no role is
      given, then the enum validator. */
  function CastRole(role: Option<string>): Option<Role> {
    if role.None? then Some(Customer) else ParseRole(role.value)
  }

  datatype User = User(name: string, email: string, password: string, role: Role)

  /** The `required` validators: a required string fails when it is empty. */
  predicate ValidUser(u: User) {
    u.name != "" && u.email != "" && u.password != ""
  }

  /** A new document cast from the given fields, or `None` when one of the
      validators refuses it (a required field missing or empty, or a role
      outside the enum). */
  function NewUser(name: Option<string>, email: Option<string>, password: Option<string>,
                   role: Option<string>): Option<User>
  {
    if Truthy(name) && Truthy(email) && Truthy(password) && CastRole(role).Some?
    then Some(User(name.value, email.value, password.value, CastRole(role).value))
    else None
  }

  /** A new user is accepted exactly when name, email and password are given
      and the role is absent or one of the three; it is then valid, and an
      absent role becomes `customer`. */
  lemma NewUserValid(name: Option<string>, email: Option<string>, password: Option<string>, role: Option<string>)
    ensures NewUser(name, email, password, role).Some? <==>
      && Truthy(name) && Truthy(email) && Truthy(password)
      && (role.None? || role.value == "customer" || role.value == "seller" || role.value == "admin")
    ensures NewUser(name, email, password, role).Some? ==>
      var u := NewUser(name, email, password, role).value;
      && ValidUser(u)
      && u.name == name.value && u.email == email.value && u.password == password.value
      && (role.None? ==> u.role == Customer)
      && (role.Some? ==> RoleName(u.role) == role.value)
  {
    if role.Some? {
      ParseRoleName(Customer, role.value);
      ParseRoleName(Seller, role.value);
      ParseRoleName(Admin, role.value);
    }
  }

  /** The unique index on `email`: no two users share an email. */
  ghost predicate UniqueEmails(users: map<Id, User>) {
    forall a, b :: a in users && b in users && a != b ==> users[a].email != users[b].email
  }

  ghost predicate ValidStore(users: map<Id, User>) {
    (forall id :: id in users ==> ValidUser(users[id])) && UniqueEmails(users)
  }

  /** A user as the routes send it: every field but the password. */
  datatype UserView = UserView(id: Id, name: string, email: string, role: Role)

  function View(id: Id, u: User): UserView {
    UserView(id, u.name, u.email, u.role)
  }

  /** The `User` collection. */
  class UserCollection {
    var users: map<Id, User>

    ghost predicate Valid()
      reads this
    {
      ValidStore(users)
    }

    constructor ()
      ensures Valid() && users == map[]
    {
      users := map[];
    }
  }
}
