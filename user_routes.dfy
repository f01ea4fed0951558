/**
 * routes/users.js: registration and `/me`. A registration is refused when the
 * e-mail is already on file; otherwise the new user is stored and the reply
 * carries a token header and the user's id, names and e-mail.
 */
module UserRoutes {
  import opened Wrappers
  import opened Joi
  import opened Http
  import opened UserModel
  import opened Store
  import AuthRoutes

  /** The fields `_.pick` sends back: no password and no admin flag. */
  datatype UserView = UserView(id: Id, firstName: string, lastName: string, email: string)

  function View(id: Id, u: User): UserView {
    UserView(id, u.firstName, u.lastName, u.email)
  }

  /** A registration reply: the `x-auth-token` header's payload and the body. */
  datatype Registration = Registration(token: Principal, view: UserView)

  /** The token as written: minted from a fresh, unsaved `User()`, with its own id and no admin flag. */
  function TokenAsWritten(unsaved: Id): Principal {
    Principal(unsaved, None)
  }

  /**
   * As written, the token names a document that is never saved: its id is
   * not the registered user's, nor any other stored user's.
   */
  lemma AsWrittenTokenNamesNoUser(users: map<Id, User>, id: Id, unsaved: Id, b: Payload)
    requires Validation(b).Pass? && unsaved != id && unsaved !in users
    ensures TokenAsWritten(unsaved) != AuthToken(id, NewUser(b))
    ensures TokenAsWritten(unsaved).id !in users[id := NewUser(b)]
  {
  }

  /** The user the registration stores: as written with the first name hashed as its password. */
  function NewUserIn(v: Version, b: Payload): User
    requires Validation(b).Pass?
  {
    if v == AsWritten then NewUserAsWritten(b) else NewUser(b)
  }

  /** The token the reply carries: as written minted from the unsaved `User()`, corrected the new user's. */
  function TokenIn(v: Version, unsaved: Id, id: Id, u: User): Principal {
    if v == AsWritten then TokenAsWritten(unsaved) else AuthToken(id, u)
  }

  /**
   * POST /: validate, refuse an e-mail already on file, then store the new
   * user under the fresh id `id`; the reply carries the version's token and
   * the new user's id, names and e-mail. `unsaved` is the id of the
   * `User()` the code as written mints its token from.
   */
  method Register(db: Db, body: Payload, id: Id, unsaved: Id, v: Version) returns (r: Reply<Registration>)
    requires db.Valid() && id !in db.users
    modifies db`users
    ensures db.Valid()
    ensures Validation(body).Fail? ==>
              r == Error(400, Invalid(Validation(body).issue)) && db.users == old(db.users)
    ensures Validation(body).Pass? && Registered(old(db.users), body["email"].s) ==>
              r == Error(400, Text("User already registered")) && db.users == old(db.users)
    ensures Validation(body).Pass? && !Registered(old(db.users), body["email"].s) ==>
              var user := NewUserIn(v, body);
              db.users == old(db.users)[id := user]
              && r == Ok(Registration(TokenIn(v, unsaved, id, user), View(id, user)))
  {
    var check := Validation(body);
    if check.Fail? {
      return Error(400, Invalid(check.issue));
    }
    ValidationMeetsRules(body);
    var user := NewUserIn(v, body);
    if FindByEmail(db.users, body["email"].s).Some? {
      return Error(400, Text("User already registered"));
    }
    AddingNewEmailKeepsUnique(db.users, id, user);
    db.users := db.users[id := user];
    r := Ok(Registration(TokenIn(v, unsaved, id, user), View(id, user)));
  }

  /** GET /me: every stored user. */
  method Me(db: Db) returns (r: Reply<map<Id, User>>)
    ensures r == Ok(db.users)
  {
    r := Ok(db.users);
  }

  /** The login body made of a registration's e-mail and password. */
  function Credentials(b: Payload): (r: Payload)
    requires Validation(b).Pass?
    ensures AuthRoutes.Validation(r).Pass?
    ensures r["email"].s == NewUser(b).email
  {
    ValidationMeetsRules(b);
    var r := map["email" := b["email"], "password" := b["password"]];
    AuthRoutes.ValidationMeetsRules(r);
    r
  }

  /** A user registered with the hashed password logs in with the e-mail and password they chose. */
  lemma RegisteredUserCanLogIn(users: map<Id, User>, id: Id, b: Payload)
    requires UniqueEmails(users) && id !in users
    requires Validation(b).Pass? && !Registered(users, NewUser(b).email)
    ensures UniqueEmails(users[id := NewUser(b)])
    ensures AuthRoutes.LoginReply(users[id := NewUser(b)], Credentials(b)) == Ok(AuthToken(id, NewUser(b)))
  {
    var after := users[id := NewUser(b)];
    AddingNewEmailKeepsUnique(users, id, NewUser(b));
    var cred := Credentials(b);
    AuthRoutes.ValidationMeetsRules(cred);
    NewUserKeepsPassword(b, cred["password"].s);
    AuthRoutes.LoginSucceedsExactly(after, cred, id);
  }

  /**
   * As written, a user whose password differs from their first name cannot
   * log in with it: the login is refused as if the password were wrong.
   */
  lemma AsWrittenRegisteredCannotLogIn(users: map<Id, User>, id: Id, b: Payload)
    requires UniqueEmails(users) && id !in users
    requires Validation(b).Pass? && !Registered(users, NewUserAsWritten(b).email)
    requires b["password"].s != b["firstName"].s
    ensures UniqueEmails(users[id := NewUserAsWritten(b)])
    ensures AuthRoutes.LoginReply(users[id := NewUserAsWritten(b)], Credentials(b)) == Error(400, AuthRoutes.Refused)
  {
    var after := users[id := NewUserAsWritten(b)];
    AddingNewEmailKeepsUnique(users, id, NewUserAsWritten(b));
    var cred := Credentials(b);
    AuthRoutes.ValidationMeetsRules(cred);
    AsWrittenPasswordIsFirstName(b);
    AuthRoutes.LoginSucceedsExactly(after, cred, id);
  }
}
