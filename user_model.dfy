/**
 * models/user.js: the stored user, its `name` virtual, `generateAuthToken`
 * and `validateUser(user)`. bcrypt and JSON web tokens are abstracted: a
 * hash records the text it was made from, and a token is the payload it signs.
 */
module UserModel {
  import opened Wrappers
  import opened Joi

  /** bcrypt reads at most this many bytes of a password and ignores the rest. */
  const BcryptLimit: nat := 72

  /** The part of a password bcrypt reads; a character stands for one byte. */
  function Truncated(plain: string): (r: string)
    ensures |r| <= BcryptLimit && r <= plain
    ensures |plain| <= BcryptLimit ==> r == plain
  {
    if |plain| <= BcryptLimit then plain else plain[..BcryptLimit]
  }

  /** A bcrypt hash, reduced to the text it was computed from. */
  datatype Hash = Hashed(of: string)

  function HashOf(plain: string): Hash {
    Hashed(Truncated(plain))
  }

  /** `bcrypt.compare(plain, h)`: the first 72 bytes decide. */
  predicate Matches(plain: string, h: Hash) {
    h.of == Truncated(plain)
  }

  /**
   * A hash matches the texts that agree with its own on their first 72
   * characters; among texts no longer than that, exactly the one it was made from.
   */
  lemma MatchesExactlyItsPlainText(plain: string, other: string)
    ensures Matches(other, HashOf(plain)) <==> Truncated(other) == Truncated(plain)
    ensures |plain| <= BcryptLimit && |other| <= BcryptLimit ==> (Matches(other, HashOf(plain)) <==> other == plain)
    ensures |plain| >= BcryptLimit && |other| >= BcryptLimit && plain[..BcryptLimit] == other[..BcryptLimit]
            ==> Matches(other, HashOf(plain))
  {
  }

  datatype User = User(firstName: string, lastName: string, email: string, password: Hash, isAdmin: Option<bool>)

  /** The `name` virtual. */
  function Name(u: User): string {
    u.firstName + " " + u.lastName
  }

  /** The name is the first name, one space, and the last name, each recoverable from it. */
  lemma NameSplits(u: User)
    ensures |Name(u)| == |u.firstName| + 1 + |u.lastName|
    ensures Name(u)[..|u.firstName|] == u.firstName && Name(u)[|u.firstName|] == ' '
    ensures Name(u)[|u.firstName| + 1..] == u.lastName
  {
  }

  /** The payload `generateAuthToken` signs: the user's id and admin flag. */
  datatype Principal = Principal(id: Id, isAdmin: Option<bool>)

  function AuthToken(id: Id, u: User): Principal {
    Principal(id, u.isAdmin)
  }

  /** The e-mail index is unique: no two stored users share an address. */
  predicate UniqueEmails(users: map<Id, User>) {
    forall i, j | i in users && j in users && users[i].email == users[j].email :: i == j
  }

  /** Some stored user has this e-mail. */
  predicate Registered(users: map<Id, User>, email: string) {
    exists id | id in users :: users[id].email == email
  }

  /** `User.findOne({email})`: the one stored user with this e-mail, if any. */
  function FindByEmail(users: map<Id, User>, email: string): (r: Option<Id>)
    requires UniqueEmails(users)
    ensures r.Some? <==> Registered(users, email)
    ensures r.Some? ==> r.value in users && users[r.value].email == email
  {
    if Registered(users, email) then
      Some(var id :| id in users && users[id].email == email; id)
    else
      None
  }

  /** Adding a user whose e-mail is not on file keeps the e-mails unique. */
  lemma AddingNewEmailKeepsUnique(users: map<Id, User>, id: Id, u: User)
    requires UniqueEmails(users) && id !in users && !Registered(users, u.email)
    ensures UniqueEmails(users[id := u])
  {
  }

  // ---- validateUser -------------------------------------------------------------

  const UserSchema: Joi.Schema := [
    KeyRule("firstName", StringOf(3, 50, false), Required, None, None),
    KeyRule("lastName", StringOf(3, 50, false), Required, None, None),
    KeyRule("email", StringOf(3, 255, true), Required, None, None),
    KeyRule("password", StringOf(3, 255, false), Required, None, None)
  ]

  function Validation(p: Payload): Check {
    Validate(UserSchema, NoMode, p)
  }

  const Fields: set<string> := {"firstName", "lastName", "email", "password"}

  /** The rules of the schema, stated field by field; `isAdmin` is not among them. */
  predicate Rules(p: Payload) {
    && "firstName" in p && StringOk(p["firstName"], 3, 50)
    && "lastName" in p && StringOk(p["lastName"], 3, 50)
    && "email" in p && EmailOk(p["email"], 3, 255)
    && "password" in p && StringOk(p["password"], 3, 255)
    && p.Keys <= Fields
  }

  lemma UserNames()
    ensures Names(UserSchema) == Fields
  {
  }

  lemma KeysInOrder(p: Payload)
    ensures (forall i | 0 <= i < |UserSchema| :: KeyOk(UserSchema[i], NoMode, p)) <==>
      && KeyOk(UserSchema[0], NoMode, p) && KeyOk(UserSchema[1], NoMode, p)
      && KeyOk(UserSchema[2], NoMode, p) && KeyOk(UserSchema[3], NoMode, p)
  {
  }

  lemma KeyMeanings(p: Payload)
    ensures KeyOk(UserSchema[0], NoMode, p) <==> "firstName" in p && StringOk(p["firstName"], 3, 50)
    ensures KeyOk(UserSchema[1], NoMode, p) <==> "lastName" in p && StringOk(p["lastName"], 3, 50)
    ensures KeyOk(UserSchema[2], NoMode, p) <==> "email" in p && EmailOk(p["email"], 3, 255)
    ensures KeyOk(UserSchema[3], NoMode, p) <==> "password" in p && StringOk(p["password"], 3, 255)
  {
  }

  /** The Joi schema accepts exactly the payloads that meet the rules. */
  lemma ValidationMeetsRules(p: Payload)
    ensures Validation(p).Pass? <==> Rules(p)
  {
    ValidateSpec(UserSchema, NoMode, p);
    KeysOkByPosition(UserSchema, NoMode, p);
    UserNames();
    KeysInOrder(p);
    KeyMeanings(p);
  }

  /** A body cannot make its user an administrator: `isAdmin` is rejected. */
  lemma IsAdminRejected(p: Payload)
    requires "isAdmin" in p
    ensures Validation(p).Fail?
  {
    UserNames();
    UndeclaredFails(UserSchema, NoMode, p, "isAdmin");
  }

  // ---- the user registration builds ---------------------------------------------

  /** The user registration stores as written: the hash of the first name stands as the password. */
  function NewUserAsWritten(b: Payload): User
    requires Validation(b).Pass?
  {
    ValidationMeetsRules(b);
    User(b["firstName"].s, b["lastName"].s, b["email"].s, HashOf(b["firstName"].s), None)
  }

  /** The user registration stores with the password hashed. */
  function NewUser(b: Payload): User
    requires Validation(b).Pass?
  {
    ValidationMeetsRules(b);
    User(b["firstName"].s, b["lastName"].s, b["email"].s, HashOf(b["password"].s), None)
  }

  /**
   * As written, the stored hash matches the first name: the chosen password
   * matches it only when it equals the first name, which is short enough for
   * bcrypt to read whole.
   */
  lemma AsWrittenPasswordIsFirstName(b: Payload)
    requires Validation(b).Pass?
    ensures Matches(b["password"].s, NewUserAsWritten(b).password) <==> b["password"].s == b["firstName"].s
    ensures Matches(b["firstName"].s, NewUserAsWritten(b).password)
  {
    ValidationMeetsRules(b);
  }

  /**
   * The stored hash matches the chosen password, and any other text only when
   * bcrypt cannot tell the two apart: they agree on the first 72 characters.
   * The user is not an administrator.
   */
  lemma NewUserKeepsPassword(b: Payload, attempt: string)
    requires Validation(b).Pass?
    ensures Matches(attempt, NewUser(b).password) <==> Truncated(attempt) == Truncated(b["password"].s)
    ensures |attempt| <= BcryptLimit && |b["password"].s| <= BcryptLimit ==>
              (Matches(attempt, NewUser(b).password) <==> attempt == b["password"].s)
    ensures NewUser(b).email == b["email"].s && NewUser(b).isAdmin.None?
  {
    ValidationMeetsRules(b);
  }
}
