/**
 * routes/auth.js: `validateAuth` and the login handler. A login finds the
 * user by e-mail, compares the password with the stored hash and answers
 * with the user's token; both failures give the same answer.
 */
module AuthRoutes {
  import opened Wrappers
  import opened Joi
  import opened Http
  import opened UserModel
  import opened Store

  // ---- validateAuth ---------------------------------------------------------------

  const AuthSchema: Joi.Schema := [
    KeyRule("email", StringOf(3, 255, true), Required, None, None),
    KeyRule("password", StringOf(3, 255, false), Required, None, None)
  ]

  /** `validateAuth` ignores the request type it is handed. */
  function Validation(p: Payload): Check {
    Validate(AuthSchema, NoMode, p)
  }

  /** The validator the login route hands to the gate, with the request type "post". */
  const Validator: Binding := Bound((p: Payload, m: Mode) => Validation(p))

  const Fields: set<string> := {"email", "password"}

  /** The rules of the schema: an e-mail and a password, and nothing else. */
  predicate Rules(p: Payload) {
    && "email" in p && EmailOk(p["email"], 3, 255)
    && "password" in p && StringOk(p["password"], 3, 255)
    && p.Keys <= Fields
  }

  lemma AuthNames()
    ensures Names(AuthSchema) == Fields
  {
  }

  lemma KeyMeanings(p: Payload)
    ensures KeyOk(AuthSchema[0], NoMode, p) <==> "email" in p && EmailOk(p["email"], 3, 255)
    ensures KeyOk(AuthSchema[1], NoMode, p) <==> "password" in p && StringOk(p["password"], 3, 255)
  {
  }

  /** The Joi schema accepts exactly the payloads that meet the rules. */
  lemma ValidationMeetsRules(p: Payload)
    ensures Validation(p).Pass? <==> Rules(p)
  {
    ValidateSpec(AuthSchema, NoMode, p);
    KeysOkByPosition(AuthSchema, NoMode, p);
    AuthNames();
    assert (forall i | 0 <= i < |AuthSchema| :: KeyOk(AuthSchema[i], NoMode, p)) <==>
           KeyOk(AuthSchema[0], NoMode, p) && KeyOk(AuthSchema[1], NoMode, p);
    KeyMeanings(p);
  }

  /** The gate decides the same for every request type. */
  lemma GateIgnoresRequestType(m1: Mode, m2: Mode, body: Payload)
    ensures ValidateGate(Validator, m1, body) == ValidateGate(Validator, m2, body)
    ensures ValidateGate(Validator, m1, body).Next? <==> Validation(body).Pass?
  {
    BoundGateFollowsValidator((p: Payload, m: Mode) => Validation(p), m1, body);
  }

  // ---- login --------------------------------------------------------------------------

  const Refused: Message := Text("Invalid email or password")

  /** What the login handler answers, behind the validation gate. */
  function LoginReply(users: map<Id, User>, body: Payload): Reply<Principal>
    requires UniqueEmails(users)
  {
    var check := Validation(body);
    if check.Fail? then Error(400, Invalid(check.issue))
    else
      ValidationMeetsRules(body);
      match FindByEmail(users, body["email"].s)
      case None => Error(400, Refused)
      case Some(id) =>
        if !Matches(body["password"].s, users[id].password) then Error(400, Refused)
        else Ok(AuthToken(id, users[id]))
  }

  /**
   * A login succeeds exactly when the body is valid and a stored user has its
   * e-mail and a hash matching its password; the answer is that user's token.
   */
  lemma LoginSucceedsExactly(users: map<Id, User>, body: Payload, id: Id)
    requires UniqueEmails(users)
    requires Rules(body) && id in users && users[id].email == body["email"].s
    ensures LoginReply(users, body).Ok? <==> Matches(body["password"].s, users[id].password)
    ensures LoginReply(users, body).Ok? ==> LoginReply(users, body).body == Principal(id, users[id].isAdmin)
  {
    ValidationMeetsRules(body);
    var found := FindByEmail(users, body["email"].s);
    assert found == Some(id);
  }

  /** An unknown e-mail and a wrong password get the same 400 answer. */
  lemma FailuresLookAlike(users: map<Id, User>, body: Payload)
    requires UniqueEmails(users) && Rules(body)
    ensures !Registered(users, body["email"].s) ==> LoginReply(users, body) == Error(400, Refused)
    ensures (forall id | id in users && users[id].email == body["email"].s :: !Matches(body["password"].s, users[id].password))
            ==> LoginReply(users, body) == Error(400, Refused)
  {
    ValidationMeetsRules(body);
  }

  /** An invalid body is answered by the gate with its first error. */
  lemma InvalidBodyRejected(users: map<Id, User>, body: Payload)
    requires UniqueEmails(users) && Validation(body).Fail?
    ensures LoginReply(users, body) == Error(400, Invalid(Validation(body).issue))
  {
  }

  /** POST /: the validation gate, then the lookup by e-mail and the password comparison. */
  method Login(db: Db, body: Payload) returns (r: Reply<Principal>)
    requires db.Valid()
    ensures r == LoginReply(db.users, body)
  {
    var gate := ValidateGate(Validator, Post, body);
    GateIgnoresRequestType(Post, NoMode, body);
    BoundGateFollowsValidator((p: Payload, m: Mode) => Validation(p), Post, body);
    if !gate.Next? {
      return Halted(gate);
    }
    ValidationMeetsRules(body);
    var user := FindByEmail(db.users, body["email"].s);
    if user.None? {
      return Error(400, Refused);
    }
    if !Matches(body["password"].s, db.users[user.value].password) {
      return Error(400, Refused);
    }
    r := Ok(AuthToken(user.value, db.users[user.value]));
  }
}
