/**
 * models/agent.js: the stored agent, the document the agent routes build
 * from a request body, and `agentValidation(agent)`.
 */
module AgentModel {
  import opened Wrappers
  import opened Joi

  /** A stored agent; a field the document lacks is None. */
  datatype Agent = Agent(
    agentEntityName: Option<string>,
    contactPersonFirstName: Option<string>,
    contactPersonLastName: Option<string>,
    email: Option<string>,
    phone: Option<string>,
    logoImage: Option<string>,
    vatInclManagementFeePercentage: Option<real>)

  /** The paths the Mongoose schema marks `required`; `save()` rejects a document that lacks one. */
  predicate Saveable(a: Agent) {
    && a.agentEntityName.Some? && a.contactPersonFirstName.Some? && a.contactPersonLastName.Some?
    && a.email.Some? && a.vatInclManagementFeePercentage.Some?
  }

  /** Every field the update carries replaces the stored one; every other field stays. */
  function Patched(a: Agent, upd: Agent): Agent {
    Agent(
      Overlay(upd.agentEntityName, a.agentEntityName),
      Overlay(upd.contactPersonFirstName, a.contactPersonFirstName),
      Overlay(upd.contactPersonLastName, a.contactPersonLastName),
      Overlay(upd.email, a.email), Overlay(upd.phone, a.phone), Overlay(upd.logoImage, a.logoImage),
      Overlay(upd.vatInclManagementFeePercentage, a.vatInclManagementFeePercentage))
  }

  /** An update never unsets a field, so the required paths stay set. */
  lemma PatchedKeepsSaveable(a: Agent, upd: Agent)
    requires Saveable(a)
    ensures Saveable(Patched(a, upd))
  {
  }

  /**
   * The document the agent routes build, as written: they copy `entityName`,
   * `firstName` and `lastName`, which are not paths of the schema, so strict
   * mode drops them and the three required names stay unset.
   */
  function FromBodyAsWritten(b: Payload): Agent {
    Agent(None, None, None, StrAt(b, "email"), StrAt(b, "phone"), StrAt(b, "logoImage"),
          NumAt(b, "vatInclManagementFeePercentage"))
  }

  /** The document built from the keys the schema and the validator name. */
  function FromBody(b: Payload): Agent {
    Agent(StrAt(b, "agentEntityName"), StrAt(b, "contactPersonFirstName"), StrAt(b, "contactPersonLastName"),
          StrAt(b, "email"), StrAt(b, "phone"), StrAt(b, "logoImage"), NumAt(b, "vatInclManagementFeePercentage"))
  }

  // ---- agentValidation --------------------------------------------------------

  const AgentSchema: Joi.Schema := [
    KeyRule("agentEntityName", StringOf(3, 255, false), Required, None, None),
    KeyRule("contactPersonFirstName", StringOf(3, 255, false), Required, None, None),
    KeyRule("contactPersonLastName", StringOf(3, 255, false), Required, None, None),
    KeyRule("email", StringOf(3, 255, true), Required, None, None),
    KeyRule("phone", StringOf(3, 15, false), Optional, None, None),
    KeyRule("vatInclManagementFeePercentage", NumberIn(Some(0.0), Some(1.0)), Required, None, None)
  ]

  /** `agentValidation` takes no request type: the schema is used untailored. */
  function Validation(p: Payload): Check {
    Validate(AgentSchema, NoMode, p)
  }

  /** The schema has no `.alter`, so tailoring it to any request type gives the untailored verdict. */
  lemma ValidationIgnoresMode(p: Payload, mode: Mode)
    ensures Validate(AgentSchema, mode, p) == Validation(p)
  {
    assert forall k | k in AgentSchema :: k.onPost.None? && k.onPut.None?;
    UnalteredIgnoresMode(AgentSchema, mode, NoMode, p);
  }

  const Fields: set<string> := {
    "agentEntityName", "contactPersonFirstName", "contactPersonLastName", "email", "phone",
    "vatInclManagementFeePercentage"
  }

  /** The rules of the schema, stated field by field. */
  predicate Rules(p: Payload) {
    && "agentEntityName" in p && StringOk(p["agentEntityName"], 3, 255)
    && "contactPersonFirstName" in p && StringOk(p["contactPersonFirstName"], 3, 255)
    && "contactPersonLastName" in p && StringOk(p["contactPersonLastName"], 3, 255)
    && "email" in p && EmailOk(p["email"], 3, 255)
    && ("phone" in p ==> StringOk(p["phone"], 3, 15))
    && "vatInclManagementFeePercentage" in p && NumberOk(p["vatInclManagementFeePercentage"], 0.0, Some(1.0))
    && p.Keys <= Fields
  }

  lemma AgentNames()
    ensures Names(AgentSchema) == Fields
  {
  }

  lemma KeysInOrder(p: Payload)
    ensures (forall i | 0 <= i < |AgentSchema| :: KeyOk(AgentSchema[i], NoMode, p)) <==>
      && KeyOk(AgentSchema[0], NoMode, p) && KeyOk(AgentSchema[1], NoMode, p) && KeyOk(AgentSchema[2], NoMode, p)
      && KeyOk(AgentSchema[3], NoMode, p) && KeyOk(AgentSchema[4], NoMode, p) && KeyOk(AgentSchema[5], NoMode, p)
  {
  }

  lemma KeyMeanings(p: Payload)
    ensures KeyOk(AgentSchema[0], NoMode, p) <==> "agentEntityName" in p && StringOk(p["agentEntityName"], 3, 255)
    ensures KeyOk(AgentSchema[1], NoMode, p) <==> "contactPersonFirstName" in p && StringOk(p["contactPersonFirstName"], 3, 255)
    ensures KeyOk(AgentSchema[2], NoMode, p) <==> "contactPersonLastName" in p && StringOk(p["contactPersonLastName"], 3, 255)
    ensures KeyOk(AgentSchema[3], NoMode, p) <==> "email" in p && EmailOk(p["email"], 3, 255)
    ensures KeyOk(AgentSchema[4], NoMode, p) <==> ("phone" in p ==> StringOk(p["phone"], 3, 15))
    ensures KeyOk(AgentSchema[5], NoMode, p) <==>
      "vatInclManagementFeePercentage" in p && NumberOk(p["vatInclManagementFeePercentage"], 0.0, Some(1.0))
  {
  }

  /** The Joi schema accepts exactly the payloads that meet the rules. */
  lemma ValidationMeetsRules(p: Payload)
    ensures Validation(p).Pass? <==> Rules(p)
  {
    ValidateSpec(AgentSchema, NoMode, p);
    KeysOkByPosition(AgentSchema, NoMode, p);
    AgentNames();
    KeysInOrder(p);
    KeyMeanings(p);
  }

  /** The route's own keys `entityName`, `firstName`, `lastName` and `logoImage` are never accepted. */
  lemma RouteKeysRejected(p: Payload)
    requires "entityName" in p || "firstName" in p || "lastName" in p || "logoImage" in p
    ensures Validation(p).Fail?
  {
    AgentNames();
    RouteKeysUndeclared();
    if "entityName" in p {
      UndeclaredFails(AgentSchema, NoMode, p, "entityName");
    } else if "firstName" in p {
      UndeclaredFails(AgentSchema, NoMode, p, "firstName");
    } else if "lastName" in p {
      UndeclaredFails(AgentSchema, NoMode, p, "lastName");
    } else {
      UndeclaredFails(AgentSchema, NoMode, p, "logoImage");
    }
  }

  lemma RouteKeysUndeclared()
    ensures "entityName" !in Fields && "firstName" !in Fields && "lastName" !in Fields && "logoImage" !in Fields
  {
  }

  /** As written, no agent document the routes build can be saved, and an update never changes the names. */
  lemma AsWrittenDropsNames(b: Payload, a: Agent)
    ensures !Saveable(FromBodyAsWritten(b))
    ensures var u := Patched(a, FromBodyAsWritten(b));
            && u.agentEntityName == a.agentEntityName
            && u.contactPersonFirstName == a.contactPersonFirstName
            && u.contactPersonLastName == a.contactPersonLastName
  {
  }

  /** An accepted body yields a saveable document holding the body's values, without a logo. */
  lemma ValidBodySaves(b: Payload)
    requires Validation(b).Pass?
    ensures Saveable(FromBody(b))
    ensures var a := FromBody(b);
            && a.agentEntityName == Some(b["agentEntityName"].s)
            && a.contactPersonFirstName == Some(b["contactPersonFirstName"].s)
            && a.contactPersonLastName == Some(b["contactPersonLastName"].s)
            && a.email == Some(b["email"].s)
            && a.vatInclManagementFeePercentage == Some(b["vatInclManagementFeePercentage"].x)
            && a.logoImage.None?
  {
    ValidationMeetsRules(b);
    RouteKeysUndeclared();
  }
}
