/**
 * models/tenant.js: the stored tenant, the document the tenant routes build
 * from a request body, and `tenantValidation(tenant)`.
 */
module TenantModel {
  import opened Wrappers
  import opened Joi

  /** A stored tenant; a field the document lacks is None. */
  datatype Tenant = Tenant(firstName: Option<string>, lastName: Option<string>, email: Option<string>, phone: Option<string>)

  /** The paths the Mongoose schema marks `required`. */
  predicate Saveable(t: Tenant) {
    t.firstName.Some? && t.lastName.Some? && t.email.Some?
  }

  /** The document POST builds and the update PUT sends: four body keys, each undefined when absent. */
  function FromBody(b: Payload): Tenant {
    Tenant(StrAt(b, "firstName"), StrAt(b, "lastName"), StrAt(b, "email"), StrAt(b, "phone"))
  }

  /** Every field the update carries replaces the stored one; every other field stays. */
  function Patched(t: Tenant, upd: Tenant): Tenant {
    Tenant(Overlay(upd.firstName, t.firstName), Overlay(upd.lastName, t.lastName),
           Overlay(upd.email, t.email), Overlay(upd.phone, t.phone))
  }

  /** An update never unsets a field, so the required paths stay set. */
  lemma PatchedKeepsSaveable(t: Tenant, upd: Tenant)
    requires Saveable(t)
    ensures Saveable(Patched(t, upd))
  {
  }

  // ---- tenantValidation -------------------------------------------------------

  const TenantSchema: Joi.Schema := [
    KeyRule("firstName", StringOf(3, 255, false), Required, None, None),
    KeyRule("lastName", StringOf(3, 255, false), Required, None, None),
    KeyRule("email", StringOf(3, 255, true), Required, None, None),
    KeyRule("phone", StringOf(3, 15, false), Optional, None, None)
  ]

  /** `tenantValidation` ignores the request type it is handed: the schema is used untailored. */
  function Validation(p: Payload): Check {
    Validate(TenantSchema, NoMode, p)
  }

  const Fields: set<string> := {"firstName", "lastName", "email", "phone"}

  /** The rules of the schema, stated field by field. */
  predicate Rules(p: Payload) {
    && "firstName" in p && StringOk(p["firstName"], 3, 255)
    && "lastName" in p && StringOk(p["lastName"], 3, 255)
    && "email" in p && EmailOk(p["email"], 3, 255)
    && ("phone" in p ==> StringOk(p["phone"], 3, 15))
    && p.Keys <= Fields
  }

  lemma TenantNames()
    ensures Names(TenantSchema) == Fields
  {
  }

  lemma KeysInOrder(p: Payload)
    ensures (forall i | 0 <= i < |TenantSchema| :: KeyOk(TenantSchema[i], NoMode, p)) <==>
      && KeyOk(TenantSchema[0], NoMode, p) && KeyOk(TenantSchema[1], NoMode, p)
      && KeyOk(TenantSchema[2], NoMode, p) && KeyOk(TenantSchema[3], NoMode, p)
  {
  }

  lemma KeyMeanings(p: Payload)
    ensures KeyOk(TenantSchema[0], NoMode, p) <==> "firstName" in p && StringOk(p["firstName"], 3, 255)
    ensures KeyOk(TenantSchema[1], NoMode, p) <==> "lastName" in p && StringOk(p["lastName"], 3, 255)
    ensures KeyOk(TenantSchema[2], NoMode, p) <==> "email" in p && EmailOk(p["email"], 3, 255)
    ensures KeyOk(TenantSchema[3], NoMode, p) <==> ("phone" in p ==> StringOk(p["phone"], 3, 15))
  {
  }

  /** The Joi schema accepts exactly the payloads that meet the rules. */
  lemma ValidationMeetsRules(p: Payload)
    ensures Validation(p).Pass? <==> Rules(p)
  {
    ValidateSpec(TenantSchema, NoMode, p);
    KeysOkByPosition(TenantSchema, NoMode, p);
    TenantNames();
    KeysInOrder(p);
    KeyMeanings(p);
  }

  /** A key the schema does not declare is rejected. */
  lemma UndeclaredKeyRejected(p: Payload, key: string)
    requires key in p && key !in Fields
    ensures Validation(p).Fail?
  {
    TenantNames();
    UndeclaredFails(TenantSchema, NoMode, p, key);
  }

  /** An accepted body builds a saveable document that holds exactly the body's values. */
  lemma ValidBodySaves(b: Payload)
    requires Validation(b).Pass?
    ensures Saveable(FromBody(b))
    ensures var t := FromBody(b);
            && t.firstName == Some(b["firstName"].s) && t.lastName == Some(b["lastName"].s)
            && t.email == Some(b["email"].s) && t.phone == StrAt(b, "phone")
  {
    ValidationMeetsRules(b);
  }

  /** An accepted body replaces the names and the e-mail; the phone changes only when the body has one. */
  lemma ValidUpdate(t: Tenant, b: Payload)
    requires Validation(b).Pass?
    ensures var u := Patched(t, FromBody(b));
            && u.firstName == Some(b["firstName"].s) && u.lastName == Some(b["lastName"].s)
            && u.email == Some(b["email"].s)
            && u.phone == (if "phone" in b then Some(b["phone"].s) else t.phone)
            && Saveable(u)
  {
    ValidationMeetsRules(b);
  }
}
