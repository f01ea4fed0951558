/**
 * routes/tenants.js: list, read, create, update and delete tenants. Creation
 * and update pass through `validate(validator, requestType)`; deletion through
 * `admin`. The `auth` middleware in front of them is not part of this model:
 * the signed-in user it supplies is a parameter.
 */
module TenantRoutes {
  import opened Wrappers
  import opened Joi
  import opened Http
  import opened TenantModel
  import opened Store
  import UserModel

  /** The validator as imported: `validateTenant`, a name models/tenant.js does not export. */
  const ValidatorAsWritten: Binding := Unbound

  /** The validator models/tenant.js exports, `tenantValidation`, which ignores the request type. */
  const Validator: Binding := Bound((p: Payload, m: Mode) => Validation(p))

  /** As written, the validation gate throws on every create and update, whatever the body. */
  lemma AsWrittenCreateAndUpdateThrow(requestType: Mode, body: Payload)
    ensures ValidateGate(ValidatorAsWritten, requestType, body) == Throws
  {
    UnboundGateThrows(requestType, body);
  }

  /** The validator the version hands to the gate. */
  function ValidatorIn(v: Version): Binding {
    if v == AsWritten then ValidatorAsWritten else Validator
  }

  /** With the exported validator the gate passes exactly the valid bodies, for either request type. */
  lemma GateFollowsValidation(requestType: Mode, body: Payload)
    ensures ValidateGate(Validator, requestType, body).Next? <==> Validation(body).Pass?
    ensures Validation(body).Fail? ==> ValidateGate(Validator, requestType, body) == Stop(400, Invalid(Validation(body).issue))
  {
    BoundGateFollowsValidator((p: Payload, m: Mode) => Validation(p), requestType, body);
  }

  /** GET /: every stored tenant. */
  method List(db: Db) returns (r: Reply<map<Id, Tenant>>)
    ensures r == Ok(db.tenants)
  {
    r := Ok(db.tenants);
  }

  /** GET /:id: the tenant, or a 404 when no tenant has that id. */
  method Get(db: Db, id: Id) returns (r: Reply<Tenant>)
    ensures id in db.tenants ==> r == Ok(db.tenants[id])
    ensures id !in db.tenants ==> r == Error(404, Text("Tenant not found"))
  {
    if id in db.tenants {
      r := Ok(db.tenants[id]);
    } else {
      r := Error(404, Text("Tenant not found"));
    }
  }

  /**
   * POST /: the validation gate, then store the tenant built from the body
   * under the fresh id `id`. As written the gate throws and nothing is stored.
   */
  method Create(db: Db, body: Payload, id: Id, v: Version) returns (r: Reply<Tenant>)
    requires db.Valid() && id !in db.tenants
    modifies db`tenants
    ensures db.Valid()
    ensures v == AsWritten ==> r.Threw? && db.tenants == old(db.tenants)
    ensures v == Corrected && Validation(body).Fail? ==>
              r == Error(400, Invalid(Validation(body).issue)) && db.tenants == old(db.tenants)
    ensures v == Corrected && Validation(body).Pass? ==>
              db.tenants == old(db.tenants)[id := FromBody(body)] && r == Ok(FromBody(body))
  {
    var gate := ValidateGate(ValidatorIn(v), Post, body);
    GateFollowsValidation(Post, body);
    if !gate.Next? {
      return Halted(gate);
    }
    var doc := FromBody(body);
    ValidBodySaves(body);
    TenantWritten(db.tenants, id, doc);
    db.tenants := db.tenants[id := doc];
    r := Ok(doc);
  }

  /**
   * PUT /:id: the validation gate, then update the stored tenant and send back
   * the updated document, or a 404 when no tenant has that id. As written the
   * gate throws and nothing changes.
   */
  method Update(db: Db, id: Id, body: Payload, v: Version) returns (r: Reply<Tenant>)
    requires db.Valid()
    modifies db`tenants
    ensures db.Valid()
    ensures v == AsWritten ==> r.Threw? && db.tenants == old(db.tenants)
    ensures v == Corrected && Validation(body).Fail? ==>
              r == Error(400, Invalid(Validation(body).issue)) && db.tenants == old(db.tenants)
    ensures v == Corrected && Validation(body).Pass? && id !in old(db.tenants) ==>
              r == Error(404, Text("Tenant not found")) && db.tenants == old(db.tenants)
    ensures v == Corrected && Validation(body).Pass? && id in old(db.tenants) ==>
              var updated := Patched(old(db.tenants)[id], FromBody(body));
              db.tenants == old(db.tenants)[id := updated] && r == Ok(updated)
  {
    var gate := ValidateGate(ValidatorIn(v), Put, body);
    GateFollowsValidation(Put, body);
    if !gate.Next? {
      return Halted(gate);
    }
    if id !in db.tenants {
      return Error(404, Text("Tenant not found"));
    }
    var updated := Patched(db.tenants[id], FromBody(body));
    PatchedKeepsSaveable(db.tenants[id], FromBody(body));
    TenantWritten(db.tenants, id, updated);
    db.tenants := db.tenants[id := updated];
    assert TenantsSaved(db.tenants);
    r := Ok(updated);
  }

  /**
   * DELETE /:id: the admin gate, then remove the tenant and send back what was
   * removed, or a 404. A user who is not an administrator never reaches the store.
   */
  method Delete(db: Db, user: UserModel.Principal, id: Id) returns (r: Reply<Tenant>)
    requires db.Valid()
    modifies db`tenants
    ensures db.Valid()
    ensures user.isAdmin != Some(true) ==>
              r == Error(403, Text("Access denied.")) && db.tenants == old(db.tenants)
    ensures user.isAdmin == Some(true) && id !in old(db.tenants) ==>
              r == Error(404, Text("Tenant not found")) && db.tenants == old(db.tenants)
    ensures user.isAdmin == Some(true) && id in old(db.tenants) ==>
              r == Ok(old(db.tenants)[id]) && db.tenants == old(db.tenants) - {id}
  {
    var gate := AdminGate(user);
    AdminGateAdmitsOnlyAdmins(user);
    if !gate.Next? {
      return Halted(gate);
    }
    if id !in db.tenants {
      return Error(404, Text("Tenant not found"));
    }
    r := Ok(db.tenants[id]);
    TenantRemoved(db.tenants, id);
    db.tenants := db.tenants - {id};
    assert TenantsSaved(db.tenants);
  }
}
