/**
 * routes/rentals.js: list the rentals, and create one that embeds copies of
 * the property, agent and tenant it refers to.
 */
module RentalRoutes {
  import opened Wrappers
  import opened Dates
  import opened Joi
  import opened Http
  import opened RentalModel
  import opened Store
  import PropertyModel
  import AgentModel
  import TenantModel

  /** The validator as imported: `rentalValidation`, a name models/rental.js does not export. */
  const ValidatorAsWritten: Binding := Unbound

  /**
   * The validator models/rental.js exports, `validateRental`. The handler
   * calls it with the body alone, so no request type is given and the schema
   * is used untailored.
   */
  const Validator: Binding := Bound((p: Payload, m: Mode) => Validation(p, m))

  /** The validator the version calls. */
  function ValidatorIn(v: Version): Binding {
    if v == AsWritten then ValidatorAsWritten else Validator
  }

  /** As written, calling the validator throws before any lookup, whatever the body. */
  lemma AsWrittenCreateThrows(body: Payload)
    ensures ValidateGate(ValidatorAsWritten, NoMode, body) == Throws
  {
    UnboundGateThrows(NoMode, body);
  }

  /** The exported validator, called without a request type, decides as the untailored schema does. */
  lemma ValidatorIsUntailored(body: Payload)
    ensures ValidateGate(Validator, NoMode, body).Next? <==> Validation(body, NoMode).Pass?
    ensures Validation(body, NoMode).Fail? ==>
              ValidateGate(Validator, NoMode, body) == Stop(400, Invalid(Validation(body, NoMode).issue))
  {
    BoundGateFollowsValidator((p: Payload, m: Mode) => Validation(p, m), NoMode, body);
  }

  /**
   * The id a body names under `key`; None when the key is missing, which
   * `findById(undefined)` answers with no document.
   */
  function IdAt(p: Payload, key: string): (r: Option<Id>)
    ensures r.Some? <==> key in p && ObjectIdOk(p[key])
    ensures r.Some? ==> r.value == p[key].s
  {
    if key in p && p[key].Str? && ObjectIdShaped(p[key].s) then Some(p[key].s) else None
  }

  /** Whether the id refers to a stored document. */
  predicate Found<T>(m: map<Id, T>, id: Option<Id>) {
    id.Some? && id.value in m
  }

  /** The terms an accepted body carries: its two dates and its amount. */
  function Terms(body: Payload): (r: (CalDate, CalDate, real))
    requires TermsOk(body)
    ensures NotAfter(r.0, r.1) && 0.0 <= r.2 <= 1000000.0
    ensures r.0 == DateOf(body["startDate"]) && r.1 == DateOf(body["endDate"]) && r.2 == body["monthlyRentalAmount"].x
  {
    (DateOf(body["startDate"]), DateOf(body["endDate"]), body["monthlyRentalAmount"].x)
  }

  /** The rental document: copies of the three referenced documents and the body's terms. */
  function NewRental(body: Payload, pid: Id, p: PropertyModel.Property, aid: Id, a: AgentModel.Agent,
                     tid: Id, t: TenantModel.Tenant): RentalDoc
    requires Validation(body, NoMode).Pass?
  {
    AcceptedTermsOk(body, NoMode);
    var terms := Terms(body);
    Rental(Snapshot(pid, p), Snapshot(aid, a), Snapshot(tid, t), terms.0, terms.1, terms.2)
  }

  /** A created rental ends no earlier than it starts, so it lasts at least a month when its span is whole months. */
  lemma NewRentalTermsHold(body: Payload, pid: Id, p: PropertyModel.Property, aid: Id, a: AgentModel.Agent,
                           tid: Id, t: TenantModel.Tenant)
    requires Validation(body, NoMode).Pass?
    ensures var rental := NewRental(body, pid, p, aid, a, tid, t);
            && NotAfter(rental.startDate, rental.endDate)
            && 0.0 <= rental.monthlyRentalAmount <= 1000000.0
            && rental.property == Snapshot(pid, p) && rental.agent == Snapshot(aid, a) && rental.tenant == Snapshot(tid, t)
            && (Duration(rental.startDate, rental.endDate).Some? ==> Duration(rental.startDate, rental.endDate).value >= 1)
  {
    var rental := NewRental(body, pid, p, aid, a, tid, t);
    if Duration(rental.startDate, rental.endDate).Some? {
      DurationAtLeastOne(rental.startDate, rental.endDate);
    }
  }

  /** GET /: every stored rental. */
  method List(db: Db) returns (r: Reply<map<Id, RentalDoc>>)
    ensures r == Ok(db.rentals)
  {
    r := Ok(db.rentals);
  }

  /**
   * POST /: validate, look the property, then the agent, then the tenant up,
   * answering 400 for the first one missing; then store the new rental under
   * the fresh id `id` and send it back. An archived property is accepted.
   * As written, calling the validator throws and nothing is stored.
   */
  method Create(db: Db, body: Payload, id: Id, v: Version) returns (r: Reply<RentalDoc>)
    requires id !in db.rentals
    modifies db`rentals
    ensures v == AsWritten ==> r.Threw? && db.rentals == old(db.rentals)
    ensures v == Corrected && Validation(body, NoMode).Fail? ==>
              r == Error(400, Invalid(Validation(body, NoMode).issue)) && db.rentals == old(db.rentals)
    ensures v == Corrected && Validation(body, NoMode).Pass? && !Found(db.properties, IdAt(body, "propertyId")) ==>
              r == Error(400, Text("Property not found")) && db.rentals == old(db.rentals)
    ensures v == Corrected && Validation(body, NoMode).Pass? && Found(db.properties, IdAt(body, "propertyId"))
            && !Found(db.agents, IdAt(body, "agentId")) ==>
              r == Error(400, Text("Agent not found")) && db.rentals == old(db.rentals)
    ensures v == Corrected && Validation(body, NoMode).Pass? && Found(db.properties, IdAt(body, "propertyId"))
            && Found(db.agents, IdAt(body, "agentId")) && !Found(db.tenants, IdAt(body, "tenantId")) ==>
              r == Error(400, Text("Tenant not found")) && db.rentals == old(db.rentals)
    ensures v == Corrected && Validation(body, NoMode).Pass? && Found(db.properties, IdAt(body, "propertyId"))
            && Found(db.agents, IdAt(body, "agentId")) && Found(db.tenants, IdAt(body, "tenantId")) ==>
              var pid, aid, tid := IdAt(body, "propertyId").value, IdAt(body, "agentId").value, IdAt(body, "tenantId").value;
              var rental := NewRental(body, pid, db.properties[pid], aid, db.agents[aid], tid, db.tenants[tid]);
              db.rentals == old(db.rentals)[id := rental] && r == Ok(rental)
  {
    var gate := ValidateGate(ValidatorIn(v), NoMode, body);
    ValidatorIsUntailored(body);
    if !gate.Next? {
      return Halted(gate);
    }
    var pid := IdAt(body, "propertyId");
    if pid.None? || pid.value !in db.properties {
      return Error(400, Text("Property not found"));
    }
    var aid := IdAt(body, "agentId");
    if aid.None? || aid.value !in db.agents {
      return Error(400, Text("Agent not found"));
    }
    var tid := IdAt(body, "tenantId");
    if tid.None? || tid.value !in db.tenants {
      return Error(400, Text("Tenant not found"));
    }
    var rental := NewRental(body, pid.value, db.properties[pid.value], aid.value, db.agents[aid.value],
                            tid.value, db.tenants[tid.value]);
    db.rentals := db.rentals[id := rental];
    r := Ok(rental);
  }

  /** With no request type a reference may be left out; the lookup then reports it missing. */
  lemma MissingReferenceIsNotFound<T>(m: map<Id, T>, body: Payload, key: string)
    requires key in IdKeys && key !in body
    ensures IdAt(body, key).None? && !Found(m, IdAt(body, key))
  {
  }
}
