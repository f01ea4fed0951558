/**
 * routes/agents.js: list, read, create, update and delete agents. The
 * handlers call `agentValidation` themselves; there is no middleware.
 */
module AgentRoutes {
  import opened Wrappers
  import opened Joi
  import opened Http
  import opened AgentModel
  import opened Store

  /** GET /: every stored agent. */
  method List(db: Db) returns (r: Reply<map<Id, Agent>>)
    ensures r == Ok(db.agents)
  {
    r := Ok(db.agents);
  }

  /** GET /:id: the agent, or a 400 when no agent has that id. */
  method Get(db: Db, id: Id) returns (r: Reply<Agent>)
    ensures id in db.agents ==> r == Ok(db.agents[id])
    ensures id !in db.agents ==> r == Error(400, Text("Agent not found"))
  {
    if id in db.agents {
      r := Ok(db.agents[id]);
    } else {
      r := Error(400, Text("Agent not found"));
    }
  }

  /**
   * The document the handlers build from the body: as written from
   * `entityName`, `firstName` and `lastName`, which strict mode drops;
   * corrected from the keys the schema declares.
   */
  function Built(v: Version, body: Payload): Agent {
    if v == AsWritten then FromBodyAsWritten(body) else FromBody(body)
  }

  /** An accepted body builds a document `save()` refuses as written and accepts corrected. */
  lemma BuiltSaveable(body: Payload)
    requires Validation(body).Pass?
    ensures !Saveable(Built(AsWritten, body))
    ensures Saveable(Built(Corrected, body))
  {
    ValidBodySaves(body);
  }

  /**
   * POST /: validate, then save the document built from the body under the
   * fresh id `id` and send it back. As written, `save()` throws: the required
   * names are unset, and nothing is stored.
   */
  method Create(db: Db, body: Payload, id: Id, v: Version) returns (r: Reply<Agent>)
    requires db.Valid() && id !in db.agents
    modifies db`agents
    ensures db.Valid()
    ensures Validation(body).Fail? ==>
              r == Error(400, Invalid(Validation(body).issue)) && db.agents == old(db.agents)
    ensures Validation(body).Pass? && v == AsWritten ==> r.Threw? && db.agents == old(db.agents)
    ensures Validation(body).Pass? && v == Corrected ==>
              db.agents == old(db.agents)[id := FromBody(body)] && r == Ok(FromBody(body))
  {
    var check := Validation(body);
    if check.Fail? {
      return Error(400, Invalid(check.issue));
    }
    var doc := Built(v, body);
    BuiltSaveable(body);
    if !Saveable(doc) {
      return Threw;
    }
    AgentWritten(db.agents, id, doc);
    db.agents := db.agents[id := doc];
    r := Ok(doc);
  }

  /**
   * PUT /:id: validate before any lookup, then update the stored agent with
   * the built document; the reply is the agent as it was BEFORE the update,
   * since the lookup does not ask for the new document.
   */
  method Update(db: Db, id: Id, body: Payload, v: Version) returns (r: Reply<Agent>)
    requires db.Valid()
    modifies db`agents
    ensures db.Valid()
    ensures Validation(body).Fail? ==>
              r == Error(400, Invalid(Validation(body).issue)) && db.agents == old(db.agents)
    ensures Validation(body).Pass? && id !in old(db.agents) ==>
              r == Error(400, Text("Agent not found")) && db.agents == old(db.agents)
    ensures Validation(body).Pass? && id in old(db.agents) ==>
              db.agents == old(db.agents)[id := Patched(old(db.agents)[id], Built(v, body))]
              && r == Ok(old(db.agents)[id])
  {
    var check := Validation(body);
    if check.Fail? {
      return Error(400, Invalid(check.issue));
    }
    if id !in db.agents {
      return Error(400, Text("Agent not found"));
    }
    var before := db.agents[id];
    var updated := Patched(before, Built(v, body));
    PatchedKeepsSaveable(before, Built(v, body));
    AgentWritten(db.agents, id, updated);
    db.agents := db.agents[id := updated];
    assert AgentsSaved(db.agents);
    r := Ok(before);
  }

  /** DELETE /:id: remove the agent and send back what was removed, or a 400. */
  method Delete(db: Db, id: Id) returns (r: Reply<Agent>)
    requires db.Valid()
    modifies db`agents
    ensures db.Valid()
    ensures id !in old(db.agents) ==> r == Error(400, Text("Agent not found")) && db.agents == old(db.agents)
    ensures id in old(db.agents) ==> r == Ok(old(db.agents)[id]) && db.agents == old(db.agents) - {id}
  {
    if id !in db.agents {
      return Error(400, Text("Agent not found"));
    }
    r := Ok(db.agents[id]);
    AgentRemoved(db.agents, id);
    db.agents := db.agents - {id};
    assert AgentsSaved(db.agents);
  }

  /**
   * After an accepted update the stored agent holds the body's values: the
   * corrected update sets the names, the e-mail and the fee, the one as
   * written leaves the names as they were; neither touches the logo, and the
   * phone changes only when the body has one.
   */
  lemma UpdateStoresBody(a: Agent, b: Payload)
    requires Rules(b)
    ensures var u := Patched(a, Built(Corrected, b));
            && u.agentEntityName == Some(b["agentEntityName"].s)
            && u.contactPersonFirstName == Some(b["contactPersonFirstName"].s)
            && u.contactPersonLastName == Some(b["contactPersonLastName"].s)
            && u.email == Some(b["email"].s)
            && u.vatInclManagementFeePercentage == Some(b["vatInclManagementFeePercentage"].x)
            && u.logoImage == a.logoImage
            && u.phone == (if "phone" in b then Some(b["phone"].s) else a.phone)
    ensures var w := Patched(a, Built(AsWritten, b));
            && w.agentEntityName == a.agentEntityName
            && w.contactPersonFirstName == a.contactPersonFirstName
            && w.contactPersonLastName == a.contactPersonLastName
            && w.email == Some(b["email"].s)
            && w.vatInclManagementFeePercentage == Some(b["vatInclManagementFeePercentage"].x)
            && w.logoImage == a.logoImage
            && w.phone == (if "phone" in b then Some(b["phone"].s) else a.phone)
  {
    RouteKeysUndeclared();
  }
}
