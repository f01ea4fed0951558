/**
 * The MongoDB collections the routes read and write, one map from object id
 * to document per Mongoose model.
 */
module Store {
  import opened Joi
  import PropertyModel
  import AgentModel
  import TenantModel
  import RentalModel
  import UserModel

  type RentalDoc = RentalModel.Rental<PropertyModel.Property, AgentModel.Agent, TenantModel.Tenant>

  predicate PropertiesSaved(m: map<Id, PropertyModel.Property>) {
    forall id | id in m :: PropertyModel.Saveable(m[id])
  }

  predicate AgentsSaved(m: map<Id, AgentModel.Agent>) {
    forall id | id in m :: AgentModel.Saveable(m[id])
  }

  predicate TenantsSaved(m: map<Id, TenantModel.Tenant>) {
    forall id | id in m :: TenantModel.Saveable(m[id])
  }

  /** Writing a saveable property keeps the collection saveable. */
  lemma PropertyWritten(m: map<Id, PropertyModel.Property>, id: Id, doc: PropertyModel.Property)
    requires PropertiesSaved(m) && PropertyModel.Saveable(doc)
    ensures PropertiesSaved(m[id := doc])
  {
  }

  /** Updating a stored property keeps the collection saveable: an update never unsets a field. */
  lemma PropertyPatched(m: map<Id, PropertyModel.Property>, id: Id, upd: PropertyModel.Property)
    requires PropertiesSaved(m) && id in m
    ensures PropertiesSaved(m[id := PropertyModel.Patched(m[id], upd)])
  {
    PropertyModel.PatchedKeepsSaveable(m[id], upd);
    PropertyWritten(m, id, PropertyModel.Patched(m[id], upd));
  }

  lemma AgentWritten(m: map<Id, AgentModel.Agent>, id: Id, doc: AgentModel.Agent)
    requires AgentsSaved(m) && AgentModel.Saveable(doc)
    ensures AgentsSaved(m[id := doc])
  {
  }

  lemma TenantWritten(m: map<Id, TenantModel.Tenant>, id: Id, doc: TenantModel.Tenant)
    requires TenantsSaved(m) && TenantModel.Saveable(doc)
    ensures TenantsSaved(m[id := doc])
  {
  }

  /** Removing a document keeps the rest of the collection saveable. */
  lemma AgentRemoved(m: map<Id, AgentModel.Agent>, id: Id)
    requires AgentsSaved(m)
    ensures AgentsSaved(m - {id})
  {
  }

  lemma TenantRemoved(m: map<Id, TenantModel.Tenant>, id: Id)
    requires TenantsSaved(m)
    ensures TenantsSaved(m - {id})
  {
  }

  class Db {
    var properties: map<Id, PropertyModel.Property>
    var agents: map<Id, AgentModel.Agent>
    var tenants: map<Id, TenantModel.Tenant>
    var rentals: map<Id, RentalDoc>
    var users: map<Id, UserModel.User>

    /**
     * What the collections keep: every document has its schema's required
     * paths, and the unique index on users' e-mail holds.
     */
    ghost predicate Valid()
      reads this
    {
      PropertiesSaved(properties) && AgentsSaved(agents) && TenantsSaved(tenants) && UserModel.UniqueEmails(users)
    }

    /** An empty database. */
    constructor()
      ensures Valid()
      ensures properties == map[] && agents == map[] && tenants == map[] && rentals == map[] && users == map[]
    {
      properties, agents, tenants, rentals, users := map[], map[], map[], map[], map[];
    }

    /** `save()` of a new property whose required paths are set. */
    method AddProperty(id: Id, doc: PropertyModel.Property)
      requires Valid() && PropertyModel.Saveable(doc)
      modifies this`properties
      ensures Valid()
      ensures properties == old(properties)[id := doc]
    {
      PropertyWritten(properties, id, doc);
      properties := properties[id := doc];
    }

    /**
     * findByIdAndUpdate on properties: the stored document takes every path
     * the update defines; the collection stays saveable.
     */
    method PatchProperty(id: Id, upd: PropertyModel.Property)
      requires Valid() && id in properties
      modifies this`properties
      ensures Valid()
      ensures properties == old(properties)[id := PropertyModel.Patched(old(properties)[id], upd)]
    {
      PropertyPatched(properties, id, upd);
      properties := properties[id := PropertyModel.Patched(properties[id], upd)];
    }
  }
}
