/**
 * routes/properties.js: list, read, create, update and soft-delete properties.
 */
module PropertyRoutes {
  import opened Wrappers
  import opened Joi
  import opened Http
  import opened PropertyModel
  import opened Store

  /**
   * GET /: every stored property. The filter on `archived` is commented out,
   * so archived properties are listed too.
   */
  method List(db: Db) returns (r: Reply<map<Id, Property>>)
    ensures r == Ok(db.properties)
  {
    r := Ok(db.properties);
  }

  /** GET /:id: the property, or a 400 when no property has that id. */
  method Get(db: Db, id: Id) returns (r: Reply<Property>)
    ensures id in db.properties ==> r == Ok(db.properties[id])
    ensures id !in db.properties ==> r == Error(400, Text("Property not found"))
  {
    if id in db.properties {
      r := Ok(db.properties[id]);
    } else {
      r := Error(400, Text("Property not found"));
    }
  }

  /** `propertyValidation` as the version declares its sale price key. */
  function Check(v: Version, body: Payload, mode: Mode): Check {
    if v == AsWritten then ValidationAsWritten(body, mode) else Validation(body, mode)
  }

  /** `save()`: the paths the version's Mongoose schema requires are set. */
  predicate SaveableIn(v: Version, p: Property) {
    if v == AsWritten then SaveableAsWritten(p) else Saveable(p)
  }

  /**
   * POST /: validate for "post", then save the document built from the body
   * under the fresh id `id` and send it back. As written, `save()` throws
   * when the body has no `addressLine2`, and nothing is stored.
   */
  method Create(db: Db, body: Payload, id: Id, v: Version) returns (r: Reply<Property>)
    requires db.Valid() && id !in db.properties
    modifies db`properties
    ensures db.Valid()
    ensures Check(v, body, Post).Fail? ==>
              r == Error(400, Invalid(Check(v, body, Post).issue)) && db.properties == old(db.properties)
    ensures Check(v, body, Post).Pass? && !SaveableIn(v, FromPostBody(body)) ==>
              r.Threw? && db.properties == old(db.properties)
    ensures Check(v, body, Post).Pass? && SaveableIn(v, FromPostBody(body)) ==>
              db.properties == old(db.properties)[id := FromPostBody(body)] && r == Ok(FromPostBody(body))
  {
    var check := Check(v, body, Post);
    if check.Fail? {
      return Error(400, Invalid(check.issue));
    }
    var doc := FromPostBody(body);
    if !SaveableIn(v, doc) {
      return Threw;
    }
    db.AddProperty(id, doc);
    r := Ok(doc);
  }

  /** Corrected, every body accepted on "post" is saved; as written, every one without `addressLine2` throws. */
  lemma CreateSavesAcceptedBodies(body: Payload)
    ensures Check(Corrected, body, Post).Pass? ==> SaveableIn(Corrected, FromPostBody(body))
    ensures "addressLine2" !in body ==> !SaveableIn(AsWritten, FromPostBody(body))
  {
    if Validation(body, Post).Pass? {
      ValidPostBodySaves(body);
    }
  }

  /**
   * PUT /:id: validate for "put", then update the fields the body carries and
   * send back the updated document, or a 400 when no property has that id.
   * As written, the sale price on file never changes.
   */
  method Update(db: Db, id: Id, body: Payload, v: Version) returns (r: Reply<Property>)
    requires db.Valid()
    modifies db`properties
    ensures db.Valid()
    ensures Check(v, body, Put).Fail? ==>
              r == Error(400, Invalid(Check(v, body, Put).issue)) && db.properties == old(db.properties)
    ensures Check(v, body, Put).Pass? && id !in old(db.properties) ==>
              r == Error(400, Text("Property not found")) && db.properties == old(db.properties)
    ensures Check(v, body, Put).Pass? && id in old(db.properties) ==>
              var updated := Patched(old(db.properties)[id], FromPutBody(body));
              db.properties == old(db.properties)[id := updated] && r == Ok(updated)
    ensures v == AsWritten && id in old(db.properties) ==>
              id in db.properties && db.properties[id].salePrice == old(db.properties)[id].salePrice
  {
    var check := Check(v, body, Put);
    if check.Fail? {
      r := Error(400, Invalid(check.issue));
    } else if id !in db.properties {
      r := Error(400, Text("Property not found"));
    } else {
      if v == AsWritten {
        SalePriceNeverUpdatedAsWritten(body);
      }
      db.PatchProperty(id, FromPutBody(body));
      r := Ok(db.properties[id]);
    }
  }

  /** DELETE /:id: a soft delete that sets `archived` and sends back the updated document. */
  method Delete(db: Db, id: Id) returns (r: Reply<Property>)
    requires db.Valid()
    modifies db`properties
    ensures db.Valid()
    ensures id !in old(db.properties) ==>
              r == Error(400, Text("Property not found")) && db.properties == old(db.properties)
    ensures id in old(db.properties) ==>
              var archived := old(db.properties)[id].(archived := Some(true));
              db.properties == old(db.properties)[id := archived] && r == Ok(archived) && IsArchived(archived)
  {
    if id !in db.properties {
      return Error(400, Text("Property not found"));
    }
    ArchiveKeepsTheRest(db.properties[id]);
    var archived := Patched(db.properties[id], ArchiveUpdate);
    db.properties := db.properties[id := archived];
    r := Ok(archived);
  }

  /**
   * A soft delete keeps every id stored and every other property as it was;
   * the deleted one is archived, so GET / still lists it.
   */
  lemma SoftDeleteKeepsRecords(properties: map<Id, Property>, id: Id)
    requires id in properties
    ensures var after := properties[id := Patched(properties[id], ArchiveUpdate)];
            && after.Keys == properties.Keys && IsArchived(after[id])
            && forall other | other in properties && other != id :: after[other] == properties[other]
  {
    ArchiveKeepsTheRest(properties[id]);
  }
}
