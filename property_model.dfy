/**
 * models/property.js: the stored property document, its `name` virtual,
 * the documents the property routes build from a request body, and
 * `propertyValidation(property, requestType)`.
 */
module PropertyModel {
  import opened Wrappers
  import opened Dates
  import opened Joi

  /** A stored property; a field the document lacks is None. */
  datatype Property = Property(
    erf: Option<string>,
    addressLine1: Option<string>,
    addressLine2: Option<string>,
    city: Option<string>,
    purchaseDate: Option<CalDate>,
    purchasePrice: Option<real>,
    purchaseFees: Option<real>,
    saleDate: Option<CalDate>,
    salePrice: Option<real>,
    saleFees: Option<real>,
    archived: Option<bool>)

  /** Archived means `archived` holds true; an absent flag is not archived. */
  predicate IsArchived(p: Property) {
    p.archived == Some(true)
  }

  /** How a template literal shows a field: its text, or "undefined" when absent. */
  function Shown(v: Option<string>): string {
    if v.Some? then v.value else "undefined"
  }

  /** The `name` virtual: "<addressLine2> - Erf <erf> (<addressLine1>)". */
  function Name(p: Property): string {
    Shown(p.addressLine2) + " - Erf " + Shown(p.erf) + " (" + Shown(p.addressLine1) + ")"
  }

  /** A property without a second address line is named "undefined - Erf ...". */
  lemma NameWithoutAddressLine2(p: Property)
    requires p.addressLine2.None?
    ensures "undefined - Erf " <= Name(p)
  {
    assert Name(p) == "undefined - Erf " + (Shown(p.erf) + " (" + Shown(p.addressLine1) + ")");
  }

  /**
   * `findByIdAndUpdate` of `p` with the update document `upd`: a field the
   * update carries replaces the stored one; an undefined field is left out of
   * the update and the stored one stays.
   */
  function Patched(p: Property, upd: Property): Property {
    Property(
      Overlay(upd.erf, p.erf), Overlay(upd.addressLine1, p.addressLine1),
      Overlay(upd.addressLine2, p.addressLine2), Overlay(upd.city, p.city),
      Overlay(upd.purchaseDate, p.purchaseDate), Overlay(upd.purchasePrice, p.purchasePrice),
      Overlay(upd.purchaseFees, p.purchaseFees), Overlay(upd.saleDate, p.saleDate),
      Overlay(upd.salePrice, p.salePrice), Overlay(upd.saleFees, p.saleFees),
      Overlay(upd.archived, p.archived))
  }

  /** Applying the same update twice is applying it once. */
  lemma PatchedIdempotent(p: Property, upd: Property)
    ensures Patched(Patched(p, upd), upd) == Patched(p, upd)
  {
  }

  /** An update never unsets a field, so the required paths stay set. */
  lemma PatchedKeepsSaveable(p: Property, upd: Property)
    requires Saveable(p)
    ensures Saveable(Patched(p, upd))
  {
  }

  /** The update the soft delete sends: `{archived: true}`. */
  const ArchiveUpdate: Property := Property(None, None, None, None, None, None, None, None, None, None, Some(true))

  /** The soft delete archives the property and changes nothing else. */
  lemma ArchiveKeepsTheRest(p: Property)
    ensures IsArchived(Patched(p, ArchiveUpdate))
    ensures Patched(p, ArchiveUpdate) == p.(archived := Some(true))
  {
  }

  // ---- documents built from a request body ---------------------------------------

  /** The document POST builds: seven body keys, `archived` at its default false. */
  function FromPostBody(b: Payload): Property {
    Property(
      StrAt(b, "erf"), StrAt(b, "addressLine1"), StrAt(b, "addressLine2"), StrAt(b, "city"),
      DateAt(b, "purchaseDate"), NumAt(b, "purchasePrice"), NumAt(b, "purchaseFees"),
      None, None, None, Some(false))
  }

  /** The update document PUT sends: eleven body keys, each undefined when the body lacks it. */
  function FromPutBody(b: Payload): Property {
    Property(
      StrAt(b, "erf"), StrAt(b, "addressLine1"), StrAt(b, "addressLine2"), StrAt(b, "city"),
      DateAt(b, "purchaseDate"), NumAt(b, "purchasePrice"), NumAt(b, "purchaseFees"),
      DateAt(b, "saleDate"), NumAt(b, "salePrice"), NumAt(b, "saleFees"), BoolAt(b, "archived"))
  }

  /** The Mongoose schema as written requires erf, both address lines, the city and the purchase date. */
  predicate SaveableAsWritten(p: Property) {
    p.erf.Some? && p.addressLine1.Some? && p.addressLine2.Some? && p.city.Some? && p.purchaseDate.Some?
  }

  /** The required paths once the second address line is optional, as the validator has it. */
  predicate Saveable(p: Property) {
    p.erf.Some? && p.addressLine1.Some? && p.city.Some? && p.purchaseDate.Some?
  }

  // ---- propertyValidation ---------------------------------------------------

  /**
   * The Joi schema, key by key in declaration order, with its sale price key
   * spelled `salePriceKey`; the sale keys and `archived` are forbidden on "post".
   */
  function PropertySchemaWith(salePriceKey: string): Joi.Schema {
    [
      KeyRule("erf", StringOf(1, 10, false), Required, None, None),
      KeyRule("addressLine1", StringOf(5, 255, false), Required, None, None),
      KeyRule("addressLine2", StringOf(5, 255, false), Optional, None, None),
      KeyRule("city", StringOf(5, 255, false), Required, None, None),
      KeyRule("purchaseDate", IsoDate(None), Required, None, None),
      KeyRule("purchasePrice", NumberIn(Some(0.0), None), Optional, None, None),
      KeyRule("purchaseFees", NumberIn(Some(0.0), None), Optional, None, None),
      KeyRule("saleDate", IsoDate(Some("purchaseDate")), Optional, Some(Forbidden), None),
      KeyRule(salePriceKey, NumberIn(Some(0.0), None), Optional, Some(Forbidden), None),
      KeyRule("saleFees", NumberIn(Some(0.0), None), Optional, Some(Forbidden), None),
      KeyRule("archived", Boolean, Optional, Some(Forbidden), None)
    ]
  }

  /** The schema as written declares `salePricePrice`. */
  const PropertySchemaAsWritten: Joi.Schema := PropertySchemaWith("salePricePrice")

  /** The schema declaring `salePrice`, the key the route and the document use. */
  const PropertySchema: Joi.Schema := PropertySchemaWith("salePrice")

  function ValidationAsWritten(p: Payload, mode: Mode): Check {
    Validate(PropertySchemaAsWritten, mode, p)
  }

  function Validation(p: Payload, mode: Mode): Check {
    Validate(PropertySchema, mode, p)
  }

  /** The keys the schema declares, its sale price key spelled `salePriceKey`. */
  function FieldsWith(salePriceKey: string): set<string> {
    {
      "erf", "addressLine1", "addressLine2", "city", "purchaseDate", "purchasePrice", "purchaseFees",
      "saleDate", salePriceKey, "saleFees", "archived"
    }
  }

  /** The keys the corrected schema declares: the fields of the document. */
  const Fields: set<string> := FieldsWith("salePrice")

  /** The keys the schema as written declares. */
  const FieldsAsWritten: set<string> := FieldsWith("salePricePrice")

  /** The rules of the schema, stated field by field, its sale price key spelled `salePriceKey`. */
  predicate RulesWith(salePriceKey: string, p: Payload, mode: Mode) {
    && "erf" in p && StringOk(p["erf"], 1, 10)
    && "addressLine1" in p && StringOk(p["addressLine1"], 5, 255)
    && ("addressLine2" in p ==> StringOk(p["addressLine2"], 5, 255))
    && "city" in p && StringOk(p["city"], 5, 255)
    && "purchaseDate" in p && IsoDateOk(p["purchaseDate"])
    && ("purchasePrice" in p ==> NumberOk(p["purchasePrice"], 0.0, None))
    && ("purchaseFees" in p ==> NumberOk(p["purchaseFees"], 0.0, None))
    && ("saleDate" in p ==>
          mode != Post && IsoDateOk(p["saleDate"]) && NotAfter(DateOf(p["purchaseDate"]), DateOf(p["saleDate"])))
    && (salePriceKey in p ==> mode != Post && NumberOk(p[salePriceKey], 0.0, None))
    && ("saleFees" in p ==> mode != Post && NumberOk(p["saleFees"], 0.0, None))
    && ("archived" in p ==> mode != Post && p["archived"].Bool?)
    && p.Keys <= FieldsWith(salePriceKey)
  }

  predicate Rules(p: Payload, mode: Mode) {
    RulesWith("salePrice", p, mode)
  }

  predicate RulesAsWritten(p: Payload, mode: Mode) {
    RulesWith("salePricePrice", p, mode)
  }

  /** The schema accepts exactly the payloads that meet its rules, in every request type, whatever its sale price key. */
  lemma SchemaMeetsRules(salePriceKey: string, p: Payload, mode: Mode)
    ensures Validate(PropertySchemaWith(salePriceKey), mode, p).Pass? <==> RulesWith(salePriceKey, p, mode)
  {
    var schema := PropertySchemaWith(salePriceKey);
    ValidateSpec(schema, mode, p);
    KeysOkByPosition(schema, mode, p);
    PropertyNames(salePriceKey);
    KeysInOrder(salePriceKey, p, mode);
    TextKeyMeanings(salePriceKey, p, mode);
    DateKeyMeanings(salePriceKey, p, mode);
    NumberKeyMeanings(salePriceKey, p, mode);
  }

  /** The corrected schema accepts exactly the payloads that meet the rules. */
  lemma ValidationMeetsRules(p: Payload, mode: Mode)
    ensures Validation(p, mode).Pass? <==> Rules(p, mode)
  {
    SchemaMeetsRules("salePrice", p, mode);
  }

  /** The schema as written accepts exactly the payloads that meet its rules, `salePricePrice` in place of `salePrice`. */
  lemma ValidationAsWrittenMeetsRules(p: Payload, mode: Mode)
    ensures ValidationAsWritten(p, mode).Pass? <==> RulesAsWritten(p, mode)
  {
    SchemaMeetsRules("salePricePrice", p, mode);
  }

  lemma KeysInOrder(k: string, p: Payload, mode: Mode)
    ensures var s := PropertySchemaWith(k);
      (forall i | 0 <= i < |s| :: KeyOk(s[i], mode, p)) <==>
      && KeyOk(s[0], mode, p) && KeyOk(s[1], mode, p) && KeyOk(s[2], mode, p)
      && KeyOk(s[3], mode, p) && KeyOk(s[4], mode, p) && KeyOk(s[5], mode, p)
      && KeyOk(s[6], mode, p) && KeyOk(s[7], mode, p) && KeyOk(s[8], mode, p)
      && KeyOk(s[9], mode, p) && KeyOk(s[10], mode, p)
  {
  }

  lemma TextKeyMeanings(k: string, p: Payload, mode: Mode)
    ensures var s := PropertySchemaWith(k);
      && (KeyOk(s[0], mode, p) <==> "erf" in p && StringOk(p["erf"], 1, 10))
      && (KeyOk(s[1], mode, p) <==> "addressLine1" in p && StringOk(p["addressLine1"], 5, 255))
      && (KeyOk(s[2], mode, p) <==> ("addressLine2" in p ==> StringOk(p["addressLine2"], 5, 255)))
      && (KeyOk(s[3], mode, p) <==> "city" in p && StringOk(p["city"], 5, 255))
  {
  }

  lemma DateKeyMeanings(k: string, p: Payload, mode: Mode)
    ensures var s := PropertySchemaWith(k);
      && (KeyOk(s[4], mode, p) <==> "purchaseDate" in p && IsoDateOk(p["purchaseDate"]))
      && (KeyOk(s[7], mode, p) <==>
           ("saleDate" in p ==> mode != Post && IsoDateOk(p["saleDate"]) && DateAt(p, "purchaseDate").Some?
                                && NotAfter(DateAt(p, "purchaseDate").value, DateOf(p["saleDate"]))))
  {
  }

  lemma NumberKeyMeanings(k: string, p: Payload, mode: Mode)
    ensures var s := PropertySchemaWith(k);
      && (KeyOk(s[5], mode, p) <==> ("purchasePrice" in p ==> NumberOk(p["purchasePrice"], 0.0, None)))
      && (KeyOk(s[6], mode, p) <==> ("purchaseFees" in p ==> NumberOk(p["purchaseFees"], 0.0, None)))
      && (KeyOk(s[8], mode, p) <==> (k in p ==> mode != Post && NumberOk(p[k], 0.0, None)))
      && (KeyOk(s[9], mode, p) <==> ("saleFees" in p ==> mode != Post && NumberOk(p["saleFees"], 0.0, None)))
      && (KeyOk(s[10], mode, p) <==> ("archived" in p ==> mode != Post && p["archived"].Bool?))
  {
  }

  lemma PropertyNames(k: string)
    ensures Names(PropertySchemaWith(k)) == FieldsWith(k)
  {
  }

  /** A payload is rejected on "post" when it carries a sale key or `archived`. */
  lemma PostForbidsSaleAndArchive(p: Payload)
    requires "saleDate" in p || "salePrice" in p || "saleFees" in p || "archived" in p
    ensures Validation(p, Post).Fail?
  {
    ValidationMeetsRules(p, Post);
  }

  /** Every payload accepted on "post" is accepted on "put", in both schemas: "post" only adds `forbidden`. */
  lemma PostAcceptedIsPutAccepted(p: Payload)
    ensures Validation(p, Post).Pass? ==> Validation(p, Put).Pass?
    ensures ValidationAsWritten(p, Post).Pass? ==> ValidationAsWritten(p, Put).Pass?
  {
    PutRelaxesPost("salePrice");
    RelaxedModeAccepts(PropertySchema, Post, Put, p);
    PutRelaxesPost("salePricePrice");
    RelaxedModeAccepts(PropertySchemaAsWritten, Post, Put, p);
  }

  /** On "put" every key is optional where "post" requires or forbids it, or keeps its presence. */
  lemma PutRelaxesPost(k: string)
    ensures forall key | key in PropertySchemaWith(k) :: Relaxes(key, Post, Put)
  {
  }

  /** A key the schema does not declare is rejected in every request type. */
  lemma UndeclaredKeyRejected(p: Payload, mode: Mode, key: string)
    requires key in p && key !in Fields
    ensures Validation(p, mode).Fail?
  {
    PropertyNames("salePrice");
    UndeclaredFails(PropertySchema, mode, p, key);
  }

  /** A key the schema as written does not declare is rejected in every request type. */
  lemma UndeclaredKeyRejectedAsWritten(p: Payload, mode: Mode, key: string)
    requires key in p && key !in FieldsAsWritten
    ensures ValidationAsWritten(p, mode).Fail?
  {
    PropertyNames("salePricePrice");
    UndeclaredFails(PropertySchemaAsWritten, mode, p, key);
  }

  /** As written, a payload carrying `salePrice` is rejected in every request type. */
  lemma SalePriceRejectedAsWritten(p: Payload, mode: Mode)
    requires "salePrice" in p
    ensures ValidationAsWritten(p, mode).Fail?
  {
    AsWrittenLacksSalePrice();
    UndeclaredKeyRejectedAsWritten(p, mode, "salePrice");
  }

  /** `salesDate`, `salesPrice` and `salesFees` are never accepted. */
  lemma SalesKeysRejected(p: Payload, mode: Mode)
    requires "salesDate" in p || "salesPrice" in p || "salesFees" in p
    ensures Validation(p, mode).Fail?
  {
    if "salesDate" in p {
      UndeclaredKeyRejected(p, mode, "salesDate");
    } else if "salesPrice" in p {
      UndeclaredKeyRejected(p, mode, "salesPrice");
    } else {
      UndeclaredKeyRejected(p, mode, "salesFees");
    }
  }

  /** A sale date earlier than the purchase date is rejected. */
  lemma SaleBeforePurchaseRejected(p: Payload, mode: Mode)
    requires "saleDate" in p && "purchaseDate" in p
    requires IsoDateOk(p["saleDate"]) && IsoDateOk(p["purchaseDate"])
    requires Before(DateOf(p["saleDate"]), DateOf(p["purchaseDate"]))
    ensures Validation(p, mode).Fail?
  {
    ValidationMeetsRules(p, mode);
  }

  /** `erf` is checked first: without it the first message names it as required. */
  lemma MissingErfReportedFirst(p: Payload, mode: Mode)
    requires "erf" !in p
    ensures Validation(p, mode) == Fail(Missing("erf"))
    ensures ValidationAsWritten(p, mode) == Fail(Missing("erf"))
  {
  }

  // ---- what the routes store ---------------------------------------------------

  /**
   * As written, a body accepted on "put" never carries `salePrice`: the schema
   * declares `salePricePrice` instead, so the update never sets the sale price.
   */
  lemma SalePriceNeverUpdatedAsWritten(b: Payload)
    requires ValidationAsWritten(b, Put).Pass?
    ensures "salePrice" !in b
    ensures FromPutBody(b).salePrice.None?
  {
    if "salePrice" in b {
      SalePriceRejectedAsWritten(b, Put);
    }
  }

  lemma AsWrittenLacksSalePrice()
    ensures "salePrice" !in FieldsAsWritten
  {
  }

  /** A body accepted on "put" updates exactly the fields it carries: no more, no fewer. */
  lemma PutUpdatesExactlyBodyKeys(b: Payload)
    requires Validation(b, Put).Pass?
    ensures var u := FromPutBody(b);
            && (u.erf.Some? <==> "erf" in b) && (u.addressLine1.Some? <==> "addressLine1" in b)
            && (u.addressLine2.Some? <==> "addressLine2" in b) && (u.city.Some? <==> "city" in b)
            && (u.purchaseDate.Some? <==> "purchaseDate" in b)
            && (u.purchasePrice.Some? <==> "purchasePrice" in b) && (u.purchaseFees.Some? <==> "purchaseFees" in b)
            && (u.saleDate.Some? <==> "saleDate" in b) && (u.salePrice.Some? <==> "salePrice" in b)
            && (u.saleFees.Some? <==> "saleFees" in b) && (u.archived.Some? <==> "archived" in b)
  {
    ValidationMeetsRules(b, Put);
  }

  /**
   * As written, a body without `addressLine2` builds a document the Mongoose
   * schema refuses to save.
   */
  lemma MissingAddressLine2UnsaveableAsWritten(b: Payload)
    requires "addressLine2" !in b
    ensures !SaveableAsWritten(FromPostBody(b))
  {
  }

  /** The body the integration tests post: no second address line. */
  const SampleBody: Payload := map[
    "erf" := Str("123"), "addressLine1" := Str("addr1"), "city" := Str("city1"), "purchaseDate" := Str("2020-01-01")]

  /** The sample body passes validation on "post" but, as written, its document cannot be saved. */
  lemma SampleBodyAsWritten(b: Payload)
    requires b == SampleBody
    ensures Validation(b, Post).Pass?
    ensures !SaveableAsWritten(FromPostBody(b))
  {
    SampleBodyPasses(b);
    MissingAddressLine2UnsaveableAsWritten(b);
  }

  lemma SampleBodyPasses(b: Payload)
    requires b == SampleBody
    ensures Validation(b, Post).Pass?
  {
    SampleBodyMeetsRules(b);
    ValidationMeetsRules(b, Post);
  }

  lemma SampleBodyMeetsRules(b: Payload)
    requires b == SampleBody
    ensures Rules(b, Post)
  {
    assert b.Keys == {"erf", "addressLine1", "city", "purchaseDate"};
    assert ParseIsoDate("2020-01-01").Some?;
  }

  /** A body accepted on "post" builds a saveable, unarchived document holding the body's values. */
  lemma ValidPostBodySaves(b: Payload)
    requires Validation(b, Post).Pass?
    ensures Saveable(FromPostBody(b))
    ensures var d := FromPostBody(b);
            && d.erf == Some(b["erf"].s) && d.addressLine1 == Some(b["addressLine1"].s)
            && d.city == Some(b["city"].s) && d.purchaseDate == ParseIsoDate(b["purchaseDate"].s)
            && d.addressLine2 == StrAt(b, "addressLine2")
            && d.saleDate.None? && d.salePrice.None? && d.saleFees.None? && !IsArchived(d)
  {
    ValidationMeetsRules(b, Post);
  }
}
