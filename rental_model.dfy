/**
 * models/rental.js: the stored rental, its `duration` and `isActive` virtuals
 * and `validateRental(rental, requestType)`.
 */
module RentalModel {
  import opened Wrappers
  import opened Dates
  import opened Joi

  /** An embedded copy of a referenced document, taken when the rental is created. */
  datatype Snapshot<T> = Snapshot(id: Id, doc: T)

  datatype Rental<P, A, T> = Rental(
    property: Snapshot<P>,
    agent: Snapshot<A>,
    tenant: Snapshot<T>,
    startDate: CalDate,
    endDate: CalDate,
    monthlyRentalAmount: real)

  // ---- duration -------------------------------------------------------------

  /**
   * The `duration` virtual: months from the start date to the day after the
   * end date, so that a rental ending the day before an anniversary lasts whole
   * months. None when moment would report a fractional value.
   */
  function Duration(startDate: CalDate, endDate: CalDate): Option<int> {
    WholeMonths(startDate, NextDay(endDate))
  }

  /** A rental ending the day before `k` months after its start lasts exactly `k` months. */
  lemma DurationOfWholeMonths(startDate: CalDate, k: int)
    ensures Duration(startDate, PrevDay(AddMonths(startDate, k))) == Some(k)
  {
    WholeMonthsOfAddMonths(startDate, k);
  }

  /** January 1st to December 31st of the same year is twelve months. */
  lemma FullYearIsTwelveMonths()
    ensures Duration(Date(2022, 1, 1), Date(2022, 12, 31)) == Some(12)
  {
    DurationOfWholeMonths(Date(2022, 1, 1), 12);
  }

  /** January 1st to January 31st is one month. */
  lemma JanuaryIsOneMonth()
    ensures Duration(Date(2022, 1, 1), Date(2022, 1, 31)) == Some(1)
  {
    DurationOfWholeMonths(Date(2022, 1, 1), 1);
  }

  lemma MonthIndexMonotone(a: CalDate, b: CalDate)
    requires NotAfter(a, b)
    ensures MonthIndex(a) <= MonthIndex(b)
  {
  }

  lemma AddNoMonths(d: CalDate)
    ensures AddMonths(d, 0) == d
  {
    var r := AddMonths(d, 0);
    MonthIndexInjective(r, d);
  }

  /** A rental that ends no earlier than it starts and lasts whole months lasts at least one. */
  lemma DurationAtLeastOne(startDate: CalDate, endDate: CalDate)
    requires NotAfter(startDate, endDate)
    requires Duration(startDate, endDate).Some?
    ensures Duration(startDate, endDate).value >= 1
  {
    var stop := NextDay(endDate);
    assert Before(startDate, stop);
    MonthIndexMonotone(startDate, stop);
    var k := MonthIndex(stop) - MonthIndex(startDate);
    if k == 0 {
      AddNoMonths(startDate);
      AddNoMonths(stop);
      assert false;
    }
  }

  // ---- isActive -------------------------------------------------------------

  /**
   * The `isActive` virtual at the instant `now`: the start date's midnight lies
   * before `now`, and `now` lies before the midnight that ends the end date.
   */
  predicate IsActive(startDate: CalDate, endDate: CalDate, now: Moment) {
    InstantBefore(Midnight(startDate), now) && InstantBefore(now, Midnight(NextDay(endDate)))
  }

  /** Active exactly from just after the start date's midnight through the whole end date. */
  lemma IsActiveIff(startDate: CalDate, endDate: CalDate, now: Moment)
    ensures IsActive(startDate, endDate, now)
            <==> (Before(startDate, now.date) || (now.date == startDate && now.ms > 0)) && NotAfter(now.date, endDate)
  {
    var stop := NextDay(endDate);
    if NotAfter(now.date, endDate) {
      assert Before(now.date, stop);
    } else {
      assert Before(endDate, now.date);
      assert NotAfter(stop, now.date);
    }
  }

  /** A rental is never active on a day before its start date. */
  lemma NotActiveBeforeStart(startDate: CalDate, endDate: CalDate, now: Moment)
    requires Before(now.date, startDate)
    ensures !IsActive(startDate, endDate, now)
  {
    IsActiveIff(startDate, endDate, now);
  }

  /** A rental that has started is still active on its end date. */
  lemma ActiveThroughEndDate(startDate: CalDate, endDate: CalDate, now: Moment)
    requires Before(startDate, endDate) && now.date == endDate
    ensures IsActive(startDate, endDate, now)
  {
    IsActiveIff(startDate, endDate, now);
  }

  // ---- validateRental -----------------------------------------------------------

  /** The ids are required on "post" and forbidden on "put"; the dates and amount are always required. */
  const RentalSchema: Joi.Schema := [
    KeyRule("propertyId", ObjectId, Optional, Some(Required), Some(Forbidden)),
    KeyRule("agentId", ObjectId, Optional, Some(Required), Some(Forbidden)),
    KeyRule("tenantId", ObjectId, Optional, Some(Required), Some(Forbidden)),
    KeyRule("startDate", IsoDate(None), Required, None, None),
    KeyRule("endDate", IsoDate(Some("startDate")), Required, None, None),
    KeyRule("monthlyRentalAmount", NumberIn(Some(0.0), Some(1000000.0)), Required, None, None)
  ]

  function Validation(p: Payload, mode: Mode): Check {
    Validate(RentalSchema, mode, p)
  }

  const IdKeys: set<string> := {"propertyId", "agentId", "tenantId"}

  const Fields: set<string> := IdKeys + {"startDate", "endDate", "monthlyRentalAmount"}

  /** What a reference id must satisfy in each request type. */
  predicate IdRule(p: Payload, key: string, mode: Mode) {
    match mode
    case Post => key in p && ObjectIdOk(p[key])
    case Put => key !in p
    case NoMode => key in p ==> ObjectIdOk(p[key])
  }

  /** The rental terms: two ISO dates, the end no earlier than the start, and an amount within bounds. */
  predicate TermsOk(p: Payload) {
    && "startDate" in p && IsoDateOk(p["startDate"])
    && "endDate" in p && IsoDateOk(p["endDate"]) && NotAfter(DateOf(p["startDate"]), DateOf(p["endDate"]))
    && "monthlyRentalAmount" in p && NumberOk(p["monthlyRentalAmount"], 0.0, Some(1000000.0))
  }

  /** The rules of the schema, stated field by field. */
  predicate Rules(p: Payload, mode: Mode) {
    && IdRule(p, "propertyId", mode) && IdRule(p, "agentId", mode) && IdRule(p, "tenantId", mode)
    && TermsOk(p)
    && p.Keys <= Fields
  }

  lemma RentalNames()
    ensures Names(RentalSchema) == Fields
  {
  }

  lemma KeysInOrder(p: Payload, mode: Mode)
    ensures (forall i | 0 <= i < |RentalSchema| :: KeyOk(RentalSchema[i], mode, p)) <==>
      && KeyOk(RentalSchema[0], mode, p) && KeyOk(RentalSchema[1], mode, p) && KeyOk(RentalSchema[2], mode, p)
      && KeyOk(RentalSchema[3], mode, p) && KeyOk(RentalSchema[4], mode, p) && KeyOk(RentalSchema[5], mode, p)
  {
  }

  lemma IdKeyMeanings(p: Payload, mode: Mode)
    ensures KeyOk(RentalSchema[0], mode, p) <==> IdRule(p, "propertyId", mode)
    ensures KeyOk(RentalSchema[1], mode, p) <==> IdRule(p, "agentId", mode)
    ensures KeyOk(RentalSchema[2], mode, p) <==> IdRule(p, "tenantId", mode)
  {
  }

  lemma TermKeyMeanings(p: Payload, mode: Mode)
    ensures KeyOk(RentalSchema[3], mode, p) <==> "startDate" in p && IsoDateOk(p["startDate"])
    ensures KeyOk(RentalSchema[4], mode, p) <==>
      "endDate" in p && IsoDateOk(p["endDate"]) && DateAt(p, "startDate").Some?
      && NotAfter(DateAt(p, "startDate").value, DateOf(p["endDate"]))
    ensures KeyOk(RentalSchema[5], mode, p) <==>
      "monthlyRentalAmount" in p && NumberOk(p["monthlyRentalAmount"], 0.0, Some(1000000.0))
  {
  }

  /** The Joi schema accepts exactly the payloads that meet the rules, in every request type. */
  lemma ValidationMeetsRules(p: Payload, mode: Mode)
    ensures Validation(p, mode).Pass? <==> Rules(p, mode)
  {
    ValidateSpec(RentalSchema, mode, p);
    KeysOkByPosition(RentalSchema, mode, p);
    RentalNames();
    KeysInOrder(p, mode);
    IdKeyMeanings(p, mode);
    TermKeyMeanings(p, mode);
  }

  /** A body accepted on "put" carries no reference id. */
  lemma PutCarriesNoIds(p: Payload)
    requires Validation(p, Put).Pass?
    ensures forall key | key in IdKeys :: key !in p
  {
    ValidationMeetsRules(p, Put);
    PutRulesCarryNoIds(p);
  }

  lemma PutRulesCarryNoIds(p: Payload)
    requires Rules(p, Put)
    ensures forall key | key in IdKeys :: key !in p
  {
  }

  /** A body accepted on "post" carries all three reference ids, each an object id. */
  lemma PostCarriesIds(p: Payload)
    requires Validation(p, Post).Pass?
    ensures "propertyId" in p && ObjectIdOk(p["propertyId"])
    ensures "agentId" in p && ObjectIdOk(p["agentId"])
    ensures "tenantId" in p && ObjectIdOk(p["tenantId"])
  {
    ValidationMeetsRules(p, Post);
  }

  /** "post" accepts a body exactly when it has valid ids and "put" accepts the rest of it. */
  lemma PostIsPutPlusIds(p: Payload)
    ensures Validation(p, Post).Pass?
            <==> (forall key | key in IdKeys :: key in p && ObjectIdOk(p[key])) && Validation(p - IdKeys, Put).Pass?
  {
    ValidationMeetsRules(p, Post);
    ValidationMeetsRules(p - IdKeys, Put);
    PostRulesArePutRulesPlusIds(p);
  }

  lemma PostRulesArePutRulesPlusIds(p: Payload)
    ensures Rules(p, Post) <==> (forall key | key in IdKeys :: key in p && ObjectIdOk(p[key])) && Rules(p - IdKeys, Put)
  {
    var q := p - IdKeys;
    assert TermsOk(q) <==> TermsOk(p) by {
      assert forall key | key in Fields - IdKeys :: (key in q <==> key in p) && (key in q ==> q[key] == p[key]);
    }
    assert q.Keys <= Fields <==> p.Keys <= Fields;
    assert IdRule(q, "propertyId", Put) && IdRule(q, "agentId", Put) && IdRule(q, "tenantId", Put);
  }

  /** An accepted body, in any request type, carries two ordered ISO dates and an amount within bounds. */
  lemma AcceptedTermsOk(p: Payload, mode: Mode)
    requires Validation(p, mode).Pass?
    ensures TermsOk(p)
  {
    ValidationMeetsRules(p, mode);
  }

  /** An end date before the start date is rejected in every request type. */
  lemma EndBeforeStartRejected(p: Payload, mode: Mode)
    requires "startDate" in p && "endDate" in p
    requires IsoDateOk(p["startDate"]) && IsoDateOk(p["endDate"])
    requires Before(DateOf(p["endDate"]), DateOf(p["startDate"]))
    ensures Validation(p, mode).Fail?
  {
    ValidationMeetsRules(p, mode);
  }

  /** A monthly amount outside 0 to 1 000 000 is rejected in every request type. */
  lemma AmountOutOfRangeRejected(p: Payload, mode: Mode)
    requires "monthlyRentalAmount" in p && p["monthlyRentalAmount"].Num?
    requires p["monthlyRentalAmount"].x < 0.0 || p["monthlyRentalAmount"].x > 1000000.0
    ensures Validation(p, mode).Fail?
  {
    ValidationMeetsRules(p, mode);
  }

  /** Without a request type no alteration applies: every body "post" or "put" accepts is accepted. */
  lemma UntailoredAcceptsBoth(p: Payload)
    ensures Validation(p, Post).Pass? ==> Validation(p, NoMode).Pass?
    ensures Validation(p, Put).Pass? ==> Validation(p, NoMode).Pass?
  {
    ValidationMeetsRules(p, Post);
    ValidationMeetsRules(p, Put);
    ValidationMeetsRules(p, NoMode);
  }
}
