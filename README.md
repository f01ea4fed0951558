# proppi-api, modelled in Dafny

proppi-api is an Express/Mongoose REST API for managing rental properties.
It has properties, letting agents, tenants, rentals, users and a login.
This project models its core:

- the Joi validators of the five models and of the login (`validateAuth`);
- the `name`, `duration` and `isActive` virtuals, and the token payload of `generateAuthToken`;
- the `validate` and `admin` middleware;
- the route handlers that read and change the collections.

Layout:

- `wrappers.dfy`: `Option`, plus `Overlay`, which is how one field of an update lands on a stored document.
- `dates.dfy`: the calendar, ISO `YYYY-MM-DD` text, and moment's month arithmetic.
- `joi.dfy`: one Joi engine shared by every schema.
  - A schema is a sequence of declared keys. Each key has a presence that `.alter({post, put})` may replace per request type.
  - Validation reports the first failing key in declaration order (Joi's `abortEarly`), then the undeclared keys.
  - `KeyOk`/`KindOk` restate every rule declaratively. `ValidateSpec` ties the engine to them.
- `*_model.dfy`: the stored documents, what each route builds from a body, and each schema.
  - Each schema comes with `Rules`, an independent field-by-field statement of what it accepts.
  - `ValidationMeetsRules` proves the schema accepts exactly the bodies `Rules` describes.
- `http.dfy`: replies, the two middleware gates, validators that may be unbound, and `Version`.
- `store.dfy`: the class `Db`, with one map from object id to document per collection.
  - Its invariant has three parts.
    - Every stored agent and tenant has the paths its Mongoose schema requires.
    - Every stored property has the paths the validator requires. This set leaves out `addressLine2`, which the Mongoose schema as written also requires (see Findings).
    - No two users share an e-mail.
- `*_routes.dfy`: one module per router.
  - Each state-changing handler is a method on `Db` with field frames.
  - Each method's `ensures` gives the new state and the reply for every outcome.

Conventions:

- A request body is a map from key to JSON value.
- An absent key is JavaScript `undefined`. Mongoose drops `undefined` from an update, so the stored field stays.
- The clock (`now`), fresh object ids, bcrypt and JSON web tokens are parameters or abstractions:
  - a hash records the part of the text bcrypt reads, its first 72 characters;
  - a token is the payload it signs.

Each place where the code and its evident intent disagree is listed under Findings.

- A handler with such a disagreement takes a `Version` (`Http.Version`). `AsWritten` follows the code and `Corrected` follows the intent.
- The handler's contract states the outcome for both versions.
- The lemmas about the code as written carry `AsWritten` in their names.
- Everywhere else the model follows the code.

## Model

| member | source | states |
|---|---|---|
| Dates.NextDay | models/rental.js:82 | the day after is later and no day lies strictly between |
| Dates.PrevDay | models/rental.js:82 | the day before is the inverse of NextDay |
| Dates.PrevDayOfNextDay | models/rental.js:82 | PrevDay undoes NextDay |
| Dates.AddMonths | models/rental.js:81-83 | moment's month addition: the month index moves by k, the day is kept or clamped to the last day of a shorter month |
| Dates.WholeMonths | models/rental.js:81-83 | moment's month difference when it is whole: the month-index difference, defined exactly when adding it to one end lands on the other |
| Dates.WholeMonthsOfAddMonths | models/rental.js:81-83 | from any start, k months later is exactly k whole months |
| Dates.RollOver | models/rental.js:111-114 | a day that exists in its month names that day; a day past the month's end names that many days into the next month, as the JavaScript `Date` parser reads it |
| Dates.ParseIsoDate | models/rental.js:111-114 | accepted text has the YYYY-MM-DD shape and a four-digit year |
| Dates.FormatIsoDate | models/rental.js:111-114 | the YYYY-MM-DD text is ten characters; the code never formats a date, and this function exists to state the parser's round trips |
| Dates.ParseFormatIsoDate | models/rental.js:111-114 | parsing the formatted date gives the date back |
| Dates.IsoDateAccepted | models/rental.js:111-114 | the parser accepts exactly the text shaped YYYY-MM-DD with a month 1-12 and a day 1-31 |
| Dates.IsoDateValue | models/rental.js:111-114 | accepted text reads as the date it spells when the day exists in its month, else as that many days into the next month |
| Dates.SampleIsoTexts | models/rental.js:111-114 | "2021-06-32" and "23-06-2021" are refused; "2021-06-31" reads as 1 July 2021 |
| Dates.FormatParseIsoDate | models/rental.js:111-114 | accepted text whose day exists in its month formats back to the same text |
| Joi.IndexOf | models/user.js:52 | the position of the first occurrence, or -1 when absent |
| Joi.FirstIssueNone | models/property.js:68-105 | no issue is reported exactly when every declared key passes |
| Joi.FirstIssueIsFirst | models/property.js:68-105 | a reported issue is that of a failing key whose predecessors all pass (abortEarly order) |
| Joi.KeyIssueNone | models/property.js:68-105 | the engine's per-key check agrees with the declarative KeyOk |
| Joi.ValidateSpec | models/property.js:68-105 | `Validate` passes a body exactly when every declared key meets its rules and the body carries no undeclared key |
| Joi.UndeclaredFails | models/property.js:68-105 | a body with an undeclared key is rejected |
| Joi.UnsafeNumberRejected | models/property.js:77-78 | a number beyond Number.MAX_SAFE_INTEGER in magnitude fails its key, reported as number.unsafe when the key is not forbidden |
| Joi.KeysOkByPosition | models/property.js:68-105 | quantifying over a schema's keys equals quantifying over its positions |
| Joi.RelaxedModeAccepts | models/property.js:85-105 | a request type that only makes keys optional never rejects what another accepts |
| Joi.UnalteredIgnoresMode | models/agent.js:50-59 | a schema without `.alter` gives the same verdict for every request type |
| PropertyModel.NameWithoutAddressLine2 | models/property.js:59-61 | the `Name` virtual shows "undefined" for a missing second address line |
| PropertyModel.PatchedIdempotent | routes/properties.js:77-83 | `Patched` applied twice with the same update equals applying it once, so a repeated soft delete changes nothing |
| PropertyModel.PatchedKeepsSaveable | routes/properties.js:47-63 | an update keeps the required paths set |
| PropertyModel.ArchiveKeepsTheRest | routes/properties.js:77-83 | `Patched` with the soft-delete update sets archived to true and changes nothing else |
| PropertyModel.SchemaMeetsRules | models/property.js:67-106 | whatever its sale price key, the schema accepts exactly the bodies meeting the field rules in every request type |
| PropertyModel.ValidationAsWrittenMeetsRules | models/property.js:67-106 | the schema as written accepts exactly the bodies meeting the same field rules with salePricePrice in place of salePrice, per request type |
| PropertyModel.ValidationMeetsRules | models/property.js:67-106 | the corrected property schema (salePrice) accepts exactly the bodies meeting the field rules, per request type (erf 1-10, address lines and city 5-255, ISO purchase date, non-negative numbers, sale keys and archived only on put, sale date not before purchase date, no other key) |
| PropertyModel.PostForbidsSaleAndArchive | models/property.js:80-102 | on post a body with a sale key or archived is rejected |
| PropertyModel.PostAcceptedIsPutAccepted | models/property.js:85-102 | in both the written and the corrected schema, every body accepted on post is accepted on put |
| PropertyModel.UndeclaredKeyRejected | models/property.js:68-103 | any key the corrected schema does not declare is rejected in every request type |
| PropertyModel.UndeclaredKeyRejectedAsWritten | models/property.js:68-103 | any key the schema as written does not declare is rejected in every request type |
| PropertyModel.SalePriceRejectedAsWritten | models/property.js:88-92 | as written, a body carrying salePrice is rejected in every request type |
| PropertyModel.SalesKeysRejected | models/property.js:68-103 | salesDate, salesPrice and salesFees are rejected in every request type |
| PropertyModel.SaleBeforePurchaseRejected | models/property.js:81-84 | a sale date earlier than the purchase date is rejected |
| PropertyModel.MissingErfReportedFirst | models/property.js:69 | without erf the first error is that erf is required, in both the written and the corrected schema |
| PropertyModel.SalePriceNeverUpdatedAsWritten | models/property.js:88-92 | as written, no body accepted on put carries salePrice, so `FromPutBody` never sets the sale price |
| PropertyModel.PutUpdatesExactlyBodyKeys | routes/properties.js:47-61 | with the corrected schema, the update `FromPutBody` builds from an accepted put body sets exactly the fields the body carries, salePrice included |
| PropertyModel.MissingAddressLine2UnsaveableAsWritten | models/property.js:18-23 | as written, a document without the second address line cannot be saved |
| PropertyModel.SampleBodyAsWritten | tests/integration/routes/properties.test.js:157-162 | the test body passes validation on post, yet as written its document cannot be saved |
| PropertyModel.ValidPostBodySaves | routes/properties.js:26-34 | `FromPostBody` of a body accepted on post is a saveable, unarchived document with the body's values and no sale fields |
| PropertyRoutes.List | routes/properties.js:6-12 | GET / replies with every stored property, archived or not (the filter is commented out) |
| PropertyRoutes.Get | routes/properties.js:14-19 | the stored property, or 400 "Property not found" |
| PropertyRoutes.Create | routes/properties.js:21-40 | an invalid body gets 400 with the first error and nothing changes; a document `save()` refuses throws and nothing is stored (as written, any body without addressLine2); otherwise the document built from the body is stored under the new id and sent back |
| PropertyRoutes.CreateSavesAcceptedBodies | routes/properties.js:21-35 | corrected, every body accepted on post builds a document save() accepts; as written, every body without addressLine2 builds one it refuses |
| PropertyRoutes.Update | routes/properties.js:42-70 | validation, with the version's schema, comes before the lookup; an unknown id gets 400 "Property not found" and nothing changes; otherwise the updated document is stored and sent back; as written the stored sale price never changes |
| PropertyRoutes.Delete | routes/properties.js:72-88 | only archived becomes true and the updated document is sent back; an unknown id gets 400 |
| PropertyRoutes.SoftDeleteKeepsRecords | routes/properties.js:77-83 | a soft delete keeps every record stored, archives the one deleted and leaves the others as they were |
| RentalModel.DurationOfWholeMonths | models/rental.js:80-84 | `Duration` of a rental ending the day before k months after its start is k months |
| RentalModel.FullYearIsTwelveMonths | tests/unit/rental.test.js:4-11 | 2022-01-01 to 2022-12-31 lasts 12 months |
| RentalModel.JanuaryIsOneMonth | tests/unit/rental.test.js:13-20 | 2022-01-01 to 2022-01-31 lasts 1 month |
| RentalModel.DurationAtLeastOne | models/rental.js:80-84 | a whole-month rental ending no earlier than it starts lasts at least one month |
| RentalModel.IsActiveIff | models/rental.js:86-91 | `IsActive` holds exactly when the start date's midnight is strictly before now and now is on or before the end date |
| RentalModel.NotActiveBeforeStart | models/rental.js:88 | never active on a day before the start date |
| RentalModel.ActiveThroughEndDate | models/rental.js:88 | a started rental is still active on its end date |
| RentalModel.ValidationMeetsRules | models/rental.js:96-123 | the rental schema accepts exactly the bodies meeting the field rules per request type (ids per post/put/untailored, ISO dates with end not before start, amount in 0..1000000, no other key) |
| RentalModel.PutCarriesNoIds | models/rental.js:98-110 | a body accepted on put carries none of propertyId, agentId and tenantId |
| RentalModel.PostCarriesIds | models/rental.js:98-110 | a body accepted on post carries all three ids, each an object id |
| RentalModel.PostIsPutPlusIds | models/rental.js:98-122 | post accepts a body iff it has three valid ids and put accepts the rest |
| RentalModel.AcceptedTermsOk | models/rental.js:111-120 | a body accepted in any request type carries two ISO dates, the end no earlier than the start, and an amount within 0..1000000 |
| RentalModel.EndBeforeStartRejected | models/rental.js:115-119 | an end date before the start date is rejected |
| RentalModel.AmountOutOfRangeRejected | models/rental.js:120 | an amount outside 0..1000000 is rejected |
| RentalModel.UntailoredAcceptsBoth | models/rental.js:122 | without a request type every body post or put accepts is accepted |
| RentalRoutes.AsWrittenCreateThrows | routes/rentals.js:2 | as written, the validator is undefined and every create throws |
| RentalRoutes.ValidatorIsUntailored | routes/rentals.js:16-17 | the exported validator, called without a request type, answers as the untailored schema does |
| RentalRoutes.IdAt | routes/rentals.js:19-26 | a body's reference id is defined exactly when the key holds an object id |
| RentalRoutes.NewRentalTermsHold | routes/rentals.js:28-34 | the new rental embeds the three found documents, ends no earlier than it starts, has an amount in bounds and lasts at least a month when whole |
| RentalRoutes.List | routes/rentals.js:9-13 | GET / replies with every rental |
| RentalRoutes.Create | routes/rentals.js:15-40 | as written the validator call throws and nothing is stored; corrected, an invalid body gets 400; property, agent, tenant are looked up in that order and the first missing one decides the 400 message; nothing is stored unless all three exist (archived properties included); otherwise one rental is added and sent back |
| RentalRoutes.MissingReferenceIsNotFound | routes/rentals.js:19-20 | an id left out of an untailored body is reported as not found |
| AgentModel.PatchedKeepsSaveable | routes/agents.js:46-54 | an update keeps the required paths set |
| AgentModel.ValidationMeetsRules | models/agent.js:50-60 | the agent schema accepts exactly the bodies meeting the field rules (names 3-255, e-mail, optional phone 3-15, fee in 0..1, no other key) |
| AgentModel.ValidationIgnoresMode | models/agent.js:50-59 | the agent schema has no .alter, so every request type gives the untailored verdict |
| AgentModel.RouteKeysRejected | models/agent.js:51-58 | entityName, firstName, lastName and logoImage, which the routes read, are always rejected |
| AgentModel.AsWrittenDropsNames | routes/agents.js:24-32 | as written, the document `FromBodyAsWritten` builds cannot be saved, and an update with it never changes the three names |
| AgentModel.ValidBodySaves | routes/agents.js:24-32 | `FromBody` of an accepted body, built with the schema's keys, is a saveable document holding the body's values and no logo |
| AgentRoutes.List | routes/agents.js:6-10 | GET / replies with every agent |
| AgentRoutes.Get | routes/agents.js:12-17 | the stored agent, or 400 "Agent not found" |
| AgentRoutes.BuiltSaveable | routes/agents.js:24-33 | for an accepted body, the document built as written is refused by save() and the corrected one is accepted |
| AgentRoutes.Create | routes/agents.js:19-38 | an invalid body gets 400 and nothing changes; as written every accepted body makes `save()` throw and nothing is stored; corrected, the new agent is stored and sent back |
| AgentRoutes.Update | routes/agents.js:40-59 | validation comes before the lookup; an unknown id gets 400 "Agent not found"; otherwise the agent is patched with the version's document and the reply is the agent as it was before |
| AgentRoutes.Delete | routes/agents.js:61-69 | the agent is removed and sent back; an unknown id gets 400 and nothing changes |
| AgentRoutes.UpdateStoresBody | routes/agents.js:46-54 | after an accepted update the agent holds the body's e-mail and fee, and, corrected, its names; as written the names stay; the logo is untouched, the phone only changes when sent |
| TenantModel.PatchedKeepsSaveable | routes/tenants.js:41-50 | an update keeps the required paths set |
| TenantModel.ValidationMeetsRules | models/tenant.js:35-43 | the tenant schema accepts exactly the bodies meeting the field rules (names 3-255, e-mail, optional phone 3-15, no other key) |
| TenantModel.UndeclaredKeyRejected | models/tenant.js:36-41 | any key but the four declared ones is rejected |
| TenantModel.ValidBodySaves | routes/tenants.js:23-28 | an accepted body builds a saveable document holding exactly its four values |
| TenantModel.ValidUpdate | routes/tenants.js:41-50 | an accepted update replaces the names and e-mail, the phone only when sent, and stays saveable |
| TenantRoutes.AsWrittenCreateAndUpdateThrow | routes/tenants.js:2 | as written, the validator is undefined and the gate throws on every create and update |
| TenantRoutes.GateFollowsValidation | models/tenant.js:35-43 | the gate with the exported validator passes exactly the valid bodies, whatever the request type |
| TenantRoutes.List | routes/tenants.js:9-13 | GET / replies with every tenant |
| TenantRoutes.Get | routes/tenants.js:15-20 | the stored tenant, or 404 "Tenant not found" |
| TenantRoutes.Create | routes/tenants.js:22-34 | as written the gate throws and nothing changes; corrected, an invalid body gets 400 from the gate and nothing changes, otherwise the new tenant is stored and sent back |
| TenantRoutes.Update | routes/tenants.js:36-56 | as written the gate throws and nothing changes; corrected, the gate comes before the lookup, an unknown id gets 404, otherwise the updated tenant is stored and sent back |
| TenantRoutes.Delete | routes/tenants.js:58-64 | a non-admin gets 403 and nothing changes; an unknown id gets 404; otherwise the tenant is removed and sent back |
| UserModel.MatchesExactlyItsPlainText | models/user.js:26-31 | a stored hash matches exactly the texts that agree with its own on the first 72 characters bcrypt reads; among texts no longer than that, only the one it was made from |
| UserModel.Truncated | models/user.js:26-31 | the part bcrypt reads is a prefix of at most 72 characters, the whole text when it is that short |
| UserModel.NameSplits | models/user.js:35-37 | the `Name` virtual is the first name, one space and the last name, each recoverable from it |
| UserModel.FindByEmail | routes/users.js:12 | the lookup finds a user exactly when one has the e-mail, and returns that user |
| UserModel.AddingNewEmailKeepsUnique | models/user.js:19-25 | adding a user with an e-mail not on file keeps e-mails unique |
| UserModel.ValidationMeetsRules | models/user.js:48-57 | the user schema accepts exactly the bodies meeting the field rules (names 3-50, e-mail 3-255, password 3-255, no other key) |
| UserModel.IsAdminRejected | models/user.js:49-54 | a registration body cannot carry isAdmin |
| UserModel.AsWrittenPasswordIsFirstName | routes/users.js:15-23 | as written, the stored hash matches the first name, and the chosen password only if it equals the first name |
| UserModel.NewUserKeepsPassword | routes/users.js:15-23 | with the password hashed, the stored hash matches an attempt exactly when it agrees with the chosen password on the first 72 characters, and for texts within that limit only the chosen password; the new user is not an administrator |
| UserRoutes.AsWrittenTokenNamesNoUser | routes/users.js:27 | as written, the token's id is not the new user's nor any stored user's |
| UserRoutes.Register | routes/users.js:8-32 | an invalid body gets 400; an e-mail on file gets 400 "User already registered" and nothing changes; otherwise the version's user is stored (as written with the first name hashed) and the reply carries the version's token (as written the unsaved `User()`'s) and the user's id, names and e-mail |
| UserRoutes.Me | routes/users.js:34-38 | GET /me replies with every user and changes nothing |
| UserRoutes.Credentials | routes/auth.js:22-29 | a registration's e-mail and password make a body the login validator accepts |
| UserRoutes.RegisteredUserCanLogIn | routes/users.js:15-25 | a user registered with the hashed password logs in with their e-mail and password and gets their token |
| UserRoutes.AsWrittenRegisteredCannotLogIn | routes/users.js:19 | as written, a user whose password is not their first name is refused at login |
| AuthRoutes.ValidationMeetsRules | routes/auth.js:22-29 | the login schema accepts exactly an e-mail (3-255, e-mail shaped) and a password (3-255) and nothing else |
| AuthRoutes.GateIgnoresRequestType | routes/auth.js:22-28 | the login gate gives the same verdict for every request type |
| AuthRoutes.LoginSucceedsExactly | routes/auth.js:11-19 | for a valid body whose e-mail is on file, `LoginReply` succeeds iff the password matches, and replies with `AuthToken`: that user's id and admin flag |
| AuthRoutes.FailuresLookAlike | routes/auth.js:11-15 | an unknown e-mail and a wrong password get the same 400 "Invalid email or password" |
| AuthRoutes.InvalidBodyRejected | routes/auth.js:9 | an invalid body gets 400 with its first error |
| AuthRoutes.Login | routes/auth.js:9-20 | the handler replies what LoginReply says |
| Http.Halted | middleware/validate.js:4 | a stopping gate becomes its error reply, a throwing one an exception |
| Http.BoundGateFollowsValidator | middleware/validate.js:1-8 | `ValidateGate` hands on exactly the bodies the validator accepts, for the request type it was given, and answers the rest with 400 and the first error |
| Http.UnboundGateThrows | middleware/validate.js:3 | an undefined validator throws whatever the body |
| Http.AdminGateAdmitsOnlyAdmins | middleware/admin.js:1-6 | `AdminGate` passes only isAdmin true; a false or absent flag gets 403 "Access denied." |
| Store.PropertyWritten | routes/properties.js:35 | writing a saveable property keeps the collection saveable |
| Store.Db.AddProperty | routes/properties.js:35 | saving a new property stores it under its id, leaves the others as they were and keeps the invariant |
| Store.PropertyPatched | routes/properties.js:47-61 | updating a stored property keeps the collection saveable |
| Store.Db.PatchProperty | routes/properties.js:47-61 | findByIdAndUpdate stores the patched document under its id, leaves the other properties as they were and keeps the invariant |
| Store.AgentWritten | routes/agents.js:33 | writing a saveable agent keeps the collection saveable |
| Store.TenantWritten | routes/tenants.js:29 | writing a saveable tenant keeps the collection saveable |
| Store.AgentRemoved | routes/agents.js:64 | removing an agent keeps the rest saveable |
| Store.TenantRemoved | routes/tenants.js:59 | removing a tenant keeps the rest saveable |

## Left out

- Joi's type conversion (numeric strings to numbers, `"true"` to booleans) and the other ISO 8601 forms `Joi.date().iso()` accepts. Only `YYYY-MM-DD` is modelled, with the day rolling over past the month's end as the JavaScript `Date` parser does.
- Joi's full e-mail grammar and its top-level-domain list. `EmailShaped` is a simplified shape: one `@` and a dotted domain.
- String lengths count characters, not UTF-16 code units. Message texts are modelled as issue values, not as Joi's rendered strings.
- The order in which several undeclared keys are reported. The model reports them as a set.
- Mongoose's save-time length and range validators (implied by the validators except where Findings say otherwise), type casting and `_id` generation. Fresh ids are parameters.
- Rental snapshots are modelled as whole copies. The Mongoose sub-schemas keep only `_id`, `name` and a few agent fields, and cast the agent fee to a string.
- Time zones: every date is a UTC calendar day, and `now` is a parameter.
- RentalModel.Duration: the fractional part of moment's month difference is not modelled (None). Only whole-month spans are proved.
- List order: `sort("name")` sorts on a virtual or missing path, so lists are maps without an order.
- The `auth`, `validateObjectId` and `logger` middleware, and routes/home.js, are not part of this model. The signed-in user is a parameter; path ids are taken to be well formed.
- Concurrency between the lookups and the save in routes/rentals.js.
- bcrypt salts and JSON web token signing. A hash records its plain text; a token is its payload.
- UserModel.MatchesExactlyItsPlainText: bcrypt's limit is 72 bytes of UTF-8; the model counts characters, so the limit is exact for ASCII passwords only.
- Numbers are exact reals, not IEEE doubles: rounding is not modelled. Joi's `number.unsafe` bound is modelled, on the exact value.
- The status code of a thrown exception. express-async-errors hands it to an error handler that is not part of this model, so the model only says that the request throws.
- The `archived` filter of GET / in routes/properties.js is commented out, so the model lists archived properties. The integration tests expect a filter that the code does not have.
- PropertyRoutes.Get and TenantRoutes.Get keep the codes the routes send (400 for properties). The integration tests expect 401/404 from a later version.

## Findings

| source | as written | input that shows it | evidently intended | confidence | as-written member | corrected member |
|---|---|---|---|---|---|---|
| routes/users.js:19 | the new user's password is set to `req.body.firstName` before hashing | firstName "Alice", password "secret1": the stored hash matches "Alice", and login with "secret1" is refused | hash the submitted password | high, not executed | UserRoutes.AsWrittenRegisteredCannotLogIn | UserRoutes.RegisteredUserCanLogIn |
| routes/tenants.js:2 | imports `validateTenant`, which models/tenant.js does not export (it exports `tenantValidation`) | any POST or PUT: `validator(req.body, ...)` calls undefined and throws | pass `tenantValidation` to `validate` | high, not executed | TenantRoutes.AsWrittenCreateAndUpdateThrow | TenantRoutes.GateFollowsValidation |
| routes/rentals.js:2 | imports `rentalValidation`, which models/rental.js does not export (it exports `validateRental`) | any POST: line 16 calls undefined and throws | call `validateRental` | high, not executed | RentalRoutes.AsWrittenCreateThrows | RentalRoutes.ValidatorIsUntailored |
| routes/agents.js:24-32 | the document is built from `entityName`, `firstName` and `lastName`, which are not schema paths, so the required names are never set | any body the validator accepts: save() rejects the document | copy `agentEntityName`, `contactPersonFirstName`, `contactPersonLastName` | high, not executed | AgentModel.AsWrittenDropsNames | AgentModel.ValidBodySaves |
| models/property.js:18-23 | the Mongoose schema requires `addressLine2`, which the validator makes optional | the test body {erf "123", addressLine1 "addr1", city "city1", purchaseDate "2020-01-01"} passes validation but cannot be saved | `addressLine2` optional in the Mongoose schema too | medium, not executed | PropertyModel.SampleBodyAsWritten | PropertyModel.ValidPostBodySaves |
| routes/users.js:27 | the token comes from a fresh `User()`, not from the saved user | any registration: the token's `_id` is an unsaved document's | `user.generateAuthToken()` | high, not executed | UserRoutes.AsWrittenTokenNamesNoUser | UserRoutes.Register |
| models/property.js:88 | the schema declares `salePricePrice`, so `salePrice` is an undeclared key | PUT with {..., salePrice: 100}: rejected; PUT never sets the sale price | declare `salePrice` | high, not executed | PropertyModel.SalePriceRejectedAsWritten | PropertyModel.PutUpdatesExactlyBodyKeys |
