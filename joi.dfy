/**
 * The part of the Joi validation library the models use: an object schema is
 * a sequence of declared keys, each with a type, its rules and a presence
 * (optional, required, forbidden) that `.alter({post, put})` may replace per
 * request type and `.tailor(requestType)` selects. Validation stops at the
 * first failing key in declaration order (Joi's default `abortEarly`), then
 * rejects keys the schema does not declare (Joi's default for objects).
 */
module Joi {
  import opened Wrappers
  import opened Dates

  /** A Mongo object id as the routes see it: 24 hexadecimal digits. */
  type Id = s: string | ObjectIdShaped(s) witness "000000000000000000000000"

  /** A JSON value of a request body. */
  datatype Value = Str(s: string) | Num(x: real) | Bool(b: bool) | Null | Composite

  /** A request body: its keys and their values. */
  type Payload = map<string, Value>

  /** The request type handed to `.tailor`: "post", "put", or anything else (no alteration applies). */
  datatype Mode = Post | Put | NoMode

  datatype Presence = Optional | Required | Forbidden

  datatype Kind =
    | StringOf(min: nat, max: nat, email: bool)  // Joi.string().min().max()[.email()]
    | NumberIn(least: Option<real>, most: Option<real>)  // Joi.number()[.min()][.max()]
    | IsoDate(minRef: Option<string>)  // Joi.date().iso()[.min(Joi.ref(key))]
    | Boolean  // Joi.boolean()
    | ObjectId  // Joi.objectId()

  /** One declared key; `onPost`/`onPut` are the presences `.alter` installs for those request types. */
  datatype KeyRule = KeyRule(name: string, kind: Kind, presence: Presence, onPost: Option<Presence>, onPut: Option<Presence>)

  type Schema = seq<KeyRule>

  /** The first error Joi reports (`error.details[0]`), one constructor per Joi error code used here. */
  datatype Issue =
    | Missing(key: string)  // any.required
    | NotAllowed(key: string)  // any.unknown: a forbidden key is present
    | WrongType(key: string)  // string.base, number.base, date.base, boolean.base
    | Empty(key: string)  // string.empty
    | TooShort(key: string, limit: nat)  // string.min
    | TooLong(key: string, limit: nat)  // string.max
    | NotEmail(key: string)  // string.email
    | Unsafe(key: string)  // number.unsafe: beyond Number.MAX_SAFE_INTEGER in magnitude
    | BelowMin(key: string, bound: real)  // number.min
    | AboveMax(key: string, bound: real)  // number.max
    | BadDateFormat(key: string)  // date.format, reworded "Date format is YYYY-MM-DD" in every schema here
    | BeforeRef(key: string, ref: string)  // date.min against a referenced key
    | BadRef(key: string, ref: string)  // any.ref: the referenced key holds no date
    | NotObjectId(key: string)  // the object-id pattern
    | Undeclared(keys: set<string>)  // object.unknown, for the keys the schema does not declare

  datatype Check = Pass | Fail(issue: Issue)

  /** `Number.MAX_SAFE_INTEGER`: Joi.number() refuses values of larger magnitude unless `.unsafe()` is set. */
  const MaxSafe: real := 9007199254740991.0

  // ---- formats ------------------------------------------------------------

  predicate IsHexDigit(c: char) {
    '0' <= c <= '9' || 'a' <= c <= 'f' || 'A' <= c <= 'F'
  }

  /** A Mongo object id as `joi-objectid` accepts it: 24 hexadecimal digits. */
  predicate ObjectIdShaped(s: string) {
    |s| == 24 && forall c | c in s :: IsHexDigit(c)
  }

  /** Position of the first `c` in `s`, or -1. */
  function IndexOf(s: string, c: char): (r: int)
    ensures -1 <= r < |s|
    ensures r >= 0 ==> s[r] == c && c !in s[..r]
    ensures r == -1 ==> c !in s
  {
    if s == [] then -1
    else if s[0] == c then 0
    else
      var k := IndexOf(s[1..], c);
      if k == -1 then -1 else k + 1
  }

  /**
   * A simplified e-mail shape: one `@` with text before it, and a domain after
   * it that contains a dot and neither starts nor ends with one.
   */
  predicate EmailShaped(s: string) {
    var at := IndexOf(s, '@');
    at > 0 && var domain := s[at + 1..];
    && '@' !in domain
    && |domain| >= 3 && domain[0] != '.' && domain[|domain| - 1] != '.'
    && '.' in domain
  }

  // ---- the engine ---------------------------------------------------------

  /** The presence of `k` once the schema is tailored to `mode`. */
  function PresenceIn(k: KeyRule, mode: Mode): Presence {
    match mode
    case Post => k.onPost.GetOr(k.presence)
    case Put => k.onPut.GetOr(k.presence)
    case NoMode => k.presence
  }

  /** The date a referenced key holds, as Joi resolves `Joi.ref(key)`. */
  function RefDate(p: Payload, ref: string): Option<CalDate> {
    if ref in p && p[ref].Str? then ParseIsoDate(p[ref].s) else None
  }

  /** The first rule of `kind` that the present value `v` of key `key` breaks, in Joi's rule order. */
  function ValueIssue(key: string, kind: Kind, v: Value, p: Payload): Option<Issue> {
    match kind
    case StringOf(lo, hi, email) =>
      if !v.Str? then Some(WrongType(key))
      else if v.s == "" then Some(Empty(key))
      else if |v.s| < lo then Some(TooShort(key, lo))
      else if |v.s| > hi then Some(TooLong(key, hi))
      else if email && !EmailShaped(v.s) then Some(NotEmail(key))
      else None
    case NumberIn(lo, hi) =>
      if !v.Num? then Some(WrongType(key))
      else if v.x < -MaxSafe || v.x > MaxSafe then Some(Unsafe(key))
      else if lo.Some? && v.x < lo.value then Some(BelowMin(key, lo.value))
      else if hi.Some? && v.x > hi.value then Some(AboveMax(key, hi.value))
      else None
    case IsoDate(ref) =>
      if !v.Str? then Some(WrongType(key))
      else if ParseIsoDate(v.s).None? then Some(BadDateFormat(key))
      else if ref.None? then None
      else if RefDate(p, ref.value).None? then Some(BadRef(key, ref.value))
      else if Before(ParseIsoDate(v.s).value, RefDate(p, ref.value).value) then Some(BeforeRef(key, ref.value))
      else None
    case Boolean =>
      if v.Bool? then None else Some(WrongType(key))
    case ObjectId =>
      if !v.Str? then Some(WrongType(key))
      else if v.s == "" then Some(Empty(key))
      else if !ObjectIdShaped(v.s) then Some(NotObjectId(key))
      else None
  }

  /** What Joi reports for one declared key under `mode`, None when the key passes. */
  function KeyIssue(k: KeyRule, mode: Mode, p: Payload): Option<Issue> {
    if k.name !in p then
      (if PresenceIn(k, mode) == Required then Some(Missing(k.name)) else None)
    else if PresenceIn(k, mode) == Forbidden then Some(NotAllowed(k.name))
    else ValueIssue(k.name, k.kind, p[k.name], p)
  }

  /** The issue of the first declared key that fails, in declaration order. */
  function FirstIssue(schema: Schema, mode: Mode, p: Payload): Option<Issue>
    decreases |schema|
  {
    if schema == [] then None
    else if KeyIssue(schema[0], mode, p).Some? then KeyIssue(schema[0], mode, p)
    else FirstIssue(schema[1..], mode, p)
  }

  function Names(schema: Schema): set<string> {
    set k | k in schema :: k.name
  }

  /** `schema.tailor(mode).validate(p)`, reduced to its error. */
  function Validate(schema: Schema, mode: Mode, p: Payload): Check {
    match FirstIssue(schema, mode, p)
    case Some(issue) => Fail(issue)
    case None => if p.Keys <= Names(schema) then Pass else Fail(Undeclared(p.Keys - Names(schema)))
  }

  // ---- what the engine guarantees -------------------------------------------

  /** No issue is reported exactly when every declared key passes. */
  lemma {:induction false} FirstIssueNone(schema: Schema, mode: Mode, p: Payload)
    ensures FirstIssue(schema, mode, p).None? <==> forall k | k in schema :: KeyIssue(k, mode, p).None?
    decreases |schema|
  {
    if schema != [] {
      FirstIssueNone(schema[1..], mode, p);
      assert schema == [schema[0]] + schema[1..];
    }
  }

  /** A reported issue is that of a failing key all of whose predecessors pass. */
  lemma {:induction false} FirstIssueIsFirst(schema: Schema, mode: Mode, p: Payload)
    requires FirstIssue(schema, mode, p).Some?
    ensures exists i | 0 <= i < |schema| ::
              && KeyIssue(schema[i], mode, p) == FirstIssue(schema, mode, p)
              && forall j | 0 <= j < i :: KeyIssue(schema[j], mode, p).None?
    decreases |schema|
  {
    if KeyIssue(schema[0], mode, p).Some? {
      assert KeyIssue(schema[0], mode, p) == FirstIssue(schema, mode, p);
    } else {
      FirstIssueIsFirst(schema[1..], mode, p);
      var i :| 0 <= i < |schema[1..]|
                && KeyIssue(schema[1..][i], mode, p) == FirstIssue(schema[1..], mode, p)
                && forall j | 0 <= j < i :: KeyIssue(schema[1..][j], mode, p).None?;
      assert schema[1..][i] == schema[i + 1];
      assert forall j | 1 <= j < i + 1 :: schema[j] == schema[1..][j - 1];
    }
  }

  /** A declared key passes exactly when it meets its rules as `KeyOk` states them. */
  lemma KeyIssueNone(k: KeyRule, mode: Mode, p: Payload)
    ensures KeyIssue(k, mode, p).None? <==> KeyOk(k, mode, p)
  {
  }

  /** A payload passes exactly when every declared key meets its rules and it carries no other key. */
  lemma ValidateSpec(schema: Schema, mode: Mode, p: Payload)
    ensures Validate(schema, mode, p).Pass?
            <==> (forall k | k in schema :: KeyOk(k, mode, p)) && p.Keys <= Names(schema)
  {
    FirstIssueNone(schema, mode, p);
    forall k | k in schema {
      KeyIssueNone(k, mode, p);
    }
  }

  /** A payload carrying a key the schema does not declare is rejected. */
  lemma UndeclaredFails(schema: Schema, mode: Mode, p: Payload, key: string)
    requires key in p && key !in Names(schema)
    ensures Validate(schema, mode, p).Fail?
  {
    ValidateSpec(schema, mode, p);
  }

  /** The keys of a schema meet their rules exactly when each position's key does. */
  lemma KeysOkByPosition(schema: Schema, mode: Mode, p: Payload)
    ensures (forall k | k in schema :: KeyOk(k, mode, p)) <==> (forall i | 0 <= i < |schema| :: KeyOk(schema[i], mode, p))
  {
    assert forall k | k in schema :: exists i | 0 <= i < |schema| :: schema[i] == k;
  }

  /** A number beyond the safe-integer range is refused as `number.unsafe`, before any `.min`/`.max` is looked at. */
  lemma UnsafeNumberRejected(k: KeyRule, mode: Mode, p: Payload)
    requires k.kind.NumberIn? && k.name in p && p[k.name].Num?
    requires p[k.name].x < -MaxSafe || p[k.name].x > MaxSafe
    ensures !KeyOk(k, mode, p)
    ensures PresenceIn(k, mode) != Forbidden ==> KeyIssue(k, mode, p) == Some(Unsafe(k.name))
  {
  }

  /** `m2` relaxes `m1` on `k`: the same presence, or optional where `m1` requires or forbids. */
  predicate Relaxes(k: KeyRule, m1: Mode, m2: Mode) {
    PresenceIn(k, m2) == PresenceIn(k, m1) || PresenceIn(k, m2) == Optional
  }

  /** Relaxing presences never turns an accepted payload into a rejected one. */
  lemma RelaxedModeAccepts(schema: Schema, m1: Mode, m2: Mode, p: Payload)
    requires forall k | k in schema :: Relaxes(k, m1, m2)
    ensures Validate(schema, m1, p).Pass? ==> Validate(schema, m2, p).Pass?
  {
    ValidateSpec(schema, m1, p);
    ValidateSpec(schema, m2, p);
  }

  /** A schema without `.alter` gives the same verdict whatever the request type. */
  lemma UnalteredIgnoresMode(schema: Schema, m1: Mode, m2: Mode, p: Payload)
    requires forall k | k in schema :: k.onPost.None? && k.onPut.None?
    ensures Validate(schema, m1, p) == Validate(schema, m2, p)
  {
    SameKeyIssuesSameFirst(schema, m1, m2, p);
  }

  lemma {:induction false} SameKeyIssuesSameFirst(schema: Schema, m1: Mode, m2: Mode, p: Payload)
    requires forall k | k in schema :: k.onPost.None? && k.onPut.None?
    ensures FirstIssue(schema, m1, p) == FirstIssue(schema, m2, p)
    decreases |schema|
  {
    if schema != [] {
      assert schema[0] in schema;
      assert forall k | k in schema[1..] :: k in schema;
      SameKeyIssuesSameFirst(schema[1..], m1, m2, p);
    }
  }

  // ---- declarative rules, written independently of the engine -------------------

  /** What a declared key demands under `mode`: present only if not forbidden, absent only if not required, and a value of its kind. */
  predicate KeyOk(k: KeyRule, mode: Mode, p: Payload) {
    if k.name in p then PresenceIn(k, mode) != Forbidden && KindOk(k.kind, p[k.name], p)
    else PresenceIn(k, mode) != Required
  }

  /** A present value of `kind`; an empty string is never accepted, whatever the minimum length. */
  predicate KindOk(kind: Kind, v: Value, p: Payload) {
    match kind
    case StringOf(lo, hi, email) => v.Str? && v.s != "" && lo <= |v.s| <= hi && (email ==> EmailShaped(v.s))
    case NumberIn(lo, hi) =>
      v.Num? && -MaxSafe <= v.x <= MaxSafe && (lo.Some? ==> lo.value <= v.x) && (hi.Some? ==> v.x <= hi.value)
    case IsoDate(ref) =>
      && IsoDateOk(v)
      && (ref.Some? ==> RefDate(p, ref.value).Some? && NotAfter(RefDate(p, ref.value).value, DateOf(v)))
    case Boolean => v.Bool?
    case ObjectId => ObjectIdOk(v)
  }

  predicate StringOk(v: Value, lo: nat, hi: nat) {
    v.Str? && lo <= |v.s| <= hi
  }

  predicate EmailOk(v: Value, lo: nat, hi: nat) {
    StringOk(v, lo, hi) && EmailShaped(v.s)
  }

  predicate NumberOk(v: Value, lo: real, hi: Option<real>) {
    v.Num? && -MaxSafe <= v.x <= MaxSafe && lo <= v.x && (hi.Some? ==> v.x <= hi.value)
  }

  predicate IsoDateOk(v: Value) {
    v.Str? && ParseIsoDate(v.s).Some?
  }

  predicate ObjectIdOk(v: Value) {
    v.Str? && ObjectIdShaped(v.s)
  }

  /** The date an ISO date value names. */
  function DateOf(v: Value): CalDate
    requires IsoDateOk(v)
  {
    ParseIsoDate(v.s).value
  }

  /** The text at `key`, when it is a string. */
  function StrAt(p: Payload, key: string): Option<string> {
    if key in p && p[key].Str? then Some(p[key].s) else None
  }

  function NumAt(p: Payload, key: string): Option<real> {
    if key in p && p[key].Num? then Some(p[key].x) else None
  }

  function BoolAt(p: Payload, key: string): Option<bool> {
    if key in p && p[key].Bool? then Some(p[key].b) else None
  }

  function DateAt(p: Payload, key: string): Option<CalDate> {
    if key in p && p[key].Str? then ParseIsoDate(p[key].s) else None
  }
}
