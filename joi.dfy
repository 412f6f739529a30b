/**
 * The part of the Joi schema library the request validators use, for a
 * request body validated with `abortEarly: false`
 * (backend/src/middleware/validation.js): each key's rules, the detail each
 * failed rule reports (a `.messages({...})` text where the schema gives one,
 * otherwise Joi's own template with the key as label), and the 400 reply the
 * middleware sends when any detail is reported.
 *
 * Keys are checked in schema order; keys the schema does not list are then
 * reported one by one. A key whose basic type check fails reports nothing
 * further, as in Joi.
 */
module Joi {
  import opened Wrappers
  import opened Responses

  /** A body value where a string is expected: a JSON string, or anything else. */
  datatype Str = Text(s: string) | NotText

  /** A body value where a number is expected: a number (or numeric string) in hundredths, null, or anything else. */
  datatype Num = Number(cents: int) | Null | NotNumber

  /**
   * A body value where a date is expected: an ISO date, another string, or a
   * value of another JSON type. The last two carry the day Joi reads from
   * them when it parses without a format, if it reads one: a numeric string
   * is a millisecond count, any other string goes to `new Date`, and `null`,
   * a number or a boolean is a timestamp (`null` is the epoch). A blank
   * string, an object and an array carry none.
   */
  datatype DateValue = IsoDate(day: int) | OtherString(parsed: Option<int>) | NotDate(parsed: Option<int>)

  /** The codes a key's `.messages({...})` replaces, with their texts. */
  type Custom = map<string, string>

  /** Joi's label for a key: the key in double quotes. */
  function Label(key: string): string {
    "\"" + key + "\""
  }

  /** The decimal spelling of `n`. */
  function Digits(n: nat): (r: string)
    ensures |r| >= 1
  {
    if n < 10 then ["0123456789"[n]] else Digits(n / 10) + ["0123456789"[n % 10]]
  }

  /** `items` joined with `", "`. */
  function Join(items: seq<string>): string {
    if items == [] then "" else if |items| == 1 then items[0] else items[0] + ", " + Join(items[1..])
  }

  /** The detail for a failed rule: the custom text for `code` if given, else Joi's template. */
  function Report(key: string, code: string, custom: Custom, template: string): (d: FieldError)
    ensures d.field == key
    ensures code in custom ==> d.message == custom[code]
    ensures code !in custom ==> d.message == Label(key) + template
  {
    FieldError(key, if code in custom then custom[code] else Label(key) + template)
  }

  /** `Joi.string()` with `.required()`, `.allow('')`, `.min`, `.max` and `.valid(...)`, as flags. */
  datatype StringSchema = StringSchema(
    required: bool, allowEmpty: bool, min: nat, max: Option<nat>, valids: seq<string>, custom: Custom)

  /** The rules of a string schema other than presence and the allowed list. */
  function StringRules(key: string, sch: StringSchema, x: Str): seq<FieldError> {
    match x
    case NotText => [Report(key, "string.base", sch.custom, " must be a string")]
    case Text(s) =>
      if s == "" then
        if sch.allowEmpty then [] else [Report(key, "string.empty", sch.custom, " is not allowed to be empty")]
      else if |s| < sch.min then
        [Report(key, "string.min", sch.custom, " length must be at least " + Digits(sch.min) + " characters long")]
      else if sch.max.Some? && |s| > sch.max.value then
        [Report(key, "string.max", sch.custom,
                " length must be less than or equal to " + Digits(sch.max.value) + " characters long")]
      else []
  }

  /** The string rules hold of `x`. */
  predicate StringOk(sch: StringSchema, x: Str) {
    && x.Text?
    && (x.s == "" ==> sch.allowEmpty)
    && (x.s != "" ==> sch.min <= |x.s| && (sch.max.Some? ==> |x.s| <= sch.max.value))
  }

  /**
   * The details for one string key. A value in the allowed list passes at
   * once; with an allowed list, any other value reports `any.only` and then
   * also its type/emptiness error.
   */
  function StringDetails(key: string, sch: StringSchema, v: Option<Str>): (r: seq<FieldError>)
    ensures r == [] <==>
      match v
      case None => !sch.required
      case Some(x) => if sch.valids != [] then x.Text? && x.s in sch.valids else StringOk(sch, x)
    ensures forall d :: d in r ==> d.field == key
  {
    match v
    case None => if sch.required then [Report(key, "any.required", sch.custom, " is required")] else []
    case Some(x) =>
      if sch.valids != [] && x.Text? && x.s in sch.valids then []
      else
        (if sch.valids != [] then [Report(key, "any.only", sch.custom, " must be one of [" + Join(sch.valids) + "]")] else [])
        + StringRules(key, sch, x)
  }

  /** `Joi.number()` with `.required()`, `.allow(null)` and `.positive()`; `.precision(2)` rounds and never fails. */
  datatype NumberSchema = NumberSchema(required: bool, allowNull: bool, positive: bool, custom: Custom)

  function NumberDetails(key: string, sch: NumberSchema, v: Option<Num>): (r: seq<FieldError>)
    ensures r == [] <==>
      match v
      case None => !sch.required
      case Some(Null) => sch.allowNull
      case Some(NotNumber) => false
      case Some(Number(c)) => !sch.positive || c > 0
    ensures forall d :: d in r ==> d.field == key
  {
    match v
    case None => if sch.required then [Report(key, "any.required", sch.custom, " is required")] else []
    case Some(Null) => if sch.allowNull then [] else [Report(key, "number.base", sch.custom, " must be a number")]
    case Some(NotNumber) => [Report(key, "number.base", sch.custom, " must be a number")]
    case Some(Number(c)) =>
      if sch.positive && c <= 0 then [Report(key, "number.positive", sch.custom, " must be a positive number")] else []
  }

  /** `Joi.date().iso()` with `.required()`. */
  datatype DateSchema = DateSchema(required: bool, custom: Custom)

  function DateDetails(key: string, sch: DateSchema, v: Option<DateValue>): (r: seq<FieldError>)
    ensures r == [] <==> (v.None? && !sch.required) || (v.Some? && v.value.IsoDate?)
    ensures forall d :: d in r ==> d.field == key
  {
    match v
    case None => if sch.required then [Report(key, "any.required", sch.custom, " is required")] else []
    case Some(NotDate(_)) => [Report(key, "date.base", sch.custom, " must be a valid date")]
    case Some(OtherString(_)) => [Report(key, "date.format", sch.custom, " must be in ISO 8601 date format")]
    case Some(IsoDate(_)) => []
  }

  /**
   * The date a `Joi.ref` to a date key resolves to. A key that fails keeps
   * its raw value, and the rule argument is parsed without the key's ISO
   * format, so a value Joi can read as a date counts even when the key
   * itself failed `date.format` or `date.base`.
   */
  function RefDay(ref: Option<DateValue>): (d: Option<int>)
    ensures ref.Some? && ref.value.IsoDate? ==> d == Some(ref.value.day)
    ensures ref.Some? && !ref.value.IsoDate? ==> d == ref.value.parsed
    ensures ref.None? ==> d.None?
  {
    match ref
    case Some(IsoDate(day)) => Some(day)
    case Some(OtherString(parsed)) => parsed
    case Some(NotDate(parsed)) => parsed
    case None => None
  }

  /** A `null` start date is the epoch to the reference, so only its own date.base is reported, not any.ref. */
  lemma NullReferenceIsEpoch(key: string, refKey: string, custom: Custom, day: int)
    requires day > 0
    ensures GreaterDetails(key, refKey, custom, Some(IsoDate(day)), Some(NotDate(Some(0)))) == []
    ensures GreaterDetails(key, refKey, custom, Some(IsoDate(day)), Some(NotDate(None))) != []
  {
  }

  /**
   * `.greater(Joi.ref(refKey))` on a date key that passed its type check:
   * when the referenced key holds no date the reference itself is reported.
   */
  function GreaterDetails(key: string, refKey: string, custom: Custom, v: Option<DateValue>, ref: Option<DateValue>): (r: seq<FieldError>)
    ensures r == [] <==>
      !(v.Some? && v.value.IsoDate?) || (RefDay(ref).Some? && v.value.day > RefDay(ref).value)
    ensures v.Some? && v.value.IsoDate? && RefDay(ref).None? ==>
      r == [Report(key, "any.ref", custom, " date references \"ref:" + refKey + "\" which must have a valid date format or reference")]
    ensures v.Some? && v.value.IsoDate? && RefDay(ref).Some? && v.value.day <= RefDay(ref).value ==>
      r == [Report(key, "date.greater", custom, " must be greater than \"ref:" + refKey + "\"")]
    ensures forall d :: d in r ==> d.field == key
  {
    if !(v.Some? && v.value.IsoDate?) then []
    else if RefDay(ref).Some? then
      if v.value.day > RefDay(ref).value then []
      else [Report(key, "date.greater", custom, " must be greater than \"ref:" + refKey + "\"")]
    else
      [Report(key, "any.ref", custom, " date references \"ref:" + refKey + "\" which must have a valid date format or reference")]
  }

  /** One `object.unknown` detail per key of the body the schema does not list, in body order. */
  function UnknownDetails(known: set<string>, keys: seq<string>): (r: seq<FieldError>)
    ensures r == [] <==> forall k :: k in keys ==> k in known
    ensures forall d :: d in r ==> d.field in keys && d.field !in known
    decreases |keys|
  {
    if keys == [] then []
    else
      (if keys[0] in known then [] else [FieldError(keys[0], Label(keys[0]) + " is not allowed")])
      + UnknownDetails(known, keys[1..])
  }

  /** `validate(schema)`: no details lets the handler run; otherwise 400 'Validation failed' with every detail. */
  function Verdict<D>(details: seq<FieldError>): (r: Option<Reply<D>>)
    ensures r.None? <==> details == []
    ensures r.Some? ==> r.value.status == 400 && !r.value.Success() && r.value.Message() == "Validation failed"
    ensures r.Some? ==> r.value.body.errors == Some(details)
  {
    if details == [] then None else Some(ErrorResponse(400, "Validation failed", Some(details)))
  }
}
