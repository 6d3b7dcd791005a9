/**
 * The request-body schema for creating a sensor: a Zod object schema with
 * trimmed, length-checked strings, numeric fields that accept numeric
 * strings, unknown keys rejected, and a cross-field rule that each minimum is
 * below its maximum.
 *
 * A Zod parse either returns the parsed (trimmed, coerced) data or the list
 * of issues it collected, each a path and a message. A field check that fails
 * on the value's type aborts that field; a failing length, range or pattern
 * check only marks it dirty. The cross-field refinement runs unless some
 * field aborted.
 */
module SensorSchemas {
  import opened Wrappers
  import opened JsValues
  import opened JsNumbers

  /** A Zod issue: where in the body, and what is wrong. */
  datatype Issue = Issue(path: seq<string>, message: string)

  /** What one field's schema made of its value. */
  datatype FieldCheck =
    | Parsed(value: Value, issues: seq<Issue>)   // the field has a value; the issues (if any) mark it dirty
    | Aborted(issues: seq<Issue>)                // a type error: the field has no value

  // ------------------------------------------------------------ Zod basics

  /** The type name Zod reports for a value it received. */
  function TypeName(v: Value): string {
    match v
    case Undefined => "undefined"
    case Null => "null"
    case Bool(_) => "boolean"
    case Num(n) => if n.NaN? then "nan" else "number"
    case Str(_) => "string"
    case Arr(_) => "array"
    case Obj(_) => "object"
  }

  /** Zod's default message for a value of the wrong type. */
  function Expected(expected: string, v: Value): string {
    "Expected " + expected + ", received " + TypeName(v)
  }

  /** The decimal text of an integer, as a template literal prints it. */
  function IntText(i: int): string {
    if i < 0 then "-" + NatToString(-i) else NatToString(i)
  }

  // ------------------------------------------------------------ string fields

  /** The characters of `[a-zA-Z0-9_-]`. */
  predicate IdChar(c: char) {
    ('a' <= c <= 'z') || ('A' <= c <= 'Z') || ('0' <= c <= '9') || c == '_' || c == '-'
  }

  /** `^[a-zA-Z0-9_-]+$` */
  predicate MatchesIdPattern(t: string) {
    |t| >= 1 && forall i :: 0 <= i < |t| ==> IdChar(t[i])
  }

  /** A sensor id the schema accepts, after trimming. */
  predicate ValidSensorId(t: string) {
    1 <= Utf16Length(t) <= 100 && MatchesIdPattern(t)
  }

  /** A trimmed name or location the schema accepts. */
  predicate ValidText(t: string) {
    1 <= Utf16Length(t) <= 255
  }

  /**
   * The length checks `.min(1, emptyMessage).max(max, maxMessage)` on a
   * trimmed text, in that order; `length` counts UTF-16 code units.
   */
  function LengthIssues(field: string, t: string, max: nat, emptyMessage: string, maxMessage: string): seq<Issue> {
    (if Utf16Length(t) < 1 then [Issue([field], emptyMessage)] else [])
    + (if Utf16Length(t) > max then [Issue([field], maxMessage)] else [])
  }

  /** The checks of `sensor_id` on its trimmed text: the length checks, then the pattern. */
  function SensorIdIssues(t: string): seq<Issue> {
    LengthIssues("sensor_id", t, 100, "sensor_id is required", "sensor_id must be at most 100 characters")
    + (if !MatchesIdPattern(t)
       then [Issue(["sensor_id"], "sensor_id must contain only letters, numbers, underscore or dash")] else [])
  }

  /**
   * `sensor_id`: `z.string({ required_error }).trim().min(1).max(100).regex(...)`.
   * Undefined and non-strings abort; a string is trimmed and checked.
   */
  function SensorIdField(v: Value): (c: FieldCheck)
    ensures c.Aborted? ==> |c.issues| == 1
  {
    if v.Undefined? then Aborted([Issue(["sensor_id"], "sensor_id is required")])
    else if !v.Str? then Aborted([Issue(["sensor_id"], Expected("string", v))])
    else Parsed(Str(Trim(v.s)), SensorIdIssues(Trim(v.s)))
  }

  /** `name`: a required trimmed string of 1 to 255 characters. */
  function NameField(v: Value): (c: FieldCheck)
    ensures c.Aborted? ==> |c.issues| == 1
  {
    if v.Undefined? then Aborted([Issue(["name"], "name is required")])
    else if !v.Str? then Aborted([Issue(["name"], Expected("string", v))])
    else Parsed(Str(Trim(v.s)), LengthIssues("name", Trim(v.s), 255, "name is required", "name must be at most 255 characters"))
  }

  /** `location`: optional; when present, a trimmed string of 1 to 255 characters. */
  function LocationField(v: Value): (c: FieldCheck)
    ensures c.Aborted? ==> |c.issues| == 1
  {
    if v.Undefined? then Parsed(Undefined, [])
    else if !v.Str? then Aborted([Issue(["location"], Expected("string", v))])
    else Parsed(Str(Trim(v.s)), LengthIssues("location", Trim(v.s), 255, "location cannot be empty", "location must be at most 255 characters"))
  }

  /** `active`: an optional boolean. */
  function ActiveField(v: Value): (c: FieldCheck)
    ensures c.Aborted? ==> |c.issues| == 1
  {
    if v.Undefined? || v.Bool? then Parsed(v, [])
    else Aborted([Issue(["active"], Expected("boolean", v))])
  }

  // ------------------------------------------------------------ numeric fields

  /**
   * The preprocessing step of `numberFromBody`: a string is trimmed; an empty
   * one becomes NaN, any other goes through `Number`. Other values pass
   * unchanged.
   */
  function Coerce(v: Value): (r: Value) {
    if v.Str? then
      var t := Trim(v.s);
      if t == "" then Num(NaN) else Num(ToNumber(t))
    else v
  }

  /**
   * `numberFromBody(field, { min, max })`: the inner number schema applied to
   * the preprocessed value.
   */
  function NumberField(field: string, v: Value, min: Option<int>, max: Option<int>): (c: FieldCheck)
    ensures c.Aborted? ==> |c.issues| == 1
    ensures c.Parsed? ==> c.value.Num? && !c.value.n.NaN?
  {
    NumberSchema(field, Coerce(v), min, max)
  }

  /**
   * `z.number({...}).finite(...)` with the optional `.min`/`.max`: undefined
   * is "required", anything but a number (NaN included) "must be a number";
   * a number is then checked for finiteness and against each bound given.
   */
  function NumberSchema(field: string, x: Value, min: Option<int>, max: Option<int>): (c: FieldCheck)
    ensures c.Aborted? ==> |c.issues| == 1
    ensures c.Parsed? ==> c.value.Num? && !c.value.n.NaN?
  {
    if x.Undefined? then Aborted([Issue([field], field + " is required")])
    else if !x.Num? || x.n.NaN? then Aborted([Issue([field], field + " must be a number")])
    else
      Parsed(x,
        (if !x.n.Finite? then [Issue([field], field + " must be a finite number")] else [])
        + (if min.Some? && Less(x.n, Finite(min.value as real))
           then [Issue([field], field + " must be >= " + IntText(min.value))] else [])
        + (if max.Some? && Less(Finite(max.value as real), x.n)
           then [Issue([field], field + " must be <= " + IntText(max.value))] else []))
  }

  /** The bounds on the temperature fields. */
  const MinTemperature: int := -100
  const MaxTemperature: int := 200

  /** The bounds on the humidity fields. */
  const MinHumidity: int := 0
  const MaxHumidity: int := 100

  // ------------------------------------------------------------ the object

  /** The eight keys of the schema, in declaration order. */
  predicate IsSchemaKey(k: string) {
    k == "sensor_id" || k == "name" || k == "location" || k == "min_temperature"
    || k == "max_temperature" || k == "min_humidity" || k == "max_humidity" || k == "active"
  }

  /**
   * The body's fields as the field schemas receive them: the property read
   * for each declared key, with `numberFromBody`'s preprocessing already
   * applied to the four numeric ones.
   */
  datatype Body = Body(
    sensorId: Value, name: Value, location: Value,
    minTemperature: Value, maxTemperature: Value,
    minHumidity: Value, maxHumidity: Value,
    active: Value)

  function Preprocess(o: Entries): Body {
    Body(
      Get(o, "sensor_id"), Get(o, "name"), Get(o, "location"),
      Coerce(Get(o, "min_temperature")), Coerce(Get(o, "max_temperature")),
      Coerce(Get(o, "min_humidity")), Coerce(Get(o, "max_humidity")),
      Get(o, "active"))
  }

  /** What each field's schema made of its value. */
  datatype Fields = Fields(
    sensorId: FieldCheck, name: FieldCheck, location: FieldCheck,
    minTemperature: FieldCheck, maxTemperature: FieldCheck,
    minHumidity: FieldCheck, maxHumidity: FieldCheck,
    active: FieldCheck)

  function CheckFields(b: Body): (f: Fields)
    ensures Settled(f)
  {
    Fields(
      SensorIdField(b.sensorId),
      NameField(b.name),
      LocationField(b.location),
      NumberSchema("min_temperature", b.minTemperature, Some(MinTemperature), Some(MaxTemperature)),
      NumberSchema("max_temperature", b.maxTemperature, Some(MinTemperature), Some(MaxTemperature)),
      NumberSchema("min_humidity", b.minHumidity, Some(MinHumidity), Some(MaxHumidity)),
      NumberSchema("max_humidity", b.maxHumidity, Some(MinHumidity), Some(MaxHumidity)),
      ActiveField(b.active))
  }

  /** The four numeric fields each hold a number that is not NaN. */
  predicate NumbersParsed(f: Fields) {
    && f.minTemperature.Parsed? && f.minTemperature.value.Num? && !f.minTemperature.value.n.NaN?
    && f.maxTemperature.Parsed? && f.maxTemperature.value.Num? && !f.maxTemperature.value.n.NaN?
    && f.minHumidity.Parsed? && f.minHumidity.value.Num? && !f.minHumidity.value.n.NaN?
    && f.maxHumidity.Parsed? && f.maxHumidity.value.Num? && !f.maxHumidity.value.n.NaN?
  }

  /**
   * What every field check guarantees: a field that aborts reports an issue,
   * and when none aborts the numbers are parsed.
   */
  predicate Settled(f: Fields) {
    && (AnyAborted(f) ==> FieldIssues(f) != [])
    && (!AnyAborted(f) ==> NumbersParsed(f))
  }

  /** Some field failed on its value's type. */
  predicate AnyAborted(f: Fields) {
    f.sensorId.Aborted? || f.name.Aborted? || f.location.Aborted? || f.minTemperature.Aborted?
    || f.maxTemperature.Aborted? || f.minHumidity.Aborted? || f.maxHumidity.Aborted? || f.active.Aborted?
  }

  /** The fields' issues, in declaration order. */
  function FieldIssues(f: Fields): seq<Issue> {
    f.sensorId.issues + f.name.issues + f.location.issues + f.minTemperature.issues
    + f.maxTemperature.issues + f.minHumidity.issues + f.maxHumidity.issues + f.active.issues
  }

  /** The keys of `o`, in order. */
  function Keys(o: Entries): (ks: seq<string>)
    ensures |ks| == |o|
    ensures forall i :: 0 <= i < |o| ==> ks[i] == o[i].0
  {
    if o == [] then [] else [o[0].0] + Keys(o[1..])
  }

  /** The keys of `o` the schema does not know (`.strict()`), in order. */
  function UnknownKeys(o: Entries): (ks: seq<string>)
    ensures forall k :: k in ks <==> k in Keys(o) && !IsSchemaKey(k)
  {
    if o == [] then []
    else if IsSchemaKey(o[0].0) then UnknownKeys(o[1..])
    else [o[0].0] + UnknownKeys(o[1..])
  }

  /** `'a', 'b'`: the keys quoted and joined as Zod lists them. */
  function QuotedList(ks: seq<string>): string {
    if ks == [] then ""
    else if |ks| == 1 then "'" + ks[0] + "'"
    else "'" + ks[0] + "', " + QuotedList(ks[1..])
  }

  /** The `.superRefine` rule, run on the parsed numbers. */
  function OrderIssues(f: Fields): seq<Issue>
    requires NumbersParsed(f)
  {
    (if AtLeast(f.minTemperature.value.n, f.maxTemperature.value.n)
     then [Issue(["min_temperature"], "min_temperature must be less than max_temperature")] else [])
    + (if AtLeast(f.minHumidity.value.n, f.maxHumidity.value.n)
       then [Issue(["min_humidity"], "min_humidity must be less than max_humidity")] else [])
  }

  /** The issue `.strict()` adds when the body has keys the schema does not know. */
  function StrictIssues(unknown: seq<string>): seq<Issue> {
    if unknown != [] then [Issue([], "Unrecognized key(s) in object: " + QuotedList(unknown))] else []
  }

  /** Each schema key with its field's parsed value, in declaration order. */
  function FieldValues(f: Fields): Entries
    requires !AnyAborted(f)
  {
    [("sensor_id", f.sensorId.value), ("name", f.name.value), ("location", f.location.value),
     ("min_temperature", f.minTemperature.value), ("max_temperature", f.maxTemperature.value),
     ("min_humidity", f.minHumidity.value), ("max_humidity", f.maxHumidity.value),
     ("active", f.active.value)]
  }

  /** The parsed object: the fields whose parsed value is defined. */
  function ParsedData(f: Fields): Entries
    requires !AnyAborted(f)
  {
    Defined(FieldValues(f))
  }

  /** The entries whose value is not undefined. */
  function Defined(es: Entries): (r: Entries)
    ensures forall i :: 0 <= i < |r| ==> r[i] in es && !r[i].1.Undefined?
    ensures forall i :: 0 <= i < |es| && !es[i].1.Undefined? ==> es[i] in r
  {
    if es == [] then []
    else if es[0].1.Undefined? then Defined(es[1..])
    else [es[0]] + Defined(es[1..])
  }

  /**
   * The object schema on the preprocessed fields and the undeclared keys:
   * the issues in the order Zod adds them (fields, then `.strict()`, then
   * the refinement unless a field aborted), or the parsed data.
   */
  function ParseFields(b: Body, unknown: seq<string>): (r: Result<Value, seq<Issue>>) {
    ParseChecked(CheckFields(b), unknown)
  }

  /** The object-level step once every field has been checked. */
  function ParseChecked(f: Fields, unknown: seq<string>): (r: Result<Value, seq<Issue>>)
    requires Settled(f)
  {
    var issues := FieldIssues(f) + StrictIssues(unknown) + (if AnyAborted(f) then [] else OrderIssues(f));
    if issues == [] then Ok(Obj(ParsedData(f))) else Err(issues)
  }

  /** `createSensorBodySchema.safeParse(body)` */
  function ParseCreateBody(body: Value): (r: Result<Value, seq<Issue>>) {
    if !body.Obj? then Err([Issue([], Expected("object", body))])
    else ParseFields(Preprocess(body.entries), UnknownKeys(body.entries))
  }

  // ------------------------------------------------------------ field rules

  /** A numeric field's value is accepted: a finite number within the bounds. */
  predicate InRange(x: Value, lo: int, hi: int) {
    x.Num? && x.n.Finite? && lo as real <= x.n.value <= hi as real
  }

  /**
   * `sensor_id` is accepted exactly when it is a string whose trimmed text
   * has 1 to 100 characters, all letters, digits, `_` or `-`; the parsed
   * value is the trimmed text. Every issue is reported at `sensor_id`.
   */
  lemma SensorIdRule(v: Value)
    ensures var c := SensorIdField(v);
      && (c.issues == [] <==> v.Str? && ValidSensorId(Trim(v.s)))
      && (c.Parsed? ==> v.Str? && c.value == Str(Trim(v.s)))
      && (forall i :: 0 <= i < |c.issues| ==> c.issues[i].path == ["sensor_id"])
  {
    if v.Str? {
      LengthRule("sensor_id", Trim(v.s), 100, "sensor_id is required", "sensor_id must be at most 100 characters");
    }
  }

  /** The length checks pass exactly for 1 to `max` code units, and report at the field. */
  lemma LengthRule(field: string, t: string, max: nat, emptyMessage: string, maxMessage: string)
    ensures var issues := LengthIssues(field, t, max, emptyMessage, maxMessage);
      && (issues == [] <==> 1 <= Utf16Length(t) <= max)
      && (forall i :: 0 <= i < |issues| ==> issues[i].path == [field])
  {
  }

  /** `name` is accepted exactly when it is a string whose trimmed text has 1 to 255 characters. */
  lemma NameRule(v: Value)
    ensures var c := NameField(v);
      && (c.issues == [] <==> v.Str? && ValidText(Trim(v.s)))
      && (c.Parsed? ==> v.Str? && c.value == Str(Trim(v.s)))
      && (forall i :: 0 <= i < |c.issues| ==> c.issues[i].path == ["name"])
  {
    if v.Str? {
      LengthRule("name", Trim(v.s), 255, "name is required", "name must be at most 255 characters");
    }
  }

  /** `location` may be absent; when present it follows the rule for `name`. */
  lemma LocationRule(v: Value)
    ensures var c := LocationField(v);
      && (c.issues == [] <==> v.Undefined? || (v.Str? && ValidText(Trim(v.s))))
      && (c.Parsed? && v.Str? ==> c.value == Str(Trim(v.s)))
      && (forall i :: 0 <= i < |c.issues| ==> c.issues[i].path == ["location"])
  {
    if v.Str? {
      LengthRule("location", Trim(v.s), 255, "location cannot be empty", "location must be at most 255 characters");
    }
  }

  /** `active` may be absent; when present it must be a boolean. */
  lemma ActiveRule(v: Value)
    ensures var c := ActiveField(v);
      && (c.issues == [] <==> v.Undefined? || v.Bool?)
      && (c.issues == [] ==> c == Parsed(v, []))
  {
  }

  /**
   * A numeric field is accepted exactly when, after coercion, it is a finite
   * number within its bounds, and the parsed value is the coerced number.
   * Every issue is reported at the field's own path.
   */
  lemma NumberRule(field: string, v: Value, lo: int, hi: int)
    ensures var c := NumberField(field, v, Some(lo), Some(hi));
      && (c.issues == [] <==> InRange(Coerce(v), lo, hi))
      && (c.Parsed? ==> c.value == Coerce(v))
      && (forall i :: 0 <= i < |c.issues| ==> c.issues[i].path == [field])
  {
    NumberSchemaRule(field, Coerce(v), lo, hi);
  }

  /** The rule of `NumberRule`, on the value after preprocessing. */
  lemma NumberSchemaRule(field: string, x: Value, lo: int, hi: int)
    ensures var c := NumberSchema(field, x, Some(lo), Some(hi));
      && (c.issues == [] <==> InRange(x, lo, hi))
      && (c.Parsed? ==> c.value == x)
      && (forall i :: 0 <= i < |c.issues| ==> c.issues[i].path == [field])
  {
    if x.Num? && !x.n.NaN? && !x.n.Finite? {
      assert NumberSchema(field, x, Some(lo), Some(hi)).issues != [];
    }
  }

  /** A blank numeric string is not zero: it becomes NaN and is rejected as not a number. */
  lemma BlankNumberRejected(field: string, s: string, min: Option<int>, max: Option<int>)
    requires Trim(s) == ""
    ensures NumberField(field, Str(s), min, max) == Aborted([Issue([field], field + " must be a number")])
  {
  }

  /** The decimal text of a natural number is coerced to that number. */
  lemma NumericStringCoerced(n: nat)
    ensures Coerce(Str(NatToString(n))) == Num(Finite(n as real))
  {
    TrimDigits(NatToString(n));
    ToNumberOfNatToString(n);
  }

  // ------------------------------------------------------------ the whole body

  /** Every field passes its own schema. */
  predicate FieldsAcceptable(b: Body) {
    && b.sensorId.Str? && ValidSensorId(Trim(b.sensorId.s))
    && b.name.Str? && ValidText(Trim(b.name.s))
    && (b.location.Undefined? || (b.location.Str? && ValidText(Trim(b.location.s))))
    && InRange(b.minTemperature, MinTemperature, MaxTemperature)
    && InRange(b.maxTemperature, MinTemperature, MaxTemperature)
    && InRange(b.minHumidity, MinHumidity, MaxHumidity)
    && InRange(b.maxHumidity, MinHumidity, MaxHumidity)
    && (b.active.Undefined? || b.active.Bool?)
  }

  /** `o` has no key the schema does not declare. */
  predicate KnownKeysOnly(o: Entries) {
    forall i :: 0 <= i < |o| ==> IsSchemaKey(o[i].0)
  }

  /** Each minimum is below its maximum. */
  predicate BoundsOrdered(b: Body)
    requires FieldsAcceptable(b)
  {
    b.minTemperature.n.value < b.maxTemperature.n.value && b.minHumidity.n.value < b.maxHumidity.n.value
  }

  /** The fields produce no issue exactly when each passes its own schema. */
  lemma FieldIssuesRule(b: Body)
    ensures FieldIssues(CheckFields(b)) == [] <==> FieldsAcceptable(b)
  {
    SensorIdRule(b.sensorId);
    NameRule(b.name);
    LocationRule(b.location);
    NumberSchemaRule("min_temperature", b.minTemperature, MinTemperature, MaxTemperature);
    NumberSchemaRule("max_temperature", b.maxTemperature, MinTemperature, MaxTemperature);
    NumberSchemaRule("min_humidity", b.minHumidity, MinHumidity, MaxHumidity);
    NumberSchemaRule("max_humidity", b.maxHumidity, MinHumidity, MaxHumidity);
    ActiveRule(b.active);
  }

  /** Some key is undeclared exactly when the list of undeclared keys is not empty. */
  lemma StrictRule(o: Entries)
    ensures UnknownKeys(o) == [] <==> KnownKeysOnly(o)
  {
    var unknown := UnknownKeys(o);
    if unknown != [] {
      assert unknown[0] in Keys(o);
    } else {
      forall i | 0 <= i < |o|
        ensures IsSchemaKey(o[i].0)
      {
        assert Keys(o)[i] == o[i].0;
        assert o[i].0 !in unknown;
      }
    }
  }

  /** With every field acceptable, the refinement adds no issue exactly when both bounds are ordered. */
  lemma OrderRule(b: Body)
    requires FieldsAcceptable(b)
    ensures !AnyAborted(CheckFields(b))
    ensures OrderIssues(CheckFields(b)) == [] <==> BoundsOrdered(b)
  {
    AcceptedFieldsParsed(b);
  }

  /**
   * A body whose fields all pass their own schemas: no field aborts, and
   * each parsed value is the trimmed string or the number given.
   */
  lemma AcceptedFieldsParsed(b: Body)
    requires FieldsAcceptable(b)
    ensures var f := CheckFields(b);
      && !AnyAborted(f) && NumbersParsed(f)
      && f.sensorId.value == Str(Trim(b.sensorId.s)) && f.name.value == Str(Trim(b.name.s))
      && f.minTemperature.value == b.minTemperature && f.maxTemperature.value == b.maxTemperature
      && f.minHumidity.value == b.minHumidity && f.maxHumidity.value == b.maxHumidity
  {
    SensorIdRule(b.sensorId);
    NameRule(b.name);
    LocationRule(b.location);
    ActiveRule(b.active);
    NumberSchemaRule("min_temperature", b.minTemperature, MinTemperature, MaxTemperature);
    NumberSchemaRule("max_temperature", b.maxTemperature, MinTemperature, MaxTemperature);
    NumberSchemaRule("min_humidity", b.minHumidity, MinHumidity, MaxHumidity);
    NumberSchemaRule("max_humidity", b.maxHumidity, MinHumidity, MaxHumidity);
  }

  /**
   * The object schema accepts exactly when there is no undeclared key, every
   * field passes its own schema, and each minimum is below its maximum.
   */
  lemma FieldsAcceptedExactly(b: Body, unknown: seq<string>)
    ensures ParseFields(b, unknown).Ok? <==> unknown == [] && FieldsAcceptable(b) && BoundsOrdered(b)
  {
    ParseCheckedOk(CheckFields(b), unknown);
    FieldIssuesRule(b);
    if FieldsAcceptable(b) {
      OrderRule(b);
    }
  }

  /** The object-level step succeeds exactly when no issue of any of its three kinds arises. */
  lemma ParseCheckedOk(f: Fields, unknown: seq<string>)
    requires Settled(f)
    ensures ParseChecked(f, unknown).Ok?
      <==> FieldIssues(f) == [] && unknown == [] && (AnyAborted(f) || OrderIssues(f) == [])
  {
  }

  /**
   * The schema accepts a body exactly when it is an object with no unknown
   * key, every field passes its own schema, and each minimum is below its
   * maximum.
   */
  lemma AcceptedExactly(body: Value)
    ensures ParseCreateBody(body).Ok?
        <==> body.Obj? && KnownKeysOnly(body.entries)
             && FieldsAcceptable(Preprocess(body.entries)) && BoundsOrdered(Preprocess(body.entries))
  {
    if body.Obj? {
      StrictRule(body.entries);
      FieldsAcceptedExactly(Preprocess(body.entries), UnknownKeys(body.entries));
    }
  }

  /** A body that is not an object gets a single issue at the empty path. */
  lemma NonObjectRejected(body: Value)
    requires !body.Obj?
    ensures ParseCreateBody(body) == Err([Issue([], Expected("object", body))])
  {
  }

  /**
   * When no field fails on its type and the minimum temperature is not below
   * the maximum, the body is rejected with an issue at `min_temperature`;
   * likewise for humidity at `min_humidity`.
   */
  lemma OrderIssuesReported(f: Fields, unknown: seq<string>)
    requires Settled(f) && !AnyAborted(f)
    ensures AtLeast(f.minTemperature.value.n, f.maxTemperature.value.n) ==>
      && ParseChecked(f, unknown).Err?
      && Issue(["min_temperature"], "min_temperature must be less than max_temperature") in ParseChecked(f, unknown).error
    ensures AtLeast(f.minHumidity.value.n, f.maxHumidity.value.n) ==>
      && ParseChecked(f, unknown).Err?
      && Issue(["min_humidity"], "min_humidity must be less than max_humidity") in ParseChecked(f, unknown).error
  {
    var order := OrderIssues(f);
    var issues := FieldIssues(f) + StrictIssues(unknown) + order;
    if AtLeast(f.minTemperature.value.n, f.maxTemperature.value.n) {
      assert order[0] == Issue(["min_temperature"], "min_temperature must be less than max_temperature");
      assert issues[|FieldIssues(f)| + |StrictIssues(unknown)|] == order[0];
    }
    if AtLeast(f.minHumidity.value.n, f.maxHumidity.value.n) {
      var k := |order| - 1;
      assert order[k] == Issue(["min_humidity"], "min_humidity must be less than max_humidity");
      assert issues[|FieldIssues(f)| + |StrictIssues(unknown)| + k] == order[k];
    }
  }

  /**
   * The parsed data carries the trimmed strings and the preprocessed
   * numbers; every entry has a defined value.
   */
  lemma ParsedDataRule(b: Body)
    requires FieldsAcceptable(b)
    ensures !AnyAborted(CheckFields(b))
    ensures var data := ParsedData(CheckFields(b));
      && ("sensor_id", Str(Trim(b.sensorId.s))) in data
      && ("name", Str(Trim(b.name.s))) in data
      && ("min_temperature", b.minTemperature) in data
      && ("max_temperature", b.maxTemperature) in data
      && ("min_humidity", b.minHumidity) in data
      && ("max_humidity", b.maxHumidity) in data
      && (forall i :: 0 <= i < |data| ==> !data[i].1.Undefined?)
  {
    AcceptedFieldsParsed(b);
    FieldValuesKept(CheckFields(b));
  }

  /** Every declared field whose parsed value is defined appears in the parsed data under its key. */
  lemma FieldValuesKept(f: Fields)
    requires !AnyAborted(f)
    ensures var data := ParsedData(f);
      && (!f.sensorId.value.Undefined? ==> ("sensor_id", f.sensorId.value) in data)
      && (!f.name.value.Undefined? ==> ("name", f.name.value) in data)
      && (!f.minTemperature.value.Undefined? ==> ("min_temperature", f.minTemperature.value) in data)
      && (!f.maxTemperature.value.Undefined? ==> ("max_temperature", f.maxTemperature.value) in data)
      && (!f.minHumidity.value.Undefined? ==> ("min_humidity", f.minHumidity.value) in data)
      && (!f.maxHumidity.value.Undefined? ==> ("max_humidity", f.maxHumidity.value) in data)
  {
    var all := FieldValues(f);
    assert all[0] == ("sensor_id", f.sensorId.value);
    assert all[1] == ("name", f.name.value);
    assert all[3] == ("min_temperature", f.minTemperature.value);
    assert all[4] == ("max_temperature", f.maxTemperature.value);
    assert all[5] == ("min_humidity", f.minHumidity.value);
    assert all[6] == ("max_humidity", f.maxHumidity.value);
  }

  /** `"sensor 001"` is rejected by the id pattern (the space). */
  lemma SpaceInSensorIdRejected()
    ensures SensorIdField(Str("sensor 001")).issues != []
  {
    var s := "sensor 001";
    TrimUntouched(s);
    assert !IdChar(s[6]);
    SensorIdRule(Str(s));
  }

  /** `'18'` is coerced to the number 18. */
  lemma EighteenCoerced()
    ensures Coerce(Str("18")) == Num(Finite(18.0))
  {
    assert NatToString(18) == "18" by {
      assert NatToString(1) == "1";
      assert 18 / 10 == 1 && 18 % 10 == 8;
    }
    NumericStringCoerced(18);
  }
}
