/**
 * The reading validator of the ingestion endpoint and the input of its
 * duplicate fingerprint (`frontend/lib/sensor-validation.ts`).
 *
 * Messages are kept as structured `Issue` values rather than rendered text:
 * each issue carries exactly what the source interpolates into its message
 * (the field, the offending value, the violated bound).  Parsing a
 * timestamp (`new Date(s)`) and the clock (`new Date()`) are parameters.
 */
module SensorValidation {
  import opened Wrappers
  import opened JsValue

  /** The fields that carry a range, in the order the validator checks them. */
  datatype FieldName =
    | Pm1 | Pm25 | Pm10 | Co2 | Co | O3 | No2 | Voc | Ch2o | Temp | Hum | Pressure
    | Battery | Signal

  /** The JSON key of a field. */
  function Key(f: FieldName): string {
    match f
    case Pm1 => "pm1"
    case Pm25 => "pm25"
    case Pm10 => "pm10"
    case Co2 => "co2"
    case Co => "co"
    case O3 => "o3"
    case No2 => "no2"
    case Voc => "voc"
    case Ch2o => "ch2o"
    case Temp => "temp"
    case Hum => "hum"
    case Pressure => "pressure"
    case Battery => "battery"
    case Signal => "signal"
  }

  /** Position of a field in the validator's order of checks. */
  function FieldIndex(f: FieldName): (n: nat)
    ensures n < 14
  {
    match f
    case Pm1 => 0
    case Pm25 => 1
    case Pm10 => 2
    case Co2 => 3
    case Co => 4
    case O3 => 5
    case No2 => 6
    case Voc => 7
    case Ch2o => 8
    case Temp => 9
    case Hum => 10
    case Pressure => 11
    case Battery => 12
    case Signal => 13
  }

  /** The fields of the `readings` object, in checking order. */
  const ReadingFields: seq<FieldName> :=
    [Pm1, Pm25, Pm10, Co2, Co, O3, No2, Voc, Ch2o, Temp, Hum, Pressure]

  /** The fields of the `metadata` object that carry a range, in checking order. */
  const MetadataFields: seq<FieldName> := [Battery, Signal]

  datatype Range = Range(min: int, max: int)

  /** `VALUE_RANGES` */
  function RangeOf(f: FieldName): (r: Range)
    ensures r.min < r.max
  {
    match f
    case Pm1 => Range(0, 1000)
    case Pm25 => Range(0, 1000)
    case Pm10 => Range(0, 1000)
    case Co2 => Range(300, 5000)
    case Co => Range(0, 100)
    case O3 => Range(0, 500)
    case No2 => Range(0, 500)
    case Voc => Range(0, 100)
    case Ch2o => Range(0, 10)
    case Temp => Range(-40, 60)
    case Hum => Range(0, 100)
    case Pressure => Range(800, 1200)
    case Battery => Range(0, 100)
    case Signal => Range(-120, 0)
  }

  /** The near-maximum threshold `max * 0.9`. */
  function NearMaxThreshold(r: Range): real {
    r.max as real * 0.9
  }

  /**
   * What the range check sees of a value: absent (undefined or null), not a
   * finite number (a string, a boolean, an object, NaN, an infinity), or a
   * finite number.
   */
  datatype Field = Absent | NotFinite | Num(x: real)

  function Classify(v: Value): (f: Field)
    ensures f.Absent? <==> Nullish(v)
    ensures f.Num? <==> v.Number?
    ensures f.Num? ==> f.x == v.n
  {
    match v
    case Undefined => Absent
    case Null => Absent
    case Number(n) => Num(n)
    case _ => NotFinite
  }

  datatype TimestampError = InvalidFormat | TooOld | InFuture

  datatype Issue =
    | DeviceIdRequired
    | TimestampRequired
    | TimestampInvalid(reason: TimestampError)
    | ReadingsRequired
    | NotANumber(field: FieldName)
    | BelowMinimum(field: FieldName, value: real, min: int)
    | AboveMaximum(field: FieldName, value: real, max: int)
    | NearMaximum(field: FieldName, value: real, max: int)

  datatype RangeCheck = RangeCheck(isValid: bool, error: Option<Issue>, warning: Option<Issue>)

  datatype ValidationResult = ValidationResult(isValid: bool, errors: seq<Issue>, warnings: seq<Issue>)

  const FiveMinutesMs: int := 5 * 60 * 1000
  const OneHourMs: int := 60 * 60 * 1000

  /**
   * `validateTimestamp`: `parsed` is the instant `new Date(s)` denotes, in
   * milliseconds, or `None` when it is an invalid date.  `None` is returned
   * for a valid timestamp.
   */
  function ValidateTimestamp(parsed: Option<int>, now: int): (r: Option<TimestampError>)
    ensures r.None? <==> parsed.Some? && now - FiveMinutesMs <= parsed.value <= now + OneHourMs
    ensures r == Some(InvalidFormat) <==> parsed.None?
    ensures r == Some(TooOld) <==> parsed.Some? && parsed.value < now - FiveMinutesMs
    ensures r == Some(InFuture) <==> parsed.Some? && now - FiveMinutesMs <= parsed.value && parsed.value > now + OneHourMs
  {
    match parsed
    case None => Some(InvalidFormat)
    case Some(t) =>
      if t < now - FiveMinutesMs then Some(TooOld)
      else if t > now + OneHourMs then Some(InFuture)
      else None
  }

  /** `validateRange` for the field `f` against its entry in `VALUE_RANGES`. */
  function ValidateRange(v: Field, f: FieldName): (r: RangeCheck)
    ensures r.isValid <==> r.error.None?
    ensures r.isValid <==> v.Absent? || (v.Num? && RangeOf(f).min as real <= v.x <= RangeOf(f).max as real)
    ensures v.Absent? ==> r.warning.None?
    ensures v.NotFinite? ==> r.error == Some(NotANumber(f)) && r.warning.None?
    ensures v.Num? && v.x < RangeOf(f).min as real ==> r.error == Some(BelowMinimum(f, v.x, RangeOf(f).min))
    ensures v.Num? && v.x > RangeOf(f).max as real ==> r.error == Some(AboveMaximum(f, v.x, RangeOf(f).max))
    ensures r.warning.Some? <==> r.isValid && v.Num? && v.x >= NearMaxThreshold(RangeOf(f))
    ensures r.warning.Some? ==> r.warning == Some(NearMaximum(f, v.x, RangeOf(f).max))
  {
    var range := RangeOf(f);
    match v
    case Absent => RangeCheck(true, None, None)
    case NotFinite => RangeCheck(false, Some(NotANumber(f)), None)
    case Num(x) =>
      if x < range.min as real then RangeCheck(false, Some(BelowMinimum(f, x, range.min)), None)
      else if x > range.max as real then RangeCheck(false, Some(AboveMaximum(f, x, range.max)), None)
      else if x >= NearMaxThreshold(range) then RangeCheck(true, None, Some(NearMaximum(f, x, range.max)))
      else RangeCheck(true, None, None)
  }

  /** The check the validator runs on the key of `f` inside `container`. */
  function FieldCheck(container: Value, f: FieldName): RangeCheck {
    ValidateRange(Classify(Get(container, Key(f))), f)
  }

  /** The characters `String.prototype.trim` removes. */
  predicate IsJsSpace(c: char) {
    c == ' ' || c == '\t' || c == '\n' || c == '\r' || c == '\U{B}' || c == '\U{C}'
    || c == '\U{A0}' || c == '\U{1680}' || ('\U{2000}' <= c <= '\U{200A}')
    || c == '\U{2028}' || c == '\U{2029}' || c == '\U{202F}' || c == '\U{205F}'
    || c == '\U{3000}' || c == '\U{FEFF}'
  }

  /** `s.trim() === ""` */
  predicate IsBlank(s: string) {
    forall i :: 0 <= i < |s| ==> IsJsSpace(s[i])
  }

  /** The `device_id` test: missing, falsy, not a string, or blank. */
  predicate DeviceIdOk(payload: Value) {
    var d := Get(payload, "device_id");
    Truthy(d) && d.Str? && !IsBlank(d.s)
  }

  /** `typeof x === "object"` for a truthy JSON value. */
  predicate IsObjectLike(v: Value) {
    v.Obj? || v.Arr?
  }

  function DeviceIdIssues(payload: Value): seq<Issue> {
    if DeviceIdOk(payload) then [] else [DeviceIdRequired]
  }

  function TimestampIssues(payload: Value, parse: string -> Option<int>, now: int): seq<Issue> {
    var t := Get(payload, "timestamp");
    if !Truthy(t) || !t.Str? then [TimestampRequired]
    else match ValidateTimestamp(parse(t.s), now)
      case None => []
      case Some(e) => [TimestampInvalid(e)]
  }

  /** The errors of the range checks of `fs` on `container`, in order. */
  function RangeErrors(container: Value, fs: seq<FieldName>): seq<Issue>
    decreases |fs|
  {
    if fs == [] then []
    else
      var c := FieldCheck(container, fs[|fs| - 1]);
      RangeErrors(container, fs[..|fs| - 1]) + (if c.isValid then [] else [c.error.value])
  }

  /** The warnings of the range checks of `fs` on `container`, in order. */
  function RangeWarnings(container: Value, fs: seq<FieldName>): seq<Issue>
    decreases |fs|
  {
    if fs == [] then []
    else
      var c := FieldCheck(container, fs[|fs| - 1]);
      RangeWarnings(container, fs[..|fs| - 1]) + (if c.warning.Some? then [c.warning.value] else [])
  }

  predicate ReadingsPresent(payload: Value) {
    var rd := Get(payload, "readings");
    Truthy(rd) && IsObjectLike(rd)
  }

  function ReadingsIssues(payload: Value): seq<Issue> {
    if ReadingsPresent(payload) then RangeErrors(Get(payload, "readings"), ReadingFields)
    else [ReadingsRequired]
  }

  function ReadingsWarnings(payload: Value): seq<Issue> {
    if ReadingsPresent(payload) then RangeWarnings(Get(payload, "readings"), ReadingFields)
    else []
  }

  function MetadataIssues(payload: Value): seq<Issue> {
    var md := Get(payload, "metadata");
    if Truthy(md) then RangeErrors(md, MetadataFields) else []
  }

  function MetadataWarnings(payload: Value): seq<Issue> {
    var md := Get(payload, "metadata");
    if Truthy(md) then RangeWarnings(md, MetadataFields) else []
  }

  /**
   * `validateSensorReading` as a specification: the checks in source order,
   * each contributing at most one error and at most one warning.
   */
  function Validate(payload: Value, parse: string -> Option<int>, now: int): (r: ValidationResult)
    ensures r.isValid <==> r.errors == []
  {
    var errors := DeviceIdIssues(payload) + TimestampIssues(payload, parse, now)
      + ReadingsIssues(payload) + MetadataIssues(payload);
    ValidationResult(errors == [], errors, ReadingsWarnings(payload) + MetadataWarnings(payload))
  }

  /**
   * One per-field block of `validateSensorReading`, for each field of `fs`
   * in turn: run the range check, push its error when it fails and its
   * warning when it has one.
   */
  method PushRangeChecks(container: Value, fs: seq<FieldName>, errors0: seq<Issue>, warnings0: seq<Issue>)
    returns (errors: seq<Issue>, warnings: seq<Issue>)
    ensures errors == errors0 + RangeErrors(container, fs)
    ensures warnings == warnings0 + RangeWarnings(container, fs)
  {
    errors, warnings := errors0, warnings0;
    var i := 0;
    while i < |fs|
      invariant 0 <= i <= |fs|
      invariant errors == errors0 + RangeErrors(container, fs[..i])
      invariant warnings == warnings0 + RangeWarnings(container, fs[..i])
    {
      var f := fs[i];
      var c := ValidateRange(Classify(Get(container, Key(f))), f);
      assert fs[..i + 1][..i] == fs[..i];
      if !c.isValid {
        errors := errors + [c.error.value];
      }
      if c.warning.Some? {
        warnings := warnings + [c.warning.value];
      }
      i := i + 1;
    }
    assert fs[..i] == fs;
  }

  /**
   * `validateSensorReading`: pushes onto local error and warning lists
   * step by step.  The twelve identical per-field blocks of the source are
   * the call of `PushRangeChecks` on `ReadingFields`, the two metadata
   * blocks its call on `MetadataFields`.  Reading a property of `null`
   * throws in the source, so the payload must not be null.
   */
  method ValidateSensorReading(payload: Value, parse: string -> Option<int>, now: int)
    returns (res: ValidationResult)
    requires !Nullish(payload)
    ensures res == Validate(payload, parse, now)
    ensures res.isValid <==> res.errors == []
  {
    var errors: seq<Issue> := [];
    var warnings: seq<Issue> := [];
    var d := Get(payload, "device_id");
    if !Truthy(d) || !d.Str? || IsBlank(d.s) {
      errors := errors + [DeviceIdRequired];
    }
    var t := Get(payload, "timestamp");
    if !Truthy(t) || !t.Str? {
      errors := errors + [TimestampRequired];
    } else {
      var tv := ValidateTimestamp(parse(t.s), now);
      if tv.Some? {
        errors := errors + [TimestampInvalid(tv.value)];
      }
    }
    ghost var head := errors;
    assert head == DeviceIdIssues(payload) + TimestampIssues(payload, parse, now);
    var rd := Get(payload, "readings");
    if !Truthy(rd) || !IsObjectLike(rd) {
      errors := errors + [ReadingsRequired];
    } else {
      errors, warnings := PushRangeChecks(rd, ReadingFields, errors, warnings);
    }
    assert errors == head + ReadingsIssues(payload);
    assert warnings == ReadingsWarnings(payload);
    ghost var mid, midWarnings := errors, warnings;
    var md := Get(payload, "metadata");
    if Truthy(md) {
      errors, warnings := PushRangeChecks(md, MetadataFields, errors, warnings);
    }
    assert errors == mid + MetadataIssues(payload);
    assert warnings == midWarnings + MetadataWarnings(payload);
    res := ValidationResult(|errors| == 0, errors, warnings);
  }

  // ---------------------------------------------------------------------
  // Properties of the validator
  // ---------------------------------------------------------------------

  /** The check an issue comes from, in the validator's order of checks. */
  function Stage(i: Issue): nat {
    match i
    case DeviceIdRequired => 0
    case TimestampRequired => 1
    case TimestampInvalid(_) => 1
    case ReadingsRequired => 2
    case NotANumber(f) => 3 + FieldIndex(f)
    case BelowMinimum(f, _, _) => 3 + FieldIndex(f)
    case AboveMaximum(f, _, _) => 3 + FieldIndex(f)
    case NearMaximum(f, _, _) => 3 + FieldIndex(f)
  }

  /** Issues listed in strictly increasing check order: at most one per check. */
  ghost predicate InCheckOrder(issues: seq<Issue>) {
    forall i, j :: 0 <= i < j < |issues| ==> Stage(issues[i]) < Stage(issues[j])
  }

  /** Fields listed in strictly increasing check order. */
  ghost predicate FieldsInOrder(fs: seq<FieldName>) {
    forall i, j :: 0 <= i < j < |fs| ==> FieldIndex(fs[i]) < FieldIndex(fs[j])
  }

  /** A failing check's error, and a check's warning, come from the checked field. */
  lemma CheckStage(container: Value, f: FieldName)
    ensures !FieldCheck(container, f).isValid ==> Stage(FieldCheck(container, f).error.value) == 3 + FieldIndex(f)
    ensures FieldCheck(container, f).warning.Some? ==> Stage(FieldCheck(container, f).warning.value) == 3 + FieldIndex(f)
  {
  }

  /** The errors of the checks of `fs` come from fields of `fs`: their stages lie within the fields' bounds. */
  lemma {:induction false} RangeErrorsBounds(container: Value, fs: seq<FieldName>, lo: nat, hi: nat)
    requires forall j :: 0 <= j < |fs| ==> lo <= FieldIndex(fs[j]) <= hi
    ensures forall k :: 0 <= k < |RangeErrors(container, fs)| ==>
      3 + lo <= Stage(RangeErrors(container, fs)[k]) <= 3 + hi
    decreases |fs|
  {
    if fs != [] {
      var init := fs[..|fs| - 1];
      assert forall j :: 0 <= j < |init| ==> init[j] == fs[j];
      RangeErrorsBounds(container, init, lo, hi);
      CheckStage(container, fs[|fs| - 1]);
    }
  }

  /** The range errors of fields listed in order are themselves in order. */
  lemma {:induction false} RangeErrorsInOrder(container: Value, fs: seq<FieldName>)
    requires FieldsInOrder(fs)
    ensures InCheckOrder(RangeErrors(container, fs))
    decreases |fs|
  {
    if fs != [] {
      var init := fs[..|fs| - 1];
      var last := fs[|fs| - 1];
      assert FieldsInOrder(init);
      RangeErrorsInOrder(container, init);
      var prev := RangeErrors(container, init);
      var all := RangeErrors(container, fs);
      if init != [] {
        assert forall j :: 0 <= j < |init| ==> FieldIndex(init[j]) < FieldIndex(last);
        RangeErrorsBounds(container, init, 0, FieldIndex(last) - 1);
      }
      CheckStage(container, last);
      forall i, j | 0 <= i < j < |all| ensures Stage(all[i]) < Stage(all[j]) {
        if j < |prev| {
          assert all[i] == prev[i] && all[j] == prev[j];
        } else {
          assert all[i] == prev[i];
        }
      }
    }
  }

  lemma InOrderAppend(a: seq<Issue>, b: seq<Issue>)
    requires InCheckOrder(a) && InCheckOrder(b)
    requires forall i, j :: 0 <= i < |a| && 0 <= j < |b| ==> Stage(a[i]) < Stage(b[j])
    ensures InCheckOrder(a + b)
  {
    forall i, j | 0 <= i < j < |a + b| ensures Stage((a + b)[i]) < Stage((a + b)[j]) {
      if j < |a| {
      } else if i >= |a| {
        assert (a + b)[i] == b[i - |a|] && (a + b)[j] == b[j - |a|];
      } else {
        assert (a + b)[j] == b[j - |a|];
      }
    }
  }

  lemma ReadingFieldsIndexed()
    ensures forall i :: 0 <= i < |ReadingFields| ==> FieldIndex(ReadingFields[i]) == i
    ensures FieldsInOrder(ReadingFields)
  {
  }

  lemma MetadataFieldsIndexed()
    ensures forall i :: 0 <= i < |MetadataFields| ==> FieldIndex(MetadataFields[i]) == 12 + i
    ensures FieldsInOrder(MetadataFields)
  {
  }

  /** The readings stage reports stages 2 to 14, in order. */
  lemma ReadingsIssuesStages(payload: Value)
    ensures InCheckOrder(ReadingsIssues(payload))
    ensures forall k :: 0 <= k < |ReadingsIssues(payload)| ==> 2 <= Stage(ReadingsIssues(payload)[k]) <= 14
  {
    if ReadingsPresent(payload) {
      var rd := Get(payload, "readings");
      ReadingFieldsIndexed();
      RangeErrorsInOrder(rd, ReadingFields);
      RangeErrorsBounds(rd, ReadingFields, 0, 11);
    }
  }

  /** The metadata stage reports stages 15 and 16, in order. */
  lemma MetadataIssuesStages(payload: Value)
    ensures InCheckOrder(MetadataIssues(payload))
    ensures forall k :: 0 <= k < |MetadataIssues(payload)| ==> 15 <= Stage(MetadataIssues(payload)[k]) <= 16
  {
    var md := Get(payload, "metadata");
    if Truthy(md) {
      MetadataFieldsIndexed();
      RangeErrorsInOrder(md, MetadataFields);
      RangeErrorsBounds(md, MetadataFields, 12, 13);
    }
  }

  /**
   * Errors appear in the fixed order device_id, timestamp, readings (pm1
   * through pressure), battery, signal, with at most one error per check.
   */
  lemma ErrorsInCheckOrder(payload: Value, parse: string -> Option<int>, now: int)
    ensures InCheckOrder(Validate(payload, parse, now).errors)
  {
    var d := DeviceIdIssues(payload);
    var t := TimestampIssues(payload, parse, now);
    var r := ReadingsIssues(payload);
    var m := MetadataIssues(payload);
    ReadingsIssuesStages(payload);
    MetadataIssuesStages(payload);
    assert forall k :: 0 <= k < |d| ==> Stage(d[k]) == 0;
    assert forall k :: 0 <= k < |t| ==> Stage(t[k]) == 1;
    InOrderAppend(d, t);
    InOrderAppend(d + t, r);
    InOrderAppend(d + t + r, m);
  }

  /**
   * A payload without a usable `readings` object gets exactly one error for
   * it, and its metadata is still checked.
   */
  lemma MissingReadingsStillChecksMetadata(payload: Value, parse: string -> Option<int>, now: int)
    requires !ReadingsPresent(payload)
    ensures var r := Validate(payload, parse, now);
      r.errors == DeviceIdIssues(payload) + TimestampIssues(payload, parse, now) + [ReadingsRequired] + MetadataIssues(payload)
      && r.warnings == MetadataWarnings(payload)
      && !r.isValid
  {
  }

  /** Every warning is a near-maximum notice about an in-range value. */
  lemma {:induction false} RangeWarningsNearMax(container: Value, fs: seq<FieldName>)
    ensures forall k :: 0 <= k < |RangeWarnings(container, fs)| ==>
      var w := RangeWarnings(container, fs)[k];
      w.NearMaximum? && RangeOf(w.field).min as real <= w.value <= RangeOf(w.field).max as real
      && w.value >= NearMaxThreshold(RangeOf(w.field)) && w.max == RangeOf(w.field).max
    decreases |fs|
  {
    if fs != [] {
      RangeWarningsNearMax(container, fs[..|fs| - 1]);
    }
  }

  /** Warnings never speak of an invalid value, so they never affect validity. */
  lemma WarningsOnlyNearMaximum(payload: Value, parse: string -> Option<int>, now: int)
    ensures var r := Validate(payload, parse, now);
      forall k :: 0 <= k < |r.warnings| ==>
        r.warnings[k].NearMaximum?
        && RangeOf(r.warnings[k].field).min as real <= r.warnings[k].value <= RangeOf(r.warnings[k].field).max as real
        && r.warnings[k].value >= NearMaxThreshold(RangeOf(r.warnings[k].field))
  {
    RangeWarningsNearMax(Get(payload, "readings"), ReadingFields);
    RangeWarningsNearMax(Get(payload, "metadata"), MetadataFields);
  }

  /** The co2 range: 300 and 5000 are accepted, 4500..5000 warns, 6000 and 299 are rejected. */
  lemma Co2Examples()
    ensures ValidateRange(Num(300.0), Co2) == RangeCheck(true, None, None)
    ensures ValidateRange(Num(4500.0), Co2) == RangeCheck(true, None, Some(NearMaximum(Co2, 4500.0, 5000)))
    ensures ValidateRange(Num(5000.0), Co2) == RangeCheck(true, None, Some(NearMaximum(Co2, 5000.0, 5000)))
    ensures ValidateRange(Num(6000.0), Co2) == RangeCheck(false, Some(AboveMaximum(Co2, 6000.0, 5000)), None)
    ensures ValidateRange(Num(299.0), Co2) == RangeCheck(false, Some(BelowMinimum(Co2, 299.0, 300)), None)
  {
  }

  /** Every field of `fs` is absent or a finite number inside its range. */
  ghost predicate AllInRange(container: Value, fs: seq<FieldName>) {
    forall j :: 0 <= j < |fs| ==> FieldCheck(container, fs[j]).isValid
  }

  /** All fields are in range exactly when all but the last are and the last is. */
  lemma AllInRangeSnoc(container: Value, fs: seq<FieldName>)
    requires fs != []
    ensures AllInRange(container, fs) <==>
      AllInRange(container, fs[..|fs| - 1]) && FieldCheck(container, fs[|fs| - 1]).isValid
  {
    var init := fs[..|fs| - 1];
    if AllInRange(container, fs) {
      forall j | 0 <= j < |init| ensures FieldCheck(container, init[j]).isValid {
        assert init[j] == fs[j];
      }
    }
    if AllInRange(container, init) && FieldCheck(container, fs[|fs| - 1]).isValid {
      forall j | 0 <= j < |fs| ensures FieldCheck(container, fs[j]).isValid {
        if j < |init| {
          assert fs[j] == init[j];
        }
      }
    }
  }

  lemma {:induction false} RangeErrorsEmpty(container: Value, fs: seq<FieldName>)
    ensures RangeErrors(container, fs) == [] <==> AllInRange(container, fs)
    decreases |fs|
  {
    if fs != [] {
      var init := fs[..|fs| - 1];
      RangeErrorsEmpty(container, init);
      AllInRangeSnoc(container, fs);
    }
  }

  /**
   * A payload is valid exactly when its device id is a non-blank string,
   * its timestamp is a string that parses to an instant inside
   * [now - 5 min, now + 1 h], its readings are an object whose range fields
   * are each absent or in range, and (when metadata is given) battery and
   * signal are absent or in range.
   */
  lemma ValidIff(payload: Value, parse: string -> Option<int>, now: int)
    ensures Validate(payload, parse, now).isValid <==>
      && DeviceIdOk(payload)
      && Get(payload, "timestamp").Str? && Get(payload, "timestamp").s != ""
      && parse(Get(payload, "timestamp").s).Some?
      && now - FiveMinutesMs <= parse(Get(payload, "timestamp").s).value <= now + OneHourMs
      && ReadingsPresent(payload)
      && AllInRange(Get(payload, "readings"), ReadingFields)
      && (Truthy(Get(payload, "metadata")) ==> AllInRange(Get(payload, "metadata"), MetadataFields))
  {
    RangeErrorsEmpty(Get(payload, "readings"), ReadingFields);
    RangeErrorsEmpty(Get(payload, "metadata"), MetadataFields);
  }

  // ---------------------------------------------------------------------
  // Duplicate fingerprint
  // ---------------------------------------------------------------------

  /**
   * The object `generateDataHash` serialises.  A key whose value is
   * undefined is dropped by `JSON.stringify`, which `Undefined` keeps apart
   * from `Null` here, so the tuple determines the serialised text.
   */
  datatype HashInput = HashInput(deviceId: Value, timestamp: Value, pm25: Value, co2: Value, temp: Value)

  function HashInputOf(payload: Value): (h: HashInput)
    ensures h.deviceId == Get(payload, "device_id") && h.timestamp == Get(payload, "timestamp")
    ensures h.pm25 == Get(Get(payload, "readings"), "pm25")
    ensures h.co2 == Get(Get(payload, "readings"), "co2")
    ensures h.temp == Get(Get(payload, "readings"), "temp")
  {
    var rd := Get(payload, "readings");
    HashInput(Get(payload, "device_id"), Get(payload, "timestamp"), Get(rd, "pm25"), Get(rd, "co2"), Get(rd, "temp"))
  }

  /** `generateDataHash`, with the SHA-256 digest of the serialised input as the parameter `sha`. */
  function DataHash(payload: Value, sha: HashInput -> string): string {
    sha(HashInputOf(payload))
  }

  /**
   * Payloads that agree on device_id, timestamp, pm25, co2 and temp get the
   * same fingerprint, whatever their metadata, site or other readings.
   */
  lemma SameKeySameHash(p: Value, q: Value, sha: HashInput -> string)
    requires Get(p, "device_id") == Get(q, "device_id")
    requires Get(p, "timestamp") == Get(q, "timestamp")
    requires Get(Get(p, "readings"), "pm25") == Get(Get(q, "readings"), "pm25")
    requires Get(Get(p, "readings"), "co2") == Get(Get(q, "readings"), "co2")
    requires Get(Get(p, "readings"), "temp") == Get(Get(q, "readings"), "temp")
    ensures DataHash(p, sha) == DataHash(q, sha)
  {
  }

  /** The fingerprint input changes whenever one of its five fields does. */
  lemma HashInputDistinguishes(p: Value, q: Value)
    requires HashInputOf(p) == HashInputOf(q)
    ensures Get(p, "device_id") == Get(q, "device_id") && Get(p, "timestamp") == Get(q, "timestamp")
    ensures Get(Get(p, "readings"), "pm25") == Get(Get(q, "readings"), "pm25")
    ensures Get(Get(p, "readings"), "co2") == Get(Get(q, "readings"), "co2")
    ensures Get(Get(p, "readings"), "temp") == Get(Get(q, "readings"), "temp")
  {
  }
}
