/**
 * The mapping from a decoded device payload to the report record that the
 * relay stores and broadcasts: the device id and size-source fallbacks, the
 * size label, the sensor and motor booleans and the LED flag.
 */
module Normaliser {
  import opened Json

  /** The `sizeDetected` enum of the stored record. */
  datatype SizeLabel = Unknown | Small | Medium | Large

  /** One boolean per size; used for both `sensorReadings` and `motorStatus`. */
  datatype BySize = BySize(small: bool, medium: bool, large: bool)

  /**
   * The stored record without the `timestamp` the store assigns. `deviceId`
   * is the JavaScript value the handler computed.
   */
  datatype DeviceReport = DeviceReport(
    deviceId: Value,
    sizeDetected: SizeLabel,
    sensorReadings: BySize,
    motorStatus: BySize,
    ledStatus: bool)

  /**
   * `c0 || c1 || … || fallback`: the first truthy candidate, else the fallback.
   */
  function FirstTruthy(candidates: seq<Option<Value>>, fallback: Value): (r: Value)
    ensures forall i ::
              (0 <= i < |candidates| && Truthy(candidates[i]) && forall j :: 0 <= j < i ==> !Truthy(candidates[j]))
              ==> r == candidates[i].value
    ensures (forall i :: 0 <= i < |candidates| ==> !Truthy(candidates[i])) ==> r == fallback
    ensures Truthy(Some(fallback)) ==> Truthy(Some(r))
  {
    if candidates == [] then fallback
    else if Truthy(candidates[0]) then candidates[0].value
    else FirstTruthy(candidates[1..], fallback)
  }

  /** `data.deviceId || data.device_id || 'esp32'` */
  function DeviceIdOf(data: Value): (id: Value)
    requires !data.Null?
    ensures Truthy(Some(id))
    ensures Truthy(Get(data, "deviceId")) ==> id == Get(data, "deviceId").value
    ensures !Truthy(Get(data, "deviceId")) && Truthy(Get(data, "device_id")) ==> id == Get(data, "device_id").value
    ensures !Truthy(Get(data, "deviceId")) && !Truthy(Get(data, "device_id")) ==> id == Str("esp32")
  {
    var candidates := [Get(data, "deviceId"), Get(data, "device_id")];
    assert candidates[0] == Get(data, "deviceId") && candidates[1] == Get(data, "device_id");
    FirstTruthy(candidates, Str("esp32"))
  }

  /** `data.lastDetectedSize || data.detectedSize || data.lastDetected || 0` */
  function SizeSourceOf(data: Value): (size: Value)
    requires !data.Null?
    ensures Truthy(Get(data, "lastDetectedSize")) ==> size == Get(data, "lastDetectedSize").value
    ensures !Truthy(Get(data, "lastDetectedSize")) && Truthy(Get(data, "detectedSize")) ==>
              size == Get(data, "detectedSize").value
    ensures (!Truthy(Get(data, "lastDetectedSize")) && !Truthy(Get(data, "detectedSize")) &&
             Truthy(Get(data, "lastDetected"))) ==> size == Get(data, "lastDetected").value
    ensures (!Truthy(Get(data, "lastDetectedSize")) && !Truthy(Get(data, "detectedSize")) &&
             !Truthy(Get(data, "lastDetected"))) ==> size == Num(0)
    ensures size == Num(0) || Truthy(Some(size))
  {
    var candidates := [Get(data, "lastDetectedSize"), Get(data, "detectedSize"), Get(data, "lastDetected")];
    assert candidates[0] == Get(data, "lastDetectedSize") && candidates[1] == Get(data, "detectedSize");
    assert candidates[2] == Get(data, "lastDetected");
    FirstTruthy(candidates, Num(0))
  }

  /** The `switch` over parseInt's result. */
  function LabelOf(p: ParsedInt): SizeLabel {
    match p
    case Int(1) => Small
    case Int(2) => Medium
    case Int(3) => Large
    case _ => Unknown
  }

  /**
   * getSizeLabel(size): the label of parseInt(String(size)); None when
   * String(size) throws.
   */
  function GetSizeLabel(size: Value): (r: Option<SizeLabel>)
    ensures r.None? <==> ToString(size).None?
  {
    match ToString(size)
    case None => None
    case Some(text) => Some(LabelOf(ParseInt(text)))
  }

  /** A label is Small, Medium or Large exactly when parseInt gave 1, 2 or 3. */
  lemma SizeLabelFollowsParseInt(size: Value)
    requires ToString(size).Some?
    ensures GetSizeLabel(size) == Some(Small) <==> ParseInt(ToString(size).value) == Int(1)
    ensures GetSizeLabel(size) == Some(Medium) <==> ParseInt(ToString(size).value) == Int(2)
    ensures GetSizeLabel(size) == Some(Large) <==> ParseInt(ToString(size).value) == Int(3)
    ensures GetSizeLabel(size) == Some(Unknown) <==> ParseInt(ToString(size).value) !in {Int(1), Int(2), Int(3)}
  {
  }

  /** A numeric size code n maps to Small, Medium, Large for 1, 2, 3 and to Unknown otherwise. */
  lemma SizeLabelOfNumber(n: int)
    ensures GetSizeLabel(Num(n)) ==
              Some(if n == 1 then Small else if n == 2 then Medium else if n == 3 then Large else Unknown)
  {
    ParseIntOfIntToString(n);
  }

  /**
   * A textual size code is read up to its first non-digit after leading white
   * space and an optional sign: " 2 (medium)" is Medium.
   */
  lemma SizeLabelOfText(w: string, sign: string, z: string, rest: string)
    requires forall i :: 0 <= i < |w| ==> IsJsWhiteSpace(w[i])
    requires sign == "" || sign == "+" || sign == "-"
    requires |z| > 0 && AllDigits(z, 10)
    requires rest == [] || !IsRadixDigit(rest[0], 10)
    requires !(z == "0" && rest != [] && (rest[0] == 'x' || rest[0] == 'X'))
    ensures var n := if sign == "-" then -(DigitsValue(z, 10) as int) else DigitsValue(z, 10);
            GetSizeLabel(Str(w + (sign + (z + rest)))) ==
              Some(if n == 1 then Small else if n == 2 then Medium else if n == 3 then Large else Unknown)
  {
    ParseIntDecimal(w + (sign + (z + rest)), w, sign, z, rest);
  }

  /** A one-element array reads as its element: [2] is Medium. */
  lemma SizeLabelOfSingleton(v: Value)
    requires !v.Null?
    ensures GetSizeLabel(Arr([v])) == GetSizeLabel(v)
  {
    assert ToString(Arr([v])) == ToString(v);
  }

  /** Booleans, null and plain objects never name a size. */
  lemma SizeLabelOfNonNumeric(b: bool, fields: map<string, Value>)
    requires "toString" !in fields
    ensures GetSizeLabel(Bool(b)) == Some(Unknown)
    ensures GetSizeLabel(Null) == Some(Unknown)
    ensures GetSizeLabel(Obj(fields)) == Some(Unknown)
  {
    assert TrimStart("true") == "true" && TrimStart("false") == "false";
    assert TrimStart("null") == "null" && TrimStart("[object Object]") == "[object Object]";
  }

  /** An object with its own `toString` key makes getSizeLabel throw. */
  lemma SizeLabelThrows(fields: map<string, Value>)
    requires "toString" in fields
    ensures GetSizeLabel(Obj(fields)).None?
    ensures GetSizeLabel(Arr([Obj(fields)])).None?
  {
    assert ToString(Arr([Obj(fields)])) == ToString(Obj(fields));
  }

  // ---------------------------------------------------------------------
  // Sensors, motors, LED

  /**
   * Nested `sensors` object: a number is detected iff it is 0 (active-low
   * firmware); any other value is detected iff it is truthy.
   */
  predicate NestedDetected(raw: Option<Value>) {
    if raw.Some? && raw.value.Num? then raw.value.n == 0 else Truthy(raw)
  }

  /** Flat top-level field: detected iff present and truthy. */
  predicate FlatDetected(raw: Option<Value>) {
    raw.Some? && Truthy(raw)
  }

  /** The sensor readings the handler computes for a payload. */
  function Sensors(data: Value): BySize
    requires !data.Null?
  {
    var sensors := Get(data, "sensors");
    if Truthy(sensors) then
      BySize(NestedDetected(Get(sensors.value, "small")),
             NestedDetected(Get(sensors.value, "medium")),
             NestedDetected(Get(sensors.value, "large")))
    else
      BySize(FlatDetected(Get(data, "small")),
             FlatDetected(Get(data, "medium")),
             FlatDetected(Get(data, "large")))
  }

  /**
   * The handler's `sensorReadings` object: every field starts false and is
   * overwritten from the nested object when `data.sensors` is truthy, else
   * from each flat field that is defined.
   */
  method ReadSensors(data: Value) returns (readings: BySize)
    requires !data.Null?
    ensures readings == Sensors(data)
  {
    readings := BySize(false, false, false);
    var sensors := Get(data, "sensors");
    if Truthy(sensors) {
      var small := Get(sensors.value, "small");
      readings := readings.(small := if small.Some? && small.value.Num? then small.value.n == 0 else Truthy(small));
      var medium := Get(sensors.value, "medium");
      readings := readings.(medium := if medium.Some? && medium.value.Num? then medium.value.n == 0 else Truthy(medium));
      var large := Get(sensors.value, "large");
      readings := readings.(large := if large.Some? && large.value.Num? then large.value.n == 0 else Truthy(large));
    } else {
      var small := Get(data, "small");
      if small.Some? {
        readings := readings.(small := Truthy(small));
      }
      var medium := Get(data, "medium");
      if medium.Some? {
        readings := readings.(medium := Truthy(medium));
      }
      var large := Get(data, "large");
      if large.Some? {
        readings := readings.(large := Truthy(large));
      }
    }
  }

  /**
   * The two sensor shapes read a number with opposite polarity: nested 0 is
   * detected and nested non-zero is not; flat 0 is not detected and flat
   * non-zero is.
   */
  lemma SensorPolarity(n: int)
    ensures NestedDetected(Some(Num(n))) <==> n == 0
    ensures FlatDetected(Some(Num(n))) <==> n != 0
  {
  }

  /** Booleans read the same in both shapes; a missing field is never detected. */
  lemma SensorBooleansAndMissing(b: bool)
    ensures NestedDetected(Some(Bool(b))) == b && FlatDetected(Some(Bool(b))) == b
    ensures !NestedDetected(None) && !FlatDetected(None)
  {
  }

  /**
   * A non-empty string under `sensors` reports the small sensor detected,
   * because `"…".small` is String.prototype.small, a truthy non-number.
   */
  lemma SensorsFromString(s: string)
    requires s != ""
    ensures Sensors(Obj(map["sensors" := Str(s)])) == BySize(true, false, false)
  {
    var data := Obj(map["sensors" := Str(s)]);
    assert Get(data, "sensors") == Some(Str(s));
  }

  /**
   * `motorStatus`: all false unless `data.motors` is truthy; then each field
   * is the truthiness of `data.motors.<size>`.
   */
  function Motors(data: Value): BySize
    requires !data.Null?
  {
    var motors := Get(data, "motors");
    BySize(
      if Truthy(motors) then Truthy(Get(motors.value, "small")) else false,
      if Truthy(motors) then Truthy(Get(motors.value, "medium")) else false,
      if Truthy(motors) then Truthy(Get(motors.value, "large")) else false)
  }

  /**
   * In a built record a raw field that is absent reads as false: every motor
   * when `motors` is falsy, a motor missing from a truthy `motors` value, and a
   * sensor missing from the object its shape reads it from.
   */
  lemma AbsentFieldsReadFalse(data: Value)
    requires Classify(data) == Report && Normalise(data).Some?
    ensures var r := Normalise(data).value;
            var motors := Get(data, "motors");
            (!Truthy(motors) ==> r.motorStatus == BySize(false, false, false)) &&
            (Truthy(motors) && Get(motors.value, "small") == None ==> !r.motorStatus.small) &&
            (Truthy(motors) && Get(motors.value, "medium") == None ==> !r.motorStatus.medium) &&
            (Truthy(motors) && Get(motors.value, "large") == None ==> !r.motorStatus.large)
    ensures var r := Normalise(data).value;
            var sensors := Get(data, "sensors");
            var source := if Truthy(sensors) then sensors.value else data;
            (Get(source, "small") == None ==> !r.sensorReadings.small) &&
            (Get(source, "medium") == None ==> !r.sensorReadings.medium) &&
            (Get(source, "large") == None ==> !r.sensorReadings.large)
  {
  }

  /**
   * The report built for a device payload, or None when getSizeLabel throws
   * (the handler's catch then skips the save and the broadcast).
   */
  function Normalise(data: Value): (r: Option<DeviceReport>)
    requires !data.Null?
    ensures r.None? <==> ToString(SizeSourceOf(data)).None?
    ensures r.Some? ==> Truthy(Some(r.value.deviceId))
    ensures r.Some? ==> r.value.ledStatus == Truthy(Get(data, "ledStatus"))
  {
    match GetSizeLabel(SizeSourceOf(data))
    case None => None
    case Some(sizeLabel) =>
      Some(DeviceReport(DeviceIdOf(data), sizeLabel, Sensors(data), Motors(data), Truthy(Get(data, "ledStatus"))))
  }

  /** The nested-sensor payload {sensors: {small: 0, medium: 1, large: 1}, lastDetectedSize: 2}. */
  function NestedPayload(): Value {
    Obj(map["sensors" := Obj(map["small" := Num(0), "medium" := Num(1), "large" := Num(1)]),
            "lastDetectedSize" := Num(2)])
  }

  /**
   * The nested-sensor payload is a device report; it becomes a Medium report
   * with only the small sensor detected, under the default device id.
   */
  lemma NormaliseNestedExample()
    ensures Classify(NestedPayload()) == Report
    ensures Normalise(NestedPayload()) ==
            Some(DeviceReport(Str("esp32"), Medium, BySize(true, false, false), BySize(false, false, false), false))
  {
    var sensors := Obj(map["small" := Num(0), "medium" := Num(1), "large" := Num(1)]);
    var data := NestedPayload();
    assert Get(data, "sensors") == Some(sensors);
    assert Get(data, "lastDetectedSize") == Some(Num(2));
    assert Get(data, "deviceId") == None && Get(data, "device_id") == None;
    assert Get(data, "motors") == None && Get(data, "ledStatus") == None;
    assert Sensors(data) == BySize(true, false, false);
    assert Motors(data) == BySize(false, false, false);
    assert DeviceIdOf(data) == Str("esp32");
    SizeLabelOfNumber(2);
    assert SizeSourceOf(data) == Num(2);
  }

  /** The flat-field payload {deviceId: "esp32-1", small: true, medium: 0, detectedSize: "3"}. */
  function FlatPayload(): Value {
    Obj(map["deviceId" := Str("esp32-1"), "small" := Bool(true), "medium" := Num(0), "detectedSize" := Str("3")])
  }

  lemma FlatPayloadFields()
    ensures Get(FlatPayload(), "deviceId") == Some(Str("esp32-1"))
    ensures Get(FlatPayload(), "sensors") == None && Get(FlatPayload(), "large") == None
    ensures Get(FlatPayload(), "small") == Some(Bool(true)) && Get(FlatPayload(), "medium") == Some(Num(0))
    ensures Get(FlatPayload(), "motors") == None && Get(FlatPayload(), "ledStatus") == None
    ensures Get(FlatPayload(), "lastDetectedSize") == None && Get(FlatPayload(), "detectedSize") == Some(Str("3"))
  {
  }

  /**
   * The flat-field payload keeps its id, reads the flat sensors by truthiness
   * (so the 0 that means "detected" in the nested shape reads as not
   * detected) and becomes a Large report.
   */
  lemma NormaliseFlatExample()
    ensures Normalise(FlatPayload()) ==
            Some(DeviceReport(Str("esp32-1"), Large, BySize(true, false, false), BySize(false, false, false), false))
  {
    var data := FlatPayload();
    FlatPayloadFields();
    assert Sensors(data) == BySize(true, false, false);
    assert Motors(data) == BySize(false, false, false);
    assert DeviceIdOf(data) == Str("esp32-1");
    assert SizeSourceOf(data) == Str("3");
    SizeLabelOfText("", "", "3", "");
  }

  /**
   * Motors come only from a truthy `motors` value: {large: 1} energises the
   * large motor, and a non-empty string energises the small one through
   * String.prototype.small.
   */
  lemma MotorsExamples(s: string)
    requires s != ""
    ensures Motors(Obj(map["motors" := Obj(map["large" := Num(1)])])) == BySize(false, false, true)
    ensures Motors(Obj(map["motors" := Str(s)])) == BySize(true, false, false)
    ensures Motors(Obj(map["motors" := Num(0)])) == BySize(false, false, false)
  {
    assert Get(Obj(map["motors" := Obj(map["large" := Num(1)])]), "motors") == Some(Obj(map["large" := Num(1)]));
    assert Get(Obj(map["motors" := Str(s)]), "motors") == Some(Str(s));
  }

  // ---------------------------------------------------------------------
  // Classification of an inbound payload

  /**
   * Fault: `data.deviceId` throws because the payload is null.
   * Report: `data.deviceId || data.sensors` is truthy.
   * Command: otherwise, `data.command` is truthy.
   * Ignored: anything else.
   */
  datatype Kind = Fault | Report | Command | Ignored

  function Classify(data: Value): (k: Kind)
    ensures k == Fault <==> data.Null?
    ensures k == Report || k == Command ==> data.Obj?
  {
    if data.Null? then Fault
    else if Truthy(Get(data, "deviceId")) || Truthy(Get(data, "sensors")) then Report
    else if Truthy(Get(data, "command")) then Command
    else Ignored
  }

  /** Reports take priority over commands; `device_id` alone does not make a report. */
  lemma ClassifyPriority(data: Value)
    requires data.Obj?
    ensures Classify(data) == Report <==> Truthy(Get(data, "deviceId")) || Truthy(Get(data, "sensors"))
    ensures Classify(data) == Command <==>
              !Truthy(Get(data, "deviceId")) && !Truthy(Get(data, "sensors")) && Truthy(Get(data, "command"))
    ensures Classify(Obj(map["device_id" := Str("esp32")])) == Ignored
    ensures Classify(Obj(map["command" := Str("stop")])) == Command
  {
    assert Get(Obj(map["device_id" := Str("esp32")]), "deviceId") == None;
    assert Get(Obj(map["command" := Str("stop")]), "command") == Some(Str("stop"));
  }
}
