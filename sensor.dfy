/**
 * Sensor entities (sensor.py): readings of the coordinator's data, scaled for
 * the keys whose SENSOR_META entry has a scale, and the time of the last
 * successful poll as an extra attribute.
 */
module SensorPlatform {
  import opened Wrappers
  import opened JsonValue
  import opened PyBuiltins
  import opened UpdateCoordinator
  import EntityNaming

  /** The `scale` and `precision` of a SENSOR_META entry. */
  datatype Scaling = Scaling(scale: Option<real>, precision: Option<nat>)

  const NoScaling: Scaling := Scaling(None, None)

  /**
   * The SENSOR_META entries that have a scale (all of them also have a
   * precision). Every other entry, like a key with no entry at all, has
   * neither; units, icons and classes are presentation.
   */
  const ScaledMeta: map<string, Scaling> := map[
    "II1" := Scaling(Some(0.1), Some(1)),
    "II2" := Scaling(Some(0.1), Some(1)),
    "II3" := Scaling(Some(0.1), Some(1)),
    "II4" := Scaling(Some(0.1), Some(1)),
    "VP1" := Scaling(Some(0.1), Some(1)),
    "VP2" := Scaling(Some(0.1), Some(1)),
    "VP3" := Scaling(Some(0.1), Some(1)),
    "VP4" := Scaling(Some(0.1), Some(1)),
    "GD1" := Scaling(Some(0.001), Some(3)),
    "GD2" := Scaling(Some(0.001), Some(3)),
    "LD" := Scaling(Some(0.001), Some(3))
  ]

  /** The keys `async_setup_entry` creates one sensor for, in order. */
  const SensorKeys: seq<string> := [
    "WS", "WR", "ST", "IW", "OP", "PV", "PV1", "PV2", "PV3", "PV4", "II1", "II2", "II3", "II4",
    "VP1", "VP2", "VP3", "VP4", "GP", "LP", "GD1", "GD2", "LD", "SC", "SC0", "SC1", "SC2", "SC3",
    "SC4", "SC5", "ON", "ES", "BS0", "BS1", "BS2", "BS3", "BS4", "BS5", "AS", "DS", "SN", "MS"
  ]

  /** `meta.get("scale")` and `meta.get("precision")` for `meta = SENSOR_META.get(key, {})`. */
  function ScalingOf(key: string): Scaling
  {
    if key in ScaledMeta then ScaledMeta[key] else NoScaling
  }

  /**
   * Currents and voltages (II1-II4, VP1-VP4) are scaled by 0.1 with one digit,
   * energies (GD1, GD2, LD) by 0.001 with three; no other key has a scale or a
   * precision.
   */
  lemma ScalingTable(key: string)
    ensures key in {"II1", "II2", "II3", "II4", "VP1", "VP2", "VP3", "VP4"} ==>
      ScalingOf(key) == Scaling(Some(0.1), Some(1))
    ensures key in {"GD1", "GD2", "LD"} ==> ScalingOf(key) == Scaling(Some(0.001), Some(3))
    ensures key !in {"II1", "II2", "II3", "II4", "VP1", "VP2", "VP3", "VP4", "GD1", "GD2", "LD"} ==>
      ScalingOf(key) == NoScaling
  {
  }

  /**
   * What `native_value` returns: nothing (None), the raw value itself, or
   * `float(raw) * scale`, to be rounded to `precision` digits (the rounding and
   * binary floating point are not modelled; `value` is the exact product).
   */
  datatype SensorValue = Unknown | Raw(raw: Json) | Scaled(value: real, precision: Option<nat>)

  /**
   * `native_value`: None for an absent or null key; the raw value unchanged
   * for a key without a scale, and also when `float()` rejects the raw value;
   * otherwise the scaled number. It never raises.
   */
  function SensorReading(data: map<string, Json>, key: string, parseFloat: string -> Option<real>): (r: SensorValue)
    ensures key !in data || data[key].JNull? <==> r.Unknown?
    ensures key in data && !data[key].JNull? && ScalingOf(key).scale.None? ==> r == Raw(data[key])
    ensures key in data && (data[key].JArray? || data[key].JObject?) ==> r == Raw(data[key])
    ensures key in data && !data[key].JNull? && FloatOf(data[key], parseFloat).None? ==> r == Raw(data[key])
    ensures r.Scaled? <==>
      (key in data && !data[key].JNull? && ScalingOf(key).scale.Some? && FloatOf(data[key], parseFloat).Some?)
    ensures r.Scaled? ==>
      (r.value == FloatOf(data[key], parseFloat).value * ScalingOf(key).scale.value
       && r.precision == ScalingOf(key).precision)
  {
    var raw := Lookup(data, key);
    if IsNone(raw) then Unknown
    else
      var scaling := ScalingOf(key);
      if scaling.scale.None? then Raw(raw.value)
      else match FloatOf(raw.value, parseFloat)
        case None => Raw(raw.value)
        case Some(x) => Scaled(x * scaling.scale.value, scaling.precision)
  }

  /** A raw current of 123 reads as 12.3 with one digit; an unscaled "123" is passed through. */
  lemma SensorScenario(data: map<string, Json>, parseFloat: string -> Option<real>)
    requires "II1" in data && data["II1"] == JInt(123)
    requires "PV" in data && data["PV"] == JString("123")
    ensures SensorReading(data, "II1", parseFloat) == Scaled(12.3, Some(1))
    ensures SensorReading(data, "PV", parseFloat) == Raw(JString("123"))
  {
  }

  /** The attribute name of the last successful poll's time. */
  const LastReportTime: string := "last_report_time"

  /**
   * `extra_state_attributes`: `last_report_time` (the time in ISO form, as
   * `isoformat` writes it) exactly when a poll has succeeded, and nothing else.
   * The `None` case is never met by a sensor: `last_success_time` is assigned
   * only by a successful poll, and sensors are created only after the first
   * refresh succeeded (before that, reading the attribute would raise).
   */
  function ExtraStateAttributes(lastSuccess: Option<Time>, isoformat: Time -> string): (attrs: map<string, string>)
    ensures LastReportTime in attrs <==> lastSuccess.Some?
    ensures attrs.Keys <= {LastReportTime}
    ensures lastSuccess.Some? ==> attrs[LastReportTime] == isoformat(lastSuccess.value)
  {
    if lastSuccess.Some? then map[LastReportTime := isoformat(lastSuccess.value)] else map[]
  }

  /** What `SunlitSensor.__init__` fixes for one key. */
  datatype SensorEntity = SensorEntity(key: string, uniqueId: string, translationKey: string, scaling: Scaling)

  function DescribeSensor(entryId: string, key: string): SensorEntity
  {
    SensorEntity(key, EntityNaming.UniqueId(entryId, key), EntityNaming.TranslationKey(key), ScalingOf(key))
  }

  /** `async_setup_entry`: one entity per key of the list, in the same order. */
  method SetupSensors(entryId: string, keys: seq<string>) returns (entities: seq<SensorEntity>)
    ensures |entities| == |keys|
    ensures forall i :: 0 <= i < |keys| ==> entities[i] == DescribeSensor(entryId, keys[i])
  {
    entities := [];
    for i := 0 to |keys|
      invariant |entities| == i
      invariant forall j :: 0 <= j < i ==> entities[j] == DescribeSensor(entryId, keys[j])
    {
      entities := entities + [DescribeSensor(entryId, keys[i])];
    }
  }

  /** The position of a key in the sensor key list, decided character by character; -1 for any other key. */
  function KeyRank(k: string): int
  {
    if |k| < 2 || |k| > 3 then -1
    else if k[0] == 'W' then (
      if k[1] == 'S' then (if |k| == 2 then 0 else -1) else
      if k[1] == 'R' then (if |k| == 2 then 1 else -1) else -1)
    else if k[0] == 'S' then (
      if k[1] == 'T' then (if |k| == 2 then 2 else -1) else
      if k[1] == 'C' then (if |k| == 2 then 23 else if k[2] == '0' then 24 else if k[2] == '1' then 25 else if k[2] == '2' then 26 else if k[2] == '3' then 27 else if k[2] == '4' then 28 else if k[2] == '5' then 29 else -1) else
      if k[1] == 'N' then (if |k| == 2 then 40 else -1) else -1)
    else if k[0] == 'I' then (
      if k[1] == 'W' then (if |k| == 2 then 3 else -1) else
      if k[1] == 'I' then (if |k| == 3 then (if k[2] == '1' then 10 else if k[2] == '2' then 11 else if k[2] == '3' then 12 else if k[2] == '4' then 13 else -1) else -1) else -1)
    else if k[0] == 'O' then (
      if k[1] == 'P' then (if |k| == 2 then 4 else -1) else
      if k[1] == 'N' then (if |k| == 2 then 30 else -1) else -1)
    else if k[0] == 'P' then (
      if k[1] == 'V' then (if |k| == 2 then 5 else if k[2] == '1' then 6 else if k[2] == '2' then 7 else if k[2] == '3' then 8 else if k[2] == '4' then 9 else -1) else -1)
    else if k[0] == 'V' then (
      if k[1] == 'P' then (if |k| == 3 then (if k[2] == '1' then 14 else if k[2] == '2' then 15 else if k[2] == '3' then 16 else if k[2] == '4' then 17 else -1) else -1) else -1)
    else if k[0] == 'G' then (
      if k[1] == 'P' then (if |k| == 2 then 18 else -1) else
      if k[1] == 'D' then (if |k| == 3 then (if k[2] == '1' then 20 else if k[2] == '2' then 21 else -1) else -1) else -1)
    else if k[0] == 'L' then (
      if k[1] == 'P' then (if |k| == 2 then 19 else -1) else
      if k[1] == 'D' then (if |k| == 2 then 22 else -1) else -1)
    else if k[0] == 'E' then (
      if k[1] == 'S' then (if |k| == 2 then 31 else -1) else -1)
    else if k[0] == 'B' then (
      if k[1] == 'S' then (if |k| == 3 then (if k[2] == '0' then 32 else if k[2] == '1' then 33 else if k[2] == '2' then 34 else if k[2] == '3' then 35 else if k[2] == '4' then 36 else if k[2] == '5' then 37 else -1) else -1) else -1)
    else if k[0] == 'A' then (
      if k[1] == 'S' then (if |k| == 2 then 38 else -1) else -1)
    else if k[0] == 'D' then (
      if k[1] == 'S' then (if |k| == 2 then 39 else -1) else -1)
    else if k[0] == 'M' then (
      if k[1] == 'S' then (if |k| == 2 then 41 else -1) else -1)
    else -1
  }

  /** The sensor key list has 42 keys and none twice. */
  lemma SensorKeysDistinct()
    ensures |SensorKeys| == 42
    ensures forall i, j :: 0 <= i < j < |SensorKeys| ==> SensorKeys[i] != SensorKeys[j]
  {
    forall i | 0 <= i < |SensorKeys|
      ensures KeyRank(SensorKeys[i]) == i
    {
    }
  }

  /**
   * `async_setup_entry` on its own key list: 42 entities, one per key, with
   * pairwise distinct unique ids.
   */
  method SetupDefaultSensors(entryId: string) returns (entities: seq<SensorEntity>)
    ensures |entities| == 42
    ensures forall i :: 0 <= i < 42 ==> entities[i] == DescribeSensor(entryId, SensorKeys[i])
    ensures forall i, j :: 0 <= i < j < 42 ==> entities[i].uniqueId != entities[j].uniqueId
  {
    entities := SetupSensors(entryId, SensorKeys);
    SensorKeysDistinct();
    forall i, j | 0 <= i < j < 42
      ensures entities[i].uniqueId != entities[j].uniqueId
    {
      SensorUniqueIdsDistinct(entryId, SensorKeys, entities, i, j);
    }
  }

  /** Distinct keys give entities with distinct unique ids. */
  lemma SensorUniqueIdsDistinct(entryId: string, keys: seq<string>, entities: seq<SensorEntity>, i: int, j: int)
    requires |entities| == |keys|
    requires forall k :: 0 <= k < |keys| ==> entities[k] == DescribeSensor(entryId, keys[k])
    requires 0 <= i < |keys| && 0 <= j < |keys| && keys[i] != keys[j]
    ensures entities[i].uniqueId != entities[j].uniqueId
  {
  }
}
