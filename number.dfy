/**
 * Number entities (number.py): a reading of one key of the coordinator's data
 * as a float, and a write that clamps the requested value to the entity's
 * bounds, posts it, and patches the shared data when the device accepts it.
 */
module NumberPlatform {
  import opened Wrappers
  import opened JsonValue
  import opened PyBuiltins
  import opened Http
  import opened UpdateCoordinator
  import EntityNaming

  datatype Bounds = Bounds(min: int, max: int)

  /** `min_value` and `max_value` of NUMBER_META (its step, unit and icon are presentation). */
  const NumberMeta: map<string, Bounds> := map[
    "GS" := Bounds(-2400, 2400),
    "IS" := Bounds(1, 2400),
    "SI" := Bounds(1, 30),
    "SA" := Bounds(70, 100),
    "SO" := Bounds(1, 30),
    "PT" := Bounds(30, 1440)
  ]

  /** The model whose grid and inverter limits are capped lower. */
  const SmallModel: string := "SunEnergyXT 500"
  const SmallModelMaxPower: int := 800

  /**
   * The bounds `SunlitNumber.__init__` sets up: those of NUMBER_META, except
   * that a "SunEnergyXT 500" caps GS and IS at 800. Every bound in the table
   * is non-zero, so the `if min_value:` and `if max_value:` tests always assign.
   */
  function EntityBounds(key: string, model: Option<string>): (b: Bounds)
    requires key in NumberMeta
    ensures b.min == NumberMeta[key].min
    ensures model != Some(SmallModel) || (key != "GS" && key != "IS") ==> b.max == NumberMeta[key].max
    ensures b.min <= b.max
  {
    var meta := NumberMeta[key];
    if model == Some(SmallModel) && (key == "GS" || key == "IS") then Bounds(meta.min, SmallModelMaxPower)
    else meta
  }

  /** On a "SunEnergyXT 500" the grid setting spans -2400..800 and the inverter setting 1..800. */
  lemma SmallModelBounds()
    ensures EntityBounds("GS", Some(SmallModel)) == Bounds(-2400, 800)
    ensures EntityBounds("IS", Some(SmallModel)) == Bounds(1, 800)
  {
  }

  /** Python `min(a, b)` and `max(a, b)` on numbers. */
  function PyMin(a: real, b: real): real { if b < a then b else a }
  function PyMax(a: real, b: real): real { if b > a then b else a }

  /**
   * `int(max(min_value, min(max_value, value)))`: the value sent to the device.
   * With sound bounds it lies within them; a value below or above them becomes
   * the nearer bound and one between them is truncated toward zero.
   */
  function ClampToInt(value: real, b: Bounds): (v: int)
    ensures b.min <= b.max ==> b.min <= v <= b.max
    ensures b.min as real <= value <= b.max as real ==> v == Trunc(value)
    ensures b.min <= b.max && value <= b.min as real ==> v == b.min
    ensures b.min <= b.max && value >= b.max as real ==> v == b.max
  {
    var c := PyMax(b.min as real, PyMin(b.max as real, value));
    assert b.min <= b.max ==>
      (b.min <= Trunc(c) <= b.max && Trunc(b.min as real) == b.min && Trunc(b.max as real) == b.max) by {
      if b.min <= b.max {
        TruncOfInteger(b.min);
        TruncOfInteger(b.max);
        TruncWithinIntegers(c, b.min, b.max);
      }
    }
    Trunc(c)
  }

  /** Truncation keeps a real between two integers between them. */
  lemma TruncWithinIntegers(x: real, lo: int, hi: int)
    requires lo as real <= x <= hi as real
    ensures lo <= Trunc(x) <= hi
  {
  }

  /** An integer already within the bounds is sent unchanged. */
  lemma ClampKeepsInRangeInteger(n: int, b: Bounds)
    requires b.min <= n <= b.max
    ensures ClampToInt(n as real, b) == n
  {
  }

  /** Clamping what clamping produced changes nothing. */
  lemma ClampIdempotent(value: real, b: Bounds)
    requires b.min <= b.max
    ensures ClampToInt(ClampToInt(value, b) as real, b) == ClampToInt(value, b)
  {
  }

  /** A request of 5000 W for GS against -2400..2400 sends 2400. */
  lemma ClampGridSetting()
    ensures ClampToInt(5000.0, NumberMeta["GS"]) == 2400
  {
  }

  /**
   * `native_value`: the key absent or null reads as None, and so does a value
   * `float()` rejects; it never raises.
   */
  function NumberReading(data: map<string, Json>, key: string, parseFloat: string -> Option<real>): (r: Option<real>)
    ensures key !in data || data[key].JNull? ==> r == None
    ensures key in data && data[key].JInt? ==> r == Some(data[key].i as real)
    ensures key in data && data[key].JFloat? ==> r == Some(data[key].r)
    ensures key in data && data[key].JBool? ==> r == Some(if data[key].b then 1.0 else 0.0)
    ensures key in data && data[key].JString? ==> r == parseFloat(data[key].s)
    ensures key in data && (data[key].JArray? || data[key].JObject?) ==> r == None
    ensures key in data && FloatOf(data[key], parseFloat).None? ==> r == None
  {
    var raw := Lookup(data, key);
    if IsNone(raw) then None else FloatOf(raw.value, parseFloat)
  }

  /** A number entity: one key of the shared coordinator, with its bounds. */
  class SunlitNumber {
    const coordinator: Coordinator
    const key: string
    const ip: Option<string>
    const bounds: Bounds
    const uniqueId: string
    const translationKey: string

    ghost predicate Valid()
    {
      bounds.min <= bounds.max
    }

    constructor (coordinator: Coordinator, entryId: string, key: string, ip: Option<string>, model: Option<string>)
      requires key in NumberMeta
      ensures Valid()
      ensures this.coordinator == coordinator && this.key == key && this.ip == ip
      ensures bounds == EntityBounds(key, model)
      ensures uniqueId == EntityNaming.UniqueId(entryId, key)
      ensures translationKey == EntityNaming.TranslationKey(key)
    {
      this.coordinator := coordinator;
      this.key := key;
      this.ip := ip;
      bounds := EntityBounds(key, model);
      uniqueId := EntityNaming.UniqueId(entryId, key);
      translationKey := EntityNaming.TranslationKey(key);
    }

    /** `native_value`: this entity's key of the shared data, read as a float. */
    function NativeValue(parseFloat: string -> Option<real>): (r: Option<real>)
      reads coordinator
      ensures key !in coordinator.data || coordinator.data[key].JNull? ==> r == None
      ensures key in coordinator.data && coordinator.data[key].JInt? ==> r == Some(coordinator.data[key].i as real)
      ensures key in coordinator.data && FloatOf(coordinator.data[key], parseFloat).None? ==> r == None
    {
      NumberReading(coordinator.data, key, parseFloat)
    }

    /**
     * `async_set_native_value`: send `{"state": {key: value_int}}` with the
     * clamped value; `reply` is the device's answer. A rejected or failed post
     * is raised and leaves `data` as it was; an accepted one sets `data[key]`
     * and nothing else, so the entity then reads the value it sent.
     */
    method SetNativeValue(value: real, reply: Exchange) returns (sent: Json, r: Outcome<Failure>)
      requires Valid()
      modifies coordinator
      ensures var v := ClampToInt(value, bounds);
        && bounds.min <= v <= bounds.max
        && sent == WritePayload(map[key := JInt(v)])
        && coordinator.data == (if r.Pass? then old(coordinator.data)[key := JInt(v)] else old(coordinator.data))
      ensures r == WriteResult(reply)
      ensures r.Pass? ==> coordinator.data == old(coordinator.data) + PayloadState(sent).value
      ensures r.Pass? ==> forall pf :: NativeValue(pf) == Some(ClampToInt(value, bounds) as real)
      ensures coordinator.lastSuccess == old(coordinator.lastSuccess)
    {
      var valueInt := ClampToInt(value, bounds);
      sent := WritePayload(map[key := JInt(valueInt)]);
      r := WriteResult(reply);
      if r.Fail? {
        return;
      }
      coordinator.data := coordinator.data[key := JInt(valueInt)];
    }
  }
}
