/**
 * Text entities (text.py): a key of the coordinator's data read as `str(raw)`,
 * and writes of a string. Writing MD also writes the companion switch MM,
 * derived from whether the text is blank.
 */
module TextPlatform {
  import opened Wrappers
  import opened JsonValue
  import opened PyBuiltins
  import opened Http
  import opened UpdateCoordinator
  import SwitchPlatform
  import EntityNaming

  /** The text key whose value decides MM. */
  const ModeKey: string := "MD"
  /** The key derived from MD. */
  const DerivedKey: string := "MM"

  /** `0 if value.strip() == "" else 1`: 0 exactly for a text made only of whitespace. */
  function MmFlag(value: string): (mm: int)
    ensures mm == 0 || mm == 1
    ensures mm == 0 <==> IsBlank(value)
  {
    StripEmptyIffBlank(value);
    if Strip(value) == "" then 0 else 1
  }

  /**
   * The `state` object a text write sends: MD carries MM beside it, every other
   * key only itself.
   */
  function TextUpdate(key: string, value: string): (u: map<string, Json>)
    ensures key in u && u[key] == JString(value)
    ensures key == ModeKey ==> u.Keys == {ModeKey, DerivedKey} && u[DerivedKey] == JInt(MmFlag(value))
    ensures key != ModeKey ==> u.Keys == {key}
  {
    if key == ModeKey then map[DerivedKey := JInt(MmFlag(value)), ModeKey := JString(value)]
    else map[key := JString(value)]
  }

  /** `native_value`: `str(raw)`, and "" when the key is absent or null. */
  function TextReading(data: map<string, Json>, key: string, reprOf: Json -> string): (r: string)
    ensures key !in data || data[key].JNull? ==> r == ""
    ensures key in data && data[key].JString? ==> r == data[key].s
    ensures key in data && data[key].JInt? ==> r == IntDecimal(data[key].i)
  {
    var raw := Lookup(data, key);
    if IsNone(raw) then "" else StrOf(raw.value, reprOf)
  }

  /**
   * After an accepted MD write the MM switch reads as on exactly when the text
   * is not blank.
   */
  lemma ModeWriteSetsMmSwitch(data: map<string, Json>, value: string, parseInt: string -> Option<int>)
    ensures SwitchPlatform.SwitchReading(data + TextUpdate(ModeKey, value), DerivedKey, parseInt)
            == Some(!IsBlank(value))
  {
  }

  /**
   * A text write patches its own key and, for MD, MM; every other key keeps
   * its value.
   */
  lemma TextUpdateFrame(data: map<string, Json>, key: string, value: string, k: string)
    requires k in data && k != key && (key == ModeKey ==> k != DerivedKey)
    ensures k in data + TextUpdate(key, value) && (data + TextUpdate(key, value))[k] == data[k]
  {
  }

  /** A text entity: one key of the shared coordinator. */
  class SunlitText {
    const coordinator: Coordinator
    const key: string
    const ip: Option<string>
    const uniqueId: string
    const translationKey: string

    constructor (coordinator: Coordinator, entryId: string, key: string, ip: Option<string>)
      ensures this.coordinator == coordinator && this.key == key && this.ip == ip
      ensures uniqueId == EntityNaming.UniqueId(entryId, key)
      ensures translationKey == EntityNaming.TranslationKey(key)
    {
      this.coordinator := coordinator;
      this.key := key;
      this.ip := ip;
      uniqueId := EntityNaming.UniqueId(entryId, key);
      translationKey := EntityNaming.TranslationKey(key);
    }

    /** `native_value`: this entity's key of the shared data, as text. */
    function NativeValue(reprOf: Json -> string): (r: string)
      reads coordinator
      ensures key !in coordinator.data || coordinator.data[key].JNull? ==> r == ""
      ensures key in coordinator.data && coordinator.data[key].JString? ==> r == coordinator.data[key].s
    {
      TextReading(coordinator.data, key, reprOf)
    }

    /**
     * `async_set_value` / `_async_write_switch`: send the text (and for MD the
     * derived MM); `reply` is the device's answer. A rejected or failed post
     * is raised and leaves `data` as it was. An accepted one sets `data[key]`,
     * and for MD also `data["MM"]` to the value it sent; no other key changes,
     * and the entity then reads the text it wrote.
     */
    method SetValue(value: string, reply: Exchange) returns (sent: Json, r: Outcome<Failure>)
      modifies coordinator
      ensures sent == WritePayload(TextUpdate(key, value))
      ensures r == WriteResult(reply)
      ensures coordinator.data ==
        if r.Pass? then old(coordinator.data) + PayloadState(sent).value else old(coordinator.data)
      ensures r.Pass? && key == ModeKey ==> coordinator.data[DerivedKey] == JInt(MmFlag(value))
      ensures r.Pass? ==> forall f :: NativeValue(f) == value
      ensures coordinator.lastSuccess == old(coordinator.lastSuccess)
    {
      var update := TextUpdate(key, value);
      sent := WritePayload(update);
      PayloadRoundTrip(update);
      r := WriteResult(reply);
      if r.Fail? {
        return;
      }
      // `data[key] = value`, then for MD `data["MM"] = ...`: together, the keys sent.
      coordinator.data := coordinator.data + update;
      assert coordinator.data[key] == JString(value);
    }
  }
}
