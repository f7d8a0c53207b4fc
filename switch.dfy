/**
 * Switch entities (switch.py): a key of the coordinator's data read as
 * `bool(int(raw))`, and writes of 1 (on) or 0 (off).
 */
module SwitchPlatform {
  import opened Wrappers
  import opened JsonValue
  import opened PyBuiltins
  import opened Http
  import opened UpdateCoordinator
  import EntityNaming

  /** The value a switch sends and stores: `1 if is_on else 0`. */
  function SwitchValue(isOn: bool): (v: int)
    ensures v == 0 || v == 1
    ensures v != 0 <==> isOn
  {
    if isOn then 1 else 0
  }

  /**
   * `is_on`: `bool(int(raw))`, and False when the key is absent or null.
   * None stands for the TypeError or ValueError `int()` raises, which the
   * property does not catch. How `int()` reads a string is `parseInt`.
   */
  function SwitchReading(data: map<string, Json>, key: string, parseInt: string -> Option<int>): (r: Option<bool>)
    ensures key !in data || data[key].JNull? ==> r == Some(false)
    ensures key in data && data[key].JInt? ==> r == Some(data[key].i != 0)
    ensures key in data && data[key].JBool? ==> r == Some(data[key].b)
    ensures key in data && data[key].JFloat? ==> r == Some(Trunc(data[key].r) != 0)
    ensures key in data && data[key].JString? ==>
      r == (if parseInt(data[key].s).Some? then Some(parseInt(data[key].s).value != 0) else None)
    ensures key in data && (data[key].JArray? || data[key].JObject?) ==> r == None
  {
    var raw := Lookup(data, key);
    if IsNone(raw) then Some(false)
    else match IntOf(raw.value, parseInt)
      case Some(n) => Some(n != 0)
      case None => None
  }

  /** A stored switch value reads back as the state that was written. */
  lemma SwitchValueReadsBack(data: map<string, Json>, key: string, isOn: bool, parseInt: string -> Option<int>)
    ensures SwitchReading(data[key := JInt(SwitchValue(isOn))], key, parseInt) == Some(isOn)
  {
  }

  /** A switch entity: one key of the shared coordinator. */
  class SunlitSwitch {
    const coordinator: Coordinator
    const key: string
    const ip: Option<string>
    const uniqueId: string
    const translationKey: string

    constructor (coordinator: Coordinator, entryId: string, key: string, ip: Option<string>)
      ensures this.coordinator == coordinator && this.key == key && this.ip == ip
      ensures uniqueId == EntityNaming.UniqueId(entryId, key)
      ensures translationKey == EntityNaming.TranslationKey(key)
    {
      this.coordinator := coordinator;
      this.key := key;
      this.ip := ip;
      uniqueId := EntityNaming.UniqueId(entryId, key);
      translationKey := EntityNaming.TranslationKey(key);
    }

    /** `is_on`: this entity's key of the shared data, read as `bool(int(raw))`. */
    function IsOn(parseInt: string -> Option<int>): (r: Option<bool>)
      reads coordinator
      ensures key !in coordinator.data || coordinator.data[key].JNull? ==> r == Some(false)
      ensures key in coordinator.data && coordinator.data[key].JInt? ==> r == Some(coordinator.data[key].i != 0)
    {
      SwitchReading(coordinator.data, key, parseInt)
    }

    /**
     * `_async_write_switch`: send `{"state": {key: 1 or 0}}`; `reply` is the
     * device's answer. A rejected or failed post is raised and leaves `data` as
     * it was; an accepted one sets `data[key]` and nothing else, after which
     * `is_on` reports the requested state.
     */
    method WriteSwitch(isOn: bool, reply: Exchange) returns (sent: Json, r: Outcome<Failure>)
      modifies coordinator
      ensures sent == WritePayload(map[key := JInt(SwitchValue(isOn))])
      ensures r == WriteResult(reply)
      ensures coordinator.data ==
        if r.Pass? then old(coordinator.data)[key := JInt(SwitchValue(isOn))] else old(coordinator.data)
      ensures r.Pass? ==> coordinator.data == old(coordinator.data) + PayloadState(sent).value
      ensures r.Pass? ==> forall pi :: IsOn(pi) == Some(isOn)
      ensures coordinator.lastSuccess == old(coordinator.lastSuccess)
    {
      var value := SwitchValue(isOn);
      sent := WritePayload(map[key := JInt(value)]);
      r := WriteResult(reply);
      if r.Fail? {
        return;
      }
      coordinator.data := coordinator.data[key := JInt(value)];
    }

    /** `async_turn_on`: write 1. */
    method TurnOn(reply: Exchange) returns (sent: Json, r: Outcome<Failure>)
      modifies coordinator
      ensures sent == WritePayload(map[key := JInt(1)])
      ensures r == WriteResult(reply)
      ensures coordinator.data == if r.Pass? then old(coordinator.data)[key := JInt(1)] else old(coordinator.data)
      ensures r.Pass? ==> forall pi :: IsOn(pi) == Some(true)
      ensures coordinator.lastSuccess == old(coordinator.lastSuccess)
    {
      sent, r := WriteSwitch(true, reply);
    }

    /** `async_turn_off`: write 0. */
    method TurnOff(reply: Exchange) returns (sent: Json, r: Outcome<Failure>)
      modifies coordinator
      ensures sent == WritePayload(map[key := JInt(0)])
      ensures r == WriteResult(reply)
      ensures coordinator.data == if r.Pass? then old(coordinator.data)[key := JInt(0)] else old(coordinator.data)
      ensures r.Pass? ==> forall pi :: IsOn(pi) == Some(false)
      ensures coordinator.lastSuccess == old(coordinator.lastSuccess)
    {
      sent, r := WriteSwitch(false, reply);
    }
  }
}
