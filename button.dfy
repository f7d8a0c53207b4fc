/** Button entities (button.py): a press posts 1 for the button's key. */
module ButtonPlatform {
  import opened Wrappers
  import opened JsonValue
  import opened Http
  import opened UpdateCoordinator
  import EntityNaming

  /** A button entity. It holds the coordinator but never changes its data. */
  class SunlitButton {
    const coordinator: Coordinator
    const key: string
    const ip: Option<string>
    const uniqueId: string
    const translationKey: string

    constructor (coordinator: Coordinator, entryId: string, key: string, ip: Option<string>)
      ensures this.coordinator == coordinator && this.key == key && this.ip == ip
      ensures uniqueId == EntityNaming.UniqueId(entryId, key)
      ensures translationKey == EntityNaming.TranslationKey(key)
    {
      this.coordinator := coordinator;
      this.key := key;
      this.ip := ip;
      uniqueId := EntityNaming.UniqueId(entryId, key);
      translationKey := EntityNaming.TranslationKey(key);
    }

    /**
     * `async_press`: send `{"state": {key: 1}}`; `reply` is the device's
     * answer. A non-200 answer raises `HTTP {status}: {text}` and a transport
     * error is re-raised. The method modifies nothing, on success or failure.
     */
    method Press(reply: Exchange) returns (sent: Json, r: Outcome<Failure>)
      ensures sent == WritePayload(map[key := JInt(1)])
      ensures r == WriteResult(reply)
    {
      sent := WritePayload(map[key := JInt(1)]);
      r := WriteResult(reply);
    }
  }
}
