/**
 * Setting up and unloading a config entry (__init__.py): the connection test,
 * the coordinator's first refresh, and the per-entry record kept in
 * `hass.data["sunenergyxt"]`.
 */
module Integration {
  import opened Wrappers
  import opened JsonValue
  import opened Http
  import opened UpdateCoordinator
  import Const

  /** A config entry as the flow created it: its id and its string-valued data. */
  datatype ConfigEntry = ConfigEntry(entryId: string, data: map<string, string>)

  /** The record stored per entry: `{"sn", "ip", "model", "coordinator"}`. */
  datatype EntryRuntime = EntryRuntime(sn: Option<string>, ip: Option<string>, model: Option<string>,
                                       coordinator: Coordinator)

  type Registry = map<string, map<string, EntryRuntime>>

  /** How `async_setup_entry` ends. */
  datatype SetupOutcome = Loaded | EntryNotReady(cause: Failure)

  /** How `async_unload_entry` ends: its boolean, or the KeyError of a missing domain. */
  datatype UnloadOutcome = Unloaded(ok: bool) | DomainKeyError

  /** Python `dict.get` on the entry's data. */
  function EntryGet(data: map<string, string>, key: string): Option<string>
  {
    if key in data then Some(data[key]) else None
  }

  /**
   * `_test_connection`: the device is reachable when GET /read answers
   * exactly 200 with a body that decodes as JSON; otherwise the cause.
   */
  function TestConnection(reply: Exchange): (r: Outcome<Failure>)
    ensures r.Pass? <==> reply.Reply? && reply.status == StatusOk && reply.body.Some?
    ensures reply.Unreachable? ==> r == Fail(Transport)
    ensures reply.Reply? && reply.status != StatusOk ==> r == Fail(HttpStatus(reply.status))
    ensures reply.Reply? && reply.status == StatusOk && reply.body.None? ==> r == Fail(Undecodable)
  {
    match reply
    case Unreachable => Fail(Transport)
    case Reply(status, _, body) =>
      if status != StatusOk then Fail(HttpStatus(status))
      else if body.None? then Fail(Undecodable)
      else Pass
  }

  /** `hass.data.setdefault(DOMAIN, {})`: the domain gets an empty table unless it has one. */
  function WithDomain(d: Registry): (r: Registry)
    ensures Const.Domain in r
    ensures r.Keys == d.Keys + {Const.Domain}
    ensures forall k | k in d :: r[k] == d[k]
    ensures Const.Domain !in d ==> r[Const.Domain] == map[]
  {
    if Const.Domain in d then d else d[Const.Domain := map[]]
  }

  /** `hass.data[DOMAIN][entry_id] = record`. */
  function Register(d: Registry, entryId: string, rt: EntryRuntime): (r: Registry)
    requires Const.Domain in d
    ensures r.Keys == d.Keys && Const.Domain in r
    ensures forall k | k in d && k != Const.Domain :: r[k] == d[k]
    ensures entryId in r[Const.Domain] && r[Const.Domain][entryId] == rt
    ensures r[Const.Domain].Keys == d[Const.Domain].Keys + {entryId}
    ensures forall e | e in d[Const.Domain] && e != entryId :: r[Const.Domain][e] == d[Const.Domain][e]
  {
    d[Const.Domain := d[Const.Domain][entryId := rt]]
  }

  /** `hass.data[DOMAIN].pop(entry_id, None)`: a missing id is not an error. */
  function Unregister(d: Registry, entryId: string): (r: Registry)
    requires Const.Domain in d
    ensures r.Keys == d.Keys && Const.Domain in r
    ensures forall k | k in d && k != Const.Domain :: r[k] == d[k]
    ensures r[Const.Domain].Keys == d[Const.Domain].Keys - {entryId}
    ensures forall e | e in r[Const.Domain] :: r[Const.Domain][e] == d[Const.Domain][e]
  {
    d[Const.Domain := d[Const.Domain] - {entryId}]
  }

  /** Unloading an entry that setup registered gives back the registry it started from. */
  lemma UnloadUndoesSetup(d: Registry, entryId: string, rt: EntryRuntime)
    requires Const.Domain in d && entryId !in d[Const.Domain]
    ensures Unregister(Register(d, entryId, rt), entryId) == d
  {
    var r := Unregister(Register(d, entryId, rt), entryId);
    assert r[Const.Domain] == d[Const.Domain];
  }

  /** Unloading twice is the same as unloading once. */
  lemma UnregisterIdempotent(d: Registry, entryId: string)
    requires Const.Domain in d
    ensures Unregister(Unregister(d, entryId), entryId) == Unregister(d, entryId)
  {
    var once := Unregister(d, entryId);
    assert Unregister(once, entryId)[Const.Domain] == once[Const.Domain];
  }

  /** `hass.data`, restricted to what this integration touches. */
  class HassData {
    var domains: Registry

    constructor (domains: Registry)
      ensures this.domains == domains
    {
      this.domains := domains;
    }

    /**
     * `async_setup_entry`. The domain's table is created first in any case.
     * A failed connection test, or a failed first refresh (which the
     * coordinator framework turns into ConfigEntryNotReady), leaves nothing
     * else stored. Otherwise a new coordinator holding the first poll's data
     * is recorded under the entry's id, together with the entry's sn, ip and
     * model, and no other entry changes.
     */
    method SetupEntry(entry: ConfigEntry, probe: Exchange, firstPoll: Exchange, now: Time)
      returns (r: SetupOutcome)
      modifies this
      ensures TestConnection(probe).Fail? ==>
        r == EntryNotReady(TestConnection(probe).error) && domains == WithDomain(old(domains))
      ensures (TestConnection(probe).Pass? && ClassifyRead(firstPoll).Failure?) ==>
        r == EntryNotReady(ClassifyRead(firstPoll).error) && domains == WithDomain(old(domains))
      ensures r.Loaded? <==> TestConnection(probe).Pass? && ClassifyRead(firstPoll).Success?
      ensures r.Loaded? ==>
        exists c: Coordinator ::
          && fresh(c)
          && domains == Register(WithDomain(old(domains)), entry.entryId,
               EntryRuntime(EntryGet(entry.data, "sn"), EntryGet(entry.data, "ip"), EntryGet(entry.data, "model"), c))
          && c.sn == EntryGet(entry.data, "sn") && c.ip == EntryGet(entry.data, "ip")
          && c.data == ClassifyRead(firstPoll).value && c.lastSuccess == Some(now)
    {
      domains := WithDomain(domains);
      var sn := EntryGet(entry.data, "sn");
      var ip := EntryGet(entry.data, "ip");
      var model := EntryGet(entry.data, "model");
      var probed := TestConnection(probe);
      if probed.Fail? {
        return EntryNotReady(probed.error);
      }
      var c := new Coordinator(sn, ip);
      var first := c.Refresh(firstPoll, now);
      if first.Failure? {
        return EntryNotReady(first.error);
      }
      domains := Register(domains, entry.entryId, EntryRuntime(sn, ip, model, c));
      r := Loaded;
    }

    /**
     * `async_unload_entry`. When the platforms did not unload, nothing changes
     * and the result is false. Otherwise the entry's record is dropped (a
     * missing one is no error), unless the domain's table itself is missing,
     * where the lookup raises KeyError.
     */
    method UnloadEntry(entry: ConfigEntry, platformsUnloaded: bool) returns (r: UnloadOutcome)
      modifies this
      ensures !platformsUnloaded ==> r == Unloaded(false) && domains == old(domains)
      ensures platformsUnloaded && Const.Domain !in old(domains) ==> r == DomainKeyError && domains == old(domains)
      ensures (platformsUnloaded && Const.Domain in old(domains)) ==>
        r == Unloaded(true) && domains == Unregister(old(domains), entry.entryId)
    {
      if !platformsUnloaded {
        return Unloaded(false);
      }
      if Const.Domain !in domains {
        return DomainKeyError;
      }
      domains := Unregister(domains, entry.entryId);
      r := Unloaded(true);
    }
  }
}
