/**
 * The configuration flow (config_flow.py): probing a device for its serial
 * number and model, the user step, and Zeroconf discovery with its
 * confirmation step. The host's unique-id bookkeeping is an input: the reason
 * of the AbortFlow it raises, if any.
 */
module ConfigFlow {
  import opened Wrappers
  import opened JsonValue
  import opened PyBuiltins
  import opened Http
  import Const

  /** The exceptions the flow's steps tell apart. */
  datatype FlowError =
    | InvalidIP
    | CannotConnect
    | CannotGetSN
    | CannotGetModel
    | AbortFlow(reason: string)
    | Unexpected  // any other exception: an aiohttp or decoding error, AttributeError, KeyError

  datatype DeviceInfo = DeviceInfo(sn: string, model: string)

  /** The data of a created config entry: `{"ip": ..., "sn": ..., "model": ...}`. */
  datatype EntryData = EntryData(ip: string, sn: string, model: string)

  /** What a step returns (or raises). */
  datatype FlowResult =
    | ShowForm(stepId: string, errors: map<string, string>)
    | CreateEntry(title: string, data: EntryData)
    | Abort(reason: string)
    | Raise(error: FlowError)

  const UserStepId: string := "user"
  const ConfirmStepId: string := "zeroconf_confirm"
  const AlreadyConfigured: string := "already_configured"
  const AlreadyInProgress: string := "already_in_progress"

  /** Python `d.get(key, default)`, raising AttributeError when `d` is not a dict. */
  function PyGet(d: Json, key: string, default: Json): Result<Json, FlowError>
  {
    if d.JObject? then Success(GetOr(d.fields, key, default)) else Failure(Unexpected)
  }

  /** The statements inside `_get_device_info`'s try block, up to the exception they raise. */
  function ProbeDevice(reply: Exchange): Result<DeviceInfo, FlowError>
  {
    match reply
    case Unreachable => Failure(Unexpected)
    case Reply(status, _, body) =>
      if status != StatusOk then Failure(CannotConnect)
      else if body.None? then Failure(Unexpected)
      else match PyGet(body.value, "state", JObject(map[]))
        case Failure(e) => Failure(e)
        case Success(state) =>
          match PyGet(state, "reported", JObject(map[]))
          case Failure(e) => Failure(e)
          case Success(reported) =>
            match PyGet(reported, "SN", JNull)
            case Failure(e) => Failure(e)
            case Success(sn) =>
              var model := GetOr(reported.fields, "DevType", JNull);
              if !sn.JString? then Failure(CannotGetSN)
              else if !model.JString? then Failure(CannotGetModel)
              else Success(DeviceInfo(sn.s, model.s))
  }

  /**
   * `_get_device_info`: the serial number and model of the device, when the
   * probe answered 200 and both `state.reported.SN` and `state.reported.DevType`
   * are strings. The catch-all turns every failure, a missing SN or DevType
   * included, into CannotConnect.
   */
  function GetDeviceInfo(reply: Exchange): (r: Result<DeviceInfo, FlowError>)
    ensures r.Failure? ==> r.error == CannotConnect
    ensures r.Success? <==>
      && reply.Reply? && reply.status == StatusOk && reply.body.Some?
      && At(reply.body.value, ["state", "reported", "SN"]).Some?
      && At(reply.body.value, ["state", "reported", "SN"]).value.JString?
      && At(reply.body.value, ["state", "reported", "DevType"]).Some?
      && At(reply.body.value, ["state", "reported", "DevType"]).value.JString?
    ensures r.Success? ==>
      && r.value.sn == At(reply.body.value, ["state", "reported", "SN"]).value.s
      && r.value.model == At(reply.body.value, ["state", "reported", "DevType"]).value.s
  {
    match ProbeDevice(reply)
    case Success(info) => Success(info)
    case Failure(_) => Failure(CannotConnect)
  }

  /** The base error key the user step records for an exception; None when it re-raises. */
  function UserErrorKey(e: FlowError): Option<string>
  {
    match e
    case InvalidIP => Some("invalid_ip")
    case CannotConnect => Some("cannot_connect")
    case CannotGetSN => Some("cannot_get_sn")
    case CannotGetModel => Some("cannot_get_model")
    case AbortFlow(reason) =>
      if reason == AlreadyConfigured || reason == AlreadyInProgress then Some(reason) else None
    case Unexpected => Some("unknown")
  }

  /** The try block of the user step: the entry it would create, or the exception it raises. */
  function TryUser(input: map<string, string>, ipValid: string -> bool, probe: Exchange,
                   uniqueIdCheck: Option<string>): Result<EntryData, FlowError>
  {
    if "IP" !in input then Failure(Unexpected)
    else
      var ip := input["IP"];
      if !ipValid(ip) then Failure(InvalidIP)
      else match GetDeviceInfo(probe)
        case Failure(e) => Failure(e)
        case Success(info) =>
          if uniqueIdCheck.Some? then Failure(AbortFlow(uniqueIdCheck.value))
          else Success(EntryData(ip, info.sn, info.model))
  }

  /**
   * `async_step_user`. Without input it shows the empty form. With input it
   * creates the entry `{ip, sn, model}` only when nothing failed; otherwise it
   * shows the form again with one base error: invalid_ip, cannot_connect,
   * already_configured, already_in_progress or unknown. Any other AbortFlow
   * is re-raised. The handlers for CannotGetSN and CannotGetModel are never
   * reached, because the device probe reports both as CannotConnect.
   */
  function UserStep(userInput: Option<map<string, string>>, ipValid: string -> bool, probe: Exchange,
                    uniqueIdCheck: Option<string>): (r: FlowResult)
    ensures userInput.None? ==> r == ShowForm(UserStepId, map[])
    ensures r.CreateEntry? <==>
      userInput.Some? && "IP" in userInput.value && ipValid(userInput.value["IP"])
      && GetDeviceInfo(probe).Success? && uniqueIdCheck.None?
    ensures r.CreateEntry? ==>
      r.data == EntryData(userInput.value["IP"], GetDeviceInfo(probe).value.sn, GetDeviceInfo(probe).value.model)
      && r.title == r.data.model
    ensures userInput.Some? && "IP" !in userInput.value ==> r == ShowForm(UserStepId, map["base" := "unknown"])
    ensures userInput.Some? && "IP" in userInput.value && !ipValid(userInput.value["IP"]) ==>
      r == ShowForm(UserStepId, map["base" := "invalid_ip"])
    ensures (userInput.Some? && "IP" in userInput.value && ipValid(userInput.value["IP"])
             && GetDeviceInfo(probe).Failure?) ==> r == ShowForm(UserStepId, map["base" := "cannot_connect"])
    ensures (userInput.Some? && "IP" in userInput.value && ipValid(userInput.value["IP"])
             && GetDeviceInfo(probe).Success? && uniqueIdCheck.Some?) ==>
      r == (if uniqueIdCheck.value in {AlreadyConfigured, AlreadyInProgress}
            then ShowForm(UserStepId, map["base" := uniqueIdCheck.value])
            else Raise(AbortFlow(uniqueIdCheck.value)))
    ensures r.ShowForm? && "base" in r.errors ==> r.errors["base"] !in {"cannot_get_sn", "cannot_get_model"}
    ensures !r.Abort?
  {
    if userInput.None? then ShowForm(UserStepId, map[])
    else match TryUser(userInput.value, ipValid, probe, uniqueIdCheck)
      case Success(data) => CreateEntry(data.model, data)
      case Failure(e) =>
        match UserErrorKey(e)
        case None => Raise(e)
        case Some(key) => ShowForm(UserStepId, map["base" := key])
  }

  /** Host names that are not the device's never yield a serial number. */
  lemma PrefixAndSuffixDoNotOverlap(h: string)
    requires StartsWith(h, Const.HostPrefix) && EndsWith(h, Const.HostSuffix)
    ensures |h| >= |Const.HostPrefix| + |Const.HostSuffix|
  {
    if |h| < |Const.HostPrefix| + |Const.HostSuffix| {
      // The prefix's final '_' would fall inside ".local", which has none.
      SharedCharacter(h, Const.HostPrefix, Const.HostSuffix, |Const.HostPrefix| - 1);
      assert false;
    }
  }

  lemma SharedCharacter(h: string, p: string, x: string, k: nat)
    requires StartsWith(h, p) && EndsWith(h, x) && k < |p| && |h| - |x| <= k
    ensures h[k] == p[k] == x[k - (|h| - |x|)]
  {
  }

  /**
   * The serial number in a Zeroconf host name: after trailing dots are
   * stripped, the name must start with "SunEnergyXT_AIO_" and end with
   * ".local", and the serial number is what lies between the two.
   */
  function HostnameSerial(hostname: string): (sn: Option<string>)
    ensures sn.Some? <==>
      StartsWith(RStrip(hostname, '.'), Const.HostPrefix) && EndsWith(RStrip(hostname, '.'), Const.HostSuffix)
    ensures sn.Some? ==> Const.HostPrefix + sn.value + Const.HostSuffix == RStrip(hostname, '.')
  {
    var h := RStrip(hostname, '.');
    if !(StartsWith(h, Const.HostPrefix) && EndsWith(h, Const.HostSuffix)) then None
    else
      var sn := Slice(h, |Const.HostPrefix|, -|Const.HostSuffix|);
      assert Const.HostPrefix + sn + Const.HostSuffix == h by {
        PrefixAndSuffixDoNotOverlap(h);
        assert sn == h[|Const.HostPrefix|..|h| - |Const.HostSuffix|];
        assert h == h[..|Const.HostPrefix|] + h[|Const.HostPrefix|..|h| - |Const.HostSuffix|]
                    + h[|h| - |Const.HostSuffix|..];
      }
      Some(sn)
  }

  /**
   * A device's own host name with its trailing dot yields its serial number,
   * whatever the serial is: the dots stripped stop at the "l" of ".local".
   */
  lemma HostnameRoundTrip(sn: string)
    ensures HostnameSerial(Const.HostPrefix + sn + Const.HostSuffix + ".") == Some(sn)
  {
    var h := Const.HostPrefix + sn + Const.HostSuffix;
    assert RStrip(h + ".", '.') == RStrip(h, '.');
    assert RStrip(h, '.') == h;
    assert h[..|Const.HostPrefix|] == Const.HostPrefix;
    assert h[|h| - |Const.HostSuffix|..] == Const.HostSuffix;
    var got := HostnameSerial(h + ".").value;
    assert Const.HostPrefix + got + Const.HostSuffix == h;
    assert got == h[|Const.HostPrefix|..|h| - |Const.HostSuffix|];
  }

  /** A serial ending in a dot survives: "SunEnergyXT_AIO_AB..local." gives "AB.". */
  lemma HostnameSerialKeepsInnerDot()
    ensures HostnameSerial("SunEnergyXT_AIO_AB..local.") == Some("AB.")
  {
    assert "SunEnergyXT_AIO_AB..local." == Const.HostPrefix + "AB." + Const.HostSuffix + ".";
    HostnameRoundTrip("AB.");
  }

  /**
   * The flow handler. Zeroconf discovery remembers the serial number, address
   * and model of the device it found for the confirmation step.
   */
  class SunlitConfigFlow {
    var discoveredSn: Option<string>
    var discoveredIp: Option<string>
    var discoveredModel: Option<string>

    constructor ()
      ensures discoveredSn == None && discoveredIp == None && discoveredModel == None
    {
      discoveredSn, discoveredIp, discoveredModel := None, None, None;
    }

    /**
     * `async_step_zeroconf`: a host name that is not the device's aborts with
     * "not_device"; a missing "model" property raises KeyError; an AbortFlow
     * from the unique-id check propagates. Otherwise the discovery is
     * remembered and the confirmation form is shown.
     */
    method StepZeroconf(hostname: string, host: string, properties: map<string, string>,
                        uniqueIdCheck: Option<string>) returns (r: FlowResult)
      modifies this
      ensures HostnameSerial(hostname).None? ==> r == Abort("not_device")
      ensures HostnameSerial(hostname).Some? && "model" !in properties ==> r == Raise(Unexpected)
      ensures HostnameSerial(hostname).Some? && "model" in properties && uniqueIdCheck.Some? ==>
        r == Raise(AbortFlow(uniqueIdCheck.value))
      ensures r.ShowForm? <==> HostnameSerial(hostname).Some? && "model" in properties && uniqueIdCheck.None?
      ensures r.ShowForm? ==>
        && r == ShowForm(ConfirmStepId, map[])
        && discoveredSn == HostnameSerial(hostname) && discoveredIp == Some(host)
        && discoveredModel == Some(properties["model"])
      ensures !r.ShowForm? ==>
        discoveredSn == old(discoveredSn) && discoveredIp == old(discoveredIp)
        && discoveredModel == old(discoveredModel)
    {
      var sn := HostnameSerial(hostname);
      if sn.None? {
        return Abort("not_device");
      }
      if "model" !in properties {
        return Raise(Unexpected);
      }
      var model := properties["model"];
      if uniqueIdCheck.Some? {
        return Raise(AbortFlow(uniqueIdCheck.value));
      }
      discoveredSn := sn;
      discoveredIp := Some(host);
      discoveredModel := Some(model);
      r := ShowForm(ConfirmStepId, map[]);
    }

    /**
     * `async_step_zeroconf_confirm`. Without confirmation it shows the form.
     * With it: an address that is missing or invalid has no handler of its own
     * and aborts with "unknown"; a failed probe aborts with "cannot_connect";
     * "already_configured" aborts with that reason and any other AbortFlow is
     * re-raised; otherwise the entry is created from the discovered address
     * and the probed serial number and model.
     */
    method StepZeroconfConfirm(confirmed: bool, ipValid: string -> bool, probe: Exchange,
                               uniqueIdCheck: Option<string>) returns (r: FlowResult)
      ensures !confirmed ==> r == ShowForm(ConfirmStepId, map[])
      ensures confirmed && (discoveredIp.None? || !ipValid(discoveredIp.value)) ==> r == Abort("unknown")
      ensures confirmed && discoveredIp.Some? && ipValid(discoveredIp.value) && GetDeviceInfo(probe).Failure? ==>
        r == Abort("cannot_connect")
      ensures (confirmed && discoveredIp.Some? && ipValid(discoveredIp.value) && GetDeviceInfo(probe).Success?
               && uniqueIdCheck.Some?) ==>
        r == (if uniqueIdCheck.value == AlreadyConfigured then Abort(AlreadyConfigured)
              else Raise(AbortFlow(uniqueIdCheck.value)))
      ensures r.CreateEntry? <==>
        confirmed && discoveredIp.Some? && ipValid(discoveredIp.value) && GetDeviceInfo(probe).Success?
        && uniqueIdCheck.None?
      ensures r.CreateEntry? ==>
        var info := GetDeviceInfo(probe).value;
        r == CreateEntry(info.model, EntryData(discoveredIp.value, info.sn, info.model))
    {
      if !confirmed {
        return ShowForm(ConfirmStepId, map[]);
      }
      var ip := discoveredIp;
      // `ipaddress.ip_address(None)` raises ValueError as well.
      if ip.None? || !ipValid(ip.value) {
        // InvalidIP: caught only by the catch-all.
        return Abort("unknown");
      }
      var info := GetDeviceInfo(probe);
      if info.Failure? {
        return Abort("cannot_connect");
      }
      if uniqueIdCheck.Some? {
        if uniqueIdCheck.value == AlreadyConfigured {
          return Abort(AlreadyConfigured);
        }
        return Raise(AbortFlow(uniqueIdCheck.value));
      }
      r := CreateEntry(info.value.model, EntryData(ip.value, info.value.sn, info.value.model));
    }
  }
}
