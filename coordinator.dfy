/**
 * The data update coordinator (coordinator.py): one poll of the device's
 * `/read` endpoint, and the state the coordinator keeps between polls.
 */
module UpdateCoordinator {
  import opened Wrappers
  import opened JsonValue
  import opened Http

  /** Seconds between two polls (`update_interval`). */
  const UpdateIntervalSeconds: nat := 3
  /** Seconds one read may take before it is abandoned. */
  const ReadTimeoutSeconds: nat := 10

  /** A point in time, as the clock reads it when a poll succeeds. */
  type Time = int

  /** The read body the device promises: `{"state": {"reported": {...}}}`. */
  function ReadBody(reported: map<string, Json>): Json
  {
    JObject(map["state" := JObject(map["reported" := JObject(reported)])])
  }

  /** `data.get("state", {}).get("reported", {})` followed by `isinstance(reported, dict)`. */
  function ReportedOf(body: Json): Result<map<string, Json>, Failure>
  {
    match body
    case JObject(top) =>
      (match GetOr(top, "state", JObject(map[]))
       case JObject(state) =>
         var reported := GetOr(state, "reported", JObject(map[]));
         if reported.JObject? then Success(reported.fields) else Failure(InvalidReported)
       case _ => Failure(NotAMapping))
    case _ => Failure(NotAMapping)
  }

  /**
   * What one poll makes of the device's answer. It succeeds exactly when the
   * status is 200, the body decodes to an object, and "state" and
   * "state.reported" are each absent or an object; the mapping it yields is the
   * `reported` object itself, or empty when either level is missing.
   */
  function ClassifyRead(reply: Exchange): (r: Result<map<string, Json>, Failure>)
    ensures reply.Unreachable? ==> r == Failure(Transport)
    ensures reply.Reply? && reply.status != StatusOk ==> r == Failure(HttpStatus(reply.status))
    ensures reply.Reply? && reply.status == StatusOk && reply.body.None? ==> r == Failure(Undecodable)
    ensures r.Success? <==>
      && reply.Reply? && reply.status == StatusOk && reply.body.Some?
      && reply.body.value.JObject?
      && AbsentOrObject(At(reply.body.value, ["state"]))
      && AbsentOrObject(At(reply.body.value, ["state", "reported"]))
    ensures r.Success? ==>
      var reported := At(reply.body.value, ["state", "reported"]);
      r.value == if reported.Some? then reported.value.fields else map[]
  {
    match reply
    case Unreachable => Failure(Transport)
    case Reply(status, _, body) =>
      if status != StatusOk then Failure(HttpStatus(status))
      else if body.None? then Failure(Undecodable)
      else
        var j := body.value;
        assert j.JObject? ==> At(j, ["state"]) == Lookup(j.fields, "state");
        assert j.JObject? && "state" in j.fields && j.fields["state"].JObject? ==>
          At(j, ["state", "reported"]) == Lookup(j.fields["state"].fields, "reported");
        ReportedOf(j)
  }

  /** The device's promised body round-trips: polling it yields exactly its reported object. */
  lemma ReadBodyRoundTrip(reported: map<string, Json>, text: string)
    ensures ClassifyRead(Reply(StatusOk, text, Some(ReadBody(reported)))) == Success(reported)
  {
  }

  /** A `reported` value that is present but is an array, string, number, boolean or null fails with TypeError. */
  lemma ReportedNotObjectFails(j: Json, text: string)
    requires j.JObject? && "state" in j.fields && j.fields["state"].JObject?
    requires "reported" in j.fields["state"].fields && !j.fields["state"].fields["reported"].JObject?
    ensures ClassifyRead(Reply(StatusOk, text, Some(j))) == Failure(InvalidReported)
  {
  }

  /** A `state` value that is present but not an object makes the second `.get` raise. */
  lemma StateNotObjectFails(j: Json, text: string)
    requires j.JObject? && "state" in j.fields && !j.fields["state"].JObject?
    ensures ClassifyRead(Reply(StatusOk, text, Some(j))) == Failure(NotAMapping)
  {
  }

  /**
   * The coordinator shared by all entities of one device. `data` is the last
   * mapping a poll returned, as patched by successful writes since;
   * `lastSuccess` is `last_success_time`.
   */
  class Coordinator {
    const sn: Option<string>
    const ip: Option<string>
    var data: map<string, Json>
    var lastSuccess: Option<Time>

    constructor (sn: Option<string>, ip: Option<string>)
      ensures this.sn == sn && this.ip == ip
      ensures data == map[] && lastSuccess == None
    {
      this.sn := sn;
      this.ip := ip;
      data := map[];
      lastSuccess := None;
    }

    /**
     * `_async_update_data`: read the device once at time `now`. Only the
     * success path, after the shape check, stamps `lastSuccess`; every
     * failure is raised to the caller. It does not touch `data` itself.
     */
    method UpdateData(reply: Exchange, now: Time) returns (r: Result<map<string, Json>, Failure>)
      modifies this`lastSuccess
      ensures r == ClassifyRead(reply)
      ensures lastSuccess == if r.Success? then Some(now) else old(lastSuccess)
    {
      match reply {
        case Unreachable =>
          return Failure(Transport);
        case Reply(status, _, body) =>
          if status != StatusOk {
            return Failure(HttpStatus(status));
          }
          if body.None? {
            return Failure(Undecodable);
          }
          var reported := ReportedOf(body.value);
          if reported.Failure? {
            return reported;
          }
          lastSuccess := Some(now);
          return reported;
      }
    }

    /**
     * One refresh as the host framework runs it around `UpdateData`: a
     * returned mapping replaces `data` wholesale, with no merge; a raised
     * failure leaves `data` (and so stale values) in place.
     */
    method Refresh(reply: Exchange, now: Time) returns (r: Result<map<string, Json>, Failure>)
      modifies this
      ensures r == ClassifyRead(reply)
      ensures r.Success? ==> data == r.value && lastSuccess == Some(now)
      ensures r.Failure? ==> data == old(data) && lastSuccess == old(lastSuccess)
    {
      r := UpdateData(reply, now);
      if r.Success? {
        data := r.value;
      }
    }
  }
}
