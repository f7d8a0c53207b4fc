/**
 * One HTTP exchange with the device, reduced to what the integration looks at,
 * and the failures the integration raises from it. Each platform posts a write
 * payload `{"state": {...}}` to `/write`; the coordinator reads `/read`.
 */
module Http {
  import opened Wrappers
  import opened JsonValue
  import opened PyBuiltins

  /** `HTTPStatus.OK`; every other status, 2xx included, is a failure. */
  const StatusOk: int := 200

  /** Seconds a write, the connection test or the device-info probe may take. */
  const WriteTimeoutSeconds: nat := 5

  /** What a request produced: a response, or an aiohttp/timeout error before one. */
  datatype Exchange =
    | Reply(status: int, text: string, body: Option<Json>)  // body: what `resp.json()` decodes, None when it raises
    | Unreachable                                           // connection error or timeout

  /** The exceptions the integration raises (and re-raises) for a failed exchange. */
  datatype Failure =
    | Transport                              // the aiohttp or timeout error itself
    | HttpStatus(code: int)                  // RuntimeError "HTTP status {code}" (reads)
    | HttpRejected(code: int, text: string)  // RuntimeError "HTTP {code}: {text}" (writes)
    | Undecodable                            // `resp.json()` raised
    | NotAMapping                            // AttributeError: `.get` on a value that is not a dict
    | InvalidReported                        // TypeError "Invalid 'reported' structure in JSON"

  /** The message text of the RuntimeError and TypeError the integration composes itself. */
  function Message(f: Failure): string
    requires f.HttpStatus? || f.HttpRejected? || f.InvalidReported?
  {
    match f
    case HttpStatus(code) => "HTTP status " + IntDecimal(code)
    case HttpRejected(code, text) => "HTTP " + IntDecimal(code) + ": " + text
    case InvalidReported => "Invalid 'reported' structure in JSON"
  }

  /** How a write (number, switch, text or button) classifies the device's answer. */
  function WriteResult(reply: Exchange): (r: Outcome<Failure>)
    ensures r.Pass? <==> reply.Reply? && reply.status == StatusOk
    ensures reply.Unreachable? ==> r == Fail(Transport)
    ensures reply.Reply? && reply.status != StatusOk ==> r == Fail(HttpRejected(reply.status, reply.text))
  {
    match reply
    case Unreachable => Fail(Transport)
    case Reply(status, text, _) => if status != StatusOk then Fail(HttpRejected(status, text)) else Pass
  }

  /** The body every write posts: `{"state": fields}`. */
  function WritePayload(fields: map<string, Json>): Json
  {
    JObject(map["state" := JObject(fields)])
  }

  /** What the device reads out of a write body: the object under "state". */
  function PayloadState(payload: Json): Option<map<string, Json>>
  {
    if payload.JObject? && "state" in payload.fields && payload.fields["state"].JObject?
    then Some(payload.fields["state"].fields)
    else None
  }

  lemma PayloadRoundTrip(fields: map<string, Json>)
    ensures PayloadState(WritePayload(fields)) == Some(fields)
  {
  }

  lemma DecimalHasNoColon(n: int, i: int)
    requires 0 <= i < |IntDecimal(n)|
    ensures IntDecimal(n)[i] != ':'
  {
  }

  /**
   * A rejected write's message carries the status and the response text
   * recoverably: two messages are equal only for the same status and text.
   */
  lemma RejectedMessageDeterminesReply(c1: int, t1: string, c2: int, t2: string)
    requires Message(HttpRejected(c1, t1)) == Message(HttpRejected(c2, t2))
    ensures c1 == c2 && t1 == t2
  {
    var d1, d2 := IntDecimal(c1), IntDecimal(c2);
    var m1, m2 := d1 + ": " + t1, d2 + ": " + t2;
    assert m1 == Message(HttpRejected(c1, t1))[5..];
    assert m2 == Message(HttpRejected(c2, t2))[5..];
    assert m1 == m2;
    if |d1| < |d2| {
      assert m1[|d1|] == ':';
      DecimalHasNoColon(c2, |d1|);
      assert false;
    } else if |d2| < |d1| {
      assert m2[|d2|] == ':';
      DecimalHasNoColon(c1, |d2|);
      assert false;
    }
    assert d1 == m1[..|d1|] && d2 == m2[..|d2|];
    IntDecimalInjective(c1, c2);
    assert t1 == m1[|d1| + 2..] && t2 == m2[|d2| + 2..];
  }
}
