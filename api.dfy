/**
 * The API client's decision after the HTTP request: `get_api_answer` turns
 * the transport outcome, the status code and the decoded payload into either
 * the payload or an error, in a fixed order.
 */
module ApiClient {
  import opened Wrappers
  import opened JsonValue
  import opened Errors

  /** The body of a reply: what `response.json()` yields, or why it raised. */
  datatype Body = Parsed(value: Json) | Unparsable(cause: string)

  /** The outcome of `requests.get`: a `RequestException`, or a reply. */
  datatype HttpReply = TransportFailed(cause: string) | Reply(statusCode: int, body: Body)

  /** `HTTPStatus.OK`. */
  const HTTP_OK: int := 200

  /** The payload keys by which the server signals a soft error, in the order they are tested. */
  const SOFT_ERROR_KEYS: seq<string> := ["error", "code"]

  /** Python's `key in payload`: key, element or substring test, or a `TypeError`. */
  function Contains(payload: Json, key: string): (r: Result<bool, Error>)
    ensures r.Err? <==> payload.JNull? || payload.JBool? || payload.JInt?
    ensures r.Err? ==> r.error == BuiltinTypeError(MembershipTest)
    ensures payload.JObject? ==> r == Ok(key in payload.fields)
    ensures payload.JArray? ==> r == Ok(JString(key) in payload.items)
    ensures payload.JString? ==> r == Ok(exists i :: OccursAt(key, payload.s, i))
  {
    match payload
    case JObject(fields) => Ok(key in fields)
    case JArray(items) => Ok(JString(key) in items)
    case JString(s) => Ok(Substring(key, s))
    case _ => Err(BuiltinTypeError(MembershipTest))
  }

  /** `keys[i]` is the first of `keys` that `fields` holds. */
  predicate FirstPresent(keys: seq<string>, fields: map<string, Json>, i: int) {
    0 <= i < |keys| && keys[i] in fields && forall j :: 0 <= j < i ==> keys[j] !in fields
  }

  /**
   * The loop `for key in keys: if key in payload: raise ...(payload[key])`:
   * `Some` is the error the first matching key raises, `None` that the loop
   * ran to its end.
   */
  function ScanSoftErrors(payload: Json, keys: seq<string>): (r: Option<Error>)
    ensures payload.JObject? ==>
      (r.None? <==> forall i :: 0 <= i < |keys| ==> keys[i] !in payload.fields)
    ensures payload.JObject? && r.Some? ==>
      exists i :: FirstPresent(keys, payload.fields, i)
        && r.value == SoftError(keys[i], payload.fields[keys[i]])
    ensures payload.JArray? ==>
      (r.None? <==> forall i :: 0 <= i < |keys| ==> JString(keys[i]) !in payload.items)
    ensures payload.JArray? && r.Some? ==> r.value == BuiltinTypeError(StringIndex)
    ensures payload.JString? ==>
      (r.None? <==> forall i :: 0 <= i < |keys| ==> !Substring(keys[i], payload.s))
    ensures payload.JString? && r.Some? ==> r.value == BuiltinTypeError(StringIndex)
    ensures (payload.JNull? || payload.JBool? || payload.JInt?) ==>
      r == if keys == [] then None else Some(BuiltinTypeError(MembershipTest))
    decreases |keys|
  {
    if keys == [] then None
    else
      match Contains(payload, keys[0])
      case Err(e) => Some(e)
      case Ok(true) =>
        // `payload[key]`: only a dict can be indexed by a string key
        if payload.JObject? then
          assert FirstPresent(keys, payload.fields, 0);
          Some(SoftError(keys[0], payload.fields[keys[0]]))
        else Some(BuiltinTypeError(StringIndex))
      case Ok(false) =>
        var r := ScanSoftErrors(payload, keys[1..]);
        assert payload.JObject? && r.Some? ==>
          exists i :: FirstPresent(keys, payload.fields, i) && r.value == SoftError(keys[i], payload.fields[keys[i]])
        by {
          if payload.JObject? && r.Some? {
            var k :| FirstPresent(keys[1..], payload.fields, k)
              && r.value == SoftError(keys[1..][k], payload.fields[keys[1..][k]]);
            assert FirstPresent(keys, payload.fields, k + 1);
          }
        }
        r
  }

  /** The decision of `get_api_answer` once `requests.get` has returned or raised. */
  function ApiAnswer(reply: HttpReply): (r: Result<Json, Error>)
    ensures reply.TransportFailed? ==> r == Err(ConnectionFailure(reply.cause))
    ensures reply.Reply? && reply.statusCode != HTTP_OK ==>
      r == Err(StatusCodeFailure(reply.statusCode))
    ensures reply.Reply? && reply.statusCode == HTTP_OK && reply.body.Unparsable? ==>
      r == Err(BodyNotJson(reply.body.cause))
    ensures (reply.Reply? && reply.statusCode == HTTP_OK && reply.body.Parsed?
             && reply.body.value.JObject?) ==>
      var fields := reply.body.value.fields;
      r == if "error" in fields then Err(SoftError("error", fields["error"]))
           else if "code" in fields then Err(SoftError("code", fields["code"]))
           else Ok(reply.body.value)
    ensures r.Ok? ==> reply == Reply(HTTP_OK, Parsed(r.value))
  {
    match reply
    case TransportFailed(cause) => Err(ConnectionFailure(cause))
    case Reply(code, body) =>
      if code != HTTP_OK then Err(StatusCodeFailure(code))
      else
        match body
        case Unparsable(cause) => Err(BodyNotJson(cause))
        case Parsed(payload) =>
          match ScanSoftErrors(payload, SOFT_ERROR_KEYS)
          case Some(e) => Err(e)
          case None => Ok(payload)
  }
}
