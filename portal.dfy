/**
 What the utility portal sends back, as the client code sees it after `response.json()` and the
 second `json.loads(data['d'])`, and the kinds of failure the client reports. HTTP itself is not
 modelled: every reply is an input.
 */
module Portal {
  import opened Wrappers

  /** A decoded JSON value. Objects are maps; arrays keep their order. */
  datatype Json =
    | JNull
    | JBool(b: bool)
    | JNum(n: real)
    | JStr(s: string)
    | JArr(items: seq<Json>)
    | JObj(fields: map<string, Json>)

  /** How a 200 response body decodes: the outer JSON, then the JSON string under its `d` key. */
  datatype Envelope =
    | Undecodable            // `response.json()` fails
    | NotAnObject            // the outer value is not an object, so `data['d']` is a TypeError
    | NoD                    // an object without a `d` key
    | DNotString             // `d` is not a string, so `json.loads` raises TypeError
    | DUndecodable           // `d` is a string that is not JSON
    | Decoded(value: Json)   // the decoded `d`

  /** A POST to a portal endpoint. */
  datatype Reply = NetworkFailure | Reply(status: int, body: Envelope)

  /** A GET of a portal page and the anti-forgery token found in its HTML, if any. */
  datatype PageReply = PageUnreachable | Page(status: int, token: Option<string>)

  /** The failures the code reports (an exception it raises, or the script's `None` / `False`). */
  datatype Error =
    | InvalidInterval        // ValueError: interval not one of the four names
    | EndBeforeStart         // ValueError: end date before start date
    | EndTooRecent           // ValueError: end date later than two days ago
    | InvalidDate            // ValueError from `strptime` or `datetime(...)`
    | MalformedRecord        // KeyError / ValueError while normalising a usage record
    | ApiError               // CpauApiError, or an HTTP failure the script turns into None
    | AuthenticationError    // CpauAuthenticationError, or a failed script login
    | ConnectionError        // CpauConnectionError
    | MeterNotFound          // CpauMeterNotFoundError, or the script finding no active meter
    | BadCredentials         // the secrets file is missing, not JSON, or lacks a field
    | Unhandled              // an exception the code neither catches nor converts

  /** A meter entry of `MeterDetails`: a JSON object. */
  type Meter = map<string, Json>

  /** Python's `d.get(key, default)` on a JSON object. */
  function Get(m: map<string, Json>, key: string, default: Json): (v: Json)
    ensures key in m ==> v == m[key]
    ensures key !in m ==> v == default
  {
    if key in m then m[key] else default
  }

  /** One entry of a decoded login result counts as success when `STATUS` is the string "1"
      or a `UserID` key is present. */
  predicate UserEntryAccepted(m: map<string, Json>) {
    Get(m, "STATUS", JNull) == JStr("1") || "UserID" in m
  }

  /** The login result may be an object, or a non-empty list whose first element is checked. */
  predicate LoginAccepted(result: Json) {
    match result
    case JObj(m) => UserEntryAccepted(m)
    case JArr(items) => |items| > 0 && items[0].JObj? && UserEntryAccepted(items[0].fields)
    case _ => false
  }

  /** A login POST succeeded: status 200, a decodable `d`, and an accepted result. */
  predicate LoginReplyAccepted(reply: Reply) {
    reply.Reply? && reply.status == 200 && reply.body.Decoded? && LoginAccepted(reply.body.value)
  }

  /** Both shapes of a successful login envelope are accepted, and nothing else is. */
  lemma LoginAcceptedShapes(result: Json)
    ensures LoginAccepted(result) <==>
      (exists m :: result == JObj(m) && UserEntryAccepted(m))
      || (exists items, m :: result == JArr(items) && |items| > 0 && items[0] == JObj(m) && UserEntryAccepted(m))
  {
    match result
    case JObj(m) =>
    case JArr(items) =>
      if LoginAccepted(result) {
        var m := items[0].fields;
        assert result == JArr(items) && items[0] == JObj(m);
      }
    case _ =>
  }

  /** `meter['Status'] == 1`: in Python the JSON number 1 (as int or float) and `true` all
      compare equal to 1. */
  predicate StatusActive(status: Json) {
    status == JNum(1.0) || status == JBool(true)
  }

  /** The value the meter's number is read from. */
  function MeterNumberOf(m: Meter): (v: Option<Json>)
    ensures v.Some? <==> "MeterNumber" in m
  {
    if "MeterNumber" in m then Some(m["MeterNumber"]) else None
  }
}
