/**
 The portal session: login, the list of active electric meters, the choice of one meter, and
 the authenticated API request with its cached anti-forgery token. Every page or POST reply the
 session would receive is a parameter; the session object records which requests it sent.
 */
module Session {
  import opened Wrappers
  import Text
  import opened Portal

  /** A request the session sends: a GET of a portal page or a POST to an endpoint. */
  datatype Call = Get(page: string) | Post(endpoint: string)

  // Login

  /** What `login` returns or raises, given the home page and the reply to the credentials POST.
      A failed home page is a connection error and no credentials are sent; a network failure of
      the POST is a connection error too; any other refusal, including a reply whose body cannot
      be decoded or has the wrong shape, is an authentication error. */
  function LoginOutcome(home: PageReply, reply: Reply): (r: Result<bool, Error>)
    ensures r.Ok? <==> home.Page? && home.status == 200 && LoginReplyAccepted(reply)
    ensures r.Ok? ==> r.value
    ensures r == Err(ConnectionError) <==> !(home.Page? && home.status == 200) || reply.NetworkFailure?
    ensures r == Err(AuthenticationError) <==>
      home.Page? && home.status == 200 && reply.Reply? && !LoginReplyAccepted(reply)
  {
    if !(home.Page? && home.status == 200) then Err(ConnectionError)
    else if reply.NetworkFailure? then Err(ConnectionError)
    else if LoginReplyAccepted(reply) then Ok(true)
    else Err(AuthenticationError)
  }

  /** The requests `login` sends: the home page, then the credentials only if it loaded. */
  function LoginCalls(home: PageReply): (calls: seq<Call>)
    ensures 1 <= |calls| <= 2 && calls[0] == Get("Portal")
    ensures |calls| == 2 <==> home.Page? && home.status == 200
  {
    [Get("Portal")] + if home.Page? && home.status == 200 then [Post("validateLogin")] else []
  }

  /** When the home page fails, the credentials reply plays no part. */
  lemma BadHomePageSendsNoCredentials(home: PageReply, reply1: Reply, reply2: Reply)
    requires !(home.Page? && home.status == 200)
    ensures LoginCalls(home) == [Get("Portal")]
    ensures LoginOutcome(home, reply1) == LoginOutcome(home, reply2) == Err(ConnectionError)
  {
  }

  // Tokens and replies

  /** `_get_csrf_token`: the token in a page that loaded. A token capture needs at least one
      character, so an empty value counts as no token. Every failure is an API error. */
  function TokenFromPage(page: PageReply): (r: Result<string, Error>)
    ensures r.Ok? <==> page.Page? && page.status == 200 && page.token.Some? && page.token.value != ""
    ensures r.Ok? ==> r.value == page.token.value && r.value != ""
    ensures r.Err? ==> r.error == ApiError
  {
    if page.PageUnreachable? || page.status != 200 then Err(ApiError)
    else if page.token.None? || page.token.value == "" then Err(ApiError)
    else Ok(page.token.value)
  }

  /** The decoded `d` of the `BindMultiMeter` reply. Only a network failure (a failed decode of
      the outer body is one) and a bad status are turned into API errors; a missing or
      malformed `d` escapes unconverted. */
  function MeterInfoOf(reply: Reply): (r: Result<Json, Error>)
    ensures r.Ok? <==> reply.Reply? && reply.status == 200 && reply.body.Decoded?
    ensures r.Ok? ==> r.value == reply.body.value
    ensures r == Err(ApiError) <==> reply.NetworkFailure? || reply.status != 200 || reply.body.Undecodable?
    ensures r.Err? ==> r.error == ApiError || r.error == Unhandled
  {
    if reply.NetworkFailure? || reply.status != 200 then Err(ApiError)
    else match reply.body
      case Undecodable => Err(ApiError)
      case Decoded(v) => Ok(v)
      case _ => Err(Unhandled)
  }

  /** The decoded `d` of an API reply. Besides network failures and bad statuses, a missing `d`
      and a `d` that is not JSON are reported as API errors; an outer value that is not an object
      and a `d` that is not a string escape unconverted. */
  function ApiDataOf(reply: Reply): (r: Result<Json, Error>)
    ensures r.Ok? <==> reply.Reply? && reply.status == 200 && reply.body.Decoded?
    ensures r.Ok? ==> r.value == reply.body.value
    ensures r == Err(Unhandled) <==> reply.Reply? && reply.status == 200 && (reply.body.NotAnObject? || reply.body.DNotString?)
    ensures r.Err? ==> r.error == ApiError || r.error == Unhandled
  {
    if reply.NetworkFailure? || reply.status != 200 then Err(ApiError)
    else match reply.body
      case Decoded(v) => Ok(v)
      case NotAnObject => Err(Unhandled)
      case DNotString => Err(Unhandled)
      case _ => Err(ApiError)
  }

  /** The two decodings agree except on a missing `d` and an undecodable `d`, which only the API
      request converts into an API error. */
  lemma ApiDataAgreesWithMeterInfo(reply: Reply)
    ensures !(reply.Reply? && reply.status == 200 && (reply.body.NoD? || reply.body.DUndecodable?)) ==>
      ApiDataOf(reply) == MeterInfoOf(reply)
    ensures reply.Reply? && reply.status == 200 && (reply.body.NoD? || reply.body.DUndecodable?) ==>
      ApiDataOf(reply) == Err(ApiError) && MeterInfoOf(reply) == Err(Unhandled)
  {
  }

  // The active meters

  /** The entries `for meter in meter_info['MeterDetails']` walks, after `'MeterDetails' in
      meter_info`. An object is searched for the key; a list for the string among its elements and
      a string for the substring, and on both `['MeterDetails']` then raises; any other value
      does not support `in` at all. */
  function MeterDetailsItems(info: Json): (r: Result<seq<Json>, Error>)
    ensures info.JObj? && "MeterDetails" !in info.fields ==> r == Ok([])
    ensures info.JObj? && "MeterDetails" in info.fields && info.fields["MeterDetails"].JArr? ==>
      r == Ok(info.fields["MeterDetails"].items)
    ensures r.Err? ==> r.error == Unhandled
    ensures r.Ok? && |r.value| > 0 ==>
      info.JObj? && "MeterDetails" in info.fields && info.fields["MeterDetails"].JArr? && r.value == info.fields["MeterDetails"].items
  {
    match info
    case JObj(f) => if "MeterDetails" in f then Iterate(f["MeterDetails"]) else Ok([])
    case JArr(items) => if JStr("MeterDetails") in items then Err(Unhandled) else Ok([])
    case JStr(s) => if Text.Contains(s, "MeterDetails") then Err(Unhandled) else Ok([])
    case _ => Err(Unhandled)
  }

  /** Iterating a JSON value: a list gives its elements. An object gives its keys and a string
      its characters, strings on which `meter['Status']` raises, so only the empty ones pass.
      Other values are not iterable. */
  function Iterate(v: Json): (r: Result<seq<Json>, Error>)
    ensures r.Ok? <==> v.JArr? || v == JObj(map[]) || v == JStr("")
    ensures r.Ok? && |r.value| > 0 ==> v.JArr? && r.value == v.items
    ensures r.Err? ==> r.error == Unhandled
  {
    match v
    case JArr(items) => Ok(items)
    case JObj(f) => if |f| == 0 then Ok([]) else Err(Unhandled)
    case JStr(s) => if s == "" then Ok([]) else Err(Unhandled)
    case _ => Err(Unhandled)
  }

  /** An entry `meter['Status']` can be read from. */
  predicate HasStatus(item: Json) {
    item.JObj? && "Status" in item.fields
  }

  /** An entry that is kept: its status compares equal to 1. */
  predicate IsActive(item: Json) {
    HasStatus(item) && StatusActive(item.fields["Status"])
  }

  /** The meters kept from the entries, in their order; an entry without a readable status raises. */
  function ActiveMeters(items: seq<Json>): (r: Result<seq<Meter>, Error>)
    ensures r.Ok? <==> forall i :: 0 <= i < |items| ==> HasStatus(items[i])
    ensures r.Err? ==> r.error == Unhandled
    ensures r.Ok? ==> forall m :: m in r.value ==> JObj(m) in items && IsActive(JObj(m))
    ensures r.Ok? ==> forall i :: 0 <= i < |items| && IsActive(items[i]) ==> items[i].fields in r.value
    ensures r.Ok? ==> |r.value| <= |items|
  {
    if |items| == 0 then Ok([])
    else
      match ActiveMeters(items[..|items| - 1])
      case Err(e) => Err(e)
      case Ok(ms) =>
        var item := items[|items| - 1];
        if !HasStatus(item) then Err(Unhandled)
        else if StatusActive(item.fields["Status"]) then Ok(ms + [item.fields])
        else Ok(ms)
  }

  /** On one entry, its fields are kept exactly when its status is 1. */
  lemma ActiveMetersOne(x: Json)
    ensures ActiveMeters([x]) == (if !HasStatus(x) then Err(Unhandled) else if IsActive(x) then Ok([x.fields]) else Ok([]))
  {
    assert [x][..0] == [] && [x][0] == x;
    assert ActiveMeters([x][..0]) == Ok([]);
    if HasStatus(x) {
      assert [] + [x.fields] == [x.fields];
    }
  }

  /** Keeping the active meters distributes over concatenation. With ActiveMetersOne this
      determines the result: the active entries, each once, in input order. */
  lemma {:induction false} ActiveMetersAppend(a: seq<Json>, b: seq<Json>)
    ensures ActiveMeters(a + b) ==
      if ActiveMeters(a).Ok? && ActiveMeters(b).Ok? then Ok(ActiveMeters(a).value + ActiveMeters(b).value)
      else Err(Unhandled)
    decreases |b|
  {
    if |b| == 0 {
      assert a + b == a && ActiveMeters(b) == Ok([]);
      if ActiveMeters(a).Ok? {
        assert ActiveMeters(a).value + [] == ActiveMeters(a).value;
      }
    } else {
      var b' := b[..|b| - 1];
      assert (a + b)[..|a + b| - 1] == a + b';
      assert (a + b)[|a + b| - 1] == b[|b| - 1];
      ActiveMetersAppend(a, b');
      if ActiveMeters(a).Ok? && ActiveMeters(b').Ok? && HasStatus(b[|b| - 1]) && IsActive(b[|b| - 1]) {
        var x := b[|b| - 1].fields;
        assert ActiveMeters(a).value + ActiveMeters(b').value + [x] == ActiveMeters(a).value + (ActiveMeters(b').value + [x]);
      }
    }
  }

  /** What `get_electric_meters` returns or raises. */
  function MetersOutcome(authenticated: bool, page: PageReply, reply: Reply): (r: Result<seq<Meter>, Error>)
    ensures !authenticated ==> r == Err(AuthenticationError)
    ensures authenticated && TokenFromPage(page).Err? ==> r == Err(ApiError)
    ensures r.Ok? ==> authenticated && TokenFromPage(page).Ok? && MeterInfoOf(reply).Ok?
    ensures authenticated && TokenFromPage(page).Ok? && MeterInfoOf(reply).Ok? && MeterDetailsItems(MeterInfoOf(reply).value).Ok? ==>
      r == ActiveMeters(MeterDetailsItems(MeterInfoOf(reply).value).value)
    ensures authenticated && TokenFromPage(page).Ok? && MeterInfoOf(reply).Err? ==> r == Err(MeterInfoOf(reply).error)
  {
    if !authenticated then Err(AuthenticationError)
    else
      match TokenFromPage(page)
      case Err(e) => Err(e)
      case Ok(_) =>
        match MeterInfoOf(reply)
        case Err(e) => Err(e)
        case Ok(info) =>
          match MeterDetailsItems(info)
          case Err(e) => Err(e)
          case Ok(items) => ActiveMeters(items)
  }

  /** The requests `get_electric_meters` sends: the Usages page for a fresh token, then the meter
      query only if a token was found. */
  function MetersCalls(authenticated: bool, page: PageReply): (calls: seq<Call>)
    ensures !authenticated <==> calls == []
    ensures authenticated ==> calls[0] == Get("Usages")
    ensures |calls| == 2 <==> authenticated && TokenFromPage(page).Ok?
  {
    if !authenticated then []
    else [Get("Usages")] + if TokenFromPage(page).Ok? then [Post("BindMultiMeter")] else []
  }

  /** The token after `get_electric_meters`: replaced whenever the page gives one. */
  function TokenAfterMeters(authenticated: bool, token: Option<string>, page: PageReply): (t: Option<string>)
    ensures authenticated && TokenFromPage(page).Ok? ==> t == Some(TokenFromPage(page).value)
    ensures !(authenticated && TokenFromPage(page).Ok?) ==> t == token
  {
    if authenticated && TokenFromPage(page).Ok? then Some(TokenFromPage(page).value) else token
  }

  /** A cached token does not spare `get_electric_meters` the page load. */
  lemma MetersAlwaysReloadToken(token: Option<string>, page: PageReply)
    ensures MetersCalls(true, page)[0] == Get("Usages")
    ensures TokenFromPage(page).Err? ==> MetersCalls(true, page) == [Get("Usages")] && TokenAfterMeters(true, token, page) == token
  {
  }

  // Choosing a meter

  /** The meter's number equals the requested one. */
  predicate Matches(m: Meter, number: string) {
    MeterNumberOf(m) == Some(JStr(number))
  }

  /** The position of the first meter with the requested number. */
  function FirstMatch(ms: seq<Meter>, number: string): (r: Option<nat>)
    ensures r.Some? ==> r.value < |ms| && Matches(ms[r.value], number)
    ensures r.Some? ==> forall j :: 0 <= j < r.value ==> !Matches(ms[j], number)
    ensures r.None? <==> forall j :: 0 <= j < |ms| ==> !Matches(ms[j], number)
  {
    if |ms| == 0 then None
    else if Matches(ms[0], number) then Some(0)
    else
      match FirstMatch(ms[1..], number)
      case None => None
      case Some(k) => Some(k + 1)
  }

  /** `get_electric_meter` on the active meters: the first one when no number is given, else the
      first with that number. */
  function SelectMeter(ms: seq<Meter>, number: Option<string>): (r: Result<Meter, Error>)
    ensures |ms| == 0 ==> r == Err(MeterNotFound)
    ensures r.Err? ==> r.error == MeterNotFound
    ensures r.Ok? ==> r.value in ms
    ensures number.None? && |ms| > 0 ==> r == Ok(ms[0])
    ensures number.Some? ==> (r.Ok? <==> exists i :: 0 <= i < |ms| && Matches(ms[i], number.value))
    ensures number.Some? && r.Ok? ==> Matches(r.value, number.value)
  {
    if |ms| == 0 then Err(MeterNotFound)
    else if number.None? then Ok(ms[0])
    else
      match FirstMatch(ms, number.value)
      case None => Err(MeterNotFound)
      case Some(i) => Ok(ms[i])
  }

  /** The meter chosen is the earliest one that matches. */
  lemma SelectMeterEarliest(ms: seq<Meter>, number: string, j: int)
    requires 0 <= j < |ms| && Matches(ms[j], number)
    requires forall i :: 0 <= i < j ==> !Matches(ms[i], number)
    ensures SelectMeter(ms, Some(number)) == Ok(ms[j])
  {
    var k := FirstMatch(ms, number);
    assert k.Some? by { assert !Matches(ms[j], number) ==> false; }
    assert !(k.value < j);
    assert !(j < k.value);
  }

  /** What `get_electric_meter` returns or raises. */
  function MeterOutcome(authenticated: bool, page: PageReply, reply: Reply, number: Option<string>): (r: Result<Meter, Error>)
    ensures MetersOutcome(authenticated, page, reply).Err? ==> r == Err(MetersOutcome(authenticated, page, reply).error)
    ensures r.Ok? ==> MetersOutcome(authenticated, page, reply).Ok? && r.value in MetersOutcome(authenticated, page, reply).value
    ensures MetersOutcome(authenticated, page, reply).Ok? ==> r == SelectMeter(MetersOutcome(authenticated, page, reply).value, number)
  {
    match MetersOutcome(authenticated, page, reply)
    case Err(e) => Err(e)
    case Ok(ms) => SelectMeter(ms, number)
  }

  // The authenticated API request

  /** `not self._csrf_token`: no token yet, or an empty one. */
  predicate NeedsToken(token: Option<string>) {
    token.None? || token.value == ""
  }

  /** What `_make_api_request` returns or raises: the login check comes first, then a token load
      only when none is cached, then the POST. */
  function ApiOutcome(authenticated: bool, token: Option<string>, page: PageReply, reply: Reply): (r: Result<Json, Error>)
    ensures !authenticated ==> r == Err(AuthenticationError)
    ensures authenticated && !NeedsToken(token) ==> r == ApiDataOf(reply)
    ensures authenticated && NeedsToken(token) ==>
      r == (if TokenFromPage(page).Ok? then ApiDataOf(reply) else Err(ApiError))
  {
    if !authenticated then Err(AuthenticationError)
    else if NeedsToken(token) then
      match TokenFromPage(page)
      case Err(e) => Err(e)
      case Ok(_) => ApiDataOf(reply)
    else ApiDataOf(reply)
  }

  /** The requests `_make_api_request` sends. */
  function ApiCalls(authenticated: bool, token: Option<string>, page: PageReply, endpoint: string): (calls: seq<Call>)
    ensures !authenticated ==> calls == []
    ensures authenticated && !NeedsToken(token) ==> calls == [Post(endpoint)]
    ensures authenticated && NeedsToken(token) ==> |calls| >= 1 && calls[0] == Get("Usages")
    ensures Post(endpoint) in calls <==> authenticated && (!NeedsToken(token) || TokenFromPage(page).Ok?)
  {
    if !authenticated then []
    else if NeedsToken(token) then
      [Get("Usages")] + if TokenFromPage(page).Ok? then [Post(endpoint)] else []
    else [Post(endpoint)]
  }

  /** The token after `_make_api_request`: loaded only when none was cached. */
  function TokenAfterApi(authenticated: bool, token: Option<string>, page: PageReply): (t: Option<string>)
    ensures !(authenticated && NeedsToken(token)) ==> t == token
    ensures authenticated && NeedsToken(token) && TokenFromPage(page).Ok? ==> t == Some(TokenFromPage(page).value)
  {
    if authenticated && NeedsToken(token) && TokenFromPage(page).Ok? then Some(TokenFromPage(page).value) else token
  }

  /** With a token cached, the page plays no part: one POST is sent and the token is kept. */
  lemma TokenCached(token: Option<string>, page1: PageReply, page2: PageReply, reply: Reply, endpoint: string)
    requires !NeedsToken(token)
    ensures ApiOutcome(true, token, page1, reply) == ApiOutcome(true, token, page2, reply)
    ensures ApiCalls(true, token, page1, endpoint) == [Post(endpoint)]
    ensures TokenAfterApi(true, token, page1) == token
  {
  }

  /** Once a request has reached the POST, the next one finds a token and sends a single POST. */
  lemma TokenLoadedOnce(token: Option<string>, page: PageReply, nextPage: PageReply, endpoint: string)
    requires Post(endpoint) in ApiCalls(true, token, page, endpoint)
    ensures !NeedsToken(TokenAfterApi(true, token, page))
    ensures ApiCalls(true, TokenAfterApi(true, token, page), nextPage, endpoint) == [Post(endpoint)]
  {
  }

  /** Without a login nothing is sent, whatever the replies would have been. */
  lemma AuthRequired(token: Option<string>, page: PageReply, reply: Reply, endpoint: string)
    ensures ApiOutcome(false, token, page, reply) == Err(AuthenticationError)
    ensures ApiCalls(false, token, page, endpoint) == []
    ensures MetersOutcome(false, page, reply) == Err(AuthenticationError)
    ensures MetersCalls(false, page) == []
    ensures TokenAfterApi(false, token, page) == token && TokenAfterMeters(false, token, page) == token
  {
  }

  // The session object

  class ApiSession {
    /** `_authenticated`. */
    var authenticated: bool
    /** `_csrf_token`. */
    var csrfToken: Option<string>
    /** The requests sent so far. */
    var requests: seq<Call>

    /** The fields `__init__` sets before it logs in. */
    constructor ()
      ensures !authenticated && csrfToken == None && requests == []
    {
      authenticated := false;
      csrfToken := None;
      requests := [];
    }

    /** `login`: a success marks the session authenticated; a failure leaves the flag as it
        was. The token found on the home page is sent along but not stored. */
    method Login(home: PageReply, reply: Reply) returns (r: Result<bool, Error>)
      modifies this
      ensures r == LoginOutcome(home, reply)
      ensures authenticated == (old(authenticated) || r.Ok?)
      ensures csrfToken == old(csrfToken)
      ensures requests == old(requests) + LoginCalls(home)
    {
      requests := requests + [Get("Portal")];
      if home.PageUnreachable? || home.status != 200 {
        return Err(ConnectionError);
      }
      requests := requests + [Post("validateLogin")];
      if reply.NetworkFailure? {
        return Err(ConnectionError);
      }
      if LoginReplyAccepted(reply) {
        authenticated := true;
        return Ok(true);
      }
      return Err(AuthenticationError);
    }

    /** `_get_csrf_token('Usages')`. */
    method GetCsrfToken(page: PageReply) returns (r: Result<string, Error>)
      modifies this
      ensures r == TokenFromPage(page)
      ensures authenticated == old(authenticated) && csrfToken == old(csrfToken)
      ensures requests == old(requests) + [Get("Usages")]
    {
      requests := requests + [Get("Usages")];
      if page.PageUnreachable? || page.status != 200 {
        return Err(ApiError);
      }
      if page.token.Some? && page.token.value != "" {
        return Ok(page.token.value);
      }
      return Err(ApiError);
    }

    /** `get_electric_meters`: reload the token, query the meters, and keep the active ones. */
    method GetElectricMeters(page: PageReply, reply: Reply) returns (r: Result<seq<Meter>, Error>)
      modifies this
      ensures r == MetersOutcome(old(authenticated), page, reply)
      ensures authenticated == old(authenticated)
      ensures csrfToken == TokenAfterMeters(old(authenticated), old(csrfToken), page)
      ensures requests == old(requests) + MetersCalls(old(authenticated), page)
    {
      if !authenticated {
        return Err(AuthenticationError);
      }
      var token := GetCsrfToken(page);
      if token.Err? {
        assert requests == old(requests) + [Get("Usages")] + [];
        return Err(token.error);
      }
      csrfToken := Some(token.value);
      requests := requests + [Post("BindMultiMeter")];
      var info := MeterInfoOf(reply);
      if info.Err? {
        return Err(info.error);
      }
      var items := MeterDetailsItems(info.value);
      if items.Err? {
        return Err(items.error);
      }
      r := CollectActive(items.value);
    }

    /** `get_electric_meter`: the first active meter, or the first with the requested number. */
    method GetElectricMeter(page: PageReply, reply: Reply, number: Option<string>) returns (r: Result<Meter, Error>)
      modifies this
      ensures r == MeterOutcome(old(authenticated), page, reply, number)
      ensures authenticated == old(authenticated)
      ensures csrfToken == TokenAfterMeters(old(authenticated), old(csrfToken), page)
      ensures requests == old(requests) + MetersCalls(old(authenticated), page)
    {
      var meters := GetElectricMeters(page, reply);
      if meters.Err? {
        return Err(meters.error);
      }
      r := PickMeter(meters.value, number);
    }

    /** `_make_api_request`: the login check, a token load when none is cached, then the POST. */
    method MakeApiRequest(endpoint: string, page: PageReply, reply: Reply) returns (r: Result<Json, Error>)
      modifies this
      ensures r == ApiOutcome(old(authenticated), old(csrfToken), page, reply)
      ensures authenticated == old(authenticated)
      ensures csrfToken == TokenAfterApi(old(authenticated), old(csrfToken), page)
      ensures requests == old(requests) + ApiCalls(old(authenticated), old(csrfToken), page, endpoint)
    {
      if !authenticated {
        return Err(AuthenticationError);
      }
      if csrfToken.None? || csrfToken.value == "" {
        var token := GetCsrfToken(page);
        if token.Err? {
          assert requests == old(requests) + [Get("Usages")] + [];
          return Err(token.error);
        }
        csrfToken := Some(token.value);
      }
      requests := requests + [Post(endpoint)];
      r := ApiDataOf(reply);
    }

    /** `close`: the session is no longer authenticated. */
    method Close()
      modifies this
      ensures !authenticated
      ensures csrfToken == old(csrfToken) && requests == old(requests)
    {
      authenticated := false;
    }
  }

  /** The keep-active loop of `get_electric_meters`. */
  method CollectActive(items: seq<Json>) returns (r: Result<seq<Meter>, Error>)
    ensures r == ActiveMeters(items)
  {
    var active: seq<Meter> := [];
    for i := 0 to |items|
      invariant ActiveMeters(items[..i]) == Ok(active)
    {
      assert items[..i + 1][..i] == items[..i];
      var item := items[i];
      if !(item.JObj? && "Status" in item.fields) {
        assert !HasStatus(items[i]);
        return Err(Unhandled);
      }
      if StatusActive(item.fields["Status"]) {
        active := active + [item.fields];
      }
    }
    assert items[..|items|] == items;
    return Ok(active);
  }

  /** The selection loop of `get_electric_meter`. */
  method PickMeter(ms: seq<Meter>, number: Option<string>) returns (r: Result<Meter, Error>)
    ensures r == SelectMeter(ms, number)
  {
    if |ms| == 0 {
      return Err(MeterNotFound);
    }
    if number.None? {
      return Ok(ms[0]);
    }
    for i := 0 to |ms|
      invariant forall j :: 0 <= j < i ==> !Matches(ms[j], number.value)
    {
      if MeterNumberOf(ms[i]) == Some(JStr(number.value)) {
        SelectMeterEarliest(ms, number.value, i);
        return Ok(ms[i]);
      }
    }
    return Err(MeterNotFound);
  }

  /** `CpauApiSession(userid, password)`: a new session that has logged in, or the login's error. */
  method Open(home: PageReply, reply: Reply) returns (r: Result<ApiSession, Error>)
    ensures r.Ok? <==> LoginOutcome(home, reply).Ok?
    ensures r.Err? ==> r.error == LoginOutcome(home, reply).error
    ensures r.Ok? ==> fresh(r.value) && r.value.authenticated && r.value.csrfToken == None
    ensures r.Ok? ==> r.value.requests == LoginCalls(home)
  {
    var s := new ApiSession();
    var ok := s.Login(home, reply);
    if ok.Err? {
      return Err(ok.error);
    }
    return Ok(s);
  }
}
