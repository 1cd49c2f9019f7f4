/**
 The command-line downloader (`CpauDownloader` in `cpau-electric.py`): it checks the date
 arguments, reads the secrets file, logs in, finds the active meter, runs the per-mode fetch
 loops and normalises the rows into the usage summary it writes as CSV. The clock is the
 parameter `today`, a calendar date; each page, POST reply and the secrets file are parameters.
 The script's own exit status is 1 on every failure, an uncaught exception included.
 */
module Downloader {
  import opened Wrappers
  import opened Text
  import opened Dates
  import opened Portal
  import opened Usage
  import opened Fetcher
  import opened Normalizer
  import ElectricMeter
  import Session

  // Dates

  /** `datetime.now() - timedelta(days=2)`, as a calendar day. */
  function TwoDaysAgo(today: Date): (d: Date)
    requires Valid(today) && today.year > 1
    ensures Valid(d) && Ordinal(d) == Ordinal(today) - 2
  {
    OrdinalPrev(today);
    var y := PrevDay(today);
    assert y.year > 1 || y.month > 1 || y.day > 1;
    OrdinalPrev(y);
    PrevDay(y)
  }

  /** `if self.args.end_date:` — an empty argument counts as absent. */
  predicate EndGiven(endArg: Option<string>) {
    endArg.Some? && endArg.value != ""
  }

  /** The requested first and last day: the start argument, and the end argument or two days
      ago, both parsed as YYYY-MM-DD. */
  function RequestedDays(startArg: string, endArg: Option<string>, today: Date): (r: Result<(Date, Date), Error>)
    requires Valid(today) && today.year > 1
    ensures r.Ok? <==> ParseISO(startArg).Some? && (EndGiven(endArg) ==> ParseISO(endArg.value).Some?)
    ensures r.Ok? ==> r.value.0 == ParseISO(startArg).value
    ensures r.Ok? ==> r.value.1 == if EndGiven(endArg) then ParseISO(endArg.value).value else TwoDaysAgo(today)
    ensures r.Ok? ==> Valid(r.value.0) && Valid(r.value.1)
    ensures r.Err? ==> r.error == InvalidDate
  {
    match ParseISO(startArg)
    case None => Err(InvalidDate)
    case Some(s) =>
      if !EndGiven(endArg) then Ok((s, TwoDaysAgo(today)))
      else
        match ParseISO(endArg.value)
        case None => Err(InvalidDate)
        case Some(e) => Ok((s, e))
  }

  /** `validate_and_convert_dates`: both dates as MM/DD/YY, or the reason it logs before it
      returns `(None, None)` — a malformed date, an end before the start, or an end later than
      two days ago. */
  function ValidateAndConvertDates(startArg: string, endArg: Option<string>, today: Date): (r: Result<(string, string), Error>)
    requires Valid(today) && today.year > 1
    ensures r == Err(InvalidDate) <==> RequestedDays(startArg, endArg, today).Err?
    ensures RequestedDays(startArg, endArg, today).Ok? ==>
      var (s, e) := RequestedDays(startArg, endArg, today).value;
      && (r == Err(EndBeforeStart) <==> Ordinal(e) < Ordinal(s))
      && (r == Err(EndTooRecent) <==> Ordinal(s) <= Ordinal(e) && Ordinal(e) > Ordinal(today) - 2)
      && (r.Ok? <==> Ordinal(s) <= Ordinal(e) <= Ordinal(today) - 2)
      && (r.Ok? ==> r.value == (FormatMDY(s), FormatMDY(e)))
  {
    match RequestedDays(startArg, endArg, today)
    case Err(e) => Err(e)
    case Ok((s, e)) =>
      if Ordinal(e) < Ordinal(s) then Err(EndBeforeStart)
      else if Ordinal(e) > Ordinal(TwoDaysAgo(today)) then Err(EndTooRecent)
      else Ok((FormatMDY(s), FormatMDY(e)))
  }

  /** The script accepts exactly the dates the library's `get_usage` accepts, for the same
      reasons, when both are given the same days. */
  lemma ScriptValidationAgreesWithLibrary(name: string, startArg: string, endArg: Option<string>, today: Date)
    requires Valid(today) && today.year > 1
    requires IntervalOf(name).Some? && RequestedDays(startArg, endArg, today).Ok?
    ensures var (s, e) := RequestedDays(startArg, endArg, today).value;
      var lib := ElectricMeter.ValidateRequest(name, Ordinal(s), if EndGiven(endArg) then Some(Ordinal(e)) else None, Ordinal(today));
      && (ValidateAndConvertDates(startArg, endArg, today).Ok? <==> lib.Ok?)
      && (lib.Ok? ==> lib.value.1 == Ordinal(e))
      && (lib.Err? ==> ValidateAndConvertDates(startArg, endArg, today) == Err(lib.error))
  {
  }

  /** The MM/DD/YY strings the script passes on parse back to the validated days when both lie
      in 1969..2068, so the fetch covers the requested range. */
  lemma ConvertedDatesReparse(startArg: string, endArg: Option<string>, today: Date)
    requires Valid(today) && today.year > 1
    requires ValidateAndConvertDates(startArg, endArg, today).Ok?
    requires 1969 <= RequestedDays(startArg, endArg, today).value.0.year <= 2068
    requires 1969 <= RequestedDays(startArg, endArg, today).value.1.year <= 2068
    ensures ParseMDY(ValidateAndConvertDates(startArg, endArg, today).value.0) == Some(RequestedDays(startArg, endArg, today).value.0)
    ensures ParseMDY(ValidateAndConvertDates(startArg, endArg, today).value.1) == Some(RequestedDays(startArg, endArg, today).value.1)
  {
    var (s, e) := RequestedDays(startArg, endArg, today).value;
    FormatParseRoundTrip(s);
    FormatParseRoundTrip(e);
  }

  // Credentials

  /** What reading the secrets file gives. */
  datatype SecretsFile = Missing | NotJson | SecretsJson(value: Json)

  /** `load_credentials`: the decoded secrets when `'userid' in creds and 'password' in creds`.
      On an object that looks at the keys, on a list the elements and on a string the substrings,
      so a list naming both strings or a string containing both passes too; any other JSON value
      does not support `in`, and the TypeError escapes. A value that passes is never empty, so
      `if not creds` lets it through. */
  function CredentialsOf(file: SecretsFile): (r: Result<Json, Error>)
    ensures r.Ok? ==> file.SecretsJson? && r.value == file.value
    ensures file.SecretsJson? && file.value.JObj? ==>
      (r.Ok? <==> "userid" in file.value.fields && "password" in file.value.fields)
    ensures file.SecretsJson? && file.value.JArr? ==>
      (r.Ok? <==> JStr("userid") in file.value.items && JStr("password") in file.value.items)
    ensures file.SecretsJson? && file.value.JStr? ==>
      (r.Ok? <==> Contains(file.value.s, "userid") && Contains(file.value.s, "password"))
    ensures r == Err(Unhandled) <==> file.SecretsJson? && !(file.value.JObj? || file.value.JArr? || file.value.JStr?)
    ensures r.Err? ==> r.error == BadCredentials || r.error == Unhandled
  {
    match file
    case Missing => Err(BadCredentials)
    case NotJson => Err(BadCredentials)
    case SecretsJson(v) =>
      match v
      case JObj(m) => if "userid" in m && "password" in m then Ok(v) else Err(BadCredentials)
      case JArr(items) => if JStr("userid") in items && JStr("password") in items then Ok(v) else Err(BadCredentials)
      case JStr(s) => if Contains(s, "userid") && Contains(s, "password") then Ok(v) else Err(BadCredentials)
      case _ => Err(Unhandled)
  }

  /** `creds['userid']` and `creds['password']`, read as the arguments of `login`: only an
      object can be indexed by a string; on a list or a string the TypeError escapes. */
  function LoginFields(creds: Json): (r: Result<(Json, Json), Error>)
    ensures r.Ok? <==> creds.JObj? && "userid" in creds.fields && "password" in creds.fields
    ensures r.Ok? ==> r.value == (creds.fields["userid"], creds.fields["password"])
    ensures r.Err? ==> r.error == Unhandled
  {
    if creds.JObj? && "userid" in creds.fields && "password" in creds.fields then
      Ok((creds.fields["userid"], creds.fields["password"]))
    else Err(Unhandled)
  }

  /** An object without one of the two fields is always refused. */
  lemma CredentialsNeedBothFields(m: map<string, Json>)
    requires "userid" !in m || "password" !in m
    ensures CredentialsOf(SecretsJson(JObj(m))) == Err(BadCredentials)
  {
  }

  // Login

  /** The script's `login`: the home page is fetched but its status is not checked, only a
      network failure escapes; the answer is the library's acceptance test on the reply. */
  function ScriptLogin(home: PageReply, reply: Reply): (r: Result<bool, Error>)
    ensures r == Ok(true) <==> home.Page? && LoginReplyAccepted(reply)
    ensures r == Ok(false) <==> home.Page? && reply.Reply? && !LoginReplyAccepted(reply)
    ensures r.Err? ==> r.error == Unhandled
  {
    if home.PageUnreachable? || reply.NetworkFailure? then Err(Unhandled)
    else Ok(LoginReplyAccepted(reply))
  }

  /** The two logins agree whenever the home page loads; only the library refuses a home page
      with a status other than 200. */
  lemma ScriptLoginAgreesWithLibrary(home: PageReply, reply: Reply)
    requires home.Page? && reply.Reply?
    ensures home.status == 200 ==> (ScriptLogin(home, reply) == Ok(true) <==> Session.LoginOutcome(home, reply).Ok?)
    ensures home.status != 200 ==> Session.LoginOutcome(home, reply) == Err(ConnectionError)
  {
  }

  // The active meter

  /** The position of the entry the script picks: the first active one. Entries before it must
      have a readable status; entries after it are not looked at. */
  function FirstActiveAt(items: seq<Json>): (r: Result<nat, Error>)
    ensures r.Ok? ==> r.value < |items| && Session.IsActive(items[r.value])
    ensures r.Ok? ==> forall j | 0 <= j < r.value :: Session.HasStatus(items[j]) && !Session.IsActive(items[j])
    ensures r == Err(MeterNotFound) <==> forall j | 0 <= j < |items| :: Session.HasStatus(items[j]) && !Session.IsActive(items[j])
    ensures r.Err? ==> r.error == MeterNotFound || r.error == Unhandled
    ensures r == Err(Unhandled) <==>
      exists j | 0 <= j < |items| :: !Session.HasStatus(items[j]) && forall l | 0 <= l < j :: Session.HasStatus(items[l]) && !Session.IsActive(items[l])
  {
    if |items| == 0 then Err(MeterNotFound)
    else if !Session.HasStatus(items[0]) then Err(Unhandled)
    else if Session.IsActive(items[0]) then Ok(0)
    else
      match FirstActiveAt(items[1..])
      case Err(e) => Err(e)
      case Ok(k) => Ok(k + 1)
  }

  /** Entries that are all inactive give the library no meter. */
  lemma {:induction false} NoActiveNoMeters(items: seq<Json>)
    requires forall j | 0 <= j < |items| :: Session.HasStatus(items[j]) && !Session.IsActive(items[j])
    ensures Session.ActiveMeters(items) == Ok([])
  {
    if |items| > 0 {
      var p := items[..|items| - 1];
      assert forall j | 0 <= j < |p| :: p[j] == items[j];
      NoActiveNoMeters(p);
    }
  }

  /** The library's first active meter is the first active entry. */
  lemma {:induction false} ActiveMetersStartAtFirstActive(items: seq<Json>, k: nat)
    requires forall j | 0 <= j < |items| :: Session.HasStatus(items[j])
    requires k < |items| && Session.IsActive(items[k])
    requires forall j | 0 <= j < k :: !Session.IsActive(items[j])
    ensures Session.ActiveMeters(items).Ok? && |Session.ActiveMeters(items).value| > 0
    ensures Session.ActiveMeters(items).value[0] == items[k].fields
  {
    var n := |items|;
    var p, last := items[..n - 1], items[n - 1];
    assert forall j | 0 <= j < |p| :: p[j] == items[j];
    assert Session.ActiveMeters(p).Ok?;
    var ms' := Session.ActiveMeters(p).value;
    assert Session.ActiveMeters(items) ==
      if StatusActive(last.fields["Status"]) then Ok(ms' + [last.fields]) else Ok(ms');
    if k == n - 1 {
      NoActiveNoMeters(p);
      assert ms' == [];
    } else {
      ActiveMetersStartAtFirstActive(p, k);
      assert |ms'| > 0 && ms'[0] == items[k].fields;
    }
  }

  /** The script's pick is the library's default meter: the first of `get_electric_meters` as
      `get_electric_meter()` returns it, and no active entry is "no meter" for both. */
  lemma ScriptPicksLibraryDefault(items: seq<Json>)
    requires Session.ActiveMeters(items).Ok?
    ensures var ms := Session.ActiveMeters(items).value;
      && (|ms| == 0 <==> FirstActiveAt(items) == Err(MeterNotFound))
      && (|ms| > 0 ==> Session.SelectMeter(ms, None) == Ok(items[FirstActiveAt(items).value].fields))
  {
    var ms := Session.ActiveMeters(items).value;
    match FirstActiveAt(items)
    case Ok(k) => ActiveMetersStartAtFirstActive(items, k);
    case Err(_) => NoActiveNoMeters(items);
  }

  /** The meter entry the script picks from the decoded meter query. */
  function ActiveMeterOf(info: Json): (r: Result<Meter, Error>)
    ensures r.Ok? ==> Session.MeterDetailsItems(info).Ok? && FirstActiveAt(Session.MeterDetailsItems(info).value).Ok?
    ensures r.Err? ==> r.error == MeterNotFound || r.error == Unhandled
  {
    match Session.MeterDetailsItems(info)
    case Err(e) => Err(e)
    case Ok(items) =>
      match FirstActiveAt(items)
      case Err(e) => Err(e)
      case Ok(k) => Ok(items[k].fields)
  }

  // Fetching

  /** The day range the per-mode loops use: the MM/DD/YY strings parsed again; monthly mode
      does not parse them. */
  function FetchRange(interval: Interval, dateFrom: string, dateTo: string): (r: Option<(int, int)>)
    ensures interval == Monthly ==> r == Some((0, 0))
    ensures interval != Monthly ==> (r.Some? <==> ParseMDY(dateFrom).Some? && ParseMDY(dateTo).Some?)
    ensures interval != Monthly && r.Some? ==> r.value == (Ordinal(ParseMDY(dateFrom).value), Ordinal(ParseMDY(dateTo).value))
  {
    if interval == Monthly then Some((0, 0))
    else
      match (ParseMDY(dateFrom), ParseMDY(dateTo))
      case (Some(s), Some(e)) => Some((Ordinal(s), Ordinal(e)))
      case _ => None
  }

  /** What `get_meter_data` returns: the active meter and the merged rows. The Usages page and
      the meter POST are sent outside the `try`, so their network failures escape. Inside it
      every failure, a failed usage call included, returns None (an API error here), except
      that finding no active meter is reported as such. */
  function MeterDataOutcome(usagesPage: PageReply, meterReply: Reply, backend: Backend, interval: Interval,
                            dateFrom: string, dateTo: string): (r: Result<(Meter, seq<RawRecord>), Error>)
    ensures usagesPage.PageUnreachable? ==> r == Err(Unhandled)
    ensures r.Ok? ==> Session.TokenFromPage(usagesPage).Ok? && meterReply.Reply? && meterReply.status == 200
    ensures r.Ok? ==> meterReply.body.Decoded? && ActiveMeterOf(meterReply.body.value) == Ok(r.value.0)
    ensures r.Ok? ==> "MeterNumber" in r.value.0 && FetchRange(interval, dateFrom, dateTo).Some?
    ensures r.Ok? ==> var (s, e) := FetchRange(interval, dateFrom, dateTo).value;
      FetchResult(backend, ModeOf(interval), s, e, r.value.0["MeterNumber"]) == Ok(r.value.1)
  {
    if usagesPage.PageUnreachable? then Err(Unhandled)
    else if Session.TokenFromPage(usagesPage).Err? then Err(ApiError)
    else if meterReply.NetworkFailure? then Err(Unhandled)
    else if meterReply.status != 200 || !meterReply.body.Decoded? then Err(ApiError)
    else
      match ActiveMeterOf(meterReply.body.value)
      case Err(MeterNotFound) => Err(MeterNotFound)
      case Err(_) => Err(ApiError)
      case Ok(m) =>
        if "MeterNumber" !in m then Err(ApiError)
        else
          match FetchRange(interval, dateFrom, dateTo)
          case None => Err(ApiError)
          case Some((s, e)) =>
            match FetchResult(backend, ModeOf(interval), s, e, m["MeterNumber"])
            case Err(_) => Err(ApiError)
            case Ok(raw) => Ok((m, raw))
  }

  /** The usage queries `get_meter_data` sends: none unless the meter was found. */
  function MeterDataQueries(usagesPage: PageReply, meterReply: Reply, backend: Backend, interval: Interval,
                            dateFrom: string, dateTo: string): seq<Query>
  {
    if usagesPage.PageUnreachable? || Session.TokenFromPage(usagesPage).Err? || meterReply.NetworkFailure? then []
    else if meterReply.status != 200 || !meterReply.body.Decoded? then []
    else
      match ActiveMeterOf(meterReply.body.value)
      case Err(_) => []
      case Ok(m) =>
        if "MeterNumber" !in m then []
        else
          match FetchRange(interval, dateFrom, dateTo)
          case None => []
          case Some((s, e)) => Issued(backend, Plan(ModeOf(interval), s, e, m["MeterNumber"]))
  }

  /** A usage call that fails ends `get_meter_data` with nothing: no partial rows. */
  lemma FailedCallReturnsNothing(usagesPage: PageReply, meterReply: Reply, backend: Backend, interval: Interval,
                                 dateFrom: string, dateTo: string, m: Meter, s: int, e: int)
    requires Session.TokenFromPage(usagesPage).Ok? && meterReply.Reply? && meterReply.status == 200 && meterReply.body.Decoded?
    requires ActiveMeterOf(meterReply.body.value) == Ok(m) && "MeterNumber" in m
    requires FetchRange(interval, dateFrom, dateTo) == Some((s, e))
    requires Responses(backend, Plan(ModeOf(interval), s, e, m["MeterNumber"])).Err?
    ensures MeterDataOutcome(usagesPage, meterReply, backend, interval, dateFrom, dateTo) == Err(ApiError)
  {
  }

  // Output

  /** The `output` dict of `format_output`: the meter fields and the usage summary. */
  datatype Summary = Summary(number: Json, meterType: Json, address: Json, rateCategory: Json, usage: seq<UsageRecord>)

  /** `format_output`: the meter's number, type and address (missing ones raise, uncaught),
      then the script's normaliser over the requested days; a record it cannot handle raises
      too, since nothing in `format_output` catches. */
  function FormatOutcome(meter: Meter, raw: seq<RawRecord>, interval: Interval, start: int, end: int): (r: Result<Summary, Error>)
    ensures r.Ok? <==> ("MeterNumber" in meter && "MeterType" in meter && "Address" in meter && Normalize(raw, interval, start, end, Script).Ok?)
    ensures r.Ok? ==> r.value.usage == Normalize(raw, interval, start, end, Script).value
    ensures r.Ok? ==> r.value.number == meter["MeterNumber"] && r.value.rateCategory == Get(meter, "MeterAttribute2", JStr(""))
    ensures r.Err? ==> r.error == Unhandled
  {
    if "MeterNumber" !in meter || "MeterType" !in meter || "Address" !in meter then Err(Unhandled)
    else
      match Normalize(raw, interval, start, end, Script)
      case Err(_) => Err(Unhandled)
      case Ok(rows) => Ok(Summary(meter["MeterNumber"], meter["MeterType"], meter["Address"], Get(meter, "MeterAttribute2", JStr("")), rows))
  }

  /** The summary's rows are keyed uniquely, in ascending key order, with `net = import - export`. */
  lemma SummaryRows(meter: Meter, raw: seq<RawRecord>, interval: Interval, start: int, end: int)
    requires FormatOutcome(meter, raw, interval, start, end).Ok?
    ensures var rows := FormatOutcome(meter, raw, interval, start, end).value.usage;
      forall i, j | 0 <= i < j < |rows| :: StrLess(rows[i].key, rows[j].key)
    ensures var rows := FormatOutcome(meter, raw, interval, start, end).value.usage;
      forall i | 0 <= i < |rows| :: rows[i].netKwh == rows[i].importKwh - rows[i].exportKwh && rows[i].exportKwh >= 0.0
  {
    NormalizeMeaning(raw, interval, start, end, Script);
  }

  /** The whole run of `go`, in its order: credentials, dates, the credential fields read as
      `login`'s arguments, login, meter data, output. */
  function GoOutcome(secrets: SecretsFile, interval: Interval, startArg: string, endArg: Option<string>, today: Date,
                     home: PageReply, loginReply: Reply, usagesPage: PageReply, meterReply: Reply, backend: Backend): (r: Result<Summary, Error>)
    requires Valid(today) && today.year > 1
    ensures CredentialsOf(secrets).Err? ==> r == Err(CredentialsOf(secrets).error)
    ensures CredentialsOf(secrets).Ok? && ValidateAndConvertDates(startArg, endArg, today).Err? ==>
      r == Err(ValidateAndConvertDates(startArg, endArg, today).error)
    ensures CredentialsOf(secrets).Ok? && ValidateAndConvertDates(startArg, endArg, today).Ok? && LoginFields(secrets.value).Err? ==>
      r == Err(Unhandled)
    ensures CredentialsOf(secrets).Ok? && ValidateAndConvertDates(startArg, endArg, today).Ok? && LoginFields(secrets.value).Ok? ==>
      var (dateFrom, dateTo) := ValidateAndConvertDates(startArg, endArg, today).value;
      var (s, e) := RequestedDays(startArg, endArg, today).value;
      r == SessionOutcome(home, loginReply, usagesPage, meterReply, backend, interval, dateFrom, dateTo, Ordinal(s), Ordinal(e))
    ensures r.Ok? ==> LoginFields(secrets.value).Ok? && ValidateAndConvertDates(startArg, endArg, today).Ok? && ScriptLogin(home, loginReply) == Ok(true)
  {
    match CredentialsOf(secrets)
    case Err(e) => Err(e)
    case Ok(creds) =>
      match ValidateAndConvertDates(startArg, endArg, today)
      case Err(e) => Err(e)
      case Ok((dateFrom, dateTo)) =>
        match LoginFields(creds)
        case Err(e) => Err(e)
        case Ok(_) =>
          var (s, e) := RequestedDays(startArg, endArg, today).value;
          SessionOutcome(home, loginReply, usagesPage, meterReply, backend, interval, dateFrom, dateTo, Ordinal(s), Ordinal(e))
  }

  /** The part of `go` after the arguments are checked: the login, then the report. */
  function SessionOutcome(home: PageReply, loginReply: Reply, usagesPage: PageReply, meterReply: Reply, backend: Backend,
                          interval: Interval, dateFrom: string, dateTo: string, start: int, end: int): (r: Result<Summary, Error>)
    ensures ScriptLogin(home, loginReply).Err? ==> r == Err(Unhandled)
    ensures ScriptLogin(home, loginReply) == Ok(false) ==> r == Err(AuthenticationError)
    ensures ScriptLogin(home, loginReply) == Ok(true) ==>
      r == ReportOutcome(usagesPage, meterReply, backend, interval, dateFrom, dateTo, start, end)
  {
    match ScriptLogin(home, loginReply)
    case Err(e) => Err(e)
    case Ok(false) => Err(AuthenticationError)
    case Ok(true) => ReportOutcome(usagesPage, meterReply, backend, interval, dateFrom, dateTo, start, end)
  }

  /** The logged-in part of `go`: the meter data, then the output over days `start..end`. */
  function ReportOutcome(usagesPage: PageReply, meterReply: Reply, backend: Backend, interval: Interval,
                         dateFrom: string, dateTo: string, start: int, end: int): (r: Result<Summary, Error>)
    ensures r.Ok? ==> MeterDataOutcome(usagesPage, meterReply, backend, interval, dateFrom, dateTo).Ok?
    ensures MeterDataOutcome(usagesPage, meterReply, backend, interval, dateFrom, dateTo).Err? ==>
      r == Err(MeterDataOutcome(usagesPage, meterReply, backend, interval, dateFrom, dateTo).error)
    ensures MeterDataOutcome(usagesPage, meterReply, backend, interval, dateFrom, dateTo).Ok? ==>
      var (m, raw) := MeterDataOutcome(usagesPage, meterReply, backend, interval, dateFrom, dateTo).value;
      r == FormatOutcome(m, raw, interval, start, end)
  {
    match MeterDataOutcome(usagesPage, meterReply, backend, interval, dateFrom, dateTo)
    case Err(e) => Err(e)
    case Ok((m, raw)) => FormatOutcome(m, raw, interval, start, end)
  }

  /** The exit status of `go`. */
  function ExitCode(r: Result<Summary, Error>): (code: int)
    ensures code == 0 <==> r.Ok?
    ensures code == 0 || code == 1
  {
    if r.Ok? then 0 else 1
  }

  /** Refused dates stop the run after the secrets file is read and before anything is sent,
      whatever shape of secrets passed `load_credentials`: the fields are read only afterwards. */
  lemma BadDatesStopBeforeLogin(secrets: SecretsFile, interval: Interval, startArg: string, endArg: Option<string>, today: Date,
                                home: PageReply, loginReply: Reply, usagesPage: PageReply, meterReply: Reply, backend: Backend)
    requires Valid(today) && today.year > 1
    requires CredentialsOf(secrets).Ok? && ValidateAndConvertDates(startArg, endArg, today).Err?
    ensures GoOutcome(secrets, interval, startArg, endArg, today, home, loginReply, usagesPage, meterReply, backend) ==
      Err(ValidateAndConvertDates(startArg, endArg, today).error)
  {
  }

  /** Secrets that are a list naming both fields pass `load_credentials`; the run then fails
      only at `creds['userid']`, after the dates are checked, so bad dates still give their own
      refusal. */
  lemma ListSecretsFailAtFieldRead(interval: Interval, startArg: string, endArg: Option<string>, today: Date,
                                   home: PageReply, loginReply: Reply, usagesPage: PageReply, meterReply: Reply, backend: Backend)
    requires Valid(today) && today.year > 1
    ensures var secrets := SecretsJson(JArr([JStr("userid"), JStr("password")]));
      var dates := ValidateAndConvertDates(startArg, endArg, today);
      && CredentialsOf(secrets).Ok?
      && GoOutcome(secrets, interval, startArg, endArg, today, home, loginReply, usagesPage, meterReply, backend) ==
           (if dates.Err? then Err(dates.error) else Err(Unhandled))
  {
    var items := [JStr("userid"), JStr("password")];
    assert items[0] == JStr("userid") && items[1] == JStr("password");
  }

  /** A successful run returns the summary `format_output` builds from the meter data fetched
      over the validated dates: rows keyed uniquely in ascending order, `net = import - export`. */
  lemma GoSummary(secrets: SecretsFile, interval: Interval, startArg: string, endArg: Option<string>, today: Date,
                  home: PageReply, loginReply: Reply, usagesPage: PageReply, meterReply: Reply, backend: Backend)
    requires Valid(today) && today.year > 1
    requires GoOutcome(secrets, interval, startArg, endArg, today, home, loginReply, usagesPage, meterReply, backend).Ok?
    ensures var (dateFrom, dateTo) := ValidateAndConvertDates(startArg, endArg, today).value;
      var (s, e) := RequestedDays(startArg, endArg, today).value;
      var data := MeterDataOutcome(usagesPage, meterReply, backend, interval, dateFrom, dateTo);
      && data.Ok?
      && GoOutcome(secrets, interval, startArg, endArg, today, home, loginReply, usagesPage, meterReply, backend) ==
           FormatOutcome(data.value.0, data.value.1, interval, Ordinal(s), Ordinal(e))
    ensures var rows := GoOutcome(secrets, interval, startArg, endArg, today, home, loginReply, usagesPage, meterReply, backend).value.usage;
      && (forall i, j | 0 <= i < j < |rows| :: StrLess(rows[i].key, rows[j].key))
      && (forall i | 0 <= i < |rows| :: rows[i].netKwh == rows[i].importKwh - rows[i].exportKwh && rows[i].exportKwh >= 0.0)
  {
    var (dateFrom, dateTo) := ValidateAndConvertDates(startArg, endArg, today).value;
    var (s, e) := RequestedDays(startArg, endArg, today).value;
    var data := MeterDataOutcome(usagesPage, meterReply, backend, interval, dateFrom, dateTo);
    assert data.Ok?;
    SummaryRows(data.value.0, data.value.1, interval, Ordinal(s), Ordinal(e));
  }

  // The script's loops

  /** The meter loop of `get_meter_data`, with its `break`. */
  method PickActiveMeter(items: seq<Json>) returns (r: Result<nat, Error>)
    ensures r == FirstActiveAt(items)
  {
    var i := 0;
    while i < |items|
      invariant 0 <= i <= |items|
      invariant forall j | 0 <= j < i :: Session.HasStatus(items[j]) && !Session.IsActive(items[j])
    {
      var item := items[i];
      if !(item.JObj? && "Status" in item.fields) {
        return Err(Unhandled);
      }
      if StatusActive(item.fields["Status"]) {
        return Ok(i);
      }
      i := i + 1;
    }
    return Err(MeterNotFound);
  }

  /** `get_meter_data`: the Usages page and its token, the meter query, the active meter, then
      the per-mode usage loops. */
  method GetMeterData(usagesPage: PageReply, meterReply: Reply, backend: Backend, interval: Interval,
                      dateFrom: string, dateTo: string)
    returns (r: Result<(Meter, seq<RawRecord>), Error>, issued: seq<Query>)
    ensures r == MeterDataOutcome(usagesPage, meterReply, backend, interval, dateFrom, dateTo)
    ensures issued == MeterDataQueries(usagesPage, meterReply, backend, interval, dateFrom, dateTo)
  {
    issued := [];
    if usagesPage.PageUnreachable? {
      return Err(Unhandled), issued;
    }
    if usagesPage.status != 200 || usagesPage.token.None? || usagesPage.token.value == "" {
      return Err(ApiError), issued;
    }
    if meterReply.NetworkFailure? {
      return Err(Unhandled), issued;
    }
    if meterReply.status != 200 || !meterReply.body.Decoded? {
      return Err(ApiError), issued;
    }
    var details := Session.MeterDetailsItems(meterReply.body.value);
    if details.Err? {
      return Err(ApiError), issued;
    }
    var pick := PickActiveMeter(details.value);
    if pick.Err? {
      return (if pick.error == MeterNotFound then Err(MeterNotFound) else Err(ApiError)), issued;
    }
    var meter := details.value[pick.value].fields;
    if "MeterNumber" !in meter {
      return Err(ApiError), issued;
    }
    var rows;
    rows, issued := FetchMeterRows(backend, interval, meter["MeterNumber"], dateFrom, dateTo);
    if rows.Err? {
      return Err(ApiError), issued;
    }
    r := Ok((meter, rows.value));
  }

  /** The per-mode usage loops of `get_meter_data` for the chosen meter: the day range, then the
      calls; any failure is an API error. */
  method FetchMeterRows(backend: Backend, interval: Interval, number: Json, dateFrom: string, dateTo: string)
    returns (rows: Result<seq<RawRecord>, Error>, issued: seq<Query>)
    ensures FetchRange(interval, dateFrom, dateTo).None? ==> rows == Err(ApiError) && issued == []
    ensures FetchRange(interval, dateFrom, dateTo).Some? ==>
      var (s, e) := FetchRange(interval, dateFrom, dateTo).value;
      && issued == Issued(backend, Plan(ModeOf(interval), s, e, number))
      && rows == (if FetchResult(backend, ModeOf(interval), s, e, number).Err? then Err(ApiError)
                  else FetchResult(backend, ModeOf(interval), s, e, number))
  {
    var s, e := 0, 0;
    if interval != Monthly {
      var startDay, endDay := ParseMDY(dateFrom), ParseMDY(dateTo);
      if startDay.None? || endDay.None? {
        return Err(ApiError), [];
      }
      s, e := Ordinal(startDay.value), Ordinal(endDay.value);
    }
    rows, issued := Fetch(backend, ModeOf(interval), number, s, e);
    if rows.Err? {
      rows := Err(ApiError);
    }
  }

  /** `format_output`. */
  method FormatOutput(meter: Meter, raw: seq<RawRecord>, interval: Interval, start: int, end: int) returns (r: Result<Summary, Error>)
    ensures r == FormatOutcome(meter, raw, interval, start, end)
  {
    if "MeterNumber" !in meter || "MeterType" !in meter || "Address" !in meter {
      return Err(Unhandled);
    }
    var rows := ParseRecords(raw, interval, start, end, Script);
    if rows.Err? {
      return Err(Unhandled);
    }
    r := Ok(Summary(meter["MeterNumber"], meter["MeterType"], meter["Address"], Get(meter, "MeterAttribute2", JStr("")), rows.value));
  }

  /** `go`: the run and its exit status. */
  method Go(secrets: SecretsFile, interval: Interval, startArg: string, endArg: Option<string>, today: Date,
            home: PageReply, loginReply: Reply, usagesPage: PageReply, meterReply: Reply, backend: Backend)
    returns (r: Result<Summary, Error>, code: int)
    requires Valid(today) && today.year > 1
    ensures r == GoOutcome(secrets, interval, startArg, endArg, today, home, loginReply, usagesPage, meterReply, backend)
    ensures code == ExitCode(r)
  {
    var creds := CredentialsOf(secrets);
    if creds.Err? {
      return Err(creds.error), 1;
    }
    var dates := ValidateAndConvertDates(startArg, endArg, today);
    if dates.Err? {
      return Err(dates.error), 1;
    }
    var fields := LoginFields(creds.value);
    if fields.Err? {
      return Err(fields.error), 1;
    }
    var (s, e) := RequestedDays(startArg, endArg, today).value;
    r := RunSession(home, loginReply, usagesPage, meterReply, backend, interval, dates.value.0, dates.value.1, Ordinal(s), Ordinal(e));
    code := ExitCode(r);
  }

  /** The login of `go`, then the report when the portal accepted it. */
  method RunSession(home: PageReply, loginReply: Reply, usagesPage: PageReply, meterReply: Reply, backend: Backend,
                    interval: Interval, dateFrom: string, dateTo: string, start: int, end: int) returns (r: Result<Summary, Error>)
    ensures r == SessionOutcome(home, loginReply, usagesPage, meterReply, backend, interval, dateFrom, dateTo, start, end)
  {
    var loggedIn := ScriptLogin(home, loginReply);
    if loggedIn.Err? {
      return Err(loggedIn.error);
    }
    if !loggedIn.value {
      return Err(AuthenticationError);
    }
    r := Report(usagesPage, meterReply, backend, interval, dateFrom, dateTo, start, end);
  }

  /** `get_meter_data` followed by `format_output`, as `go` runs them once logged in. */
  method Report(usagesPage: PageReply, meterReply: Reply, backend: Backend, interval: Interval,
                dateFrom: string, dateTo: string, start: int, end: int) returns (r: Result<Summary, Error>)
    ensures r == ReportOutcome(usagesPage, meterReply, backend, interval, dateFrom, dateTo, start, end)
  {
    var data, _ := GetMeterData(usagesPage, meterReply, backend, interval, dateFrom, dateTo);
    if data.Err? {
      return Err(data.error);
    }
    r := FormatOutput(data.value.0, data.value.1, interval, start, end);
  }
}
