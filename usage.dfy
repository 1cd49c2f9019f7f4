/**
 The vocabulary of the electric usage engine: interval names and the API modes they map to, the
 raw records the `LoadUsage` endpoint returns, the queries the client sends, and the normalised
 usage records it produces. Days are `date.toordinal()` numbers.
 */
module Usage {
  import opened Wrappers
  import opened Portal

  /** The four interval names a caller may ask for. */
  datatype Interval = Monthly | Daily | Hourly | FifteenMin

  /** The API's `Mode` codes. */
  datatype Mode = M | D | H | MI

  /** The interval names, in the order `get_available_intervals` lists them. */
  const IntervalNames: seq<string> := ["monthly", "daily", "hourly", "15min"]

  /** The interval a name denotes, None for any other string. */
  function IntervalOf(name: string): (r: Option<Interval>)
    ensures r.Some? <==> name in IntervalNames
    ensures r == Some(Monthly) <==> name == "monthly"
    ensures r == Some(Daily) <==> name == "daily"
    ensures r == Some(Hourly) <==> name == "hourly"
    ensures r == Some(FifteenMin) <==> name == "15min"
  {
    if name == "monthly" then Some(Monthly)
    else if name == "daily" then Some(Daily)
    else if name == "hourly" then Some(Hourly)
    else if name == "15min" then Some(FifteenMin)
    else None
  }

  /** The interval-to-mode map. */
  function ModeOf(i: Interval): (m: Mode)
    ensures i == Monthly <==> m == M
    ensures i == Daily <==> m == D
    ensures i == Hourly <==> m == H
    ensures i == FifteenMin <==> m == MI
  {
    match i
    case Monthly => M
    case Daily => D
    case Hourly => H
    case FifteenMin => MI
  }

  /** The `SeasonId` payload field: the empty string for monthly, 0 otherwise. */
  datatype Season = BlankSeason | ZeroSeason

  function SeasonFor(m: Mode): (s: Season)
    ensures s == BlankSeason <==> m == M
  {
    if m == M then BlankSeason else ZeroSeason
  }

  /** The fields of one `LoadUsage` result row that the client reads, with the defaults
      `record.get(...)` supplies already applied. `usageDate` and `hourly` stay optional because
      the code distinguishes a missing value. */
  datatype RawRecord = RawRecord(
    usageDate: Option<string>,   // 'UsageDate', MM/DD/YY
    usageType: string,           // 'UsageType', default ''
    usageValue: real,            // float('UsageValue'), default 0
    billPeriod: string,          // 'BillPeriod', default ''
    year: int,                   // 'Year'
    month: int,                  // 'Month'
    hourly: Option<string>)      // 'Hourly', HH:MM

  /** `record.get('UsageDate')` is truthy: present and not the empty string. */
  predicate HasDate(r: RawRecord) {
    r.usageDate.Some? && r.usageDate.value != ""
  }

  /** The parts of a `LoadUsage` payload that vary: the mode, the `strDate` anchor day (None for
      the empty string), `SeasonId` and `MeterNumber`. The other fields are constants. */
  datatype Query = Query(mode: Mode, anchor: Option<int>, season: Season, meter: Json)

  /** The portal, as the fetch loops see it: one query in, the result rows or a failure out. */
  type Backend = Query -> Result<seq<RawRecord>, Error>

  /** One normalised record: the grouping key, the billing period (monthly only), and the
      import, export and net energy in kWh. */
  datatype UsageRecord = UsageRecord(
    key: string,
    billingPeriod: Option<string>,
    importKwh: real,
    exportKwh: real,
    netKwh: real)

  /** The concatenation of a sequence of responses. */
  function Flatten(rs: seq<seq<RawRecord>>): (all: seq<RawRecord>)
    ensures |rs| == 0 ==> all == []
    ensures |rs| == 1 ==> all == rs[0]
  {
    if |rs| == 0 then [] else Flatten(rs[..|rs| - 1]) + rs[|rs| - 1]
  }

  /** Concatenating the responses of two runs of queries is concatenating their results: the
      records of each response appear once, in query order. */
  lemma {:induction false} FlattenAppend(a: seq<seq<RawRecord>>, b: seq<seq<RawRecord>>)
    ensures Flatten(a + b) == Flatten(a) + Flatten(b)
    decreases |b|
  {
    if |b| == 0 {
      assert a + b == a;
    } else {
      var b' := b[..|b| - 1];
      assert (a + b)[..|a + b| - 1] == a + b';
      assert (a + b)[|a + b| - 1] == b[|b| - 1];
      FlattenAppend(a, b');
    }
  }
}
