/**
 The electric meter's public operations: `get_usage` (validate, fetch, normalise),
 `iter_usage` (the same in windows of `chunk_days` days) and `get_available_intervals`.
 `date.today()` is the parameter `today`, a day ordinal.
 */
module ElectricMeter {
  import opened Wrappers
  import opened Portal
  import opened Usage
  import opened Fetcher
  import opened Normalizer

  /** `get_available_intervals`: the four interval names, each accepted by `get_usage`. */
  function AvailableIntervals(): (names: seq<string>)
    ensures |names| == 4
    ensures forall n :: n in names <==> IntervalOf(n).Some?
  {
    IntervalNames
  }

  /** The checks `get_usage` makes before it sends anything, in the code's order: the interval
      name, then `end` (two days before today when absent) against `start`, then `end` against
      two days before today. On success, the interval and the end day to use. */
  function ValidateRequest(name: string, start: int, end: Option<int>, today: int): (r: Result<(Interval, int), Error>)
    ensures r.Ok? <==> IntervalOf(name).Some? && start <= end.GetOr(today - 2) <= today - 2
    ensures r.Ok? ==> r.value == (IntervalOf(name).value, end.GetOr(today - 2))
    ensures r == Err(InvalidInterval) <==> IntervalOf(name).None?
    ensures r == Err(EndBeforeStart) <==> IntervalOf(name).Some? && end.GetOr(today - 2) < start
    ensures r == Err(EndTooRecent) <==> IntervalOf(name).Some? && start <= end.GetOr(today - 2) && end.GetOr(today - 2) > today - 2
  {
    match IntervalOf(name)
    case None => Err(InvalidInterval)
    case Some(interval) =>
      var last := if end.Some? then end.value else today - 2;
      if last < start then Err(EndBeforeStart)
      else if last > today - 2 then Err(EndTooRecent)
      else Ok((interval, last))
  }

  /** What `get_usage` returns or raises. */
  function UsageResult(backend: Backend, meter: Json, name: string, start: int, end: Option<int>, today: int): (r: Result<seq<UsageRecord>, Error>)
    ensures r.Ok? ==> ValidateRequest(name, start, end, today).Ok?
    ensures ValidateRequest(name, start, end, today).Err? ==> r == Err(ValidateRequest(name, start, end, today).error)
  {
    match ValidateRequest(name, start, end, today)
    case Err(e) => Err(e)
    case Ok((interval, last)) =>
      match FetchResult(backend, ModeOf(interval), start, last, meter)
      case Err(e) => Err(e)
      case Ok(raw) => Normalize(raw, interval, start, last, Library)
  }

  /** The queries `get_usage` sends: none when validation fails. */
  function UsageQueries(backend: Backend, meter: Json, name: string, start: int, end: Option<int>, today: int): seq<Query> {
    match ValidateRequest(name, start, end, today)
    case Err(_) => []
    case Ok((interval, last)) => Issued(backend, Plan(ModeOf(interval), start, last, meter))
  }

  /** `get_usage`. */
  method GetUsage(backend: Backend, meter: Json, name: string, start: int, end: Option<int>, today: int)
    returns (r: Result<seq<UsageRecord>, Error>, issued: seq<Query>)
    ensures r == UsageResult(backend, meter, name, start, end, today)
    ensures issued == UsageQueries(backend, meter, name, start, end, today)
  {
    var checked := ValidateRequest(name, start, end, today);
    if checked.Err? {
      return Err(checked.error), [];
    }
    var (interval, last) := checked.value;
    var raw;
    raw, issued := Fetch(backend, ModeOf(interval), meter, start, last);
    if raw.Err? {
      return Err(raw.error), issued;
    }
    r := ParseRecords(raw.value, interval, start, last, Library);
  }

  /** `get_monthly_usage`: `get_usage` for monthly billing periods. The name is fixed, so only the date checks can refuse the request. */
  method GetMonthlyUsage(backend: Backend, meter: Json, start: int, end: Option<int>, today: int)
    returns (r: Result<seq<UsageRecord>, Error>, issued: seq<Query>)
    ensures r == UsageResult(backend, meter, "monthly", start, end, today)
    ensures issued == UsageQueries(backend, meter, "monthly", start, end, today)
    ensures ValidateRequest("monthly", start, end, today).Err? ==> r == Err(EndBeforeStart) || r == Err(EndTooRecent)
  {
    r, issued := GetUsage(backend, meter, "monthly", start, end, today);
  }

  /** `get_daily_usage`: `get_usage` for days. The name is fixed, so only the date checks can refuse the request. */
  method GetDailyUsage(backend: Backend, meter: Json, start: int, end: Option<int>, today: int)
    returns (r: Result<seq<UsageRecord>, Error>, issued: seq<Query>)
    ensures r == UsageResult(backend, meter, "daily", start, end, today)
    ensures issued == UsageQueries(backend, meter, "daily", start, end, today)
    ensures ValidateRequest("daily", start, end, today).Err? ==> r == Err(EndBeforeStart) || r == Err(EndTooRecent)
  {
    r, issued := GetUsage(backend, meter, "daily", start, end, today);
  }

  /** `get_hourly_usage`: `get_usage` for hours. The name is fixed, so only the date checks can refuse the request. */
  method GetHourlyUsage(backend: Backend, meter: Json, start: int, end: Option<int>, today: int)
    returns (r: Result<seq<UsageRecord>, Error>, issued: seq<Query>)
    ensures r == UsageResult(backend, meter, "hourly", start, end, today)
    ensures issued == UsageQueries(backend, meter, "hourly", start, end, today)
    ensures ValidateRequest("hourly", start, end, today).Err? ==> r == Err(EndBeforeStart) || r == Err(EndTooRecent)
  {
    r, issued := GetUsage(backend, meter, "hourly", start, end, today);
  }

  /** `get_15min_usage`: `get_usage` for 15-minute intervals. The name is fixed, so only the date checks can refuse the request. */
  method Get15MinUsage(backend: Backend, meter: Json, start: int, end: Option<int>, today: int)
    returns (r: Result<seq<UsageRecord>, Error>, issued: seq<Query>)
    ensures r == UsageResult(backend, meter, "15min", start, end, today)
    ensures issued == UsageQueries(backend, meter, "15min", start, end, today)
    ensures ValidateRequest("15min", start, end, today).Err? ==> r == Err(EndBeforeStart) || r == Err(EndTooRecent)
  {
    r, issued := GetUsage(backend, meter, "15min", start, end, today);
  }

  /** A request that fails validation sends nothing and raises the validation error. */
  lemma InvalidRequestSendsNothing(backend: Backend, meter: Json, name: string, start: int, end: Option<int>, today: int)
    requires ValidateRequest(name, start, end, today).Err?
    ensures UsageQueries(backend, meter, name, start, end, today) == []
    ensures UsageResult(backend, meter, name, start, end, today) == Err(ValidateRequest(name, start, end, today).error)
  {
  }

  /** `get_usage` returns its records with strictly ascending keys (so no key twice), and each
      record's net is its import minus its export, with export non-negative. */
  lemma UsageSortedUnique(backend: Backend, meter: Json, name: string, start: int, end: Option<int>, today: int)
    requires UsageResult(backend, meter, name, start, end, today).Ok?
    ensures var out := UsageResult(backend, meter, name, start, end, today).value;
      && (forall i, j | 0 <= i < j < |out| :: Text.StrLess(out[i].key, out[j].key))
      && (forall j | 0 <= j < |out| :: out[j].exportKwh >= 0.0 && out[j].netKwh == out[j].importKwh - out[j].exportKwh)
  {
    var (interval, last) := ValidateRequest(name, start, end, today).value;
    var raw := FetchResult(backend, ModeOf(interval), start, last, meter).value;
    NormalizeMeaning(raw, interval, start, last, Library);
  }

  /** Daily usage is clipped to the requested days: every returned key is a date within
      `start..end`. */
  lemma DailyUsageInRange(backend: Backend, meter: Json, start: int, end: Option<int>, today: int)
    requires UsageResult(backend, meter, "daily", start, end, today).Ok?
    ensures var out := UsageResult(backend, meter, "daily", start, end, today).value;
      forall j | 0 <= j < |out| ::
        Dates.ParseMDY(out[j].key).Some? && start <= Dates.Ordinal(Dates.ParseMDY(out[j].key).value) <= end.GetOr(today - 2)
  {
    var (interval, last) := ValidateRequest("daily", start, end, today).value;
    var raw := FetchResult(backend, D, start, last, meter).value;
    DailyOutputInWindow(raw, start, last, Library);
  }

  // ---------------------------------------------------------------------------------------
  // iter_usage

  /** One window of `iter_usage`: first and last day, both inclusive. */
  datatype Chunk = Chunk(first: int, last: int)

  function Min(a: int, b: int): int {
    if a <= b then a else b
  }

  /** The windows `iter_usage` asks `get_usage` for: from `from`, `n` days at a time, the last
      one clipped to `end`. A window that ends before it starts is rejected by `get_usage`, so
      the walk never goes past it (this is what happens for `n <= 0`). */
  function Chunks(from: int, end: int, n: int): seq<Chunk>
    decreases end - from
  {
    if from > end then []
    else
      var upto := Min(from + n - 1, end);
      [Chunk(from, upto)] + (if upto < from then [] else Chunks(upto + 1, end, n))
  }

  /** For `n >= 1` the windows tile `from..end`: the first starts at `from`, each starts the day
      after the previous one ends, the last ends at `end`, each has at most `n` days and all but
      the last exactly `n`. */
  lemma {:induction false} ChunksTile(from: int, end: int, n: int)
    requires n >= 1 && from <= end
    ensures var cs := Chunks(from, end, n);
      && |cs| > 0
      && cs[0].first == from
      && cs[|cs| - 1].last == end
      && (forall i | 0 <= i < |cs| :: cs[i].first <= cs[i].last && cs[i].last - cs[i].first < n)
      && (forall i | 0 <= i < |cs| - 1 :: cs[i].last - cs[i].first == n - 1)
      && (forall i | 0 <= i < |cs| - 1 :: cs[i + 1].first == cs[i].last + 1)
    decreases end - from
  {
    var upto := Min(from + n - 1, end);
    var cs := Chunks(from, end, n);
    if upto < end {
      ChunksTile(upto + 1, end, n);
      var rest := Chunks(upto + 1, end, n);
      assert cs == [Chunk(from, upto)] + rest;
      assert |cs| == |rest| + 1 && cs[0] == Chunk(from, upto);
      assert forall i | 1 <= i < |cs| :: cs[i] == rest[i - 1];
      assert cs[|cs| - 1] == rest[|rest| - 1];
      forall i | 0 <= i < |cs| - 1 ensures cs[i + 1].first == cs[i].last + 1 {
        if i > 0 {
          assert cs[i] == rest[i - 1] && cs[i + 1] == rest[i];
        }
      }
    } else {
      assert Chunks(upto + 1, end, n) == [];
      assert cs == [Chunk(from, upto)] + [];
    }
  }

  /** With `n <= 0` the first window ends before it starts, so `get_usage` raises at once
      (ValueError for the interval name or for the date order) and nothing is yielded. */
  lemma NonPositiveChunkRaises(backend: Backend, meter: Json, name: string, from: int, end: int, n: int, today: int)
    requires n <= 0 && from <= end
    ensures Chunks(from, end, n) == [Chunk(from, from + n - 1)]
    ensures UsageResult(backend, meter, name, from, Some(from + n - 1), today) ==
      Err(if IntervalOf(name).None? then InvalidInterval else EndBeforeStart)
  {
  }

  /** `get_usage` as `iter_usage` calls it: a window in, its records or the exception out. */
  type WindowCall = (int, int) -> Result<seq<UsageRecord>, Error>

  function UsageCall(backend: Backend, meter: Json, name: string, today: int): (call: WindowCall)
    ensures forall a, b :: call(a, b) == UsageResult(backend, meter, name, a, Some(b), today)
  {
    (a, b) => UsageResult(backend, meter, name, a, Some(b), today)
  }

  /** Asking for each window in turn: the records yielded before the first failure, and that
      failure. */
  function IterOver(call: WindowCall, cs: seq<Chunk>): (seq<UsageRecord>, Option<Error>) {
    if |cs| == 0 then ([], None)
    else
      match call(cs[0].first, cs[0].last)
      case Err(e) => ([], Some(e))
      case Ok(out) =>
        var rest := IterOver(call, cs[1..]);
        (out + rest.0, rest.1)
  }

  /** What iterating `iter_usage` produces: the yielded records, and the exception that ends the
      iteration, if any. Monthly goes to `get_usage` once; the other names (including invalid
      ones, which `get_usage` then rejects) are walked window by window. */
  function IterResult(backend: Backend, meter: Json, name: string, start: int, end: Option<int>, n: int, today: int): (seq<UsageRecord>, Option<Error>) {
    var last := end.GetOr(today - 2);
    if name == "monthly" then
      match UsageResult(backend, meter, name, start, Some(last), today)
      case Err(e) => ([], Some(e))
      case Ok(out) => (out, None)
    else IterOver(UsageCall(backend, meter, name, today), Chunks(start, last, n))
  }

  /** An empty range yields nothing and raises nothing, even for an interval name `get_usage`
      would reject. */
  lemma EmptyRangeYieldsNothing(backend: Backend, meter: Json, name: string, start: int, end: Option<int>, n: int, today: int)
    requires name != "monthly" && end.GetOr(today - 2) < start
    ensures IterResult(backend, meter, name, start, end, n, today) == ([], None)
  {
  }

  /** When no window fails, the iteration raises nothing and yields every window's records in
      window order. */
  lemma {:induction false} IterOverAllOk(call: WindowCall, cs: seq<Chunk>)
    requires forall i | 0 <= i < |cs| :: call(cs[i].first, cs[i].last).Ok?
    ensures IterOver(call, cs).1 == None
    ensures |cs| > 0 ==>
      IterOver(call, cs).0 == call(cs[0].first, cs[0].last).value + IterOver(call, cs[1..]).0
  {
    if |cs| > 0 {
      forall i | 0 <= i < |cs[1..]| ensures call(cs[1..][i].first, cs[1..][i].last).Ok? {
        assert cs[1..][i] == cs[i + 1];
      }
      IterOverAllOk(call, cs[1..]);
    }
  }

  /** One turn of the `iter_usage` loop: ask for the next window, stop on failure, otherwise
      go on the day after it. */
  lemma IterStep(call: WindowCall, from: int, end: int, n: int)
    requires from <= end
    ensures var upto := Min(from + n - 1, end);
      IterOver(call, Chunks(from, end, n)) ==
        match call(from, upto)
        case Err(e) => ([], Some(e))
        case Ok(out) =>
          if upto < from then (out, None)
          else
            var rest := IterOver(call, Chunks(upto + 1, end, n));
            (out + rest.0, rest.1)
  {
    var upto := Min(from + n - 1, end);
    var cs := Chunks(from, end, n);
    assert cs[0] == Chunk(from, upto);
    if upto >= from {
      assert cs[1..] == Chunks(upto + 1, end, n);
    } else {
      assert cs[1..] == [];
      var r := call(from, upto);
      assert r.Ok? ==> r.value + [] == r.value;
    }
  }

  /** `get_usage` accepts a window only if it does not end before it starts. */
  lemma AcceptedWindowIsOrdered(backend: Backend, meter: Json, name: string, from: int, upto: int, today: int)
    requires UsageResult(backend, meter, name, from, Some(upto), today).Ok?
    ensures from <= upto
  {
  }

  /** Monthly is one `get_usage` call. */
  lemma IterMonthly(backend: Backend, meter: Json, name: string, start: int, end: Option<int>, n: int, today: int)
    requires name == "monthly"
    ensures var r := UsageResult(backend, meter, name, start, Some(end.GetOr(today - 2)), today);
      IterResult(backend, meter, name, start, end, n, today) == if r.Err? then ([], Some(r.error)) else (r.value, None)
  {
  }

  /** The non-monthly walk goes window by window. */
  lemma IterWalks(backend: Backend, meter: Json, name: string, start: int, end: Option<int>, n: int, today: int)
    requires name != "monthly"
    ensures IterResult(backend, meter, name, start, end, n, today) ==
      IterOver(UsageCall(backend, meter, name, today), Chunks(start, end.GetOr(today - 2), n))
  {
  }

  /** `iter_usage`, driven to the end: the records it yields and the exception, if any, that
      ends it. */
  method IterUsage(backend: Backend, meter: Json, name: string, start: int, end: Option<int>, n: int, today: int)
    returns (yielded: seq<UsageRecord>, failure: Option<Error>)
    ensures (yielded, failure) == IterResult(backend, meter, name, start, end, n, today)
  {
    var last := if end.Some? then end.value else today - 2;
    assert last == end.GetOr(today - 2);
    if name == "monthly" {
      var r, _ := GetUsage(backend, meter, name, start, Some(last), today);
      IterMonthly(backend, meter, name, start, end, n, today);
      if r.Err? {
        return [], Some(r.error);
      }
      return r.value, None;
    }
    IterWalks(backend, meter, name, start, end, n, today);
    UsageRejectsBackwards(backend, meter, name, today);
    yielded, failure := WalkWindows(UsageCall(backend, meter, name, today), start, last, n);
  }

  /** `get_usage` refuses a window that ends before it starts. */
  ghost predicate RejectsBackwards(call: WindowCall) {
    forall a, b | b < a :: call(a, b).Err?
  }

  lemma UsageRejectsBackwards(backend: Backend, meter: Json, name: string, today: int)
    ensures RejectsBackwards(UsageCall(backend, meter, name, today))
  {
    forall a, b | b < a ensures UsageCall(backend, meter, name, today)(a, b).Err? {
      if UsageResult(backend, meter, name, a, Some(b), today).Ok? {
        AcceptedWindowIsOrdered(backend, meter, name, a, b, today);
      }
    }
  }

  /** The records yielded so far, followed by what the rest of the walk produces. */
  function Glue(done: seq<UsageRecord>, rest: (seq<UsageRecord>, Option<Error>)): (seq<UsageRecord>, Option<Error>) {
    (done + rest.0, rest.1)
  }

  lemma GlueMore(done: seq<UsageRecord>, out: seq<UsageRecord>, rest: (seq<UsageRecord>, Option<Error>))
    ensures Glue(done, (out + rest.0, rest.1)) == Glue(done + out, rest)
  {
    assert done + (out + rest.0) == (done + out) + rest.0;
  }

  lemma GlueNothing(done: seq<UsageRecord>, failure: Option<Error>)
    ensures Glue(done, ([], failure)) == (done, failure)
  {
    assert done + [] == done;
  }

  /** The `while current_start <= end_date` loop of `iter_usage`, with `self.get_usage` as
      `call`: each turn asks for the next window, stops on the first exception, and otherwise
      yields the window's records and goes on the day after it. */
  method WalkWindows(call: WindowCall, start: int, last: int, n: int)
    returns (yielded: seq<UsageRecord>, failure: Option<Error>)
    requires RejectsBackwards(call)
    ensures (yielded, failure) == IterOver(call, Chunks(start, last, n))
  {
    ghost var whole := IterOver(call, Chunks(start, last, n));
    yielded, failure := [], None;
    var current := start;
    assert [] + whole.0 == whole.0;
    while current <= last
      invariant whole == Glue(yielded, IterOver(call, Chunks(current, last, n)))
      decreases last - current
    {
      var upto := Min(current + n - 1, last);
      IterStep(call, current, last, n);
      var chunk := call(current, upto);
      if chunk.Err? {
        GlueNothing(yielded, Some(chunk.error));
        return yielded, Some(chunk.error);
      }
      GlueMore(yielded, chunk.value, IterOver(call, Chunks(upto + 1, last, n)));
      yielded := yielded + chunk.value;
      current := upto + 1;
    }
    GlueNothing(yielded, None);
  }
}
