/**
 The fetch loops of the usage engine: which `LoadUsage` queries a request turns into (the chunk
 planner), what comes back when they are sent one by one and the first failure aborts, and the
 cross-call merge that keeps the first row for each `UsageDate`. The library methods
 `_fetch_monthly_data`, `_fetch_daily_data` and `_fetch_hourly_or_15min_data` and the per-mode
 loops of the script's `get_meter_data` are the same loops; both use the methods here.
 */
module Fetcher {
  import opened Wrappers
  import opened Portal
  import opened Usage

  // ---------------------------------------------------------------------------------------
  // The chunk planner

  /** Daily queries: anchored at `end`, `end - 30`, `end - 60`, ... while the anchor is still
      on or after `start`. */
  function DailyQueries(start: int, end: int, meter: Json): seq<Query>
    decreases end - start
  {
    if end < start then [] else [Query(D, Some(end), ZeroSeason, meter)] + DailyQueries(start, end - 30, meter)
  }

  /** Per-day queries: one for each day `start..end`, ascending. */
  function PerDayQueries(mode: Mode, start: int, end: int, meter: Json): seq<Query>
    decreases end - start
  {
    if end < start then [] else PerDayQueries(mode, start, end - 1, meter) + [Query(mode, Some(end), SeasonFor(mode), meter)]
  }

  /** `(end_date - start_date).days + 1`. */
  function DaysInRange(start: int, end: int): int {
    end - start + 1
  }

  /** Every query a request for `mode` over `start..end` issues, in order. */
  function Plan(mode: Mode, start: int, end: int, meter: Json): seq<Query> {
    match mode
    case M => [Query(M, None, BlankSeason, meter)]
    case D =>
      if DaysInRange(start, end) <= 30 then [Query(D, Some(end), ZeroSeason, meter)]
      else DailyQueries(start, end, meter)
    case _ => PerDayQueries(mode, start, end, meter)
  }

  /** A daily range of more than 30 days is fetched with `(days + 29) // 30` queries anchored
      at `end - 30k`, each on or after `start`, and the next anchor would fall before `start`. */
  lemma {:induction false} DailyQueriesShape(start: int, end: int, meter: Json)
    ensures var qs := DailyQueries(start, end, meter);
      && |qs| == (if end < start then 0 else (DaysInRange(start, end) + 29) / 30)
      && (forall k | 0 <= k < |qs| :: qs[k] == Query(D, Some(end - 30 * k), ZeroSeason, meter) && end - 30 * k >= start)
      && end - 30 * |qs| < start
    decreases end - start
  {
    if end >= start {
      DailyQueriesShape(start, end - 30, meter);
      var qs := DailyQueries(start, end, meter);
      var rest := DailyQueries(start, end - 30, meter);
      assert qs == [Query(D, Some(end), ZeroSeason, meter)] + rest;
      forall k | 0 <= k < |qs|
        ensures qs[k] == Query(D, Some(end - 30 * k), ZeroSeason, meter) && end - 30 * k >= start
      {
        if k > 0 {
          assert qs[k] == rest[k - 1];
        }
      }
    }
  }

  /** The 30-day windows ending on the daily anchors cover every day of the range. */
  lemma DailyWindowsCover(start: int, end: int, meter: Json, day: int)
    requires start <= day <= end
    ensures var qs := DailyQueries(start, end, meter);
      exists k | 0 <= k < |qs| :: qs[k].anchor.Some? && qs[k].anchor.value - 30 < day <= qs[k].anchor.value
  {
    DailyQueriesShape(start, end, meter);
    var qs := DailyQueries(start, end, meter);
    var k := (end - day) / 30;
    assert end - 30 * k >= day > end - 30 * k - 30;
    assert k < |qs|;
    assert qs[k].anchor == Some(end - 30 * k);
  }

  /** Hourly and 15-minute ranges issue exactly one query per day, for `start..end` ascending. */
  lemma {:induction false} PerDayQueriesShape(mode: Mode, start: int, end: int, meter: Json)
    ensures var qs := PerDayQueries(mode, start, end, meter);
      && |qs| == (if end < start then 0 else DaysInRange(start, end))
      && forall i | 0 <= i < |qs| :: qs[i] == Query(mode, Some(start + i), SeasonFor(mode), meter)
    decreases end - start
  {
    if end >= start {
      PerDayQueriesShape(mode, start, end - 1, meter);
    }
  }

  /** The per-day queries of a range are those of its first part followed by those of the rest. */
  lemma {:induction false} PerDaySplit(mode: Mode, start: int, mid: int, end: int, meter: Json)
    requires start - 1 <= mid <= end
    ensures PerDayQueries(mode, start, end, meter)
         == PerDayQueries(mode, start, mid, meter) + PerDayQueries(mode, mid + 1, end, meter)
    decreases end - mid
  {
    if mid < end {
      PerDaySplit(mode, start, mid, end - 1, meter);
      assert PerDayQueries(mode, start, end, meter)
          == PerDayQueries(mode, start, end - 1, meter) + [Query(mode, Some(end), SeasonFor(mode), meter)];
    }
  }

  // ---------------------------------------------------------------------------------------
  // Sending the queries

  /** The responses to `qs` sent in order, or the failure of the first query that fails. */
  function Responses(backend: Backend, qs: seq<Query>): Result<seq<seq<RawRecord>>, Error> {
    if |qs| == 0 then Ok([])
    else
      match Responses(backend, qs[..|qs| - 1])
      case Err(e) => Err(e)
      case Ok(rs) =>
        match backend(qs[|qs| - 1])
        case Err(e) => Err(e)
        case Ok(last) => Ok(rs + [last])
  }

  /** All the queries succeed exactly when the responses are Ok, and then the i-th response is
      the backend's answer to the i-th query; otherwise the error is that of the first failing
      query. */
  lemma {:induction false} ResponsesMeaning(backend: Backend, qs: seq<Query>)
    ensures var r := Responses(backend, qs);
      && (r.Ok? <==> forall i | 0 <= i < |qs| :: backend(qs[i]).Ok?)
      && (r.Ok? ==> |r.value| == |qs| && forall i | 0 <= i < |qs| :: r.value[i] == backend(qs[i]).value)
      && (r.Err? ==> exists i | 0 <= i < |qs| ::
            backend(qs[i]).Err? && r.error == backend(qs[i]).error && forall j | 0 <= j < i :: backend(qs[j]).Ok?)
  {
    if |qs| > 0 {
      var p := qs[..|qs| - 1];
      ResponsesMeaning(backend, p);
      var r := Responses(backend, qs);
      assert forall i | 0 <= i < |p| :: p[i] == qs[i];
      if Responses(backend, p).Ok? && backend(qs[|qs| - 1]).Ok? {
        var rs := Responses(backend, p).value;
        assert r.value == rs + [backend(qs[|qs| - 1]).value];
        forall i | 0 <= i < |qs| ensures r.value[i] == backend(qs[i]).value {
          if i < |p| {
            assert r.value[i] == rs[i];
          }
        }
      } else if Responses(backend, p).Ok? {
        assert r.error == backend(qs[|qs| - 1]).error;
      } else {
        var i :| 0 <= i < |p| && backend(p[i]).Err? && Responses(backend, p).error == backend(p[i]).error
          && forall j | 0 <= j < i :: backend(p[j]).Ok?;
        assert backend(qs[i]).Err?;
      }
    }
  }

  /** The queries actually sent: all of them, or those up to and including the first failure. */
  function Issued(backend: Backend, qs: seq<Query>): seq<Query> {
    if |qs| == 0 then []
    else if Responses(backend, qs[..|qs| - 1]).Err? then Issued(backend, qs[..|qs| - 1])
    else qs
  }

  /** What is sent is a prefix of the plan: all of it when every query succeeds, otherwise it
      ends with the first query that fails. */
  lemma {:induction false} IssuedMeaning(backend: Backend, qs: seq<Query>)
    ensures var sent := Issued(backend, qs);
      && sent <= qs
      && (Responses(backend, qs).Ok? ==> sent == qs)
      && (Responses(backend, qs).Err? ==>
            |sent| > 0 && backend(sent[|sent| - 1]).Err? && Responses(backend, sent[..|sent| - 1]).Ok?)
  {
    if |qs| > 0 {
      var p := qs[..|qs| - 1];
      if Responses(backend, p).Err? {
        IssuedMeaning(backend, p);
        assert p <= qs;
      }
    }
  }

  /** When every query is answered, all of them are sent. */
  lemma IssuedAll(backend: Backend, qs: seq<Query>)
    requires Responses(backend, qs).Ok?
    ensures Issued(backend, qs) == qs
  {
    if |qs| > 0 {
      assert Responses(backend, qs[..|qs| - 1]).Ok?;
    }
  }

  /** Once a query has failed, whatever would have come after makes no difference. */
  lemma {:induction false} ResponsesAfterFailure(backend: Backend, p: seq<Query>, rest: seq<Query>)
    requires Responses(backend, p).Err?
    ensures Responses(backend, p + rest) == Responses(backend, p)
    decreases |rest|
  {
    if |rest| == 0 {
      assert p + rest == p;
    } else {
      ResponsesAfterFailure(backend, p, rest[..|rest| - 1]);
      assert (p + rest)[..|p + rest| - 1] == p + rest[..|rest| - 1];
    }
  }

  /** A plan whose prefix `p` ends in the first failure issues exactly `p`. */
  lemma {:induction false} IssuedStopsAtFailure(backend: Backend, p: seq<Query>, rest: seq<Query>)
    requires |p| > 0 && Responses(backend, p[..|p| - 1]).Ok? && Responses(backend, p).Err?
    ensures Issued(backend, p + rest) == p
    decreases |rest|
  {
    if |rest| == 0 {
      assert p + rest == p;
    } else {
      var q := p + rest;
      assert q[..|q| - 1] == p + rest[..|rest| - 1];
      ResponsesAfterFailure(backend, p, rest[..|rest| - 1]);
      IssuedStopsAtFailure(backend, p, rest[..|rest| - 1]);
    }
  }

  /** A failure ends the fetch: the plan's outcome is that failure, and nothing after it is sent. */
  lemma FailureEndsFetch(backend: Backend, sent: seq<Query>, rest: seq<Query>)
    requires |sent| > 0 && Responses(backend, sent[..|sent| - 1]).Ok? && Responses(backend, sent).Err?
    ensures Responses(backend, sent + rest) == Responses(backend, sent)
    ensures Issued(backend, sent + rest) == sent
  {
    ResponsesAfterFailure(backend, sent, rest);
    IssuedStopsAtFailure(backend, sent, rest);
  }

  /** Sending one more query after a successful prefix. */
  lemma ResponsesSnoc(backend: Backend, p: seq<Query>, q: Query)
    ensures Responses(backend, p + [q]) ==
      match Responses(backend, p)
      case Err(e) => Err(e)
      case Ok(rs) => (match backend(q) case Err(e) => Err(e) case Ok(last) => Ok(rs + [last]))
  {
    assert (p + [q])[..|p|] == p;
  }

  // ---------------------------------------------------------------------------------------
  // The cross-call merge

  /** The non-empty `UsageDate` values of `xs`. */
  function DatesIn(xs: seq<RawRecord>): set<string> {
    if |xs| == 0 then {}
    else DatesIn(xs[..|xs| - 1]) + (if HasDate(xs[|xs| - 1]) then {xs[|xs| - 1].usageDate.value} else {})
  }

  /** What the `seen_dates` loop keeps: a row is appended when its date is non-empty and not
      yet in the set of dates kept so far. */
  function FirstOccurrences(xs: seq<RawRecord>): seq<RawRecord> {
    if |xs| == 0 then []
    else
      var kept := FirstOccurrences(xs[..|xs| - 1]);
      var x := xs[|xs| - 1];
      if HasDate(x) && x.usageDate.value !in DatesIn(kept) then kept + [x] else kept
  }

  /** Row `i` is the first row of `xs` with its date, and that date is non-empty. */
  predicate IsFirst(xs: seq<RawRecord>, i: int)
    requires 0 <= i < |xs|
  {
    HasDate(xs[i]) && forall j | 0 <= j < i :: xs[j].usageDate != xs[i].usageDate
  }

  /** The rows among the first `n` of `xs` that are first with their date, in arrival order. */
  function Firsts(xs: seq<RawRecord>, n: nat): seq<RawRecord>
    requires n <= |xs|
  {
    if n == 0 then [] else Firsts(xs, n - 1) + (if IsFirst(xs, n - 1) then [xs[n - 1]] else [])
  }

  lemma {:induction false} DatesInMember(xs: seq<RawRecord>, d: string)
    ensures d in DatesIn(xs) <==> exists i | 0 <= i < |xs| :: HasDate(xs[i]) && xs[i].usageDate.value == d
  {
    if |xs| > 0 {
      var p := xs[..|xs| - 1];
      DatesInMember(p, d);
      if d in DatesIn(p) {
        var i :| 0 <= i < |p| && HasDate(p[i]) && p[i].usageDate.value == d;
        assert xs[i] == p[i];
      }
      if exists i | 0 <= i < |xs| :: HasDate(xs[i]) && xs[i].usageDate.value == d {
        var i :| 0 <= i < |xs| && HasDate(xs[i]) && xs[i].usageDate.value == d;
        if i < |p| {
          assert p[i] == xs[i];
        }
      }
    }
  }

  /** One more row, as the `seen_dates` loop handles it. */
  lemma FirstOccurrencesSnoc(xs: seq<RawRecord>, x: RawRecord)
    ensures FirstOccurrences(xs + [x]) ==
      if HasDate(x) && x.usageDate.value !in DatesIn(FirstOccurrences(xs)) then FirstOccurrences(xs) + [x]
      else FirstOccurrences(xs)
    ensures DatesIn(FirstOccurrences(xs) + [x]) == DatesIn(FirstOccurrences(xs)) + (if HasDate(x) then {x.usageDate.value} else {})
  {
    assert (xs + [x])[..|xs|] == xs;
    assert (FirstOccurrences(xs) + [x])[..|FirstOccurrences(xs)|] == FirstOccurrences(xs);
  }

  /** The merge keeps every date it has seen: its dates are exactly the input's non-empty ones. */
  lemma {:induction false} FirstOccurrencesDates(xs: seq<RawRecord>)
    ensures DatesIn(FirstOccurrences(xs)) == DatesIn(xs)
  {
    if |xs| > 0 {
      var p := xs[..|xs| - 1];
      var x := xs[|xs| - 1];
      var kept := FirstOccurrences(p);
      FirstOccurrencesDates(p);
      assert (kept + [x])[..|kept|] == kept;
    }
  }

  /** Every row has a non-empty date, and no two rows share one. */
  predicate UniquelyDated(xs: seq<RawRecord>) {
    (forall i | 0 <= i < |xs| :: HasDate(xs[i]))
    && forall i, j | 0 <= i < j < |xs| :: xs[i].usageDate != xs[j].usageDate
  }

  /** Every kept row has a non-empty date, and no two kept rows share one. */
  lemma {:induction false} FirstOccurrencesUnique(xs: seq<RawRecord>)
    ensures UniquelyDated(FirstOccurrences(xs))
  {
    if |xs| > 0 {
      var p := xs[..|xs| - 1];
      var x := xs[|xs| - 1];
      var kept := FirstOccurrences(p);
      FirstOccurrencesUnique(p);
      if HasDate(x) && x.usageDate.value !in DatesIn(kept) {
        var all := kept + [x];
        forall i | 0 <= i < |kept| ensures kept[i].usageDate != x.usageDate {
          DatesInMember(kept, kept[i].usageDate.value);
        }
        forall i, j | 0 <= i < j < |all| ensures all[i].usageDate != all[j].usageDate {
          if j == |kept| {
            assert all[i] == kept[i];
          } else {
            assert all[i] == kept[i] && all[j] == kept[j];
          }
        }
        assert forall i | 0 <= i < |all| :: HasDate(all[i]) by {
          forall i | 0 <= i < |all| ensures HasDate(all[i]) {
            if i < |kept| {
              assert all[i] == kept[i];
            }
          }
        }
      }
    }
  }

  /** The merge is exactly "the first row for each non-empty date, in arrival order": rows with
      a missing or empty date are dropped and later rows with a seen date are ignored. */
  lemma {:induction false} FirstOccurrencesAreFirsts(xs: seq<RawRecord>, n: nat)
    requires n <= |xs|
    ensures FirstOccurrences(xs[..n]) == Firsts(xs, n)
  {
    if n > 0 {
      FirstOccurrencesAreFirsts(xs, n - 1);
      assert xs[..n] == xs[..n - 1] + [xs[n - 1]];
      FirstOccurrencesSnoc(xs[..n - 1], xs[n - 1]);
      FirstFreshDate(xs, n);
      if IsFirst(xs, n - 1) {
        assert Firsts(xs, n) == Firsts(xs, n - 1) + [xs[n - 1]];
      } else {
        assert Firsts(xs, n) == Firsts(xs, n - 1);
      }
    }
  }

  lemma FirstFreshDate(xs: seq<RawRecord>, n: nat)
    requires 0 < n <= |xs|
    ensures IsFirst(xs, n - 1) <==>
      HasDate(xs[n - 1]) && xs[n - 1].usageDate.value !in DatesIn(FirstOccurrences(xs[..n - 1]))
  {
    var p := xs[..n - 1];
    var x := xs[n - 1];
    if HasDate(x) {
      FirstOccurrencesDates(p);
      DatesInMember(p, x.usageDate.value);
      if !IsFirst(xs, n - 1) {
        var j :| 0 <= j < n - 1 && xs[j].usageDate == x.usageDate;
        assert p[j] == xs[j];
      }
    }
  }

  /** The merge keys on `UsageDate` alone: when an import row and an export row of the same
      day arrive, only the first survives, so that day's other usage type is lost. */
  lemma MergeDropsSecondRowOfDay(r1: RawRecord, r2: RawRecord)
    requires HasDate(r1) && r2.usageDate == r1.usageDate
    ensures FirstOccurrences([r1, r2]) == [r1]
  {
    assert [r1, r2][..1] == [r1] && [r1][..0] == [];
    assert FirstOccurrences([r1]) == [] + [r1] == [r1];
    assert DatesIn([r1]) == {r1.usageDate.value} by {
      assert [r1][..0] == [];
    }
  }

  // ---------------------------------------------------------------------------------------
  // The fetch as a whole

  /** How the responses of a plan are combined: only a daily fetch of more than 30 days
      deduplicates; everything else is the in-order concatenation. */
  function Merge(mode: Mode, start: int, end: int, rs: seq<seq<RawRecord>>): seq<RawRecord> {
    if mode == D && DaysInRange(start, end) > 30 then FirstOccurrences(Flatten(rs)) else Flatten(rs)
  }

  /** The result of fetching `mode` over `start..end`: the merged rows, or the first failure
      (never a partial list). */
  function FetchResult(backend: Backend, mode: Mode, start: int, end: int, meter: Json): Result<seq<RawRecord>, Error> {
    match Responses(backend, Plan(mode, start, end, meter))
    case Err(e) => Err(e)
    case Ok(rs) => Ok(Merge(mode, start, end, rs))
  }

  /** A fetch whose whole plan was answered. */
  lemma FetchSucceeded(backend: Backend, mode: Mode, start: int, end: int, meter: Json, rs: seq<seq<RawRecord>>)
    requires Responses(backend, Plan(mode, start, end, meter)) == Ok(rs)
    ensures FetchResult(backend, mode, start, end, meter) == Ok(Merge(mode, start, end, rs))
    ensures Issued(backend, Plan(mode, start, end, meter)) == Plan(mode, start, end, meter)
  {
    IssuedAll(backend, Plan(mode, start, end, meter));
  }

  /** A fetch whose plan is `sent + rest`, where the last query of `sent` is the first to fail. */
  lemma FetchFailed(backend: Backend, mode: Mode, start: int, end: int, meter: Json, sent: seq<Query>, rest: seq<Query>)
    requires Plan(mode, start, end, meter) == sent + rest
    requires |sent| > 0 && Responses(backend, sent[..|sent| - 1]).Ok? && Responses(backend, sent).Err?
    ensures FetchResult(backend, mode, start, end, meter) == Err(Responses(backend, sent).error)
    ensures Issued(backend, Plan(mode, start, end, meter)) == sent
  {
    FailureEndsFetch(backend, sent, rest);
  }

  /** Sending query `q` after the successful prefix `sent`. */
  lemma SendNext(backend: Backend, sent: seq<Query>, rs: seq<seq<RawRecord>>, q: Query)
    requires Responses(backend, sent) == Ok(rs)
    ensures (sent + [q])[..|sent|] == sent
    ensures backend(q).Err? ==> Responses(backend, sent + [q]) == Err(backend(q).error)
    ensures backend(q).Ok? ==> Responses(backend, sent + [q]) == Ok(rs + [backend(q).value])
    ensures backend(q).Ok? ==> Flatten(rs + [backend(q).value]) == Flatten(rs) + backend(q).value
  {
    ResponsesSnoc(backend, sent, q);
    if backend(q).Ok? {
      assert (rs + [backend(q).value])[..|rs|] == rs;
    }
  }

  /** The rows of the query `q`, sent alone. */
  method FetchOne(backend: Backend, q: Query) returns (r: Result<seq<RawRecord>, Error>, issued: seq<Query>)
    ensures issued == [q]
    ensures r.Ok? <==> Responses(backend, [q]).Ok?
    ensures r.Ok? ==> r.value == Flatten(Responses(backend, [q]).value)
    ensures r.Err? ==> r.error == Responses(backend, [q]).error
  {
    SendNext(backend, [], [], q);
    assert [] + [q] == [q];
    issued := [q];
    var reply := backend(q);
    if reply.Err? {
      r := Err(reply.error);
    } else {
      r := Ok(reply.value);
    }
  }

  /** `_fetch_monthly_data`: one query with an empty `strDate`. */
  method FetchMonthly(backend: Backend, meter: Json, start: int, end: int)
    returns (r: Result<seq<RawRecord>, Error>, issued: seq<Query>)
    ensures r == FetchResult(backend, M, start, end, meter)
    ensures issued == Issued(backend, Plan(M, start, end, meter)) == [Query(M, None, BlankSeason, meter)]
  {
    r, issued := FetchOne(backend, Query(M, None, BlankSeason, meter));
  }

  /** Adds the rows of one daily response to the merge, skipping rows without a date and rows
      whose date was already seen. */
  method MergeResponse(all: seq<RawRecord>, seen: set<string>, records: seq<RawRecord>, ghost before: seq<RawRecord>)
    returns (all': seq<RawRecord>, seen': set<string>)
    requires all == FirstOccurrences(before) && seen == DatesIn(all)
    ensures all' == FirstOccurrences(before + records) && seen' == DatesIn(all')
  {
    all', seen' := all, seen;
    assert before + records[..0] == before;
    for j := 0 to |records|
      invariant all' == FirstOccurrences(before + records[..j])
      invariant seen' == DatesIn(all')
    {
      var record := records[j];
      assert before + records[..j + 1] == before + records[..j] + [record];
      FirstOccurrencesSnoc(before + records[..j], record);
      if record.usageDate.Some? && record.usageDate.value != "" && record.usageDate.value !in seen' {
        all' := all' + [record];
        seen' := seen' + {record.usageDate.value};
      }
    }
    assert records[..|records|] == records;
  }

  /** `_fetch_daily_data`: a single query for at most 30 days, otherwise queries stepping back
      30 days from `end`, keeping the first row seen for each `UsageDate`. */
  method FetchDaily(backend: Backend, meter: Json, start: int, end: int)
    returns (r: Result<seq<RawRecord>, Error>, issued: seq<Query>)
    ensures r == FetchResult(backend, D, start, end, meter)
    ensures issued == Issued(backend, Plan(D, start, end, meter))
  {
    if DaysInRange(start, end) <= 30 {
      r, issued := FetchOne(backend, Query(D, Some(end), ZeroSeason, meter));
      return;
    }
    r, issued := SendDaily(backend, meter, start, end);
    assert Plan(D, start, end, meter) == DailyQueries(start, end, meter);
  }

  /** The loop of `_fetch_daily_data`: the first row per date of the responses to the daily
      queries anchored at `end`, `end - 30`, ..., or the first failure, with the queries sent
      up to it. */
  method SendDaily(backend: Backend, meter: Json, start: int, end: int)
    returns (r: Result<seq<RawRecord>, Error>, issued: seq<Query>)
    ensures var all := Responses(backend, DailyQueries(start, end, meter));
      r == (if all.Err? then Err(all.error) else Ok(FirstOccurrences(Flatten(all.value))))
    ensures issued == Issued(backend, DailyQueries(start, end, meter))
  {
    ghost var plan := DailyQueries(start, end, meter);
    var currentEnd := end;
    var seen: set<string> := {};
    var all: seq<RawRecord> := [];
    ghost var rs: seq<seq<RawRecord>> := [];
    issued := [];
    while currentEnd >= start
      invariant issued + DailyQueries(start, currentEnd, meter) == plan
      invariant Responses(backend, issued) == Ok(rs)
      invariant all == FirstOccurrences(Flatten(rs))
      invariant seen == DatesIn(all)
      decreases currentEnd - start
    {
      var q := Query(D, Some(currentEnd), ZeroSeason, meter);
      ghost var rest := DailyQueries(start, currentEnd - 30, meter);
      assert issued + [q] + rest == plan;
      SendNext(backend, issued, rs, q);
      issued := issued + [q];
      var reply := backend(q);
      if reply.Err? {
        FailureEndsFetch(backend, issued, rest);
        r := Err(reply.error);
        return;
      }
      all, seen := MergeResponse(all, seen, reply.value, Flatten(rs));
      rs := rs + [reply.value];
      currentEnd := currentEnd - 30;
    }
    assert issued == plan;
    IssuedAll(backend, plan);
    r := Ok(all);
  }

  /** `_fetch_hourly_or_15min_data`: one query per day, ascending, responses concatenated. */
  method FetchPerDay(backend: Backend, mode: Mode, meter: Json, start: int, end: int)
    returns (r: Result<seq<RawRecord>, Error>, issued: seq<Query>)
    requires mode == H || mode == MI
    ensures r == FetchResult(backend, mode, start, end, meter)
    ensures issued == Issued(backend, Plan(mode, start, end, meter))
  {
    r, issued := SendPerDay(backend, mode, meter, start, end);
    assert Plan(mode, start, end, meter) == PerDayQueries(mode, start, end, meter);
  }

  /** The loop of `_fetch_hourly_or_15min_data`: the concatenated responses to the per-day
      queries of `start..end`, or the first failure, with the queries sent up to it. */
  method SendPerDay(backend: Backend, mode: Mode, meter: Json, start: int, end: int)
    returns (r: Result<seq<RawRecord>, Error>, issued: seq<Query>)
    ensures var all := Responses(backend, PerDayQueries(mode, start, end, meter));
      r == (if all.Err? then Err(all.error) else Ok(Flatten(all.value)))
    ensures issued == Issued(backend, PerDayQueries(mode, start, end, meter))
  {
    var all: seq<RawRecord> := [];
    ghost var rs: seq<seq<RawRecord>> := [];
    issued := [];
    var currentDate := start;
    while currentDate <= end
      invariant start <= currentDate && (currentDate <= end + 1 || currentDate == start)
      invariant issued == PerDayQueries(mode, start, currentDate - 1, meter)
      invariant Responses(backend, issued) == Ok(rs)
      invariant all == Flatten(rs)
      decreases end - currentDate
    {
      var q := Query(mode, Some(currentDate), SeasonFor(mode), meter);
      PerDayStep(backend, mode, start, meter, currentDate, rs);
      issued := issued + [q];
      var reply := backend(q);
      if reply.Err? {
        PerDayFailed(backend, mode, start, end, meter, currentDate);
        r := Err(reply.error);
        return;
      }
      rs := rs + [reply.value];
      all := all + reply.value;
      currentDate := currentDate + 1;
    }
    assert issued == PerDayQueries(mode, start, end, meter);
    IssuedAll(backend, issued);
    r := Ok(all);
  }

  /** Sending the query for `day` after the successful queries for `start..day - 1`. */
  lemma PerDayStep(backend: Backend, mode: Mode, start: int, meter: Json, day: int, rs: seq<seq<RawRecord>>)
    requires start <= day
    requires Responses(backend, PerDayQueries(mode, start, day - 1, meter)) == Ok(rs)
    ensures var q := Query(mode, Some(day), SeasonFor(mode), meter);
      && PerDayQueries(mode, start, day, meter) == PerDayQueries(mode, start, day - 1, meter) + [q]
      && (backend(q).Err? ==> Responses(backend, PerDayQueries(mode, start, day, meter)) == Err(backend(q).error))
      && (backend(q).Ok? ==> Responses(backend, PerDayQueries(mode, start, day, meter)) == Ok(rs + [backend(q).value]))
      && (backend(q).Ok? ==> Flatten(rs + [backend(q).value]) == Flatten(rs) + backend(q).value)
  {
    var q := Query(mode, Some(day), SeasonFor(mode), meter);
    SendNext(backend, PerDayQueries(mode, start, day - 1, meter), rs, q);
  }

  /** The per-day queries stop at the first day whose query fails, with that failure. */
  lemma PerDayFailed(backend: Backend, mode: Mode, start: int, end: int, meter: Json, day: int)
    requires start <= day <= end
    requires Responses(backend, PerDayQueries(mode, start, day - 1, meter)).Ok?
    requires Responses(backend, PerDayQueries(mode, start, day, meter)).Err?
    ensures Responses(backend, PerDayQueries(mode, start, end, meter)) == Responses(backend, PerDayQueries(mode, start, day, meter))
    ensures Issued(backend, PerDayQueries(mode, start, end, meter)) == PerDayQueries(mode, start, day, meter)
  {
    var sent := PerDayQueries(mode, start, day, meter);
    assert sent[..|sent| - 1] == PerDayQueries(mode, start, day - 1, meter);
    PerDaySplit(mode, start, day, end, meter);
    FailureEndsFetch(backend, sent, PerDayQueries(mode, day + 1, end, meter));
  }

  /** The fetch a request for `mode` performs. */
  method Fetch(backend: Backend, mode: Mode, meter: Json, start: int, end: int)
    returns (r: Result<seq<RawRecord>, Error>, issued: seq<Query>)
    ensures r == FetchResult(backend, mode, start, end, meter)
    ensures issued == Issued(backend, Plan(mode, start, end, meter))
  {
    match mode
    case M => r, issued := FetchMonthly(backend, meter, start, end);
    case D => r, issued := FetchDaily(backend, meter, start, end);
    case _ => r, issued := FetchPerDay(backend, mode, meter, start, end);
  }
}
