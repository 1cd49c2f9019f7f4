/**
 The availability finder (`dev-tools/electric/find_availability_windows.py`): the data check on
 one `LoadUsage` reply, the binary searches for the earliest and latest day with data, and the
 scans for the earliest period start and latest period end among monthly rows. Days are day
 ordinals; the clock is the parameter `today`.
 */
module Availability {
  import opened Wrappers
  import opened Text
  import opened Dates
  import opened Portal
  import opened Usage
  import Normalizer

  // The data check

  /** `len(data.get('objUsageGenerationResultSetTwo', []))`: `len` works on a list, a string
      and an object, and raises on any other value. */
  function ResultSetLength(f: map<string, Json>): (r: Result<nat, Error>)
    ensures "objUsageGenerationResultSetTwo" !in f ==> r == Ok(0)
    ensures "objUsageGenerationResultSetTwo" in f && f["objUsageGenerationResultSetTwo"].JArr? ==>
      r == Ok(|f["objUsageGenerationResultSetTwo"].items|)
    ensures r.Err? ==> r.error == Unhandled
  {
    match Get(f, "objUsageGenerationResultSetTwo", JArr([]))
    case JArr(items) => Ok(|items|)
    case JStr(s) => Ok(|s|)
    case JObj(m) => Ok(|m|)
    case _ => Err(Unhandled)
  }

  /** `check_data_exists`: a status other than 200 means no data; a 200 whose body cannot be
      read as an object raises, since nothing there is caught. */
  function CheckDataExists(reply: Reply): (r: Result<bool, Error>)
    ensures reply.Reply? && reply.status != 200 ==> r == Ok(false)
    ensures r == Ok(true) <==>
      reply.Reply? && reply.status == 200 && reply.body.Decoded? && reply.body.value.JObj? && ResultSetLength(reply.body.value.fields).Ok? && ResultSetLength(reply.body.value.fields).value > 0
    ensures r.Err? ==> r.error == Unhandled
  {
    if reply.NetworkFailure? then Err(Unhandled)
    else if reply.status != 200 then Ok(false)
    else if !reply.body.Decoded? || !reply.body.value.JObj? then Err(Unhandled)
    else
      match ResultSetLength(reply.body.value.fields)
      case Err(e) => Err(e)
      case Ok(n) => Ok(n > 0)
  }

  /** For a reply carrying a list of rows, the check says exactly "status 200 and at least one row". */
  lemma CheckDataExistsOnRows(status: int, f: map<string, Json>, rows: seq<Json>)
    requires "objUsageGenerationResultSetTwo" in f && f["objUsageGenerationResultSetTwo"] == JArr(rows)
    ensures CheckDataExists(Reply(status, Decoded(JObj(f)))) == Ok(status == 200 && |rows| > 0)
  {
  }

  // The binary searches

  /** The data check as the searches use it: a day in, whether that day has data. */
  type Probe = int -> bool

  /** false ... false, true ... true over `lo..hi`. */
  predicate RisesOn(has: Probe, lo: int, hi: int) {
    forall x, y | lo <= x <= y <= hi :: has(x) ==> has(y)
  }

  /** true ... true, false ... false over `lo..hi`. */
  predicate FallsOn(has: Probe, lo: int, hi: int) {
    forall x, y | lo <= x <= y <= hi :: has(y) ==> has(x)
  }

  /** The first day of `lo..hi` with data, by a scan from the left. */
  function LeastTrue(has: Probe, lo: int, hi: int): (r: Option<int>)
    ensures r.Some? ==> lo <= r.value <= hi && has(r.value)
    ensures r.Some? ==> forall x | lo <= x < r.value :: !has(x)
    ensures r.None? <==> forall x | lo <= x <= hi :: !has(x)
    decreases hi - lo
  {
    if lo > hi then None else if has(lo) then Some(lo) else LeastTrue(has, lo + 1, hi)
  }

  /** The last day of `lo..hi` with data, by a scan from the right. */
  function GreatestTrue(has: Probe, lo: int, hi: int): (r: Option<int>)
    ensures r.Some? ==> lo <= r.value <= hi && has(r.value)
    ensures r.Some? ==> forall x | r.value < x <= hi :: !has(x)
    ensures r.None? <==> forall x | lo <= x <= hi :: !has(x)
    decreases hi - lo
  {
    if lo > hi then None else if has(hi) then Some(hi) else GreatestTrue(has, lo, hi - 1)
  }

  /** On a rising predicate every day from the first day with data to `hi` has data. */
  lemma RisingAfterLeast(has: Probe, lo: int, hi: int)
    requires RisesOn(has, lo, hi) && LeastTrue(has, lo, hi).Some?
    ensures forall x | lo <= x <= hi :: has(x) <==> x >= LeastTrue(has, lo, hi).value
  {
  }

  /** The loop of `binary_search_earliest` over `lo..hi`: probe the middle, keep it and go left
      when it has data, go right when not. */
  method SearchEarliest(has: Probe, lo: int, hi: int) returns (found: Option<int>)
    ensures found.Some? ==> lo <= found.value <= hi && has(found.value)
    ensures RisesOn(has, lo, hi) ==> found == LeastTrue(has, lo, hi)
  {
    var left, right := lo, hi;
    found := None;
    while left <= right
      invariant lo <= left && right <= hi
      invariant left <= right + 1 || (left == lo && right == hi)
      invariant found.Some? ==> found.value == right + 1 && lo <= found.value <= hi && has(found.value)
      invariant found.None? ==> right == hi
      invariant RisesOn(has, lo, hi) ==> forall x | lo <= x < left :: !has(x)
      decreases right - left
    {
      var mid := left + (right - left) / 2;
      if has(mid) {
        found := Some(mid);
        right := mid - 1;
      } else {
        left := mid + 1;
      }
    }
    if RisesOn(has, lo, hi) && found.Some? {
      var least := LeastTrue(has, lo, hi);
      assert !(least.Some? && least.value < found.value);
    }
  }

  /** The loop of `binary_search_latest` over `lo..hi`: probe the middle, keep it and go right
      when it has data, go left when not. */
  method SearchLatest(has: Probe, lo: int, hi: int) returns (found: Option<int>)
    ensures found.Some? ==> lo <= found.value <= hi && has(found.value)
    ensures FallsOn(has, lo, hi) ==> found == GreatestTrue(has, lo, hi)
  {
    var left, right := lo, hi;
    found := None;
    while left <= right
      invariant lo <= left && right <= hi
      invariant left <= right + 1 || (left == lo && right == hi)
      invariant found.Some? ==> found.value == left - 1 && lo <= found.value <= hi && has(found.value)
      invariant found.None? ==> left == lo
      invariant FallsOn(has, lo, hi) ==> forall x | right < x <= hi :: !has(x)
      decreases right - left
    {
      var mid := left + (right - left) / 2;
      if has(mid) {
        found := Some(mid);
        left := mid + 1;
      } else {
        right := mid - 1;
      }
    }
    if FallsOn(has, lo, hi) && found.Some? {
      var greatest := GreatestTrue(has, lo, hi);
      assert !(greatest.Some? && greatest.value > found.value);
    }
  }

  /** `binary_search_earliest`: the search from 3650 days ago to two days ago. */
  method BinarySearchEarliest(has: Probe, today: int) returns (found: Option<int>)
    ensures found.Some? ==> today - 3650 <= found.value <= today - 2 && has(found.value)
    ensures RisesOn(has, today - 3650, today - 2) ==> found == LeastTrue(has, today - 3650, today - 2)
  {
    found := SearchEarliest(has, today - 3650, today - 2);
  }

  /** `binary_search_latest`: the search from 30 days ago to tomorrow. */
  method BinarySearchLatest(has: Probe, today: int) returns (found: Option<int>)
    ensures found.Some? ==> today - 30 <= found.value <= today + 1 && has(found.value)
    ensures FallsOn(has, today - 30, today + 1) ==> found == GreatestTrue(has, today - 30, today + 1)
  {
    found := SearchLatest(has, today - 30, today + 1);
  }

  // The monthly scans

  /** The start of a row's billing period: the part before the first " to ", stripped and
      parsed as MM/DD/YY; None when there is no " to " or the part does not parse. */
  function PeriodStart(r: RawRecord): (d: Option<Date>)
    ensures d.Some? ==> Valid(d.value)
  {
    if Contains(r.billPeriod, " to ") then ParseMDY(Strip(Split(r.billPeriod, " to ")[0])) else None
  }

  /** The end of a row's billing period: the part after the first " to ". */
  function PeriodEnd(r: RawRecord): (d: Option<Date>)
    ensures d.Some? ==> Valid(d.value)
  {
    if Contains(r.billPeriod, " to ") then
      SplitMany(r.billPeriod, " to ");
      ParseMDY(Strip(Split(r.billPeriod, " to ")[1]))
    else None
  }

  /** Where the normaliser finds a well-formed period, the scans read the same two days. */
  lemma PeriodAgreesWithNormalizer(r: RawRecord)
    requires Normalizer.PeriodBounds(r.billPeriod).Some?
    ensures PeriodStart(r) == Some(Normalizer.PeriodBounds(r.billPeriod).value.0)
    ensures PeriodEnd(r) == Some(Normalizer.PeriodBounds(r.billPeriod).value.1)
  {
  }

  /** How a scan reads a row's day: the period start or the period end. */
  type DayOf = RawRecord -> Option<Date>

  /** The earliest day read from the rows (under the `<` of dates); the first of equal days is
      kept. */
  function EarliestBy(rows: seq<RawRecord>, day: DayOf): (r: Option<Date>)
    ensures r.Some? ==> exists i | 0 <= i < |rows| :: day(rows[i]) == r
    ensures r.Some? ==> forall i | 0 <= i < |rows| && day(rows[i]).Some? :: !Before(day(rows[i]).value, r.value)
    ensures r.None? <==> forall i | 0 <= i < |rows| :: day(rows[i]).None?
  {
    if |rows| == 0 then None
    else
      var front := rows[..|rows| - 1];
      assert forall i | 0 <= i < |front| :: front[i] == rows[i];
      var p := EarliestBy(front, day);
      var d := day(rows[|rows| - 1]);
      if d.None? then p
      else if p.None? || Before(d.value, p.value) then d
      else p
  }

  /** The latest day read from the rows; the first of equal days is kept. */
  function LatestBy(rows: seq<RawRecord>, day: DayOf): (r: Option<Date>)
    ensures r.Some? ==> exists i | 0 <= i < |rows| :: day(rows[i]) == r
    ensures r.Some? ==> forall i | 0 <= i < |rows| && day(rows[i]).Some? :: !Before(r.value, day(rows[i]).value)
    ensures r.None? <==> forall i | 0 <= i < |rows| :: day(rows[i]).None?
  {
    if |rows| == 0 then None
    else
      var front := rows[..|rows| - 1];
      assert forall i | 0 <= i < |front| :: front[i] == rows[i];
      var p := LatestBy(front, day);
      var d := day(rows[|rows| - 1]);
      if d.None? then p
      else if p.None? || Before(p.value, d.value) then d
      else p
  }

  /** One more row for the earliest-day scan. */
  lemma EarliestNext(rows: seq<RawRecord>, day: DayOf, i: int)
    requires 0 <= i < |rows|
    ensures EarliestBy(rows[..i + 1], day) ==
      var p := EarliestBy(rows[..i], day);
      var d := day(rows[i]);
      if d.None? then p else if p.None? || Before(d.value, p.value) then d else p
  {
    assert rows[..i + 1][..i] == rows[..i];
  }

  /** One more row for the latest-day scan. */
  lemma LatestNext(rows: seq<RawRecord>, day: DayOf, i: int)
    requires 0 <= i < |rows|
    ensures LatestBy(rows[..i + 1], day) ==
      var p := LatestBy(rows[..i], day);
      var d := day(rows[i]);
      if d.None? then p else if p.None? || Before(p.value, d.value) then d else p
  {
    assert rows[..i + 1][..i] == rows[..i];
  }

  /** The earliest period start among the rows: one of them, no later than any other, and None
      only when no row has a parsable start. */
  function EarliestStart(rows: seq<RawRecord>): (r: Option<Date>)
    ensures r.Some? ==> exists i | 0 <= i < |rows| :: PeriodStart(rows[i]) == r
    ensures r.Some? ==> forall i | 0 <= i < |rows| && PeriodStart(rows[i]).Some? :: !Before(PeriodStart(rows[i]).value, r.value)
    ensures r.None? <==> forall i | 0 <= i < |rows| :: PeriodStart(rows[i]).None?
  {
    EarliestBy(rows, PeriodStart)
  }

  /** The latest period end among the rows. */
  function LatestEnd(rows: seq<RawRecord>): (r: Option<Date>)
    ensures r.Some? ==> exists i | 0 <= i < |rows| :: PeriodEnd(rows[i]) == r
    ensures r.Some? ==> forall i | 0 <= i < |rows| && PeriodEnd(rows[i]).Some? :: !Before(r.value, PeriodEnd(rows[i]).value)
    ensures r.None? <==> forall i | 0 <= i < |rows| :: PeriodEnd(rows[i]).None?
  {
    LatestBy(rows, PeriodEnd)
  }

  /** `find_earliest_monthly` on the monthly reply's rows; `rows` is None for a status other
      than 200. */
  method FindEarliestMonthly(rows: Option<seq<RawRecord>>) returns (earliest: Option<Date>)
    ensures rows.None? ==> earliest.None?
    ensures rows.Some? ==> earliest == EarliestStart(rows.value)
  {
    if rows.None? {
      return None;
    }
    var rs := rows.value;
    earliest := None;
    for i := 0 to |rs|
      invariant earliest == EarliestBy(rs[..i], PeriodStart)
    {
      EarliestNext(rs, PeriodStart, i);
      var start := PeriodStart(rs[i]);
      if start.Some? && (earliest.None? || Before(start.value, earliest.value)) {
        earliest := start;
      }
    }
    assert rs[..|rs|] == rs;
  }

  /** `find_latest_monthly` on the monthly reply's rows; `rows` is None for a status other than
      200. */
  method FindLatestMonthly(rows: Option<seq<RawRecord>>) returns (latest: Option<Date>)
    ensures rows.None? ==> latest.None?
    ensures rows.Some? ==> latest == LatestEnd(rows.value)
  {
    if rows.None? {
      return None;
    }
    var rs := rows.value;
    latest := None;
    for i := 0 to |rs|
      invariant latest == LatestBy(rs[..i], PeriodEnd)
    {
      LatestNext(rs, PeriodEnd, i);
      var end := PeriodEnd(rs[i]);
      if end.Some? && (latest.None? || Before(latest.value, end.value)) {
        latest := end;
      }
    }
    assert rs[..|rs|] == rs;
  }
}
