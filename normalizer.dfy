/**
 The normaliser: `_parse_records` in the library and the loop of the script's `format_output`.
 Records are filtered (billing-period overlap for monthly, the exact date window for daily),
 grouped by a key, the import and export values are assigned into the group, and one record per
 key is emitted in sorted key order with `net = import - export`.
 */
module Normalizer {
  import opened Wrappers
  import opened Text
  import opened Dates
  import opened Portal
  import opened Usage

  /** The two copies differ in one way that can change the outcome: for a monthly group seen for
      the first time, the library builds a timestamp and falls back to `datetime(Year, Month, 1)`
      when the period start does not parse, and that call raises for an impossible date. */
  datatype Flavour = Library | Script

  // ---------------------------------------------------------------------------------------
  // One record

  /** `bill_period.split(' to ')` unpacked into two parts that both parse as MM/DD/YY after
      `strip()`; None wherever the code's `try` would catch a ValueError, or finds no ' to '. */
  function PeriodBounds(bp: string): (r: Option<(Date, Date)>)
    ensures r.Some? ==> Valid(r.value.0) && Valid(r.value.1)
  {
    if !Contains(bp, " to ") then None
    else
      var parts := Split(bp, " to ");
      if |parts| != 2 then None
      else
        match (ParseMDY(Strip(parts[0])), ParseMDY(Strip(parts[1])))
        case (Some(a), Some(b)) => Some((a, b))
        case _ => None
  }

  /** A monthly record is kept unless its period parses and ends before `start` or begins after
      `end`. */
  predicate MonthlyKept(r: RawRecord, start: int, end: int) {
    match PeriodBounds(r.billPeriod)
    case None => true
    case Some((ps, pe)) => !(Ordinal(pe) < start || Ordinal(ps) > end)
  }

  /** `datetime.strptime(record['UsageDate'], '%m/%d/%y')` as a day number: a missing key is a
      KeyError, an unparsable date a ValueError. */
  function UsageDay(r: RawRecord): (d: Result<int, Error>)
    ensures d.Ok? <==> r.usageDate.Some? && ParseMDY(r.usageDate.value).Some?
    ensures d.Err? ==> d.error == MalformedRecord || d.error == InvalidDate
  {
    if r.usageDate.None? then Err(MalformedRecord)
    else
      match ParseMDY(r.usageDate.value)
      case None => Err(InvalidDate)
      case Some(dt) => Ok(Ordinal(dt))
  }

  /** `f"{record['Year']}-{record['Month']:02d}"`. For a four-digit year and a month 1..12 it
      is YYYY-MM, spelling those two numbers. */
  function MonthlyKey(r: RawRecord): (k: string)
    ensures 1000 <= r.year <= 9999 && 1 <= r.month <= 12 ==>
      && |k| == 7 && k[4] == '-'
      && AllDigits(k[..4]) && DigitsValue(k[..4]) == r.year
      && AllDigits(k[5..]) && DigitsValue(k[5..]) == r.month
  {
    var y, m := IntToString(r.year), Pad2(r.month);
    var k := y + "-" + m;
    if 1000 <= r.year <= 9999 && 1 <= r.month <= 12 then
      FourDigits(r.year);
      assert k[..4] == y && k[5..] == m;
      k
    else k
  }

  /** A four-digit year is written with four characters. */
  lemma FourDigits(n: nat)
    requires 1000 <= n <= 9999
    ensures |IntToString(n)| == 4
  {
    assert |NatToString(n / 10 / 10 / 10)| == 1;
    assert |NatToString(n / 10 / 10)| == 2;
    assert |NatToString(n / 10)| == 3;
  }

  /** Two monthly records share a key exactly when they have the same year and month. */
  lemma MonthlyKeyInjective(a: RawRecord, b: RawRecord)
    ensures MonthlyKey(a) == MonthlyKey(b) <==> a.year == b.year && a.month == b.month
  {
    if MonthlyKey(a) == MonthlyKey(b) {
      DashSplit(IntToString(a.year), Pad2(a.month), IntToString(b.year), Pad2(b.month));
      IntToStringInjective(a.year, b.year);
      Pad2Injective(a.month, b.month);
    }
  }

  /** A string whose characters after the first are digits ends at the first '-' after it. */
  lemma DashSplit(p: string, u: string, q: string, v: string)
    requires |p| >= 1 && |q| >= 1
    requires forall i | 1 <= i < |p| :: IsDigit(p[i])
    requires forall i | 1 <= i < |q| :: IsDigit(q[i])
    requires p + "-" + u == q + "-" + v
    ensures p == q && u == v
  {
    DashNotInside(p, u, q, v);
    DashNotInside(q, v, p, u);
    var k := p + "-" + u;
    assert p == k[..|p|] == q;
    assert u == k[|p| + 1..] == v;
  }

  /** The '-' after `p` cannot fall inside `q`. */
  lemma DashNotInside(p: string, u: string, q: string, v: string)
    requires |p| >= 1
    requires forall i | 1 <= i < |q| :: IsDigit(q[i])
    requires p + "-" + u == q + "-" + v
    ensures |q| <= |p|
  {
    assert (p + "-" + u)[|p|] == '-';
  }

  /** The key of a dated record: `UsageDate`, followed by " " and `Hourly` for hourly and
      15-minute records whose `Hourly` is non-empty. */
  function DatedKey(r: RawRecord, interval: Interval): string
    requires r.usageDate.Some?
  {
    if (interval == Hourly || interval == FifteenMin) && r.hourly.Some? && r.hourly.value != "" then
      r.usageDate.value + " " + r.hourly.value
    else r.usageDate.value
  }

  /** What the loop does with one record: its group key, None when the filter skips it, or the
      error the code raises on it. */
  function Admit(r: RawRecord, interval: Interval, start: int, end: int): (a: Result<Option<string>, Error>)
    ensures interval == Monthly ==> a == Ok(if MonthlyKept(r, start, end) then Some(MonthlyKey(r)) else None)
    ensures interval != Monthly ==> (a.Ok? <==> UsageDay(r).Ok?) && (a.Err? ==> a == Err(UsageDay(r).error))
    ensures interval == Daily && a.Ok? ==> (a.value.Some? <==> start <= UsageDay(r).value <= end)
    ensures interval != Monthly && a.Ok? && a.value.Some? ==> a.value.value == DatedKey(r, interval)
    ensures (interval == Hourly || interval == FifteenMin) && a.Ok? ==> a.value.Some?
  {
    if interval == Monthly then
      Ok(if MonthlyKept(r, start, end) then Some(MonthlyKey(r)) else None)
    else
      match UsageDay(r)
      case Err(e) => Err(e)
      case Ok(day) =>
        if interval == Daily && (day < start || day > end) then Ok(None)
        else Ok(Some(DatedKey(r, interval)))
  }

  /** The library's timestamp for a new monthly group can be built: from the period start when
      it parses, otherwise from `datetime(Year, Month, 1)`. */
  predicate MonthStampBuilds(r: RawRecord) {
    (Contains(r.billPeriod, " to ") && ParseMDY(Strip(Split(r.billPeriod, " to ")[0])).Some?)
    || (1 <= r.month <= 12 && MakeDate(r.year, r.month, 1).Some?)
  }

  /** A billing period parses exactly when it splits at " to " into two parts that both parse
      after stripping. */
  lemma PeriodBoundsParts(bp: string)
    ensures var parts := Split(bp, " to ");
      PeriodBounds(bp) ==
        if |parts| == 2 && ParseMDY(Strip(parts[0])).Some? && ParseMDY(Strip(parts[1])).Some? then
          Some((ParseMDY(Strip(parts[0])).value, ParseMDY(Strip(parts[1])).value))
        else None
  {
    SplitMany(bp, " to ");
  }

  /** The monthly filter: a record is skipped exactly when its period has the form
      "A to B", both halves parse, and B is before `start` or A after `end`. */
  lemma MonthlyFilter(r: RawRecord, start: int, end: int)
    ensures Admit(r, Monthly, start, end).Ok?
    ensures Admit(r, Monthly, start, end).value.None? <==>
      var parts := Split(r.billPeriod, " to ");
      && |parts| == 2
      && ParseMDY(Strip(parts[0])).Some? && ParseMDY(Strip(parts[1])).Some?
      && (Ordinal(ParseMDY(Strip(parts[1])).value) < start || Ordinal(ParseMDY(Strip(parts[0])).value) > end)
  {
    PeriodBoundsParts(r.billPeriod);
    assert Admit(r, Monthly, start, end) == Ok(if MonthlyKept(r, start, end) then Some(MonthlyKey(r)) else None);
  }

  /** The daily filter: a record whose date is missing or unparsable raises; otherwise it is
      skipped exactly when its date lies outside `start..end`. */
  lemma DailyFilter(r: RawRecord, start: int, end: int)
    ensures Admit(r, Daily, start, end).Err? <==> UsageDay(r).Err?
    ensures Admit(r, Daily, start, end).Ok? ==>
      (Admit(r, Daily, start, end).value.None? <==> (UsageDay(r).value < start || UsageDay(r).value > end))
  {
  }

  /** Hourly and 15-minute records are never skipped by date. */
  lemma PerDayNotFiltered(r: RawRecord, interval: Interval, start: int, end: int)
    requires interval == Hourly || interval == FifteenMin
    ensures Admit(r, interval, start, end) == if UsageDay(r).Err? then Err(UsageDay(r).error) else Ok(Some(DatedKey(r, interval)))
  {
  }

  // ---------------------------------------------------------------------------------------
  // The records that reach the grouping step

  datatype Keyed = Keyed(key: string, rec: RawRecord)

  /** The keys that occur in `ks`. */
  function KeysOf(ks: seq<Keyed>): set<string> {
    if |ks| == 0 then {} else KeysOf(ks[..|ks| - 1]) + {ks[|ks| - 1].key}
  }

  /** The loop's decision on one record, as a function value, so that the facts about the
      kept list hold for any filter. */
  type Admission = RawRecord -> Result<Option<string>, Error>

  function AdmitBy(interval: Interval, start: int, end: int): (adm: Admission)
    ensures forall r :: adm(r) == Admit(r, interval, start, end)
  {
    r => Admit(r, interval, start, end)
  }

  /** The records on which creating a new group raises. */
  function StampFailsBy(interval: Interval, flavour: Flavour): (fails: RawRecord -> bool)
    ensures forall r :: fails(r) == (flavour == Library && interval == Monthly && !MonthStampBuilds(r))
  {
    r => flavour == Library && interval == Monthly && !MonthStampBuilds(r)
  }

  /** One iteration of the loop on the kept list so far: skip, append, or raise. */
  function Step(ks: seq<Keyed>, r: RawRecord, adm: Admission, fails: RawRecord -> bool): Result<seq<Keyed>, Error> {
    match adm(r)
    case Err(e) => Err(e)
    case Ok(None) => Ok(ks)
    case Ok(Some(k)) =>
      if k !in KeysOf(ks) && fails(r) then Err(InvalidDate)
      else Ok(ks + [Keyed(k, r)])
  }

  function KeptBy(rs: seq<RawRecord>, adm: Admission, fails: RawRecord -> bool): (r: Result<seq<Keyed>, Error>)
    ensures r.Ok? ==> |r.value| <= |rs|
  {
    if |rs| == 0 then Ok([])
    else
      match KeptBy(rs[..|rs| - 1], adm, fails)
      case Err(e) => Err(e)
      case Ok(ks) => Step(ks, rs[|rs| - 1], adm, fails)
  }

  /** The kept records with their keys, in input order, or the first error. */
  function Kept(rs: seq<RawRecord>, interval: Interval, start: int, end: int, flavour: Flavour): (r: Result<seq<Keyed>, Error>)
    ensures r.Ok? ==> |r.value| <= |rs|
    ensures r.Err? ==> r.error == MalformedRecord || r.error == InvalidDate
  {
    KeptErrors(rs, interval, start, end, flavour);
    KeptBy(rs, AdmitBy(interval, start, end), StampFailsBy(interval, flavour))
  }

  /** The loop raises only a KeyError for a missing field (a malformed record) or a ValueError
      for a date that does not parse or cannot be built. */
  lemma {:induction false} KeptErrors(rs: seq<RawRecord>, interval: Interval, start: int, end: int, flavour: Flavour)
    ensures var r := KeptBy(rs, AdmitBy(interval, start, end), StampFailsBy(interval, flavour));
      r.Err? ==> r.error == MalformedRecord || r.error == InvalidDate
  {
    if |rs| > 0 {
      KeptErrors(rs[..|rs| - 1], interval, start, end, flavour);
      var last := rs[|rs| - 1];
      assert Admit(last, interval, start, end).Err? ==> Admit(last, interval, start, end).error in {MalformedRecord, InvalidDate};
    }
  }

  /** The dict's keys in insertion order. */
  function KeyOrder(ks: seq<Keyed>): (order: seq<string>)
    ensures Distinct(order)
    ensures forall k :: k in order <==> k in KeysOf(ks)
  {
    if |ks| == 0 then []
    else
      var p := KeyOrder(ks[..|ks| - 1]);
      var k := ks[|ks| - 1].key;
      if k in KeysOf(ks[..|ks| - 1]) then p
      else
        assert Distinct(p + [k]) by {
          forall i, j | 0 <= i < j < |p + [k]| ensures (p + [k])[i] != (p + [k])[j] {
            if j == |p| {
              assert (p + [k])[i] == p[i] && p[i] in p;
            } else {
              assert (p + [k])[i] == p[i] && (p + [k])[j] == p[j];
            }
          }
        }
        p + [k]
  }

  predicate IsImport(x: Keyed, k: string) {
    x.key == k && x.rec.usageType == "IUsage"
  }

  predicate IsExport(x: Keyed, k: string) {
    x.key == k && x.rec.usageType == "Eusage"
  }

  function Abs(v: real): (a: real)
    ensures a >= 0.0 && (a == v || a == -v)
  {
    if v < 0.0 then -v else v
  }

  /** The import of group `k` after the loop: the value of its last `IUsage` row, 0 if none. */
  function ImportOf(ks: seq<Keyed>, k: string): real {
    if |ks| == 0 then 0.0
    else if IsImport(ks[|ks| - 1], k) then ks[|ks| - 1].rec.usageValue
    else ImportOf(ks[..|ks| - 1], k)
  }

  /** The export of group `k` after the loop: `abs` of its last `Eusage` row, 0 if none. */
  function ExportOf(ks: seq<Keyed>, k: string): real {
    if |ks| == 0 then 0.0
    else if IsExport(ks[|ks| - 1], k) then Abs(ks[|ks| - 1].rec.usageValue)
    else ExportOf(ks[..|ks| - 1], k)
  }

  /** The billing period a monthly group is created with: that of its first record. */
  function PeriodOf(ks: seq<Keyed>, k: string): string {
    if |ks| == 0 then ""
    else if k in KeysOf(ks[..|ks| - 1]) then PeriodOf(ks[..|ks| - 1], k)
    else if ks[|ks| - 1].key == k then ks[|ks| - 1].rec.billPeriod
    else ""
  }

  /** The dict entry of group `k` after the loop. */
  datatype Group = Group(billingPeriod: Option<string>, importKwh: real, exportKwh: real)

  function GroupOf(ks: seq<Keyed>, k: string, interval: Interval): Group {
    Group(if interval == Monthly then Some(PeriodOf(ks, k)) else None, ImportOf(ks, k), ExportOf(ks, k))
  }

  /** The record the emit loop builds from the entry `g` of key `k`. */
  function Emitted(k: string, g: Group): UsageRecord {
    UsageRecord(k, g.billingPeriod, g.importKwh, g.exportKwh, g.importKwh - g.exportKwh)
  }

  /** The emitted record of group `k`. */
  function RecordOf(ks: seq<Keyed>, k: string, interval: Interval): UsageRecord {
    Emitted(k, GroupOf(ks, k, interval))
  }

  /** The records emitted for `keys`, in that order. */
  function Summaries(ks: seq<Keyed>, keys: seq<string>, interval: Interval): (out: seq<UsageRecord>)
    ensures |out| == |keys| && forall j | 0 <= j < |keys| :: out[j] == RecordOf(ks, keys[j], interval)
  {
    if |keys| == 0 then [] else Summaries(ks, keys[..|keys| - 1], interval) + [RecordOf(ks, keys[|keys| - 1], interval)]
  }

  /** What the normaliser returns for `rs`. */
  function Normalize(rs: seq<RawRecord>, interval: Interval, start: int, end: int, flavour: Flavour): (r: Result<seq<UsageRecord>, Error>)
    ensures r.Ok? <==> Kept(rs, interval, start, end, flavour).Ok?
    ensures r.Err? ==> r.error == Kept(rs, interval, start, end, flavour).error
    ensures r.Ok? ==> |r.value| <= |rs|
  {
    match Kept(rs, interval, start, end, flavour)
    case Err(e) => Err(e)
    case Ok(ks) =>
      KeyOrderLength(ks);
      Ok(Summaries(ks, SortStrings(KeyOrder(ks)), interval))
  }

  // ---------------------------------------------------------------------------------------
  // Facts about the grouping

  lemma {:induction false} KeysOfMember(ks: seq<Keyed>, k: string)
    ensures k in KeysOf(ks) <==> exists i | 0 <= i < |ks| :: ks[i].key == k
  {
    if |ks| > 0 {
      var p := ks[..|ks| - 1];
      KeysOfMember(p, k);
      if k in KeysOf(p) {
        var i :| 0 <= i < |p| && p[i].key == k;
        assert ks[i] == p[i];
      }
      if exists i | 0 <= i < |ks| :: ks[i].key == k {
        var i :| 0 <= i < |ks| && ks[i].key == k;
        if i < |p| {
          assert p[i] == ks[i];
        }
      }
    }
  }

  /** There are no more keys than kept records. */
  lemma {:induction false} KeyOrderLength(ks: seq<Keyed>)
    ensures |KeyOrder(ks)| <= |ks|
  {
    if |ks| > 0 {
      KeyOrderLength(ks[..|ks| - 1]);
    }
  }

  /** Import is assigned, not summed: it is the value of the last `IUsage` row of the group. */
  lemma {:induction false} ImportIsLast(ks: seq<Keyed>, k: string, i: int)
    requires 0 <= i < |ks| && IsImport(ks[i], k)
    requires forall j | i < j < |ks| :: !IsImport(ks[j], k)
    ensures ImportOf(ks, k) == ks[i].rec.usageValue
  {
    if i < |ks| - 1 {
      var p := ks[..|ks| - 1];
      assert p[i] == ks[i];
      forall j | i < j < |p| ensures !IsImport(p[j], k) {
        assert p[j] == ks[j];
      }
      ImportIsLast(p, k, i);
    }
  }

  /** A group with no `IUsage` row has import 0. */
  lemma {:induction false} ImportAbsent(ks: seq<Keyed>, k: string)
    requires forall j | 0 <= j < |ks| :: !IsImport(ks[j], k)
    ensures ImportOf(ks, k) == 0.0
  {
    if |ks| > 0 {
      var p := ks[..|ks| - 1];
      forall j | 0 <= j < |p| ensures !IsImport(p[j], k) {
        assert p[j] == ks[j];
      }
      ImportAbsent(p, k);
    }
  }

  /** Export is `abs` of the value of the last `Eusage` row of the group. */
  lemma {:induction false} ExportIsLast(ks: seq<Keyed>, k: string, i: int)
    requires 0 <= i < |ks| && IsExport(ks[i], k)
    requires forall j | i < j < |ks| :: !IsExport(ks[j], k)
    ensures ExportOf(ks, k) == Abs(ks[i].rec.usageValue)
  {
    if i < |ks| - 1 {
      var p := ks[..|ks| - 1];
      assert p[i] == ks[i];
      forall j | i < j < |p| ensures !IsExport(p[j], k) {
        assert p[j] == ks[j];
      }
      ExportIsLast(p, k, i);
    }
  }

  /** A group with no `Eusage` row has export 0. */
  lemma {:induction false} ExportAbsent(ks: seq<Keyed>, k: string)
    requires forall j | 0 <= j < |ks| :: !IsExport(ks[j], k)
    ensures ExportOf(ks, k) == 0.0
  {
    if |ks| > 0 {
      var p := ks[..|ks| - 1];
      forall j | 0 <= j < |p| ensures !IsExport(p[j], k) {
        assert p[j] == ks[j];
      }
      ExportAbsent(p, k);
    }
  }

  /** Export is never negative. */
  lemma {:induction false} ExportNonNegative(ks: seq<Keyed>, k: string)
    ensures ExportOf(ks, k) >= 0.0
  {
    if |ks| > 0 {
      ExportNonNegative(ks[..|ks| - 1], k);
    }
  }

  /** A monthly group keeps the billing period of its first record. */
  lemma {:induction false} PeriodIsFirst(ks: seq<Keyed>, k: string, i: int)
    requires 0 <= i < |ks| && ks[i].key == k
    requires forall j | 0 <= j < i :: ks[j].key != k
    ensures PeriodOf(ks, k) == ks[i].rec.billPeriod
  {
    var p := ks[..|ks| - 1];
    if i < |ks| - 1 {
      assert p[i] == ks[i];
      forall j | 0 <= j < i ensures p[j].key != k {
        assert p[j] == ks[j];
      }
      KeysOfMember(p, k);
      PeriodIsFirst(p, k, i);
    } else {
      forall j | 0 <= j < |p| ensures p[j].key != k {
        assert p[j] == ks[j];
      }
      KeysOfMember(p, k);
    }
  }

  /** Appending one keyed record changes only its own group. */
  lemma GroupSnoc(ks: seq<Keyed>, x: Keyed)
    ensures KeysOf(ks + [x]) == KeysOf(ks) + {x.key}
    ensures KeyOrder(ks + [x]) == KeyOrder(ks) + (if x.key in KeysOf(ks) then [] else [x.key])
    ensures forall k :: ImportOf(ks + [x], k) == if IsImport(x, k) then x.rec.usageValue else ImportOf(ks, k)
    ensures forall k :: ExportOf(ks + [x], k) == if IsExport(x, k) then Abs(x.rec.usageValue) else ExportOf(ks, k)
    ensures forall k :: PeriodOf(ks + [x], k) == if k in KeysOf(ks) then PeriodOf(ks, k) else if x.key == k then x.rec.billPeriod else ""
  {
    assert (ks + [x])[..|ks|] == ks;
  }

  /** A key that has not occurred has the initial group values. */
  lemma {:induction false} FreshGroup(ks: seq<Keyed>, k: string)
    requires k !in KeysOf(ks)
    ensures ImportOf(ks, k) == 0.0 && ExportOf(ks, k) == 0.0 && PeriodOf(ks, k) == ""
  {
    if |ks| > 0 {
      FreshGroup(ks[..|ks| - 1], k);
    }
  }

  /** The entry `grouped_data` creates for a new key. */
  function FreshEntry(r: RawRecord, interval: Interval): Group {
    Group(if interval == Monthly then Some(r.billPeriod) else None, 0.0, 0.0)
  }

  /** The assignment one record makes into its group's entry. */
  function Assign(g: Group, r: RawRecord): Group {
    if r.usageType == "Eusage" then g.(exportKwh := Abs(r.usageValue))
    else if r.usageType == "IUsage" then g.(importKwh := r.usageValue)
    else g
  }

  /** Appending a record to the kept list changes its own group as the loop body does and no
      other group. */
  lemma GroupOfSnoc(ks: seq<Keyed>, x: Keyed, interval: Interval)
    ensures forall k | k != x.key :: GroupOf(ks + [x], k, interval) == GroupOf(ks, k, interval)
    ensures GroupOf(ks + [x], x.key, interval) ==
      Assign(if x.key in KeysOf(ks) then GroupOf(ks, x.key, interval) else FreshEntry(x.rec, interval), x.rec)
  {
    GroupSnoc(ks, x);
    if x.key !in KeysOf(ks) {
      FreshGroup(ks, x.key);
    }
  }

  /** The loop body keeps the dict equal to the groups of the kept list. */
  lemma GroupedStep(grouped: map<string, Group>, ks: seq<Keyed>, x: Keyed, interval: Interval)
    requires grouped.Keys == KeysOf(ks)
    requires forall k | k in grouped :: grouped[k] == GroupOf(ks, k, interval)
    ensures var g := grouped[x.key := Assign(if x.key in grouped then grouped[x.key] else FreshEntry(x.rec, interval), x.rec)];
      && g.Keys == KeysOf(ks + [x])
      && forall k | k in g :: g[k] == GroupOf(ks + [x], k, interval)
  {
    GroupSnoc(ks, x);
    GroupOfSnoc(ks, x, interval);
  }

  /** One more record: the kept list of `rs[..i + 1]` is one step from that of `rs[..i]`. */
  lemma KeptSnoc(rs: seq<RawRecord>, i: nat, adm: Admission, fails: RawRecord -> bool)
    requires i < |rs|
    ensures KeptBy(rs[..i + 1], adm, fails) ==
      match KeptBy(rs[..i], adm, fails)
      case Err(e) => Err(e)
      case Ok(ks) => Step(ks, rs[i], adm, fails)
  {
    assert rs[..i + 1][..i] == rs[..i];
  }

  /** Once a prefix has raised, the whole list raises with the same error. */
  lemma {:induction false} KeptAfterError(rs: seq<RawRecord>, n: nat, adm: Admission, fails: RawRecord -> bool)
    requires n <= |rs| && KeptBy(rs[..n], adm, fails).Err?
    ensures KeptBy(rs, adm, fails) == KeptBy(rs[..n], adm, fails)
    decreases |rs| - n
  {
    if n < |rs| {
      assert rs[..|rs| - 1][..n] == rs[..n];
      KeptAfterError(rs[..|rs| - 1], n, adm, fails);
    } else {
      assert rs[..n] == rs;
    }
  }

  /** The kept list depends on the stamp test only through its value on the records. */
  lemma {:induction false} KeptBySameFailures(rs: seq<RawRecord>, adm: Admission, fails1: RawRecord -> bool, fails2: RawRecord -> bool)
    requires forall i | 0 <= i < |rs| :: fails1(rs[i]) == fails2(rs[i])
    ensures KeptBy(rs, adm, fails1) == KeptBy(rs, adm, fails2)
  {
    if |rs| > 0 {
      var p := rs[..|rs| - 1];
      assert forall i | 0 <= i < |p| :: p[i] == rs[i];
      KeptBySameFailures(p, adm, fails1, fails2);
    }
  }

  /** The library and the script normalise alike, except where the library's monthly timestamp
      cannot be built for a new group. */
  lemma FlavoursAgree(rs: seq<RawRecord>, interval: Interval, start: int, end: int)
    requires interval != Monthly || forall i | 0 <= i < |rs| :: MonthStampBuilds(rs[i])
    ensures Normalize(rs, interval, start, end, Library) == Normalize(rs, interval, start, end, Script)
  {
    KeptBySameFailures(rs, AdmitBy(interval, start, end), StampFailsBy(interval, Library), StampFailsBy(interval, Script));
  }

  /** A step that does not raise admitted its record, and appends it exactly when the filter
      keeps it. */
  lemma StepMeaning(ks: seq<Keyed>, r: RawRecord, adm: Admission, fails: RawRecord -> bool)
    requires Step(ks, r, adm, fails).Ok?
    ensures adm(r).Ok?
    ensures Step(ks, r, adm, fails).value == if adm(r).value.None? then ks else ks + [Keyed(adm(r).value.value, r)]
  {
  }

  /** Every kept record was admitted under its key. */
  lemma {:induction false} KeptAdmitted(rs: seq<RawRecord>, adm: Admission, fails: RawRecord -> bool)
    requires KeptBy(rs, adm, fails).Ok?
    ensures var ks := KeptBy(rs, adm, fails).value;
      forall i | 0 <= i < |ks| :: adm(ks[i].rec) == Ok(Some(ks[i].key))
  {
    if |rs| > 0 {
      var p := rs[..|rs| - 1];
      KeptAdmitted(p, adm, fails);
      StepMeaning(KeptBy(p, adm, fails).value, rs[|rs| - 1], adm, fails);
    }
  }

  /** Nothing raised, and every input record that the filter admits is kept under its key. */
  lemma {:induction false} KeptComplete(rs: seq<RawRecord>, adm: Admission, fails: RawRecord -> bool)
    requires KeptBy(rs, adm, fails).Ok?
    ensures var ks := KeptBy(rs, adm, fails).value;
      && (forall j | 0 <= j < |rs| :: adm(rs[j]).Ok?)
      && (forall j | 0 <= j < |rs| && adm(rs[j]).value.Some? :: Keyed(adm(rs[j]).value.value, rs[j]) in ks)
  {
    if |rs| > 0 {
      var n := |rs| - 1;
      var p, last := rs[..n], rs[n];
      KeptComplete(p, adm, fails);
      var ks0 := KeptBy(p, adm, fails).value;
      assert KeptBy(rs, adm, fails) == Step(ks0, last, adm, fails);
      StepMeaning(ks0, last, adm, fails);
      var ks := KeptBy(rs, adm, fails).value;
      assert forall x | x in ks0 :: x in ks;
      forall j | 0 <= j < |rs|
        ensures adm(rs[j]).Ok? && (adm(rs[j]).value.Some? ==> Keyed(adm(rs[j]).value.value, rs[j]) in ks)
      {
        if j < n {
          assert rs[j] == p[j];
        }
      }
    }
  }

  /** What the filter keeps: every kept record was admitted under its key, no record raised, and
      every record the filter admits is kept. */
  lemma KeptMeaning(rs: seq<RawRecord>, interval: Interval, start: int, end: int, flavour: Flavour)
    requires Kept(rs, interval, start, end, flavour).Ok?
    ensures var ks := Kept(rs, interval, start, end, flavour).value;
      && (forall i | 0 <= i < |ks| :: Admit(ks[i].rec, interval, start, end) == Ok(Some(ks[i].key)))
      && (forall j | 0 <= j < |rs| :: Admit(rs[j], interval, start, end).Ok?)
      && (forall j | 0 <= j < |rs| && Admit(rs[j], interval, start, end).value.Some? ::
            Keyed(Admit(rs[j], interval, start, end).value.value, rs[j]) in ks)
  {
    KeptAdmitted(rs, AdmitBy(interval, start, end), StampFailsBy(interval, flavour));
    KeptComplete(rs, AdmitBy(interval, start, end), StampFailsBy(interval, flavour));
  }

  /** In daily mode every kept record's date lies within `start..end`. */
  lemma DailyKeptInWindow(rs: seq<RawRecord>, start: int, end: int, flavour: Flavour)
    requires Kept(rs, Daily, start, end, flavour).Ok?
    ensures var ks := Kept(rs, Daily, start, end, flavour).value;
      forall i | 0 <= i < |ks| :: UsageDay(ks[i].rec).Ok? && start <= UsageDay(ks[i].rec).value <= end
  {
    KeptAdmitted(rs, AdmitBy(Daily, start, end), StampFailsBy(Daily, flavour));
  }

  /** Some record of `out` carries key `k`. */
  predicate HasKey(out: seq<UsageRecord>, k: string) {
    exists j | 0 <= j < |out| :: out[j].key == k
  }

  /** The emitted records of strictly sorted keys that are exactly the kept keys. */
  lemma SummariesMeaning(ks: seq<Keyed>, keys: seq<string>, interval: Interval)
    requires StrictlySorted(keys) && forall k :: k in keys <==> k in KeysOf(ks)
    ensures var out := Summaries(ks, keys, interval);
      && (forall i, j | 0 <= i < j < |out| :: StrLess(out[i].key, out[j].key))
      && (forall k :: HasKey(out, k) <==> k in KeysOf(ks))
      && (forall j | 0 <= j < |out| ::
            && out[j].importKwh == ImportOf(ks, out[j].key)
            && out[j].exportKwh == ExportOf(ks, out[j].key)
            && out[j].exportKwh >= 0.0
            && out[j].netKwh == out[j].importKwh - out[j].exportKwh
            && out[j].billingPeriod == (if interval == Monthly then Some(PeriodOf(ks, out[j].key)) else None))
  {
    SummariesSorted(ks, keys, interval);
    SummariesKeys(ks, keys, interval);
    SummariesFields(ks, keys, interval);
  }

  lemma SummariesSorted(ks: seq<Keyed>, keys: seq<string>, interval: Interval)
    requires StrictlySorted(keys)
    ensures var out := Summaries(ks, keys, interval);
      forall i, j | 0 <= i < j < |out| :: StrLess(out[i].key, out[j].key)
  {
    var out := Summaries(ks, keys, interval);
    forall i, j | 0 <= i < j < |out| ensures StrLess(out[i].key, out[j].key) {
      assert out[i].key == keys[i] && out[j].key == keys[j];
    }
  }

  lemma SummariesKeys(ks: seq<Keyed>, keys: seq<string>, interval: Interval)
    requires forall k :: k in keys <==> k in KeysOf(ks)
    ensures var out := Summaries(ks, keys, interval);
      forall k :: HasKey(out, k) <==> k in KeysOf(ks)
  {
    var out := Summaries(ks, keys, interval);
    forall k ensures HasKey(out, k) <==> k in KeysOf(ks) {
      if HasKey(out, k) {
        var j :| 0 <= j < |out| && out[j].key == k;
        assert out[j].key == keys[j] && keys[j] in keys;
      }
      if k in KeysOf(ks) {
        var j :| 0 <= j < |keys| && keys[j] == k;
        assert out[j].key == k;
      }
    }
  }

  lemma SummariesFields(ks: seq<Keyed>, keys: seq<string>, interval: Interval)
    ensures var out := Summaries(ks, keys, interval);
      forall j | 0 <= j < |out| ::
        && out[j].importKwh == ImportOf(ks, out[j].key)
        && out[j].exportKwh == ExportOf(ks, out[j].key)
        && out[j].exportKwh >= 0.0
        && out[j].netKwh == out[j].importKwh - out[j].exportKwh
        && out[j].billingPeriod == (if interval == Monthly then Some(PeriodOf(ks, out[j].key)) else None)
  {
    var out := Summaries(ks, keys, interval);
    forall j | 0 <= j < |out|
      ensures && out[j].importKwh == ImportOf(ks, out[j].key)
              && out[j].exportKwh == ExportOf(ks, out[j].key)
              && out[j].exportKwh >= 0.0
              && out[j].netKwh == out[j].importKwh - out[j].exportKwh
              && out[j].billingPeriod == (if interval == Monthly then Some(PeriodOf(ks, out[j].key)) else None)
    {
      assert out[j] == RecordOf(ks, keys[j], interval);
      ExportNonNegative(ks, keys[j]);
    }
  }

  /** The normaliser's output: one record per distinct key of the kept records, keys in strictly
      ascending string order, import and export as assigned by the group's last `IUsage` and
      `Eusage` rows, export non-negative, and net the difference. */
  lemma NormalizeMeaning(rs: seq<RawRecord>, interval: Interval, start: int, end: int, flavour: Flavour)
    requires Normalize(rs, interval, start, end, flavour).Ok?
    ensures var out := Normalize(rs, interval, start, end, flavour).value;
      var ks := Kept(rs, interval, start, end, flavour).value;
      && (forall i, j | 0 <= i < j < |out| :: StrLess(out[i].key, out[j].key))
      && (forall k :: HasKey(out, k) <==> k in KeysOf(ks))
      && (forall j | 0 <= j < |out| ::
            && out[j].importKwh == ImportOf(ks, out[j].key)
            && out[j].exportKwh == ExportOf(ks, out[j].key)
            && out[j].exportKwh >= 0.0
            && out[j].netKwh == out[j].importKwh - out[j].exportKwh
            && out[j].billingPeriod == (if interval == Monthly then Some(PeriodOf(ks, out[j].key)) else None))
  {
    var ks := Kept(rs, interval, start, end, flavour).value;
    var keys := SortStrings(KeyOrder(ks));
    assert Normalize(rs, interval, start, end, flavour) == Ok(Summaries(ks, keys, interval));
    SummariesMeaning(ks, keys, interval);
  }

  /** A record the daily filter admits is keyed by a date inside the window. */
  lemma DailyAdmitted(r: RawRecord, start: int, end: int, k: string)
    requires Admit(r, Daily, start, end) == Ok(Some(k))
    ensures ParseMDY(k).Some? && start <= Ordinal(ParseMDY(k).value) <= end
  {
    var day := UsageDay(r);
    assert day.Ok? && !(day.value < start || day.value > end);
    assert k == DatedKey(r, Daily) == r.usageDate.value;
  }

  /** Daily output stays inside the requested window: every emitted key is a date that parses,
      and its day lies within `start..end`. */
  lemma DailyOutputInWindow(rs: seq<RawRecord>, start: int, end: int, flavour: Flavour)
    requires Normalize(rs, Daily, start, end, flavour).Ok?
    ensures var out := Normalize(rs, Daily, start, end, flavour).value;
      forall j | 0 <= j < |out| :: ParseMDY(out[j].key).Some? && start <= Ordinal(ParseMDY(out[j].key).value) <= end
  {
    var out := Normalize(rs, Daily, start, end, flavour).value;
    var ks := Kept(rs, Daily, start, end, flavour).value;
    NormalizeMeaning(rs, Daily, start, end, flavour);
    KeptAdmitted(rs, AdmitBy(Daily, start, end), StampFailsBy(Daily, flavour));
    forall j | 0 <= j < |out|
      ensures ParseMDY(out[j].key).Some? && start <= Ordinal(ParseMDY(out[j].key).value) <= end
    {
      assert out[j].key in KeysOf(ks);
      KeysOfMember(ks, out[j].key);
      var i :| 0 <= i < |ks| && ks[i].key == out[j].key;
      DailyAdmitted(ks[i].rec, start, end, ks[i].key);
    }
  }

  /** A key whose rows carry only unrecognised `UsageType` tags is emitted as 0 / 0 / 0. */
  lemma UnrecognisedTagsGiveZero(ks: seq<Keyed>, k: string, interval: Interval)
    requires forall j | 0 <= j < |ks| && ks[j].key == k :: ks[j].rec.usageType != "IUsage" && ks[j].rec.usageType != "Eusage"
    ensures var u := RecordOf(ks, k, interval); u.importKwh == 0.0 && u.exportKwh == 0.0 && u.netKwh == 0.0
  {
    ImportAbsent(ks, k);
    ExportAbsent(ks, k);
  }

  /** Two records admitted under the same key, the first of which may open a group, are both kept. */
  lemma KeptTwo(r1: RawRecord, r2: RawRecord, k: string, adm: Admission, fails: RawRecord -> bool)
    requires adm(r1) == Ok(Some(k)) && adm(r2) == Ok(Some(k)) && !fails(r1)
    ensures KeptBy([r1, r2], adm, fails) == Ok([Keyed(k, r1), Keyed(k, r2)])
  {
    var x1, x2 := Keyed(k, r1), Keyed(k, r2);
    assert [r1][..0] == [] && [r1, r2][..1] == [r1];
    assert [] + [x1] == [x1] && [x1] + [x2] == [x1, x2];
    assert KeptBy([r1], adm, fails) == Ok([x1]);
    assert KeysOf([x1]) == {k} by {
      assert [x1][..0] == [];
    }
  }

  /** Two rows under one key make one group. */
  lemma OneKeyOrder(x1: Keyed, x2: Keyed)
    requires x1.key == x2.key
    ensures KeyOrder([x1, x2]) == [x1.key]
  {
    assert [x1, x2][..1] == [x1] && [x1][..0] == [];
    assert KeysOf([x1]) == {x1.key};
    assert KeyOrder([x1]) == [] + [x1.key] == [x1.key];
  }

  /** The summary of two `IUsage` rows kept under one key. */
  lemma SummaryOfTwoImports(r1: RawRecord, r2: RawRecord, k: string, interval: Interval)
    requires interval != Monthly && r1.usageType == "IUsage" && r2.usageType == "IUsage"
    ensures var ks := [Keyed(k, r1), Keyed(k, r2)];
      Summaries(ks, SortStrings(KeyOrder(ks)), interval) == [UsageRecord(k, None, r2.usageValue, 0.0, r2.usageValue)]
  {
    var ks := [Keyed(k, r1), Keyed(k, r2)];
    OneKeyOrder(ks[0], ks[1]);
    SortSingleton(k);
    ImportIsLast(ks, k, 1);
    ExportAbsent(ks, k);
    assert RecordOf(ks, k, interval) == UsageRecord(k, None, r2.usageValue, 0.0, r2.usageValue);
  }

  /** Two admitted `IUsage` rows for the same key: the second value replaces the first. */
  lemma AssignedNotSummed(r1: RawRecord, r2: RawRecord, interval: Interval, start: int, end: int, k: string)
    requires interval != Monthly
    requires Admit(r1, interval, start, end) == Ok(Some(k)) && Admit(r2, interval, start, end) == Ok(Some(k))
    requires r1.usageType == "IUsage" && r2.usageType == "IUsage"
    ensures Normalize([r1, r2], interval, start, end, Library) == Ok([UsageRecord(k, None, r2.usageValue, 0.0, r2.usageValue)])
  {
    KeptTwo(r1, r2, k, AdmitBy(interval, start, end), StampFailsBy(interval, Library));
    SummaryOfTwoImports(r1, r2, k, interval);
  }

  /** MM/DD/YY keys sort by month first: 01/01/24 comes before 12/31/23 in the output although
      it is the later day. */
  lemma SortIsNotChronological()
    ensures StrLess("01/01/24", "12/31/23")
    ensures ParseMDY("01/01/24") == Some(Date(2024, 1, 1)) && ParseMDY("12/31/23") == Some(Date(2023, 12, 31))
    ensures Ordinal(Date(2023, 12, 31)) < Ordinal(Date(2024, 1, 1))
  {
    var newYear, eve := Date(2024, 1, 1), Date(2023, 12, 31);
    FormatParseRoundTrip(newYear);
    FormatParseRoundTrip(eve);
    NewYearFormat();
    EveFormat();
    assert Before(eve, newYear);
    BeforeIsOrdinalOrder(eve, newYear);
  }

  lemma NewYearFormat()
    ensures FormatMDY(Date(2024, 1, 1)) == "01/01/24"
  {
    assert TwoDigits(1) == "01" && TwoDigits(24) == "24";
  }

  lemma EveFormat()
    ensures FormatMDY(Date(2023, 12, 31)) == "12/31/23"
  {
    assert TwoDigits(12) == "12" && TwoDigits(31) == "31" && TwoDigits(23) == "23";
  }

  // ---------------------------------------------------------------------------------------
  // The loop

  /** `_parse_records` / the `format_output` loop: fills the `grouped_data` dict record by
      record, then emits one record per key in sorted key order. */
  method ParseRecords(records: seq<RawRecord>, interval: Interval, start: int, end: int, flavour: Flavour)
    returns (r: Result<seq<UsageRecord>, Error>)
    ensures r == Normalize(records, interval, start, end, flavour)
  {
    var grouped, order, ks := GroupRecords(records, interval, start, end, flavour);
    if grouped.Err? {
      return Err(grouped.error);
    }
    var keys := SortStrings(order);
    var out := Emit(grouped.value, keys, interval, ks);
    r := Ok(out);
  }

  /** The grouping loop: fills the `grouped_data` dict record by record, keeping the keys in
      insertion order, or stops at the first record that raises. */
  method GroupRecords(records: seq<RawRecord>, interval: Interval, start: int, end: int, flavour: Flavour)
    returns (r: Result<map<string, Group>, Error>, order: seq<string>, ghost ks: seq<Keyed>)
    ensures r.Err? ==> Kept(records, interval, start, end, flavour) == Err(r.error)
    ensures r.Ok? ==> Kept(records, interval, start, end, flavour) == Ok(ks)
    ensures r.Ok? ==> order == KeyOrder(ks) && r.value.Keys == KeysOf(ks)
    ensures r.Ok? ==> forall k | k in r.value :: r.value[k] == GroupOf(ks, k, interval)
  {
    var grouped: map<string, Group> := map[];
    ghost var adm, fails := AdmitBy(interval, start, end), StampFailsBy(interval, flavour);
    order := [];
    ks := [];
    for i := 0 to |records|
      invariant KeptBy(records[..i], adm, fails) == Ok(ks)
      invariant order == KeyOrder(ks)
      invariant grouped.Keys == KeysOf(ks)
      invariant forall k | k in grouped :: grouped[k] == GroupOf(ks, k, interval)
    {
      var record := records[i];
      KeptSnoc(records, i, adm, fails);
      var decision := Classify(record, interval, start, end);
      assert adm(record) == decision;
      if decision.Err? {
        KeptAfterError(records, i + 1, adm, fails);
        return Err(decision.error), order, ks;
      }
      if decision.value.None? {
        continue;
      }
      var key := decision.value.value;
      if key !in grouped && flavour == Library && interval == Monthly && !MonthStampBuilds(record) {
        KeptAfterError(records, i + 1, adm, fails);
        return Err(InvalidDate), order, ks;
      }
      ghost var x := Keyed(key, record);
      assert KeptBy(records[..i + 1], adm, fails) == Ok(ks + [x]);
      GroupSnoc(ks, x);
      GroupedStep(grouped, ks, x, interval);
      // `grouped_data[key]` is a dict that the assignments below update in place.
      var entry := if key in grouped then grouped[key] else FreshEntry(record, interval);
      if key !in grouped {
        order := order + [key];
      }
      if record.usageType == "Eusage" {
        entry := entry.(exportKwh := Abs(record.usageValue));
      } else if record.usageType == "IUsage" {
        entry := entry.(importKwh := record.usageValue);
      }
      grouped := grouped[key := entry];
      ks := ks + [x];
    }
    assert records[..|records|] == records;
    r := Ok(grouped);
  }

  /** The filters at the top of the loop body: the key of `record`, `None` when it is skipped,
      or the error its date raises. */
  method Classify(record: RawRecord, interval: Interval, start: int, end: int)
    returns (d: Result<Option<string>, Error>)
    ensures d == Admit(record, interval, start, end)
  {
    if interval == Monthly {
      if !MonthlyKept(record, start, end) {
        return Ok(None);
      }
      return Ok(Some(MonthlyKey(record)));
    }
    if record.usageDate.None? {
      return Err(MalformedRecord);
    }
    var parsed := ParseMDY(record.usageDate.value);
    if parsed.None? {
      return Err(InvalidDate);
    }
    var day := Ordinal(parsed.value);
    if interval == Daily && (day < start || day > end) {
      return Ok(None);
    }
    return Ok(Some(DatedKey(record, interval)));
  }

  /** The emit loop: one record per key, in the order of `keys`. */
  method Emit(grouped: map<string, Group>, keys: seq<string>, interval: Interval, ghost ks: seq<Keyed>)
    returns (out: seq<UsageRecord>)
    requires forall k | k in keys :: k in grouped && grouped[k] == GroupOf(ks, k, interval)
    ensures out == Summaries(ks, keys, interval)
  {
    out := [];
    for j := 0 to |keys|
      invariant out == Summaries(ks, keys[..j], interval)
    {
      SummariesSnoc(ks, keys, j, interval);
      out := out + [Emitted(keys[j], grouped[keys[j]])];
    }
    assert keys[..|keys|] == keys;
  }

  lemma SummariesSnoc(ks: seq<Keyed>, keys: seq<string>, j: nat, interval: Interval)
    requires j < |keys|
    ensures Summaries(ks, keys[..j + 1], interval) == Summaries(ks, keys[..j], interval) + [RecordOf(ks, keys[j], interval)]
  {
    assert keys[..j + 1][..j] == keys[..j];
  }
}
