# CPAU electric usage client, modelled in Dafny

This project models the electric side of `cpau`, a client for the City of Palo Alto Utilities
customer portal. The model has four parts:

- **Session.** `CpauApiSession` logs in with a userid and password, keeps an anti-forgery token,
  lists the account's active electric meters and sends authenticated API requests.
- **Meter.** `CpauElectricMeter` turns a usage request into `LoadUsage` queries. A request names
  an interval (`monthly`, `daily`, `hourly`, `15min`) and a date range.
  - The queries are: one for monthly, 30-day windows stepping back from the end date for daily,
    and one per day for hourly and 15-minute.
  - It merges the replies, keeping the first row for each daily date.
  - It normalises the rows into usage records: a date or billing-period filter, grouping by key,
    import/export assignment, `net = import - export`, and output in sorted key order.
  - `iter_usage` walks a long range window by window.
- **Downloader.** The `cpau-electric.py` script does the same work in one pass. It checks the
  date arguments and reads the secrets file. It logs in, picks the first active meter, runs the
  same per-mode fetch loops and builds the usage summary it writes as CSV.
- **Availability finder.** A developer tool finds the earliest and latest day with data. It
  binary-searches over single-day probes, and scans the monthly rows for the earliest period
  start and the latest period end.

The portal is never contacted. Each reply the client would receive becomes an input:

- the home page and the Usages page (`PageReply`);
- each POST reply (`Reply`);
- the reply to a usage query (`Backend`, a function from a query to rows or a failure);
- the secrets file.

The clock is the parameter `today`. Days are `date.toordinal()` numbers. The session class also
records the requests it sends, so the contracts can say that nothing is sent after a failure.

The modules follow the program:

| module | contents |
|---|---|
| `Wrappers` | Option and Result |
| `Text` | the `str` operations the code relies on |
| `Dates` | proleptic Gregorian dates, `strptime`/`strftime` for `%m/%d/%y` and `%Y-%m-%d` |
| `Portal` | JSON values, replies and error kinds |
| `Usage` | intervals, modes, queries and records |
| `Session` | the session functions and the `ApiSession` class |
| `Fetcher` | the query plans and the fetch loops |
| `Normalizer` | `_parse_records`, and the script's copy of it |
| `ElectricMeter` | the meter's public operations |
| `Downloader` | the script |
| `Availability` | the availability finder |

The library and the script carry two copies of the normaliser. They differ in exactly one way:
for a new monthly group the library builds a timestamp, and `datetime(Year, Month, 1)` can raise
while doing so. The model runs the two copies as one function with a `Flavour` parameter, and
`Normalizer.FlavoursAgree` proves they agree everywhere else.

`iter_usage` with `chunk_days <= 0` does not loop forever. Its first window ends the day before it
starts, so `get_usage` raises at once. The model follows the code here
(`ElectricMeter.NonPositiveChunkRaises`).

## Model

| member | source | states |
|---|---|---|
| Text.StripLeft | src/cpau_api/electric_meter.py:379 | `strip()` on the left: the result is a suffix of the input, it does not start with whitespace, and only whitespace was removed |
| Text.StripRight | src/cpau_api/electric_meter.py:379 | `strip()` on the right: the result is a prefix of the input, it does not end in whitespace, and only whitespace was removed |
| Text.IndexOf | src/cpau_api/electric_meter.py:376 | the substring search `' to ' in bill_period`: the leftmost occurrence, no earlier one, and None exactly when the separator occurs nowhere |
| Text.Split | src/cpau_api/electric_meter.py:378 | `str.split(sep)` always yields at least one part |
| Text.JoinSplit | src/cpau_api/electric_meter.py:378 | splitting loses nothing: joining the parts with the separator gives back the string |
| Text.SplitMany | src/cpau_api/electric_meter.py:376-378 | the separator occurs exactly when the split has two or more parts, so the `in` check guards the split |
| Text.SplitPartsFree | src/cpau_api/electric_meter.py:378 | no part of a split contains the separator |
| Text.StrLessIrreflexive | src/cpau_api/electric_meter.py:458 | the order `sorted` uses on keys never puts a string before itself |
| Text.StrLessTransitive | src/cpau_api/electric_meter.py:458 | that order is transitive |
| Text.StrLessTotal | src/cpau_api/electric_meter.py:458 | that order relates any two distinct strings |
| Text.StrLessAsymmetric | src/cpau_api/electric_meter.py:458 | that order is asymmetric |
| Text.InsertSorted | src/cpau_api/electric_meter.py:458 | inserting a new key into a sorted list leaves it strictly sorted, one longer, with exactly the old keys and the new one |
| Text.SortStrings | src/cpau_api/electric_meter.py:458 | `sorted(grouped_data.keys())`: the same keys, strictly ascending |
| Text.SortedUnique | src/cpau_api/electric_meter.py:458 | two strictly sorted lists with the same elements are equal, so the output order is determined by the key set |
| Text.NatToString | src/cpau_api/electric_meter.py:393 | `str` of a non-negative int is a string of decimal digits that, read back, denotes that int, with no leading zero; it is one digit exactly below 10 |
| Text.IntToString | src/cpau_api/electric_meter.py:393 | `str` of an int: a minus sign exactly when it is negative, then digits that denote its magnitude |
| Text.IntToStringInjective | src/cpau_api/electric_meter.py:393 | different ints are written differently |
| Text.Pad2 | src/cpau_api/electric_meter.py:393 | `:02d` of a non-negative int is digits denoting it, two of them with a leading zero exactly for 0..9; other values are written as `str` writes them |
| Text.Pad2Injective | src/cpau_api/electric_meter.py:393 | different ints give different `:02d` fields |
| Text.TwoDigits | src/cpau_api/electric_meter.py:260 | the `%m`, `%d` and `%y` fields `strftime` writes are two digits whose value is the field |
| Dates.DaysInMonth | src/cpau_api/electric_meter.py:401 | a month has 28 to 31 days |
| Dates.YearLength | src/cpau_api/electric_meter.py:351 | a year has 365 days, or 366 in a leap year, so ordinals advance one per calendar day across years |
| Dates.OrdinalNext | src/cpau_api/electric_meter.py:351 | `+ timedelta(days=1)`: the next calendar day is a real date whose ordinal is one more |
| Dates.OrdinalPrev | cpau-electric.py:68 | `- timedelta(days=1)`: the previous calendar day is a real date whose ordinal is one less |
| Dates.BeforeIsOrdinalOrder | cpau-electric.py:88 | `<` on datetimes at midnight (year, then month, then day) is exactly `<` on their ordinals |
| Dates.ParseMonthField | src/cpau_api/electric_meter.py:415 | an accepted `%m` field lies in 1..12 |
| Dates.ParseDayField | src/cpau_api/electric_meter.py:415 | an accepted `%d` field lies in 1..31 |
| Dates.ParseShortYearField | src/cpau_api/electric_meter.py:415 | an accepted `%y` field is a year in 1969..2068 |
| Dates.ParseLongYearField | cpau-electric.py:72 | an accepted `%Y` field lies in 0..9999 |
| Dates.MakeDate | src/cpau_api/electric_meter.py:401 | `datetime(y, m, d)` succeeds exactly for a real calendar date and builds that date |
| Dates.ParseMDY | src/cpau_api/electric_meter.py:415 | `strptime(s, '%m/%d/%y')` yields only real dates |
| Dates.ParseISO | cpau-electric.py:72 | `strptime(s, '%Y-%m-%d')` yields only real dates |
| Dates.FormatMDYFields | src/cpau_api/electric_meter.py:260 | `strftime('%m/%d/%y')` splits at `/` into the two-digit month, day and year-of-century |
| Dates.MonthFieldRoundTrip | src/cpau_api/electric_meter.py:260 | a written month field reads back as the same month |
| Dates.DayFieldRoundTrip | src/cpau_api/electric_meter.py:260 | a written day field reads back as the same day |
| Dates.ShortYearFieldRoundTrip | src/cpau_api/electric_meter.py:260 | a written `%y` field reads back as the year in 1969..2068 with the same last two digits |
| Dates.FormatParseRoundTrip | cpau-electric.py:311-312 | a date in 1969..2068 written as MM/DD/YY and parsed again is the same date |
| Dates.FormatParseCenturyLost | cpau-electric.py:311-312 | a date in 2069..2099 written as MM/DD/YY parses back 100 years early |
| Portal.Get | src/cpau_api/electric_meter.py:50 | `dict.get(key, default)`: the stored value when the key is present, the default otherwise |
| Portal.LoginAcceptedShapes | src/cpau_api/session.py:111-121 | a login result is accepted exactly when it is an object, or the first element of a non-empty list, whose `STATUS` is "1" or which has a `UserID` key |
| Portal.MeterNumberOf | cpau-electric.py:255 | a meter's number can be read exactly when the entry has a `MeterNumber` key |
| Usage.IntervalOf | src/cpau_api/electric_meter.py:31-36 | exactly the four interval names are recognised, each naming its own interval |
| Usage.ModeOf | src/cpau_api/electric_meter.py:31-36 | the interval-to-mode map is a bijection: monthly M, daily D, hourly H, 15min MI |
| Usage.Flatten | src/cpau_api/electric_meter.py:324-353 | `all_records.extend` over no responses is empty and over one response is that response |
| Usage.FlattenAppend | src/cpau_api/electric_meter.py:324-353 | extending with two runs of responses is extending with each in turn: every record appears once, in query order |
| Usage.SeasonFor | cpau-electric.py:266-267 | `SeasonId` is blank exactly for mode M |
| Session.LoginOutcome | src/cpau_api/session.py:54-128 | `login` succeeds exactly on a home page with status 200 and an accepted credentials reply. It raises a connection error for a bad home page or a network failure, and an authentication error otherwise |
| Session.LoginCalls | src/cpau_api/session.py:68-105 | `login` always fetches the home page, and posts the credentials only if that page returned 200 |
| Session.BadHomePageSendsNoCredentials | src/cpau_api/session.py:72-73 | when the home page fails, no credentials are sent and the outcome is a connection error whatever the POST reply would have been |
| Session.TokenFromPage | src/cpau_api/session.py:242-270 | `_get_csrf_token` returns the token exactly when the page loaded with 200 and holds a non-empty token; otherwise it raises an API error |
| Session.MeterInfoOf | src/cpau_api/session.py:157-163 | the meter query decodes exactly on status 200 with a decodable `d`. A network failure, another status or an undecodable body is an API error; any other failure escapes uncaught |
| Session.ApiDataOf | src/cpau_api/session.py:303-316 | an API reply decodes exactly on status 200 with a decodable `d`. Only a body that is not an object, or a `d` that is not a string, escapes uncaught |
| Session.ApiDataAgreesWithMeterInfo | src/cpau_api/session.py:159-163 | the two decodings agree except on a missing or undecodable `d`, which only `_make_api_request` turns into an API error |
| Session.MeterDetailsItems | src/cpau_api/session.py:167-168 | an object without `MeterDetails` gives no entries, a list under it gives its items, and a failed iteration escapes uncaught |
| Session.Iterate | src/cpau_api/session.py:168 | `for x in v` succeeds on a list, which gives its elements, and on an empty object or string; otherwise it fails |
| Session.ActiveMeters | src/cpau_api/session.py:166-172 | the call fails exactly when some entry has no readable status; every kept meter is an active entry and every active entry is kept |
| Session.ActiveMetersOne | src/cpau_api/session.py:168-170 | one entry: its fields are appended exactly when its `Status` equals 1, and an unreadable status raises |
| Session.ActiveMetersAppend | src/cpau_api/session.py:166-172 | the kept list of a concatenation is the concatenation of the kept lists, and an error in either part is the error of the whole; with the one-entry case this fixes the result as the active entries, each once, in input order |
| Session.MetersOutcome | src/cpau_api/session.py:130-175 | `get_electric_meters` refuses an unauthenticated session, raises an API error when the token cannot be loaded, passes on the meter reply's failure, and otherwise returns the active meters of the decoded `MeterDetails` |
| Session.MetersCalls | src/cpau_api/session.py:140-157 | nothing is sent unauthenticated; otherwise the Usages page is fetched first, and the meter query is sent exactly when a token was found |
| Session.TokenAfterMeters | src/cpau_api/session.py:145 | `get_electric_meters` replaces the cached token whenever the page gives one, and otherwise leaves it |
| Session.MetersAlwaysReloadToken | src/cpau_api/session.py:145 | a cached token does not spare `get_electric_meters` the page load; without a token on the page nothing else is sent and the old token is kept |
| Session.FirstMatch | src/cpau_api/session.py:200-202 | the position of the first meter with the requested number, or None exactly when no meter has it |
| Session.SelectMeter | src/cpau_api/session.py:192-204 | no meters means not found; with no number the first meter is chosen; with a number a meter is found exactly when one matches, and the one returned matches |
| Session.SelectMeterEarliest | src/cpau_api/session.py:200-202 | the chosen meter is the earliest match |
| Session.MeterOutcome | src/cpau_api/session.py:177-204 | `get_electric_meter` passes on the listing's failure, and otherwise makes SelectMeter's choice among the listed meters |
| Session.ApiOutcome | src/cpau_api/session.py:272-316 | `_make_api_request` refuses an unauthenticated session. With a cached token its result is the decoded reply; without one the token load comes first and its failure is raised |
| Session.ApiCalls | src/cpau_api/session.py:286-303 | nothing is sent unauthenticated; with a cached token exactly the POST is sent; otherwise the Usages page comes first, and the POST follows exactly when a token was found |
| Session.TokenAfterApi | src/cpau_api/session.py:289-291 | the token is loaded only when none is cached, and is then the page's token |
| Session.TokenCached | src/cpau_api/session.py:289-291 | with a token cached the page plays no part: one POST, the same outcome, the token kept |
| Session.TokenLoadedOnce | src/cpau_api/session.py:289-303 | once a request reached its POST, the next request finds a token and sends only its POST |
| Session.AuthRequired | src/cpau_api/session.py:140-141 | without a login both requests raise an authentication error, send nothing and keep the token (also lines 286-287) |
| Session.ApiSession.constructor | src/cpau_api/session.py:42-49 | a new session is unauthenticated, has no token and has sent nothing |
| Session.ApiSession.Login | src/cpau_api/session.py:54-128 | the outcome of `login`; success sets the authenticated flag and failure leaves it; the token is untouched; the requests are the login's |
| Session.ApiSession.GetCsrfToken | src/cpau_api/session.py:242-270 | the token of the Usages page, after one GET; nothing else changes |
| Session.ApiSession.GetElectricMeters | src/cpau_api/session.py:130-175 | the outcome, token and requests of `get_electric_meters` |
| Session.ApiSession.GetElectricMeter | src/cpau_api/session.py:177-204 | the outcome of `get_electric_meter`; token and requests as for the listing it makes |
| Session.ApiSession.MakeApiRequest | src/cpau_api/session.py:272-316 | the outcome, token and requests of `_make_api_request` |
| Session.ApiSession.Close | src/cpau_api/session.py:221-230 | the session is no longer authenticated; nothing else changes |
| Session.CollectActive | src/cpau_api/session.py:166-170 | the keep-active loop computes the active meters |
| Session.PickMeter | src/cpau_api/session.py:194-204 | the selection loop computes the selected meter |
| Session.Open | src/cpau_api/session.py:30-52 | constructing the session succeeds exactly when its login does; it is then authenticated, has no token, and has sent only the login requests |
| Fetcher.DailyQueriesShape | src/cpau_api/electric_meter.py:276-312 | a daily range of more than 30 days issues `(days + 29) // 30` queries, anchored at end, end - 30, end - 60, ..., all within the range, and the next anchor would fall before the start |
| Fetcher.DailyWindowsCover | src/cpau_api/electric_meter.py:282-312 | every day of the range lies in the 30-day window that ends on one of the anchors |
| Fetcher.PerDayQueriesShape | src/cpau_api/electric_meter.py:322-351 | hourly and 15-minute ranges issue exactly one query per day, in ascending order |
| Fetcher.PerDaySplit | src/cpau_api/electric_meter.py:328-351 | the per-day queries of a range are those of its first part followed by those of the rest |
| Fetcher.ResponsesMeaning | src/cpau_api/electric_meter.py:347-349 | the responses are Ok exactly when every query succeeds, and the i-th response is then the i-th query's rows |
| Fetcher.IssuedMeaning | src/cpau_api/electric_meter.py:328-351 | what is sent is a prefix of the plan: all of it when every query succeeds, otherwise up to and including the first failure |
| Fetcher.IssuedAll | src/cpau_api/electric_meter.py:328-351 | when every query is answered, every query is sent |
| Fetcher.ResponsesAfterFailure | src/cpau_api/electric_meter.py:347 | once a query has raised, the queries that would follow make no difference |
| Fetcher.IssuedStopsAtFailure | src/cpau_api/electric_meter.py:347 | a plan whose prefix ends in the first failure sends exactly that prefix |
| Fetcher.FailureEndsFetch | src/cpau_api/electric_meter.py:347 | the first failure is the fetch's outcome, and nothing after it is sent |
| Fetcher.ResponsesSnoc | src/cpau_api/electric_meter.py:347-349 | one more query after a prefix: its failure, or its rows appended |
| Fetcher.SendNext | src/cpau_api/electric_meter.py:347-349 | sending one more query after a successful prefix appends its rows or ends with its failure |
| Fetcher.FirstOccurrencesSnoc | src/cpau_api/electric_meter.py:305-309 | one more row is kept exactly when its date is non-empty and not yet seen, and the seen set grows by its date |
| Fetcher.FirstOccurrencesDates | src/cpau_api/electric_meter.py:305-309 | the merge keeps every date it sees: its dates are exactly the input's non-empty dates |
| Fetcher.FirstOccurrencesUnique | src/cpau_api/electric_meter.py:305-309 | every kept row has a non-empty date, and no two kept rows share one |
| Fetcher.FirstOccurrencesAreFirsts | src/cpau_api/electric_meter.py:305-309 | the merge is exactly the first row for each non-empty date, in arrival order |
| Fetcher.FirstFreshDate | src/cpau_api/electric_meter.py:307 | a row is the first with its date exactly when its date is non-empty and absent from the rows kept before it |
| Fetcher.MergeDropsSecondRowOfDay | src/cpau_api/electric_meter.py:306-309 | the merge keys on `UsageDate` alone: a second row of the same day, such as an export row after an import row, is dropped |
| Fetcher.FetchSucceeded | src/cpau_api/electric_meter.py:243-353 | a fetch whose whole plan is answered returns the merged responses and sends the whole plan |
| Fetcher.FetchFailed | src/cpau_api/electric_meter.py:243-353 | a fetch whose plan fails at some query raises that failure and sends nothing after it |
| Fetcher.FetchOne | src/cpau_api/electric_meter.py:272-273 | a single query: its rows or its failure, with exactly that query sent |
| Fetcher.FetchMonthly | src/cpau_api/electric_meter.py:222-241 | `_fetch_monthly_data` sends one mode-M query with an empty `strDate` and a blank season, and returns its rows or its failure |
| Fetcher.MergeResponse | src/cpau_api/electric_meter.py:305-309 | the merge loop over one response keeps the first row per date of everything seen so far, together with the set of seen dates |
| Fetcher.FetchDaily | src/cpau_api/electric_meter.py:243-314 | `_fetch_daily_data` returns the fetch result of the daily plan and sends its queries up to the first failure |
| Fetcher.SendDaily | src/cpau_api/electric_meter.py:276-312 | the stepping-back loop returns the first row per date of all the responses, or the first failure, and sends the queries up to it |
| Fetcher.FetchPerDay | src/cpau_api/electric_meter.py:316-353 | `_fetch_hourly_or_15min_data` returns the fetch result of the per-day plan and sends its queries up to the first failure |
| Fetcher.SendPerDay | src/cpau_api/electric_meter.py:328-351 | the day loop returns the concatenated responses, or the first failure, and sends the queries up to it |
| Fetcher.PerDayStep | src/cpau_api/electric_meter.py:328-351 | one turn of the day loop: the plan grows by the day's query, and the responses by its rows or end with its failure |
| Fetcher.PerDayFailed | src/cpau_api/electric_meter.py:347 | the day loop stops at the first day whose query fails: the whole range's outcome and sent queries are those up to that day |
| Fetcher.Fetch | src/cpau_api/electric_meter.py:105-114 | the dispatch on the mode performs the fetch of that mode's plan |
| Normalizer.PeriodBounds | src/cpau_api/electric_meter.py:376-380 | a billing period that parses yields two real dates |
| Normalizer.PeriodBoundsParts | src/cpau_api/electric_meter.py:376-380 | a period parses exactly when it splits at " to " into exactly two parts that both parse as MM/DD/YY after stripping |
| Normalizer.UsageDay | src/cpau_api/electric_meter.py:415 | a record's day is found exactly when `UsageDate` is present and parses; a missing key and a bad date are different errors |
| Normalizer.MonthlyFilter | src/cpau_api/electric_meter.py:370-393 | monthly never raises at the filter; a record is skipped exactly when its period parses and ends before the start or begins after the end, and is otherwise kept under its Year-Month key |
| Normalizer.DailyFilter | src/cpau_api/electric_meter.py:415-421 | daily raises exactly on a missing or unparsable date; otherwise a record is kept exactly when its day lies in the range |
| Normalizer.PerDayNotFiltered | src/cpau_api/electric_meter.py:411-438 | hourly and 15-minute records are never skipped by date; they raise on a bad date and are otherwise kept under their dated key |
| Normalizer.MonthlyKey | src/cpau_api/electric_meter.py:393 | for a four-digit year and a month 1..12 the key is YYYY-MM, its two fields denoting the year and the month |
| Normalizer.MonthlyKeyInjective | src/cpau_api/electric_meter.py:393 | two monthly records share a key exactly when they have the same year and month |
| Normalizer.Admit | src/cpau_api/electric_meter.py:374-438 | monthly: never raises, keyed by the monthly key and skipped exactly when MonthlyKept fails; otherwise it raises exactly when the date does not parse, daily keeps exactly the dates in range, and hourly and 15-minute records are never skipped and are keyed by DatedKey |
| Normalizer.Kept | src/cpau_api/electric_meter.py:372-452 | the kept list is no longer than the input, and the loop raises only a KeyError for a missing field or a ValueError for a date |
| Normalizer.KeyOrder | src/cpau_api/electric_meter.py:440-445 | the dict's keys in insertion order: distinct, and exactly the keys that occurred |
| Normalizer.Abs | src/cpau_api/electric_meter.py:452 | `abs`: non-negative, and the value or its negation |
| Normalizer.Summaries | src/cpau_api/electric_meter.py:456-469 | one emitted record per key, in the given key order |
| Normalizer.ImportIsLast | src/cpau_api/electric_meter.py:453-454 | import is assigned, not summed: it is the value of the group's last `IUsage` row |
| Normalizer.ImportAbsent | src/cpau_api/electric_meter.py:441-445 | a group without an `IUsage` row keeps import 0 |
| Normalizer.ExportIsLast | src/cpau_api/electric_meter.py:451-452 | export is `abs` of the value of the group's last `Eusage` row |
| Normalizer.ExportAbsent | src/cpau_api/electric_meter.py:441-445 | a group without an `Eusage` row keeps export 0 |
| Normalizer.ExportNonNegative | src/cpau_api/electric_meter.py:452 | export is never negative |
| Normalizer.PeriodIsFirst | src/cpau_api/electric_meter.py:394-410 | a monthly group keeps the billing period of its first record |
| Normalizer.GroupSnoc | src/cpau_api/electric_meter.py:440-454 | one more kept record adds its key (new keys at the end of the order) and changes only its own group's import, export and period |
| Normalizer.FreshGroup | src/cpau_api/electric_meter.py:405-410 | a key that has not occurred has the initial values: import 0, export 0, no period |
| Normalizer.GroupOfSnoc | src/cpau_api/electric_meter.py:440-454 | appending a record changes its own group as the loop body does, and no other group |
| Normalizer.GroupedStep | src/cpau_api/electric_meter.py:440-454 | the loop body keeps the dict equal to the groups of the kept records |
| Normalizer.KeptAfterError | src/cpau_api/electric_meter.py:415 | once a record has raised, the whole loop raises that error |
| Normalizer.FlavoursAgree | src/cpau_api/electric_meter.py:394-403 | the library's normaliser and the script's agree, except where the library's monthly timestamp `datetime(Year, Month, 1)` raises |
| Normalizer.StepMeaning | src/cpau_api/electric_meter.py:370-454 | a loop turn that does not raise admitted its record, and appends it exactly when the filter keeps it |
| Normalizer.KeptAdmitted | src/cpau_api/electric_meter.py:370-454 | every kept record was admitted under its key |
| Normalizer.KeptComplete | src/cpau_api/electric_meter.py:370-454 | when nothing raises, every input record the filter admits is kept under its key |
| Normalizer.KeptMeaning | src/cpau_api/electric_meter.py:370-454 | the kept records are exactly the admitted ones with their keys, and no record raised |
| Normalizer.DailyKeptInWindow | src/cpau_api/electric_meter.py:419-421 | in daily mode every kept record's day lies in the requested range |
| Normalizer.SummariesMeaning | src/cpau_api/electric_meter.py:456-469 | for strictly sorted keys that are exactly the kept keys, the output is strictly sorted, covers exactly those keys, and has `net = import - export` |
| Normalizer.SummariesSorted | src/cpau_api/electric_meter.py:458 | the emitted keys are strictly ascending |
| Normalizer.SummariesKeys | src/cpau_api/electric_meter.py:458 | some output record has key k exactly when k was a kept key |
| Normalizer.SummariesFields | src/cpau_api/electric_meter.py:459-467 | each emitted record carries its group's import and export, export non-negative, `net = import - export`, and its group's first billing period in monthly mode, none otherwise |
| Normalizer.NormalizeMeaning | src/cpau_api/electric_meter.py:355-471 | the output has one record per distinct kept key, in strictly ascending key order; import and export are those assigned by the group's last `IUsage` and `Eusage` rows, export is non-negative, net is import minus export, and monthly records carry the group's billing period |
| Normalizer.DailyAdmitted | src/cpau_api/electric_meter.py:419-421 | a record admitted in daily mode is keyed by a date that parses to a day in the range |
| Normalizer.DailyOutputInWindow | src/cpau_api/electric_meter.py:419-437 | every daily output key is a date that parses to a day inside the requested range |
| Normalizer.UnrecognisedTagsGiveZero | src/cpau_api/electric_meter.py:447-454 | a key whose rows carry no recognised `UsageType` is emitted as 0 / 0 / 0 |
| Normalizer.SummaryOfTwoImports | src/cpau_api/electric_meter.py:453-454 | two `IUsage` rows under one key give that key the second row's value |
| Normalizer.AssignedNotSummed | src/cpau_api/electric_meter.py:447-454 | two admitted `IUsage` rows for the same key: the second value replaces the first rather than adding to it |
| Normalizer.SortIsNotChronological | src/cpau_api/electric_meter.py:458 | MM/DD/YY keys sort by month first: 01/01/24 is output before 12/31/23, although it is the later day |
| Normalizer.Normalize | src/cpau_api/electric_meter.py:355-471 | `_parse_records` succeeds exactly when the loop does, fails with the loop's error, and emits no more records than it was given |
| Normalizer.GroupRecords | src/cpau_api/electric_meter.py:372-452 | the grouping loop gives the dict of the kept records' groups and the keys in insertion order, or the first error |
| Normalizer.ParseRecords | src/cpau_api/electric_meter.py:355-471 | `_parse_records` (and the script's loop) computes the normalised records or the first error |
| Normalizer.Classify | src/cpau_api/electric_meter.py:370-438 | the filters at the top of the loop body compute the record's key, its skip, or its error |
| Normalizer.Emit | src/cpau_api/electric_meter.py:456-469 | the emit loop produces one record per key of the dict, in the given order |
| ElectricMeter.AvailableIntervals | src/cpau_api/electric_meter.py:38-45 | four names, exactly the ones `get_usage` accepts |
| ElectricMeter.ValidateRequest | src/cpau_api/electric_meter.py:78-99 | in the code's order: an unknown interval; an end (defaulting to two days ago) before the start; an end later than two days ago; otherwise accepted with that end |
| ElectricMeter.UsageResult | src/cpau_api/electric_meter.py:52-122 | `get_usage` succeeds only on a valid request, and a refused request raises the validation error |
| ElectricMeter.GetUsage | src/cpau_api/electric_meter.py:52-122 | `get_usage` returns its outcome and sends its queries |
| ElectricMeter.GetMonthlyUsage | src/cpau_api/electric_meter.py:124-137 | `get_usage('monthly', ...)`; only the date checks can refuse it |
| ElectricMeter.GetDailyUsage | src/cpau_api/electric_meter.py:139-149 | `get_usage('daily', ...)`; only the date checks can refuse it |
| ElectricMeter.GetHourlyUsage | src/cpau_api/electric_meter.py:151-163 | `get_usage('hourly', ...)`; only the date checks can refuse it |
| ElectricMeter.Get15MinUsage | src/cpau_api/electric_meter.py:165-177 | `get_usage('15min', ...)`; only the date checks can refuse it |
| ElectricMeter.InvalidRequestSendsNothing | src/cpau_api/electric_meter.py:78-99 | a request that fails validation sends nothing and raises the validation error |
| ElectricMeter.UsageSortedUnique | src/cpau_api/electric_meter.py:119 | the returned records have strictly ascending keys, so no key twice, and `net = import - export` |
| ElectricMeter.DailyUsageInRange | src/cpau_api/electric_meter.py:75 | daily usage holds only data within the exact date range: every key is a date inside it |
| ElectricMeter.ChunksTile | src/cpau_api/electric_meter.py:212-218 | for a positive chunk size the windows tile the range: the first starts at the start, each starts the day after the previous one ends, every window but the last has exactly the chunk size and none is longer, and the last ends at the end |
| ElectricMeter.NonPositiveChunkRaises | src/cpau_api/electric_meter.py:214-215 | with `chunk_days <= 0` the first window ends before it starts, so `get_usage` raises at once |
| ElectricMeter.UsageCall | src/cpau_api/electric_meter.py:215 | the call `iter_usage` makes for a window is `get_usage` over that window |
| ElectricMeter.EmptyRangeYieldsNothing | src/cpau_api/electric_meter.py:212-213 | a non-monthly empty range yields nothing and raises nothing, even for an invalid interval name |
| ElectricMeter.IterOverAllOk | src/cpau_api/electric_meter.py:212-218 | when no window fails, nothing is raised and the records of every window are yielded in window order |
| ElectricMeter.IterStep | src/cpau_api/electric_meter.py:213-218 | one turn of the window loop: the window's failure ends the iteration; otherwise its records come before those of the rest |
| ElectricMeter.AcceptedWindowIsOrdered | src/cpau_api/electric_meter.py:92-94 | `get_usage` accepts a window only if its end is not before its start |
| ElectricMeter.IterMonthly | src/cpau_api/electric_meter.py:205-209 | monthly `iter_usage` is one `get_usage` call: its records, or its error |
| ElectricMeter.IterWalks | src/cpau_api/electric_meter.py:211-218 | the other intervals are walked window by window with the default end |
| ElectricMeter.IterUsage | src/cpau_api/electric_meter.py:179-218 | driven to the end, `iter_usage` yields the records of its specification and raises its error, if any |
| ElectricMeter.UsageRejectsBackwards | src/cpau_api/electric_meter.py:92-94 | `get_usage` refuses every window whose end is before its start |
| ElectricMeter.WalkWindows | src/cpau_api/electric_meter.py:212-218 | the `while current_start <= end_date` loop yields the windows' records up to the first failure, and that failure |
| Downloader.TwoDaysAgo | cpau-electric.py:68 | `now - timedelta(days=2)` as a calendar day: a real date two ordinals back |
| Downloader.RequestedDays | cpau-electric.py:67-85 | the days parse exactly when the start parses and, if an end is given, the end parses; the end defaults to two days ago; a failure is an invalid date |
| Downloader.ValidateAndConvertDates | cpau-electric.py:62-103 | refused for bad dates, for an end before the start, or for an end later than two days ago; otherwise both days written as MM/DD/YY |
| Downloader.ScriptValidationAgreesWithLibrary | cpau-electric.py:87-95 | the script accepts exactly the date ranges the library's `get_usage` accepts |
| Downloader.ConvertedDatesReparse | cpau-electric.py:98-99 | the MM/DD/YY strings passed on parse back to the validated days when both lie in 1969..2068 |
| Downloader.CredentialsOf | cpau-electric.py:105-122 | `load_credentials` returns the decoded secrets exactly when `in` finds both names: as keys of an object, as elements of a list, or as substrings of a string; a missing or non-JSON file is refused, and any other JSON value raises |
| Downloader.LoginFields | cpau-electric.py:573 | `creds['userid']` and `creds['password']` succeed exactly on an object with both keys, giving their values; on a list or a string the TypeError escapes |
| Downloader.CredentialsNeedBothFields | cpau-electric.py:112-114 | an object without one of the two fields is always refused |
| Downloader.ScriptLogin | cpau-electric.py:124-188 | the script's login is True exactly when the home page is reachable and the reply is accepted, and False when a reply arrived but was refused; the home page's status is not checked |
| Downloader.ScriptLoginAgreesWithLibrary | cpau-electric.py:167-182 | when the home page loads with 200, the script's login succeeds exactly when the library's does; on another status only the library refuses |
| Downloader.FirstActiveAt | cpau-electric.py:244-253 | the script picks the first active entry, all earlier entries being readable and inactive; it finds none exactly when every entry is readable and inactive, and raises exactly when an unreadable `Status` comes before any active entry |
| Downloader.NoActiveNoMeters | cpau-electric.py:244-253 | entries that are all inactive give the library no meter either |
| Downloader.ActiveMetersStartAtFirstActive | cpau-electric.py:244-253 | the library's first active meter is the first active entry |
| Downloader.ScriptPicksLibraryDefault | cpau-electric.py:244-253 | the meter the script picks is the library's default meter, the first from `get_electric_meters` |
| Downloader.ActiveMeterOf | cpau-electric.py:239-253 | a meter is picked only from a readable `MeterDetails` list that has an active entry |
| Downloader.FetchRange | cpau-electric.py:308-313 | monthly mode uses no days; the other modes parse both MM/DD/YY strings again and use their ordinals |
| Downloader.MeterDataOutcome | cpau-electric.py:190-436 | `get_meter_data` succeeds only after a token, a meter reply with 200, an active meter with a number and the fetch of that meter's plan |
| Downloader.FailedCallReturnsNothing | cpau-electric.py:300-306 | a usage call that fails ends `get_meter_data` with nothing, with no partial rows |
| Downloader.FormatOutcome | cpau-electric.py:438-550 | `format_output` succeeds exactly when the meter has number, type and address and the rows normalise, and then carries the normalised rows and the meter's number and rate category |
| Downloader.SummaryRows | cpau-electric.py:543-546 | the summary's rows have strictly ascending unique keys and `net = import - export` |
| Downloader.GoOutcome | cpau-electric.py:552-611 | `go` in its order: a credentials failure, then a date refusal, then the failed field read, each ends the run; otherwise the run is the login and report over the validated dates |
| Downloader.SessionOutcome | cpau-electric.py:571-586 | a login that escapes or is refused ends the run; an accepted login runs the report |
| Downloader.ReportOutcome | cpau-electric.py:576-586 | a meter-data failure is the run's failure; with meter data the run returns `format_output` of that meter and its rows |
| Downloader.GoSummary | cpau-electric.py:552-611 | a successful run returns `format_output` of the meter data fetched over the validated dates, with unique keys in ascending order and `net = import - export` |
| Downloader.ListSecretsFailAtFieldRead | cpau-electric.py:556-573 | a list naming both fields passes `load_credentials`; bad dates then still give their own refusal, and good dates reach `creds['userid']`, which raises |
| Downloader.ExitCode | cpau-electric.py:552-611 | the exit status is 0 exactly on success, and 1 otherwise |
| Downloader.BadDatesStopBeforeLogin | cpau-electric.py:566-569 | refused dates end the run after the secrets file is read and before the login |
| Downloader.PickActiveMeter | cpau-electric.py:244-249 | the meter loop with its `break` computes the first active entry |
| Downloader.GetMeterData | cpau-electric.py:190-436 | `get_meter_data` computes its outcome and sends its usage queries |
| Downloader.FetchMeterRows | cpau-electric.py:277-426 | the per-mode loops: no days means an error with nothing sent; otherwise the fetch of the meter's plan |
| Downloader.FormatOutput | cpau-electric.py:438-550 | `format_output` computes its outcome |
| Downloader.Go | cpau-electric.py:552-611 | `go` computes the run's outcome and its exit status |
| Downloader.RunSession | cpau-electric.py:571-586 | the login, then the report when the portal accepted it |
| Downloader.Report | cpau-electric.py:576-586 | `get_meter_data` and then `format_output` |
| Availability.ResultSetLength | dev-tools/electric/find_availability_windows.py:73-74 | `len` of the result set: a missing one has length 0 and a list its number of rows; values that have no `len` escape uncaught |
| Availability.CheckDataExists | dev-tools/electric/find_availability_windows.py:50-75 | a status other than 200 means no data; data exists exactly for a 200 whose decoded result set is non-empty |
| Availability.CheckDataExistsOnRows | dev-tools/electric/find_availability_windows.py:71-75 | for a reply with a list of rows the check is exactly "status 200 and at least one row" |
| Availability.LeastTrue | dev-tools/electric/find_availability_windows.py:164-195 | the first day of the range with data, with none before it; None exactly when no day has data |
| Availability.GreatestTrue | dev-tools/electric/find_availability_windows.py:198-229 | the last day of the range with data, with none after it; None exactly when no day has data |
| Availability.RisingAfterLeast | dev-tools/electric/find_availability_windows.py:164-195 | on a rising availability every day from the first day with data to the end of the range has data |
| Availability.SearchEarliest | dev-tools/electric/find_availability_windows.py:179-192 | the binary search returns only a day with data in the range, and on a rising availability exactly the first such day |
| Availability.SearchLatest | dev-tools/electric/find_availability_windows.py:213-226 | the binary search returns only a day with data in the range, and on a falling availability exactly the last such day |
| Availability.BinarySearchEarliest | dev-tools/electric/find_availability_windows.py:164-195 | the search runs from 3650 days ago to two days ago and finds the first day with data when availability rises over that range |
| Availability.BinarySearchLatest | dev-tools/electric/find_availability_windows.py:198-229 | the search runs from 30 days ago to tomorrow and finds the last day with data when availability falls over that range |
| Availability.PeriodStart | dev-tools/electric/find_availability_windows.py:107-111 | the period start read from a row is a real date |
| Availability.PeriodEnd | dev-tools/electric/find_availability_windows.py:150-154 | the period end read from a row is a real date |
| Availability.PeriodAgreesWithNormalizer | dev-tools/electric/find_availability_windows.py:107-111 | where the normaliser finds a well-formed period, the scans read the same start and end days |
| Availability.EarliestBy | dev-tools/electric/find_availability_windows.py:105-117 | the earliest day read from the rows is one of them and no row's day is before it; None exactly when no row has a day |
| Availability.LatestBy | dev-tools/electric/find_availability_windows.py:148-160 | the latest day read from the rows is one of them and no row's day is after it; None exactly when no row has a day |
| Availability.EarliestStart | dev-tools/electric/find_availability_windows.py:105-117 | the earliest period start is one row's start and no row starts before it; None exactly when no period parses |
| Availability.LatestEnd | dev-tools/electric/find_availability_windows.py:148-160 | the latest period end is one row's end and no row ends after it; None exactly when no period parses |
| Availability.FindEarliestMonthly | dev-tools/electric/find_availability_windows.py:78-118 | no rows (a status other than 200) gives None; otherwise the loop computes the earliest period start |
| Availability.FindLatestMonthly | dev-tools/electric/find_availability_windows.py:121-161 | no rows (a status other than 200) gives None; otherwise the loop computes the latest period end |

## Left out

- HTTP, cookies, headers and the regular expressions on HTML are not modelled. A page is its status and the token the regular expression would capture. A reply is its status and its decoded `d`. Each reply is an input.
- The payload fields that never vary (`UsageOrGeneration`, `Type`, `hourlyType`, `IsTier`, ...) are left out. A query is its mode, its `strDate` day, its `SeasonId` and the meter number.
- The clock (`date.today()`, `datetime.now()`) is the parameter `today`. The script's end default of `now - 2 days` carries a time of day, but only its calendar day is modelled; every date compared with it is at midnight.
- Logging, the CSV writer and the output file of the script, the `retrieved_at` timestamp, the `argparse` front end, and `src/cpau_api/cli.py` are not part of this model.
- The water-meter client and every other developer tool are not part of this model.
- `UsageValue` is a `real`. `float()` parsing is not modelled, nor is floating-point rounding in `net = import - export`.
- The `date` timestamp of each output record is not modelled. The hourly `strptime` with a `ValueError` fallback only produces that field. The library's monthly `datetime(Year, Month, 1)` is modelled, because it can raise.
- `Year` and `Month` are taken to be ints. `Pad2` models `:02d` on an int only.
- Each interval is one of the four names, so an unknown name passed to the script is not modelled; `argparse` refuses it beforehand.
- Dates are Python's `date` range, years 1..9999. Overflow past year 9999 and the `today.year > 1` precondition of `TwoDaysAgo` are left out. Unicode digits in `strptime` are not modelled; only ASCII digits.
- `src/cpau_api/meter.py` and `src/cpau_api/exceptions.py` are not part of this model. The meter number is taken to be the entry's `MeterNumber` field. The exception classes are taken not to derive from `requests.RequestException`.
- A failing `response.json()` raises `requests.exceptions.JSONDecodeError`. The model treats it as a `requests.RequestException`, which it derives from in `requests` 2.27 and later. A failing `json.loads(data['d'])` raises the standard library's `json.JSONDecodeError`, which is not one.
- `iter_usage` is a generator. The model runs it to the end and returns the records it yields and the exception that stops it, so laziness and early abandonment are not captured.
- ElectricMeter.IterUsage: the queries the windows send are not tracked, because the walk calls `get_usage` as a function value from a window to a result.
- Availability.SearchEarliest: the search works on whole day numbers. In the source, `mid` is a `datetime` whose time of day can drift by half a day when the interval length is odd; that drift and the `iterations` counter and `print` lines are not modelled.
- Availability.SearchLatest: as for `SearchEarliest`, the time-of-day drift of `mid` is not modelled.
- The data probe of the binary searches is a total function from a day to a boolean. A probe that raises (a network exception, an undecodable 200) is not modelled there; `CheckDataExists` models those failures on their own.
- Availability.FindEarliestMonthly: it takes the decoded rows, or None for a status other than 200. A reply whose `d` fails to decode raises in the source and is not modelled.
- Availability.FindLatestMonthly: as for `FindEarliestMonthly`, a reply that fails to decode is not modelled.
- The `main` of the availability finder and its login helper are I/O and printing, and are not modelled.
- Normalizer.SortIsNotChronological records a property of the source, not a defect in the model. Output keys are sorted as strings, so MM/DD/YY keys are in month-then-day-then-year order rather than date order.
- The script's `format_output` re-reads the date arguments for its filter. The model passes the validated days along, since they are the same values.
