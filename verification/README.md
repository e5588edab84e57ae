# Material tracker: statistics, record intake and dashboard decisions

The material tracker records how much rippon and how many labels each
production line uses per shift. It also tells the floor when to reorder.
This project models in Dafny the arithmetic at the heart of it:

- **The statistics endpoint** (`api_stats`), in `stats.dfy`. From the list
  of consumption records and the two inventory capacities (50 rippon and
  30 labels by default) it computes:
  - the totals and the record count;
  - a per-date grouping and a per-line grouping, the per-line one seeded
    with the six fixed lines "Line 1" … "Line 4", "Line 6", "Line 7";
  - the remaining stock, clamped at zero;
  - the daily averages over the number of distinct dates.

  `Stats.ApiStats` fills both dictionaries in place, one record at a time,
  as the endpoint does. It is proved equal to the functional
  specification `Stats.StatsOf`, and the properties are proved about that
  specification.
- **The record intake** (`api_add_record`), in `add_record.dfy`. This is
  how the handler reads a request body:
  - the production line falls back from `productionLine` to `line`;
  - the line and the shift leader are stripped of whitespace;
  - an amount falls back from `ripponAmount` to `rippon` (and from
    `labelAmount` to `labels`), and a missing amount defaults to 0;
  - the amounts are converted, then a request with a blank line or a blank
    shift leader is refused.
- **The dashboard decisions**, in `dashboard.dfy`:
  - the stock percentages and the ordered reorder banner;
  - the 8-point linear depletion projection and its "run out" alerts
    (`Dashboard.UpdateReorderChart` is the loop that builds them);
  - the per-line chart aligned to its six fixed categories;
  - the per-date chart over the sorted dates;
  - the form's required-field check.
- **Where browser and server meet**, in `client_server.dfy`. These lemmas
  use the dashboard functions on a snapshot the server produced, and run
  the server's intake on the payload the browser sends.

Shared pieces:
- `quantities.dfy`: the (rippon, labels) pair and sums over maps and
  sequences of pairs.
- `string_order.dfy`: the string order JavaScript's default sort uses,
  and the sorted enumeration of a set of keys.
- `wrappers.dfy`: `Option`.

Three facts about the code that the model keeps:
- The server clamps the remaining stock at zero, as `max(0, capacity -
  total)` (app.py:95-96).
- With no records the server's averages are 0, because the day divisor is
  `max(1, …)` (app.py:99-101).
- The only stand-in for a zero average, 0.0001, is in the browser
  (static/js/app.js:274-275).

## Model

| member | source | states |
|---|---|---|
| `Stats.StatsOf` | app.py:73-121 | The snapshot the endpoint returns: totals, count, both groupings, inventory and averages. `Stats.ApiStats` is proved to compute it, and its contents are stated by `Stats.ByDateContents`, `Stats.ByLineContents`, `Stats.InventoryBounds`, `Stats.AveragesMeaning` and `Stats.OrderIndependent`. |
| `Stats.ApiStats` | app.py:73-101 | The loop-based computation, with both dictionaries updated in place record by record, returns exactly the snapshot `StatsOf` specifies. Totals are the sums over all records and the count is the number of records. |
| `Stats.Remaining` | app.py:95-96 | Remaining stock is never negative, is at least capacity minus total, equals one of the two, and does not exceed a non-negative capacity when the total is non-negative. |
| `Stats.Days` | app.py:99 | The divisor is at least 1, is exactly 1 when there are no dates, and equals the distinct-date count whenever there is at least one date. |
| `Stats.DailyAverage` | app.py:100-101 | The average times the day divisor is the total, so the division is always defined and exact. |
| `Stats.InventoryBounds` | app.py:93-96 | In every snapshot both remaining amounts are ≥ 0, and each is ≤ its capacity when its total and capacity are non-negative. |
| `Stats.AveragesMeaning` | app.py:99-101 | With no records both averages are 0. Otherwise the distinct-date count is ≥ 1 and average × date count = total for each material. |
| `Stats.GroupLookup` | app.py:78-82 | Looking a key up in a grouping gives its seed entry plus the sum of the records carrying that key, with zero for a key in neither. |
| `Stats.GroupKeys` | app.py:86-89 | A grouping's keys are the seed keys plus every value the column takes. |
| `Stats.GroupContents` | app.py:78-91 | A grouping has exactly the seed keys and the occurring values, and each entry is its seed entry plus the sum of its records. |
| `Stats.ByDateContents` | app.py:78-82 | `byDate` has exactly the dates that occur in the records, and each date maps to the sums of that day's records. |
| `Stats.ByLineContents` | app.py:85-91 | `byLine` has the six fixed lines plus every line that occurs. Each line maps to the sums of its records. A fixed line without records maps to (0, 0). |
| `Stats.GroupSum` | app.py:86-91 | Folding records into a seed adds exactly their totals to the sum of the seed's entries. |
| `Stats.ByDateSumsToTotal` | app.py:74-82 | The per-date entries add up to the totals: no record is dropped or counted twice. |
| `Stats.ByLineSumsToTotal` | app.py:85-91 | The per-line entries, including those of lines outside the fixed six, add up to the totals. |
| `Stats.SumInPermutation` | app.py:74-75 | Any sum over the records, whole or restricted to one key, is the same for every ordering of the records. |
| `Stats.GroupPermutation` | app.py:78-91 | Both groupings are the same for every ordering of the records. |
| `Stats.OrderIndependent` | app.py:73-101 | Two record lists that are permutations of each other give identical snapshots. |
| `Quantities.Accumulate` | app.py:80-82 | One setdefault-then-add step: the key's entry, or zero, plus the record's amounts. Its effect on the whole map is stated by `Quantities.AccumulateSum` and `Stats.GroupLookup`. |
| `Quantities.AccumulateSum` | app.py:80-82 | The setdefault-then-add step grows the sum of a dictionary's entries by exactly the added amounts, whether or not the key was already there. |
| `Quantities.SumValuesAsSeq` | static/js/app.js:204-206 | Listing every key of a map once, in any order, and summing the entries in that order gives the sum of the map's values. |
| `Quantities.ValuesAt` | static/js/app.js:232-233 | The series has one entry per requested key, in order: the key's entry, or zero when the map lacks it. |
| `StringOrder.LessTotal` | static/js/app.js:204 | The sort order is total on distinct strings; with irreflexivity and transitivity it is a strict total order. |
| `StringOrder.SortedKeys` | static/js/app.js:204 | The sorted key list is strictly ascending, contains exactly the set's keys, and has as many entries as the set. |
| `AddRecord.TrimLeft` | app.py:39-40 | Removing leading whitespace leaves a suffix. What was cut is all whitespace, and the result is empty or starts with a non-space. |
| `AddRecord.TrimRight` | app.py:39-40 | Removing trailing whitespace leaves a prefix. What was cut is all whitespace, and the result is empty or ends with a non-space. |
| `AddRecord.Strip` | app.py:39-40 | `strip()` with no argument: leading then trailing whitespace removed. Its meaning is stated by `AddRecord.StripSlice`, `AddRecord.StripCutsSpaces`, `AddRecord.StripEnds`, `AddRecord.StripEmptyIffBlank` and `AddRecord.StripIdempotent`. |
| `AddRecord.StripSlice` | app.py:39-40 | `strip()` returns a contiguous middle part of its input. |
| `AddRecord.StripCutsSpaces` | app.py:39-40 | Everything `strip()` removes, before and after the kept part, is whitespace. |
| `AddRecord.StripEnds` | app.py:39-40 | A non-empty stripped string starts and ends with a non-space. |
| `AddRecord.StripEmptyIffBlank` | app.py:45 | A stripped field is empty exactly when the original consisted only of whitespace. |
| `AddRecord.StripIdempotent` | app.py:39-40 | Stripping twice gives the same string as stripping once. |
| `AddRecord.FirstFilled` | app.py:39 | The `a or b or ""` read gives the primary field when it is non-empty, otherwise the fallback (or ""). It is non-empty exactly when one of the two is. |
| `AddRecord.Amount` | app.py:41-42 | With neither field filled the amount is 0 and nothing is parsed. Otherwise the amount is the parse of the primary field, or of the fallback when the primary is empty. |
| `AddRecord.ExtractRecord` | app.py:38-46 | The request fails on an unparsable amount exactly when one of the two conversions fails. It is refused as missing fields exactly when both convert and the line or the shift leader is blank. A stored record carries the stripped, non-empty line and leader, the converted amounts and the notes. |
| `AddRecord.AmountsDefaultToZero` | app.py:41-42 | A request with a non-blank line and leader and no amount fields is stored with zero amounts. |
| `AddRecord.LineFallback` | app.py:39 | A filled `productionLine` always wins. The legacy `line` field is used only when `productionLine` is absent or empty. |
| `Dashboard.Max0` | static/js/app.js:288 | The clamp is non-negative, at least its argument, and equal to 0 or to the argument. |
| `Dashboard.Percent` | static/js/app.js:126-127 | For a non-zero capacity the percentage is finite, ≥ 0, and equals remaining / capacity × 100 unless that is negative. With a zero capacity it is non-finite, unless the remaining stock is negative, in which case it is 0. |
| `Dashboard.PercentBelow` | static/js/app.js:140-143 | For a positive capacity the percentage is under a threshold t exactly when 100 × remaining < t × capacity. |
| `Dashboard.PercentInRange` | static/js/app.js:126-127 | Stock between 0 and a positive capacity gives a percentage between 0 and 100, and full stock gives exactly 100. |
| `Dashboard.ReorderBanner` | static/js/app.js:140-148 | Labels under 10 % show the labels message whatever rippon is. Otherwise rippon under 20 % shows the rippon message. Otherwise the banner is hidden. |
| `Dashboard.InventoryBanner` | static/js/app.js:126-148 | The banner for an inventory: the ordered banner choice applied to both stock percentages. Its thresholds in whole numbers are stated by `Dashboard.BannerThresholds`. |
| `Dashboard.BannerThresholds` | static/js/app.js:126-148 | In whole numbers, labels are low exactly when 10 × remaining < capacity. Rippon is shown exactly when labels are not low and 5 × remaining < capacity. A zero capacity with non-negative stock never triggers its message. |
| `Dashboard.Rate` | static/js/app.js:274-275 | A zero average is replaced by exactly 0.0001 (`Epsilon`), and a non-zero average is kept. The result is never zero, and it is positive for a non-negative average. |
| `Dashboard.Projection` | static/js/app.js:283-290 | The projection has exactly 8 points, and point i is the stock projected i days ahead. |
| `Dashboard.ProjectedAtFalls` | static/js/app.js:288-289 | With a non-negative average, a later day never projects more stock. |
| `Dashboard.ProjectionShape` | static/js/app.js:283-290 | Every projected point is ≥ 0. Point 0 is max(0, remaining). With a non-negative average the series never rises. |
| `Dashboard.ReorderAlerts` | static/js/app.js:299-309 | The labels message appears exactly when the labels days are < 7. The rippon message appears exactly when the rippon days are < 7, independently. The success message appears, alone, exactly when neither does. Labels come first, and exactly 7 days does not alert. |
| `Dashboard.ReorderInfo` | static/js/app.js:299-309 | Appending the messages one by one yields exactly `ReorderAlerts`. |
| `Dashboard.UpdateReorderChart` | static/js/app.js:271-309 | The point-by-point loop produces exactly the two projections of the snapshot's stock at the substituted averages, and the alerts for the floored day counts. |
| `Dashboard.DaysLeft` | static/js/app.js:297-298 | The floored number of days the stock lasts at the substituted rate. Its meaning is stated by `Dashboard.DaysLeftBelow` and `Dashboard.IdleAlert`. |
| `Dashboard.DaysLeftBelow` | static/js/app.js:297-298 | With a positive rate, the floored day count is below n exactly when the stock is less than n days of use. |
| `Dashboard.AlertAgreesWithProjection` | static/js/app.js:283-306 | With a positive rate, a material alerts exactly when its stock is used up before day 7. The projection has then reached 0 by day 7; without an alert every point before day 7 is positive. |
| `Dashboard.IdleAlert` | static/js/app.js:274-305 | With a zero average, the 0.0001 stand-in makes a material alert exactly when its stock is zero or less. |
| `Dashboard.LineChart` | static/js/app.js:230-233 | The per-line chart has the six fixed categories. Each point is the line's entry, or zero when the snapshot has none. |
| `Dashboard.LineChartIgnoresOtherLines` | static/js/app.js:231-233 | Keys outside the six categories have no effect on the per-line chart. |
| `Dashboard.DailyChart` | static/js/app.js:203-209 | The daily chart's categories are the snapshot's dates, each once, in ascending order. There is one point per category, and point k is the entry of date k. |
| `Dashboard.FormRejected` | static/js/app.js:28 | The browser's required-field check: the form is refused when the line, the shift leader or either amount is the empty string, without stripping. What it lets through is characterised by `ClientServer.SentFormOutcome` and `ClientServer.BlankLeaderPassesBrowser`. |
| `ClientServer.SnapshotPercentsInRange` | static/js/app.js:126-127 | On a server snapshot with positive capacities and non-negative totals, both percentages are finite and between 0 and 100, because of the server's clamp. |
| `ClientServer.EmptyStoreIsCalm` | static/js/app.js:271-309 | With no records and positive capacities the banner is hidden, and the projection reports enough stock for 7 days. |
| `ClientServer.DefaultStoreIsCalm` | config.py:9-10 | With the default capacities (50 rippon, 30 labels) and no records, the server reports 50 and 30 remaining, the banner is hidden, and the projection reports enough stock for 7 days. |
| `ClientServer.ExhaustedStockAlerts` | static/js/app.js:297-305 | A material the server reports as used up (remaining 0) always gets its "run out" alert with 0 days, whatever its average. |
| `ClientServer.ChartLinesAreFixedLines` | static/js/app.js:217 | The browser's chart categories are the server's six seed lines, with no repeats. |
| `ClientServer.LineChartShowsLineSums` | static/js/app.js:230-233 | Every bar of the per-line chart is backed by a server entry and equals the sum of that line's records. |
| `ClientServer.LineChartAddsUpToTotals` | static/js/app.js:230-233 | When every record is on a fixed line, the bars add up to the totals. |
| `ClientServer.DailyChartShowsDailySums` | static/js/app.js:203-209 | The daily chart lists each occurring date once, ascending, with the sums of that day's records, and its points add up to the totals. |
| `ClientServer.SentFormOutcome` | app.py:38-46 | For a form the browser sends, the server fails exactly when an amount does not convert. It refuses exactly when the line or the leader is only whitespace. Otherwise it stores the stripped fields, the converted amounts and the notes. |
| `ClientServer.BlankLeaderPassesBrowser` | static/js/app.js:28 | Every form whose shift leader is non-empty but whitespace only, with the other fields filled and both amounts convertible, passes the browser's check, which does not strip. The server then refuses it as missing a field. |
| `ClientServer.OneSpaceLeader` | static/js/app.js:28 | An instance of the above: a shift leader of a single space. |

## Left out

- HTTP, Flask and SQLAlchemy plumbing is not modelled: routing, `jsonify`, status codes, queries, ordering, insertion, deletion and the CSV export. The statistics take the record list as an input sequence, and the intake produces the values it would store.
- `Stats.Record`: keeps only the date, line and two amounts that the statistics read. The id, timestamp, weekday, shift leader and notes are not read there.
- The record's date and weekday come from the clock (`datetime.utcnow()`), and the projection's date labels come from the browser's `Date`. Neither is modelled.
- The capacities are parameters. The environment read in config.py is not modelled; its defaults are `Stats.DefaultRipponCapacity` (50) and `Stats.DefaultLabelsCapacity` (30).
- `AddRecord.Amount`: Python's `int()` is an abstract parameter `parse` that may fail. A failure is the uncaught conversion error, which the handler hits before its missing-field check. The `rippon is None` and `labels is None` tests can never be true after a successful conversion, so they add no case.
- `AddRecord.ExtractRecord`: the request body is a map from field names to strings. That covers form data and the JSON the page sends. JSON numbers, booleans and nulls in a hand-made request are not modelled.
- `AddRecord.IsSpace` lists the characters Python's `str.isspace` accepts by code point. No other Unicode handling is modelled.
- `StringOrder.Less` compares characters by code point. JavaScript's default sort compares UTF-16 code units. The two agree for characters of the Basic Multilingual Plane and may disagree for strings that contain characters outside it.
- `Dashboard.Percent`: a zero capacity gives Infinity or NaN in the browser. The model merges both into `NonFinite`, since every threshold test is false for both.
- Floating point is not modelled. The browser's percentages, averages, projections and floors, and Python's true division, are exact reals. `Math.round` in the displayed text and IEEE rounding are not modelled.
- Everything the browser does with the DOM, `fetch`, event wiring and Chart.js is not modelled. The alerts are an enumeration of messages rather than HTML strings.
- `Dashboard.LineChart` and `Dashboard.DailyChart`: each returns both datasets as one sequence of (rippon, labels) pairs instead of two arrays.
- `Stats.DailyAverage`: the endpoint's `if days else 0` guard is kept, but it can never choose 0, since the day divisor is at least 1.
