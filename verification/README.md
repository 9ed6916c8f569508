# Admin dashboard: refresh and export model

A Dafny model of the data handling inside the `AdminDashboard` component of a
React admin panel (`src/App.tsx`). The component keeps four pieces of state:
the monthly sales series, the user-distribution segments, the headline
statistics and a `loading` flag. Three handlers act on that state:

- **Refresh** (`fetchDashboardData`) asks the backend for fresh data. On
  success it replaces the sales series, the segments and the statistics with
  what arrived, and recomputes `activeUsers` as `floor(totalUsers * 0.75)`. On
  any failure it replaces all three with a fixed fallback dataset instead. Either
  way `loading` is cleared at the end.
- **CSV export** (`downloadCSV`) builds a three-section comma-separated report
  (statistics, sales, user distribution) by appending to a text accumulator,
  with one loop per series, and names it `dashboard-report-<date>.csv`.
- **JSON export** (`downloadDashboardData`) builds a snapshot record of the
  state plus three fixed recent-activity entries, and names it
  `dashboard-report-<date>.json`.

The component is modelled as the class `Dashboard.AdminDashboard`. Its fields
are the four state variables, and the three handlers are its methods.
`FetchDashboardData` has a `modifies this` clause. The two exports have none,
so Dafny's frame rules guarantee that they leave the state unchanged.

The backend answer is an input `Option<Response>`. `None` stands for every
failure the `try` block catches: a network error, an unparsable body, or the
`TypeError` thrown when the body has no `stats`. The two clock readings are
timestamp inputs.

The CSV layout is specified as a list of lines, `CsvReport.ReportLines`. The
report text is those lines, each followed by `\n` (`CsvReport.Terminated`).
`DownloadCsv` is proved to produce exactly that text. Lemmas then show the
following:

- A reader splitting the text at line breaks gets the lines back in order.
- The text holds exactly `15 + |sales| + |users|` line breaks.
- The text opens with the fixed headings.

Because fields are not quoted, the first two facts hold only when no month or
category label itself contains a line break. `CsvText` states the first under
that condition and `CsvLineBreakCount` requires it; the opening headings need no
condition.

Numbers are written into the CSV by template literals. Integer fields are
naturals, rendered by `Render.NatToString`, which is proved to read back to the
same value. The fields the source treats as general numbers are `Decimal`
values: revenue, conversion rate and monthly sales. A `Decimal` is an integer
part plus fraction digits with no trailing zero, as JavaScript prints them, so
the fallback rate 5.2 renders as `5.2`. Different decimals are proved to render
differently.

## Model

| member | source | states |
|---|---|---|
| `Dashboard.AdminDashboard.constructor` | src/App.tsx:10-19 | The state starts with empty series, all-zero statistics and `loading` set; the active-user invariant already holds. |
| `Dashboard.AdminDashboard.FetchDashboardData` | src/App.tsx:27-68 | On success the three containers become the received series, unchanged and in order, and the committed statistics. On failure they become exactly the fallback sales, segments and statistics. The new state does not depend on the old one, `loading` is false afterwards, and `activeUsers` is derived from `totalUsers` on both paths. The fallback's 1612 agrees with 2150 users. |
| `Dashboard.AdminDashboard.DownloadCsv` | src/App.tsx:107-134 | The accumulator built by the appends and the two loops equals the line layout of the current state, each line terminated. The file name is the CSV name for the download time. The method changes no state. |
| `Dashboard.AdminDashboard.DownloadDashboardData` | src/App.tsx:70-100 | The exported record is the snapshot of the current state at `generatedAt`. The file name is the JSON name for a separately read time. The method changes no state. |
| `DashboardData.EstimateActiveUsers` | src/App.tsx:37 | The result is the floor of three quarters of the total: `4a <= 3n < 4a + 4`, and it never exceeds the total. |
| `DashboardData.EstimateActiveUsersUnique` | src/App.tsx:37 | Any natural bracketed like the floor equals the estimate, so the estimate is exactly `floor(n * 0.75)`. |
| `DashboardData.EstimateActiveUsersMonotone` | src/App.tsx:37 | More total users never gives fewer estimated active users. |
| `DashboardData.CommitStats` | src/App.tsx:35-38 | The four received figures are copied unchanged, and `activeUsers` is recomputed from `totalUsers`. |
| `DashboardData.CommitStatsIgnoresReceivedActiveUsers` | src/App.tsx:35-38 | Two answers that differ only in their own `activeUsers` commit the same statistics: the received value is always overridden. |
| `Render.NatToString` | src/App.tsx:112-116 | The interpolated text of a natural is a non-empty string of digits, with a leading zero only for 0. |
| `Render.NatToStringRoundTrip` | src/App.tsx:112-116 | Reading the digits back gives the original number. |
| `Render.NatToStringInjective` | src/App.tsx:112-116 | Different naturals render differently. |
| `Render.DecimalToString` | src/App.tsx:113-115 | A decimal renders as digits and a point only: no comma and no line break. An integral value renders as its plain digits; otherwise the text is one character longer than the integer digits and the fraction digits together. |
| `Render.DecimalPoint` | src/App.tsx:113-115 | The text starts with the integer part's digits, the first point (if any) comes right after them, and the fraction digits follow it in order. |
| `Render.DecimalToStringInjective` | src/App.tsx:113-115 | Two decimals with the same text are equal, so the text keeps every digit in place: 5.2 cannot come out as `2.5` or `52`. |
| `CsvReport.ReportLines` | src/App.tsx:108-128 | The report has `15 + |sales| + |users|` lines. |
| `CsvReport.ReportLinesLayout` | src/App.tsx:108-128 | The report lines are, in this order: the four title lines, then the five statistics rows in fixed order, then the sales headings, one `month,sales` row per point in sequence order, the user headings, and one `name,value` row per segment in sequence order. |
| `CsvReport.StatisticsLines` | src/App.tsx:112-116 | There are exactly five statistics rows. |
| `CsvReport.ReportHeadText` | src/App.tsx:108-119 | The text before the first sales row is the pieces the handler appends, in order. The revenue value carries `$`, the rate carries `%`, and a blank line follows the last statistic. |
| `CsvReport.UsersHeaderAppends` | src/App.tsx:124-125 | The user-distribution headings are written as one blank line, the section title and the column header. |
| `CsvReport.StatisticsAppends` | src/App.tsx:112-116 | The five statistics appends write the five statistics lines and then a blank line. |
| `CsvReport.ReportHeaderAppends` | src/App.tsx:108-111 | The first three appends write the title, a blank line, `Statistics` and `Metric,Value`. |
| `CsvReport.TerminatedAppend` | src/App.tsx:108-128 | Appending line lists appends their texts. The accumulator can therefore be built piece by piece. |
| `CsvReport.CsvText` | src/App.tsx:108-128 | When labels hold no line break, splitting the report text at `\n` recovers exactly its lines. Each row sits on its own line, in order. |
| `CsvReport.CsvActiveUsersRow` | src/App.tsx:37 | For statistics committed from a response, the report's `Active Users` row shows the estimate from `totalUsers`, never a server-sent figure. |
| `CsvReport.SplitTerminated` | src/App.tsx:108-128 | Splitting a terminated text returns its lines whenever no line holds a break. |
| `CsvReport.CsvLineBreakCount` | src/App.tsx:108-128 | When labels hold no line break, the report contains exactly `15 + |sales| + |users|` newline characters. |
| `CsvReport.TerminatedLineBreaks` | src/App.tsx:108-128 | A terminated text holds one `\n` per line when no line holds one. |
| `CsvReport.ReportLinesOnOneLine` | src/App.tsx:112-127 | Rendered numbers and fixed headings never contain a line break, so every report line is free of breaks when the labels are. |
| `CsvReport.CsvStartsWithHeader` | src/App.tsx:108-111 | Every report begins with `Dashboard Report\n\nStatistics\nMetric,Value\n`. |
| `CsvReport.CsvOfEmptySeries` | src/App.tsx:108-128 | With no sales and no segments, the report is only the headings and the statistics block. No row is added and nothing fails. |
| `CsvReport.FallbackStatisticsRows` | src/App.tsx:58-64 | For the fallback statistics the revenue row reads `Total Revenue,$45678` and the rate row reads `Conversion Rate,5.2%`. |
| `CsvReport.SalesRows` | src/App.tsx:120-122 | There is one row per sales point, and row `k` is point `k`'s `month,sales`. |
| `CsvReport.SegmentRows` | src/App.tsx:126-128 | There is one row per user segment, and row `k` is segment `k`'s `name,value`. |
| `JsonReport.Snapshot` | src/App.tsx:71-93 | The snapshot's statistics, sales and user data equal the given state. Its timestamp is `generatedAt`. Its activity list is exactly the three fixed entries `RecentActivity`: registration, sale and product, in that order. |
| `JsonReport.SnapshotDeterminesState` | src/App.tsx:71-93 | Two snapshots are equal exactly when their timestamps and states are equal, so the export loses nothing of the state. The activity list never depends on the state. |
| `FileNames.DatePart` | src/App.tsx:100 | `split('T')[0]` is the longest `T`-free prefix of the timestamp, or the whole timestamp when it has no `T`. |
| `FileNames.DatePartUnique` | src/App.tsx:100 | No other string is a `T`-free prefix that stops at a `T` or at the end. |
| `FileNames.ExportFileName` | src/App.tsx:100 | The name is `dashboard-report-`, then a `T`-free prefix of the timestamp that stops at its first `T` or at its end, then the format's extension. |
| `FileNames.IsoFileName` | src/App.tsx:134 | For an ISO-8601 timestamp, the file name is `dashboard-report-` + the ten-character date + the extension. |

## Left out

- Network I/O is not modelled. `fetch` and `response.json()` are replaced by the `Option<Response>` input.
- Answers that parse but have the wrong shape are not modelled. Such an answer can set a series to `undefined` without throwing, or keep extra fields in `stats` through the spread. `Response` is always well-shaped.
- The `console.error` call on failure is not modelled.
- The 30-second `setInterval` polling, its `clearInterval` on unmount, and overlapping refreshes are not modelled. A scheduled refresh can overlap a manual one. The last one to finish wins, and the first one to finish clears `loading` while the other is still in flight. The model runs one refresh at a time.
- React does not apply `setState` updates at once: it batches them and renders later. The model applies the updates in program order, and intermediate renders are not modelled.
- `JSON.stringify` with two-space indentation is not modelled. Only the record handed to it is.
- `Blob`, `URL.createObjectURL`/`revokeObjectURL` and the temporary download link are browser APIs and are not modelled.
- Floating-point numbers are not modelled. A JavaScript number is modelled as a natural or as a finite `Decimal`, and a `Decimal` only forbids a trailing zero after the point. A `Decimal` with more significant digits than a double holds is still accepted and printed in full, where JavaScript would round it.
- `NatToString`: numbers from 10^21 upward are not modelled. JavaScript prints them in exponent notation, and the model always prints plain digits.
- `DecimalToString`: non-zero values below 10^-6 (and values from 10^21 upward) are not modelled. JavaScript prints them in exponent notation, such as `1e-7`, while the model always prints plain digits.
- Negative values are not modelled: revenue, conversion rate and monthly sales are non-negative `Decimal`s, and user, order and segment counts are naturals. Non-integral counts are not modelled either.
- `EstimateActiveUsers`: uses exact arithmetic. The source multiplies in binary floating point, which agrees at least while `3 * totalUsers` stays below 2^53.
- Rendering is not modelled: JSX, the recharts charts, the icons, `toLocaleString` on the cards, the pie percentage labels, the `COLORS` palette, and `src/components/ui/button.tsx`, which only joins CSS class names.
