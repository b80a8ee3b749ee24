# Emotion tracker: mood statistics, entry validation and agent tool texts

This project models the logic of a personal mood tracker.

- **Store.** Mood entries (emoji, label, intensity 1-10, optional notes, creation time) are kept in a hosted table.
- **Web routes.** `POST /api/mood` validates and inserts an entry. `GET /api/mood` lists entries, newest first, optionally only those of the last `days` days. `GET /api/mood/stats` aggregates the entries of a window (30 days by default) into:
  - a total;
  - a rounded mean intensity;
  - a per-emoji frequency histogram sorted by count;
  - the most frequent mood;
  - a per-day trend.
- **Agent tools.** A tool server exposes the same data to a conversational agent as text: `log_mood`, `get_mood_history`, `get_mood_stats` and `delete_mood`.
- **Palette.** A ten-row emotion palette colours the UI, with a grey fallback.

Modules, one per file:

| file | module | what it holds |
|---|---|---|
| `wrappers.dfy` | `Wrappers` | `Option`, `Result` |
| `mood_types.dfy` | `MoodTypes` | the record shapes `MoodEntry`, `Emotion`, `MoodCount`, `DayAverage`, `MoodStats` |
| `emotions.dfy` | `Emotions` | the palette, lookup by emoji with the grey fallback |
| `store.dfy` | `Store` | what an answer of the store to a windowed, ordered query holds |
| `http.dfy` | `Http` | route responses |
| `grouping.dfy` | `Grouping` | first-appearance key order, which is how a JavaScript `Map` filled by a scan orders its keys |
| `stats_route.dfy` | `StatsRoute` | the aggregation as a specification function `StatsOf`; the route's two map-filling loops as methods (`TallyMoods`, `DailyTrend`, `ComputeStats`) proved equal to it; the properties of `StatsOf` |
| `mood_route.dfy` | `MoodRoute` | POST validation with JavaScript truthiness and number coercion; GET's query, narrowed in place when `days` is given |
| `number_text.dfy` | `NumberText` | how JavaScript prints integers, signed scores and one-decimal numbers, each with a parser and a round-trip lemma |
| `mcp_tools.dfy` | `McpTools` | the score table and the text of every tool reply |
| `integration.dfy` | `Integration` | what the tools make of the routes' actual replies |

Modelling choices:

- **Averages** are kept exactly, as integer tenths. `Math.round(x * 10) / 10` over a non-negative mean becomes `RoundTenths(sum, count) = floor((20 sum + count) / (2 count))`. JavaScript's `Math.round` on a value in tenths is `floor((t + 5) / 10)`.
- **Timestamps** are the ISO-8601 texts the store returns. Chronological order is their lexicographic order (`Store.LexLe`). The day key is the text before the first `T`.
- **Clock.** The window start `now - days` is a function parameter `sinceOf`, applied to the raw `days` text.
- **Store.** It is a function parameter `run` from a query to rows or an error. The predicate `Store.Answers` states what a correct answer is: the rows of the window, each once, in the requested order.
- **Tool replies.** Each tool handler is a function from the route's reply (`Reply`: ok with parsed JSON, or not ok with an error body) to its text. `Throws` marks the one case where a handler raises.

Behaviour of the code worth knowing:

- **The stats tool can raise.** `get_mood_stats` reads `mostFrequentMood.emoji` without a guard (mcp-server/src/index.ts:116,126). It therefore raises when the total is not 0 and the top mood is null. `McpTools.StatsThrowsOnlyWithoutTopMood` states exactly when this happens. `Integration.StatsToolOnRouteResponses` shows that neither response of the stats route leads there.
- **Score-label fallbacks.** A history line with a score outside -2..2 shows the stored label (mcp-server/src/index.ts:79). A stats summary whose rounded average has no table entry shows `"Mixed"` (mcp-server/src/index.ts:126).
- **Score range.** The argument schema of `log_mood` admits only scores in [-2, 2] (mcp-server/src/index.ts:27). The model takes this as the precondition `McpTools.ScoreInSchema`.
- **The tools and the routes disagree on the data.** The tools send and read scores, while the routes in this repository send and read intensities:
  - `log_mood` posts the keys `emoji`, `label`, `score` and `notes` (mcp-server/src/index.ts:34). The route destructures `intensity` (app/api/mood/route.ts:32) and finds it absent, so it always answers 400 (`Integration.LogMoodIsRejected`).
  - The stats route's object has no `avgScore` key (app/api/mood/stats/route.ts:67-73), so the stats tool prints the average as `undefined (Mixed)` (`Integration.StatsToolOnStats`). `Integration.StatsJsonOf` encodes this reading of the object's keys.
  - The model reads the rows of GET /api/mood with the shape of lib/types.ts:1-8, which has no `score`. Each history line then shows the stored label and `(undefined)`. `select("*")` (app/api/mood/route.ts:10) returns every column, though, and the agent route writes a `score` into the same table (app/api/[transport]/route.ts:51-52). A row the web form inserts (app/api/mood/route.ts:50) then has a null score, which the line prints as `(null)` after the stored label. A row with a score in [-2, 2] shows that score's label and its signed text instead. `Integration.RouteRowLine` states all three cases.
- **Trend order.** Trend days appear in first-appearance order (app/api/mood/stats/route.ts:51-65). That order is ascending because the rows arrive in ascending `created_at` order (app/api/mood/stats/route.ts:16) and every day key has the same width (`StatsRoute.TrendAscending`).

## Model

| member | source | states |
|---|---|---|
| Emotions.Find | components/mood-card.tsx:15 | `find` by emoji: a hit is the first row with that emoji; a miss happens exactly when no row has it |
| Emotions.PaletteShape | lib/emotions.ts:3-14 | the palette has 10 rows, pairwise distinct emojis, pairwise distinct labels, and non-empty colours |
| Emotions.ColorOfPaletteEmoji | components/mood-card.tsx:15-30 | a palette emoji is found as its own row and drawn in that row's colour |
| Emotions.ColorOfUnknownEmoji | components/mood-chart.tsx:26 | an emoji with no palette row is drawn in `#9E9E9E` |
| Emotions.NeutralIsFallbackGrey | lib/emotions.ts:6 | the Neutral row's colour is the fallback grey, so the neutral emoji and an unknown one look alike |
| Grouping.FirstIndex | app/api/mood/stats/route.ts:36-43 | the position of a key's first occurrence: it holds the key and no earlier position does |
| Grouping.Distinct | app/api/mood/stats/route.ts:36-44 | the keys a scan inserts into a map: exactly the keys of the input, each once |
| Grouping.DistinctInFirstSeenOrder | app/api/mood/stats/route.ts:45 | map keys come out in the order of their first occurrence in the scanned list |
| Grouping.CountSumCovers | app/api/mood/stats/route.ts:36-44 | counting each key once over a duplicate-free key list that covers the input counts every input element |
| Store.Window | app/api/mood/stats/route.ts:12-15 | `.gte("created_at", since)`: exactly the table rows at or after the window start; no start keeps the whole table |
| Store.AnswerContents | app/api/mood/route.ts:8-19 | a store answer holds each windowed row once and no other row |
| StatsRoute.RoundTenths | app/api/mood/stats/route.ts:29-31 | `Math.round(sum / count * 10)` as integer tenths: the result is within half a tenth of the exact mean |
| StatsRoute.RoundTenthsWithin | app/api/mood/stats/route.ts:27-32 | a mean of values in [lo, hi] rounds to tenths within [10 lo, 10 hi] |
| StatsRoute.DayKeyIsPrefix | app/api/mood/stats/route.ts:53 | `split("T")[0]`: the day key is a prefix of the timestamp, holds no `T`, and is followed by `T` when shorter |
| StatsRoute.FirstLabel | app/api/mood/stats/route.ts:38-42 | an emoji's histogram label is the label of the first entry with that emoji |
| StatsRoute.InsertByCount | app/api/mood/stats/route.ts:45-47 | one insertion step of the count sort adds exactly the inserted row |
| StatsRoute.SortedHeadIsMax | app/api/mood/stats/route.ts:48 | the head of a count-sorted list has the largest count |
| StatsRoute.InsertKeepsSorted | app/api/mood/stats/route.ts:45-47 | inserting by count keeps a list sorted by count, descending |
| StatsRoute.SortByCount | app/api/mood/stats/route.ts:45-47 | the sort's result is sorted by count, descending, and is a permutation of its input |
| StatsRoute.EmojiRowsAreTallies | app/api/mood/stats/route.ts:36-44 | after the frequency loop, each map value is the emoji's first label and its number of entries |
| StatsRoute.TalliesOfMap | app/api/mood/stats/route.ts:45 | `Array.from(frequencyMap.values())` lists the tallies in first-appearance order |
| StatsRoute.TallyMoods | app/api/mood/stats/route.ts:35-45 | the in-place frequency loop (increment or insert) yields the specification's tallies in map order |
| StatsRoute.DayBucketsAreDays | app/api/mood/stats/route.ts:52-61 | after the daily loop, each map value is that day's intensity sum and entry count |
| StatsRoute.TrendOfBuckets | app/api/mood/stats/route.ts:62-65 | the trend is the map's days in insertion order, each with its rounded mean; every such day has a non-zero count |
| StatsRoute.DailyTrend | app/api/mood/stats/route.ts:51-65 | the in-place daily loop (`sum +=`, `count++`, or insert) yields the specification's trend |
| StatsRoute.ComputeStats | app/api/mood/stats/route.ts:22-73 | the route's whole computation equals the specification `StatsOf` |
| StatsRoute.IntensitySumWithin | app/api/mood/stats/route.ts:30 | a sum of intensities in [lo, hi] lies between count * lo and count * hi |
| StatsRoute.EmptyWindowStats | app/api/mood/stats/route.ts:25-73 | an empty window gives 0, 0, null, [] and [], with no error; a non-empty window has a top mood and a non-empty trend |
| StatsRoute.AverageInRange | app/api/mood/stats/route.ts:27-32 | the average is the sum over the count rounded to tenths, and it lies in [1, 10] when every intensity does |
| StatsRoute.FrequencyRowsAreTallies | app/api/mood/stats/route.ts:35-47 | the histogram has one row per distinct emoji, each row being that emoji's first label and count |
| StatsRoute.InsertKeepsSum | app/api/mood/stats/route.ts:45-47 | inserting a row adds its count to the total of counts |
| StatsRoute.SortKeepsSum | app/api/mood/stats/route.ts:45-47 | sorting keeps the total of counts |
| StatsRoute.RowsForSum | app/api/mood/stats/route.ts:36-44 | the counts of the rows for a set of emojis add up to those emojis' occurrences |
| StatsRoute.FrequencyCountsSum | app/api/mood/stats/route.ts:25-47 | the histogram's counts add up to `totalEntries` |
| StatsRoute.PrependKeepsTieOrder | app/api/mood/stats/route.ts:45-47 | a row that ranks before its ties keeps tie order when placed in front |
| StatsRoute.TiesAfterHead | app/api/mood/stats/route.ts:45-47 | in a tie-ordered list, the head ranks before every later row of equal count |
| StatsRoute.InsertKeepsTieOrder | app/api/mood/stats/route.ts:45-47 | inserting a row that ranks before all others keeps equal counts in rank order (stability) |
| StatsRoute.SortKeepsTieOrder | app/api/mood/stats/route.ts:45-47 | the sort is stable: rows of equal count keep their input order |
| StatsRoute.FrequencySortedStably | app/api/mood/stats/route.ts:35-47 | the histogram is sorted by count, descending, and equal counts keep first-appearance order |
| StatsRoute.MostFrequentIsTop | app/api/mood/stats/route.ts:45-48 | the top mood is null exactly for an empty window; otherwise it is a real tally with the largest count and the earliest seen among ties |
| StatsRoute.TrendRows | app/api/mood/stats/route.ts:50-65 | the trend has one point per distinct day key and no other day; each point is its day's rounded mean over a non-zero count |
| StatsRoute.DaySumWithin | app/api/mood/stats/route.ts:56 | a day's intensity sum lies between its count * lo and its count * hi |
| StatsRoute.TrendInRange | app/api/mood/stats/route.ts:62-65 | every trend point lies in [1, 10] when every intensity does |
| StatsRoute.PrefixesKeepOrder | app/api/mood/stats/route.ts:53 | equal-length prefixes keep lexicographic order |
| StatsRoute.DayKeyMonotone | app/api/mood/stats/route.ts:53 | ordered timestamps with equal-width day keys have ordered day keys |
| StatsRoute.TrendAscending | app/api/mood/stats/route.ts:16-65 | on rows ascending by `created_at`, trend dates come out strictly ascending |
| StatsRoute.StatsDays | app/api/mood/stats/route.ts:7 | `days` defaults to "30" when absent or empty |
| StatsRoute.GetStats | app/api/mood/stats/route.ts:5-75 | a store failure gives 500 with its message; otherwise 200 with the statistics of the returned rows |
| StatsRoute.StatsCountsWindow | app/api/mood/stats/route.ts:7-25 | `totalEntries` is the number of rows in the window; the rows are exactly the window's; trend dates ascend |
| MoodRoute.ToNumberReadsPrintedNumbers | app/api/mood/route.ts:41 | the coercion `intensity < 1` applies inverts JavaScript's printing: the text `${n}`, and the signed text `+${n}`, both read back as n |
| MoodRoute.OnlyFourKeysMatter | app/api/mood/route.ts:32 | validation sees only `emoji`, `label`, `intensity` and `notes`: bodies that agree on these four keys are validated alike, whatever their other keys |
| MoodRoute.NotesOrNull | app/api/mood/route.ts:50 | `notes \|\| null`: truthy notes are kept, anything else becomes null |
| MoodRoute.Validate | app/api/mood/route.ts:32-50 | the missing-field error exactly when a field is falsy; the range error exactly when all are present and the intensity is out of range; otherwise the given fields with normalised notes |
| MoodRoute.AcceptedEntry | app/api/mood/route.ts:34-50 | an accepted entry has all three fields, a numeric intensity in [1, 10], and null or truthy notes |
| MoodRoute.ZeroIntensityIsMissing | app/api/mood/route.ts:34-39 | intensity 0 (or "" or null) is reported as missing, not as out of range |
| MoodRoute.NonNumericIntensityPasses | app/api/mood/route.ts:41-46 | an intensity that reads as NaN passes the range check |
| MoodRoute.Post | app/api/mood/route.ts:28-59 | 400 with the validation message, 500 with the store's message, or 201 with the created row |
| MoodRoute.PostOutcomes | app/api/mood/route.ts:34-58 | the status is 400 exactly on a validation failure and 201 exactly on an inserted row |
| MoodRoute.HistoryQuery | app/api/mood/route.ts:6-17 | newest first; a window start exactly when `days` is present and non-empty |
| MoodRoute.GetMood | app/api/mood/route.ts:4-26 | the in-place narrowed query's answer: 500 with the store's message, or 200 with the rows |
| MoodRoute.HistoryWindow | app/api/mood/route.ts:8-19 | without `days`, every row once; with `days`, exactly the rows at or after the window start; newest first |
| NumberText.NatText | mcp-server/src/index.ts:48 | the decimal text of a natural number: digits only, no leading zero |
| NumberText.NatTextRoundTrip | mcp-server/src/index.ts:48 | decimal digits read back as the number printed |
| NumberText.IntText | mcp-server/src/index.ts:48 | the text of an integer starts with '-' exactly when it is negative |
| NumberText.IntTextRoundTrip | mcp-server/src/index.ts:48 | `${n}` reads back as n and never starts with '+' |
| NumberText.SignedTextRoundTrip | mcp-server/src/index.ts:43 | `score > 0 ? +score : score` reads back as the score, with '+' exactly for positive and '-' exactly for negative scores |
| NumberText.TenthsTextRoundTrip | mcp-server/src/index.ts:115 | a one-decimal number's text reads back as that number |
| McpTools.ScoreLabelsShape | mcp-server/src/index.ts:12-18 | `SCORE_LABELS` has exactly the keys -2..2, with distinct, non-empty labels, none of them "Mixed" |
| McpTools.ScoreText | mcp-server/src/index.ts:78 | a numeric score reads back from its text, with '+' exactly when positive; a null one prints "null" and an absent one "undefined" |
| McpTools.EntryLabel | mcp-server/src/index.ts:79 | a score in -2..2 shows its table label; any other number, a null and an absent score show the stored label |
| McpTools.RoundHalfUp | mcp-server/src/index.ts:126 | `Math.round` of a tenths value: the nearest integer, halves going up |
| McpTools.SummaryLabelCases | mcp-server/src/index.ts:126 | the summary is "Mixed" exactly when the average is absent or outside [-2.5, 2.5); otherwise it is the rounded average's label |
| McpTools.AverageTextRoundTrip | mcp-server/src/index.ts:115 | the average's text carries '+' exactly when positive, and the rest reads back as the average |
| McpTools.JoinLength | mcp-server/src/index.ts:87 | the joined text is as long as the parts plus one separator between each pair |
| McpTools.JoinSnoc | mcp-server/src/index.ts:87 | the joined text is the join of all parts but the last, then one separator, then the last part; with `Join`'s one-part case this fixes its contents |
| McpTools.JoinStartsWithFirst | mcp-server/src/index.ts:87 | the joined text starts with the first part |
| McpTools.NoEntriesNamesDays | mcp-server/src/index.ts:73 | the empty-result text names the requested day count, and the count reads back |
| McpTools.HistoryDays | mcp-server/src/index.ts:60 | the history tool's `days` defaults to 7 |
| McpTools.StatsDays | mcp-server/src/index.ts:99 | the stats tool's `days` defaults to 30 |
| McpTools.LogMoodOutcomes | mcp-server/src/index.ts:37-51 | `log_mood` gives an error text exactly for a non-ok reply; a confirmation ends with the new id, which reads back |
| McpTools.HistoryHeader | mcp-server/src/index.ts:87 | the listing header is non-empty and starts with `M`, so it cannot open like an error text (`E`) or the empty text (`N`) |
| McpTools.HistoryErrorIffNotOk | mcp-server/src/index.ts:65-68 | the history tool's text is an error text exactly for a non-ok reply |
| McpTools.HistoryEmptyIffNoEntries | mcp-server/src/index.ts:72-74 | on an ok reply, the empty text exactly when the data is null or empty |
| McpTools.HistoryListingOpens | mcp-server/src/index.ts:83-90 | a listing is its header followed by the first entry's line |
| McpTools.HistoryHeaderNumbers | mcp-server/src/index.ts:87 | the header carries the day count and the entry count, both of which read back |
| McpTools.StatsThrowsOnlyWithoutTopMood | mcp-server/src/index.ts:104-126 | the stats tool raises exactly on an ok reply with a non-zero total and no top mood; a non-ok reply gives the error text; a zero total gives the empty text |
| McpTools.AverageLineWithoutScore | mcp-server/src/index.ts:115-126 | a missing average prints as `undefined (Mixed)` |
| McpTools.StatsReportParts | mcp-server/src/index.ts:122-129 | a report is the header, the average line, the top-mood line and the breakdown, in that order |
| McpTools.DeleteText | mcp-server/src/index.ts:143-148 | a non-ok reply gives "Error deleting entry: " and the message |
| McpTools.DeleteNamesId | mcp-server/src/index.ts:148 | a confirmed deletion names the id, which reads back |
| Integration.DaysParam | mcp-server/src/index.ts:63 | `?days=${days}` always sends a non-empty numeral that reads back as the day count |
| Integration.PostRepliesAreReadable | mcp-server/src/index.ts:37-42 | every POST response is one `log_mood` reads: ok responses carry the created row, the others an error message |
| Integration.LogMoodIsRejected | mcp-server/src/index.ts:31-39 | the body `log_mood` posts has no `intensity` key, so every call is answered 400 "emoji, label, and intensity are required", and the tool shows that message |
| Integration.StatsDaysAgree | mcp-server/src/index.ts:99-102 | the tool's default of 30 days is sent as "30", and the route's window starts at `sinceOf` of the sent text |
| Integration.StatsToolOnStats | mcp-server/src/index.ts:111-126 | on statistics that have a top mood when non-empty, the stats tool never raises, and shows the empty text or an `undefined (Mixed)` average |
| Integration.StatsToolOnRouteResponses | mcp-server/src/index.ts:104-126 | on a 500 from the stats route the tool shows the store's message after its error prefix; on a 200 it gives text, never raising |
| Integration.RouteStatsHaveTopMood | app/api/mood/stats/route.ts:25-48 | the route's total is 0 exactly for an empty window, and otherwise it has a top mood |
| Integration.RouteRowLine | mcp-server/src/index.ts:76-80 | a route row without a score shows its stored label and `(undefined)`; one with a null score its stored label and `(null)`; one whose score column holds a score in [-2, 2] that score's label and its signed text |
| Integration.HistoryToolWindow | mcp-server/src/index.ts:63 | the tool's day count always narrows the route's window; rows come newest first |
| Integration.HistoryToolOnRoute | mcp-server/src/index.ts:72-90 | no rows give the empty text; otherwise the header counts the rows and the newest row's line follows it |

## Left out

- **Store and framework.** The Supabase client and `NextRequest`/`NextResponse` are not modelled. Nor is a POST body that is not JSON, or JSON that is not an object: `MoodRoute.Destructure` takes an object. In the source, `null` makes the destructuring at app/api/mood/route.ts:32 throw, and an array or a number is answered 400. The web page and the agent tool both send objects.
  - The store is the parameter `run` (for POST, `insert`).
  - `Store.Answers` is the guarantee the store is trusted to give.
  - The order of rows with equal `created_at` is left open.
- **Clock and date APIs.** `new Date()`, `setDate`, `parseInt` and `toISOString` are replaced by the parameter `sinceOf`. A `days` text that does not parse makes `toISOString` throw; that case is not modelled. `toLocaleString` is the parameter `localeDate`. Comparing timestamps as texts (`Store.LexLe`) assumes that the `since` text from `toISOString` and the stored `created_at` texts share one fixed-width ISO-8601 form, so that text order is time order.
- **Floating point.** Averages are exact integer tenths. Rounding error in `sum / count * 10` is not modelled, and scores and ids are integers. Numbers are modelled as unbounded integers: JavaScript's doubles print from 1e21 on in exponent form (which `parseInt` would read back as 1) and lose precision above 2^53, so NumberText.IntTextRoundTrip, Integration.DaysParam, McpTools.LogMoodOutcomes, McpTools.DeleteNamesId and McpTools.HistoryHeaderNumbers hold only below those bounds in the source.
- Integration.HistoryItems, Integration.HistoryReply, Integration.HistoryToolOnRoute: these read each row without a score, as lib/types.ts describes it. A `score` column in the table would pass through `select("*")`. A null score (from rows the web form inserts) would print `(null)` in place of `(undefined)` and keep the stored label; a number in [-2, 2] would also change the label. Only `Integration.RouteRowLine` covers these cases.
- McpTools.HistoryDays, McpTools.StatsDays, Integration.DaysParam: day counts are integers. The tool schema (`z.number()`, mcp-server/src/index.ts:60,99) also admits fractions such as 2.5. JavaScript would then print "last 2.5 days" and send `?days=2.5`, which the route's `parseInt` reads as 2.
- **JSON values.** Arrays and fractional numbers in the POST body are not modelled.
- MoodRoute.ToNumber: a string reads as a number only when it is a bare signed decimal numeral. JavaScript also trims whitespace and accepts decimals, exponents, hexadecimal, binary (`0b`) and octal (`0o`) literals, and `Infinity`/`-Infinity`, so the model treats a string like " 50" as NaN (accepted) where JavaScript rejects it as out of range; `"Infinity"` is likewise accepted by the model and rejected by JavaScript, since `Infinity > 10`.
- McpTools.StatsText: the stats tool also raises when `moodFrequency` is missing. The model always has that field, because the stats route always sends it.
- McpTools.HistoryText: ok data that is neither null nor an array is not modelled.
- Integration.StatsToolOnStats: states that the average line `undefined (Mixed)` occurs in the report. The rest of the text is fixed by `McpTools.StatsReportParts`.
- **Tool framework and transport.** The tool SDK, its argument schema checks, `fetch`, `process.env` and the transport are not modelled. The score schema (-2..2) is the precondition `McpTools.ScoreInSchema` of `McpTools.LogMoodText`.
- **`get_dashboard_link`.** It returns constant text and has no logic to prove.
- **Delete route.** `app/api/mood/[id]/route.ts` is not part of this model. `delete_mood` is modelled from the reply it receives.
- **Agent transport route.** `app/api/[transport]/route.ts` is not part of this model.
- **UI pages and components.** Rendering, hooks and timers are not modelled. Only the colour lookup with its grey fallback is taken from the components.
