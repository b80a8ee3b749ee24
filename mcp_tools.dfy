/**
 * The agent tools of mcp-server/src/index.ts: each handler turns the HTTP
 * reply of one route into the text shown to the agent.  A non-ok reply
 * becomes an error text rather than an exception; an empty result becomes a
 * "No mood entries" text; otherwise the rows are rendered, with scores from
 * the five-point `SCORE_LABELS` table.
 *
 * A reply is the route's JSON after `res.json()`; the request itself, the
 * transport and the argument schema checks of the tool framework are outside
 * the model.
 */
module McpTools {
  import opened Wrappers
  import opened MoodTypes
  import opened NumberText

  // ------------------------------------------------------------------
  // Scores and their labels

  /** `SCORE_LABELS`. */
  const ScoreLabels: map<int, string> :=
    map[2 := "Super Good", 1 := "Good", 0 := "Neutral", -1 := "Bad", -2 := "Very Bad"]

  /** The table has exactly the keys -2..2, and its labels are distinct and non-empty. */
  lemma ScoreLabelsShape()
    ensures forall s :: s in ScoreLabels <==> -2 <= s <= 2
    ensures forall s, t :: s in ScoreLabels && t in ScoreLabels && s != t ==> ScoreLabels[s] != ScoreLabels[t]
    ensures forall s :: s in ScoreLabels ==> ScoreLabels[s] != "" && ScoreLabels[s] != "Mixed"
  {
    assert ScoreLabels.Keys == {-2, -1, 0, 1, 2};
  }

  /** The score range the `log_mood` argument schema admits (`z.number().min(-2).max(2)`). */
  predicate ScoreInSchema(score: int)
  {
    -2 <= score <= 2
  }

  /** The `score` of a row as JSON carries it: no such key, `null`, or a number. */
  datatype ScoreField = Absent | NullScore | Score(value: int)

  /**
   * `score > 0 ? `+${score}` : `${score}``: `null > 0` is false, so a null
   * score prints as "null", and an absent one as "undefined".
   */
  function ScoreText(score: ScoreField): (s: string)
    ensures score.Absent? ==> s == "undefined"
    ensures score.NullScore? ==> s == "null"
    ensures score.Score? ==> Numeral(s) && NumeralValue(s) == score.value && (s[0] == '+' <==> score.value > 0)
  {
    match score
    case Absent => "undefined"
    case NullScore => "null"
    case Score(v) =>
      SignedTextRoundTrip(v);
      SignedText(v)
  }

  /**
   * `SCORE_LABELS[score] || label`: the table's label for a known score,
   * otherwise the stored one (`SCORE_LABELS[null]` and
   * `SCORE_LABELS[undefined]` are undefined too).
   */
  function EntryLabel(score: ScoreField, stored: string): (l: string)
    ensures score.Score? && -2 <= score.value <= 2 ==> l == ScoreLabels[score.value]
    ensures !score.Score? || !(-2 <= score.value <= 2) ==> l == stored
  {
    if score.Score? && score.value in ScoreLabels then ScoreLabels[score.value] else stored
  }

  /** `Math.round(t / 10)` for a number kept in tenths: halves go up. */
  function RoundHalfUp(t: Tenths): (r: int)
    ensures 10 * r - 5 <= t < 10 * r + 5
  {
    (t + 5) / 10
  }

  /** `SCORE_LABELS[Math.round(avgScore)] || "Mixed"`; an absent average rounds to NaN. */
  function SummaryLabel(avg: Option<Tenths>): string
  {
    if avg.Some? && RoundHalfUp(avg.value) in ScoreLabels then ScoreLabels[RoundHalfUp(avg.value)] else "Mixed"
  }

  /**
   * The summary is "Mixed" exactly when there is no average or it lies
   * outside [-2.5, 2.5); otherwise it is the label of the rounded average.
   */
  lemma SummaryLabelCases(avg: Option<Tenths>)
    ensures SummaryLabel(avg) == "Mixed" <==> avg.None? || !(-25 <= avg.value < 25)
    ensures avg.Some? && -25 <= avg.value < 25 ==>
      RoundHalfUp(avg.value) in ScoreLabels && SummaryLabel(avg) == ScoreLabels[RoundHalfUp(avg.value)]
  {
    ScoreLabelsShape();
    if avg.Some? {
      var r := RoundHalfUp(avg.value);
      assert -25 <= avg.value < 25 <==> -2 <= r <= 2;
    }
  }

  /** `avgScore > 0 ? `+${avgScore}` : `${avgScore}`` for an average kept in tenths. */
  function AverageText(avg: Option<Tenths>): string
  {
    if avg.None? then "undefined"
    else if avg.value > 0 then "+" + TenthsText(avg.value)
    else TenthsText(avg.value)
  }

  /** The average text reads back as the average, and carries a '+' exactly when it is positive. */
  lemma AverageTextRoundTrip(t: Tenths)
    ensures var s := AverageText(Some(t));
      |s| >= 1 && (s[0] == '+' <==> t > 0) &&
      var body := if t > 0 then s[1..] else s;
      DecimalNumeral(body) && DecimalTenths(body) == t
  {
    TenthsTextRoundTrip(t);
    var s := AverageText(Some(t));
    if t > 0 {
      assert s[1..] == TenthsText(t);
    } else {
      TenthsTextSign(t);
    }
  }

  /** The text of a non-positive number starts with a digit or '-', never '+'. */
  lemma TenthsTextSign(t: Tenths)
    ensures |TenthsText(t)| >= 1 && TenthsText(t)[0] != '+'
  {
    var m: nat := if t < 0 then -t else t;
    if m % 10 == 0 {
      IntTextRoundTrip(t / 10);
    } else {
      var whole := (if t < 0 then "-" else "") + NatText(m / 10);
      assert TenthsText(t) == whole + "." + [DigitChar(m % 10)];
      assert t >= 0 ==> whole == NatText(m / 10) && IsDigit(whole[0]);
    }
  }

  // ------------------------------------------------------------------
  // Replies and their texts

  /** What `res.json().catch(() => ({ error: res.statusText }))` gives for a non-ok reply. */
  datatype ErrorBody = ErrorJson(error: Option<string>) | NotJson(statusText: string)

  /** A route's reply: ok with its parsed JSON, or not ok. */
  datatype Reply<T> = Ok(data: T) | NotOk(err: ErrorBody)

  /** `${err.error}`: the message, or "undefined" when the JSON has none. */
  function ErrorText(e: ErrorBody): string
  {
    match e
    case ErrorJson(Some(message)) => message
    case ErrorJson(None) => "undefined"
    case NotJson(statusText) => statusText
  }

  /** `xs.join(sep)`. */
  function Join(parts: seq<string>, sep: string): (r: string)
    ensures parts == [] ==> r == ""
    ensures |parts| == 1 ==> r == parts[0]
  {
    if parts == [] then ""
    else if |parts| == 1 then parts[0]
    else parts[0] + sep + Join(parts[1..], sep)
  }

  /** The joined text is as long as its parts and the separators between them. */
  lemma {:induction false} JoinLength(parts: seq<string>, sep: string)
    requires |parts| >= 1
    ensures |Join(parts, sep)| == SumLengths(parts) + (|parts| - 1) * |sep|
  {
    if |parts| > 1 {
      JoinLength(parts[1..], sep);
      assert (|parts| - 1) * |sep| == (|parts| - 2) * |sep| + |sep|;
    }
  }

  /** The joined text is the join of all parts but the last, then one separator, then the last part. */
  lemma {:induction false} JoinSnoc(parts: seq<string>, sep: string)
    requires |parts| >= 2
    ensures Join(parts, sep) == Join(parts[..|parts| - 1], sep) + sep + parts[|parts| - 1]
  {
    var init := parts[..|parts| - 1];
    if |parts| > 2 {
      JoinSnoc(parts[1..], sep);
      assert parts[1..][..|parts| - 2] == init[1..];
      assert parts[1..][|parts| - 2] == parts[|parts| - 1];
    }
  }

  /** The joined text starts with the first part. */
  lemma JoinStartsWithFirst(parts: seq<string>, sep: string)
    requires |parts| >= 1
    ensures |Join(parts, sep)| >= |parts[0]| && Join(parts, sep)[..|parts[0]|] == parts[0]
  {
    if |parts| > 1 {
      assert Join(parts, sep) == parts[0] + (sep + Join(parts[1..], sep));
    }
  }

  function SumLengths(parts: seq<string>): nat
  {
    if parts == [] then 0 else |parts[0]| + SumLengths(parts[1..])
  }

  /** `No mood entries found in the last ${days} days.` */
  function NoEntriesText(days: int): string
  {
    "No mood entries found in the last " + IntText(days) + " days."
  }

  const NoEntriesPrefix := "No mood entries found in the last "

  lemma NoEntriesOpens(days: int)
    ensures |NoEntriesText(days)| >= 1 && NoEntriesText(days)[0] == 'N'
  {
    assert NoEntriesText(days) == NoEntriesPrefix + (IntText(days) + " days.");
  }

  /** The empty-result text names the day count it was asked for. */
  lemma NoEntriesNamesDays(days: int)
    ensures var s := NoEntriesText(days);
      |s| > |NoEntriesPrefix| + 6 && s[..|NoEntriesPrefix|] == NoEntriesPrefix &&
      var number := s[|NoEntriesPrefix|..|s| - 6];
      Numeral(number) && NumeralValue(number) == days
  {
    var s := NoEntriesText(days);
    IntTextRoundTrip(days);
    assert s[|NoEntriesPrefix|..|s| - 6] == IntText(days);
  }

  /** `days` defaults to 7 for the history tool and 30 for the stats tool. */
  function HistoryDays(days: Option<int>): (n: int)
    ensures days.None? ==> n == 7
    ensures days.Some? ==> n == days.value
  {
    if days.Some? then days.value else 7
  }

  function StatsDays(days: Option<int>): (n: int)
    ensures days.None? ==> n == 30
    ensures days.Some? ==> n == days.value
  {
    if days.Some? then days.value else 30
  }

  // ------------------------------------------------------------------
  // log_mood

  /**
   * The reply text of `log_mood` (lines 30-51): the error text, or a
   * confirmation with the signed score, the notes when there are any, and
   * the new entry's id.
   */
  function LogMoodText(emoji: string, moodLabel: string, score: int, notes: Option<string>, reply: Reply<MoodEntry>): (r: string)
    requires ScoreInSchema(score)
  {
    match reply
    case NotOk(e) => "Error logging mood: " + ErrorText(e)
    case Ok(row) =>
      "Logged: " + emoji + " " + moodLabel + " (score " + SignedText(score) + ")" +
      (if notes.Some? && notes.value != "" then " — \"" + notes.value + "\"" else "") +
      EntryIdLine(row.id)
  }

  const LogErrorPrefix := "Error logging mood: "

  /** `\nEntry ID: ${data.id}`: the last line of a confirmation. */
  function EntryIdLine(id: int): string
  {
    "\nEntry ID: " + IntText(id)
  }

  /**
   * `log_mood` reports an error exactly for a non-ok reply; a confirmation
   * ends with the new entry's id, which reads back from the text.
   */
  lemma LogMoodOutcomes(emoji: string, moodLabel: string, score: int, notes: Option<string>, reply: Reply<MoodEntry>)
    requires ScoreInSchema(score)
    ensures var r := LogMoodText(emoji, moodLabel, score, notes, reply);
      (|r| >= |LogErrorPrefix| && r[..|LogErrorPrefix|] == LogErrorPrefix) <==> reply.NotOk?
    ensures reply.NotOk? ==> LogMoodText(emoji, moodLabel, score, notes, reply) == LogErrorPrefix + ErrorText(reply.err)
    ensures reply.Ok? ==>
      var r, tail := LogMoodText(emoji, moodLabel, score, notes, reply), EntryIdLine(reply.data.id);
      |r| >= |tail| && r[|r| - |tail|..] == tail && NumeralValue(tail[11..]) == reply.data.id
  {
    var r := LogMoodText(emoji, moodLabel, score, notes, reply);
    var p := LogErrorPrefix;
    if reply.NotOk? {
      assert r[..|p|] == p;
    } else {
      var tail := EntryIdLine(reply.data.id);
      var head := "Logged: " + emoji + " " + moodLabel + " (score " + SignedText(score) + ")" +
        (if notes.Some? && notes.value != "" then " — \"" + notes.value + "\"" else "");
      assert r == head + tail;
      assert r[|r| - |tail|..] == tail;
      assert tail[11..] == IntText(reply.data.id);
      IntTextRoundTrip(reply.data.id);
      if |r| >= |p| {
        assert r[0] == 'L';
        assert r[..|p|][0] != p[0];
      }
    }
  }

  // ------------------------------------------------------------------
  // get_mood_history

  /** One entry as the history tool reads it from the route's JSON; `score` may be absent. */
  datatype HistoryItem = HistoryItem(emoji: string, moodLabel: string, score: ScoreField, notes: Option<string>, createdAt: string)

  /**
   * One line of the history text (lines 76-81).  `localeDate` stands for
   * `new Date(created_at).toLocaleString()`.
   */
  function HistoryLine(item: HistoryItem, localeDate: string -> string): string
  {
    item.emoji + " " + EntryLabel(item.score, item.moodLabel) + " (" + ScoreText(item.score) + ") — " +
    localeDate(item.createdAt) +
    (if item.notes.Some? && item.notes.value != "" then "\n   Notes: " + item.notes.value else "")
  }

  /** The reply text of `get_mood_history` (lines 62-91); `None` data is a null body. */
  function HistoryText(days: Option<int>, reply: Reply<Option<seq<HistoryItem>>>, localeDate: string -> string): string
  {
    match reply
    case NotOk(e) => "Error fetching history: " + ErrorText(e)
    case Ok(data) =>
      if data.None? || data.value == [] then NoEntriesText(HistoryDays(days))
      else HistoryHeader(HistoryDays(days), |data.value|) + Join(HistoryLines(data.value, localeDate), "\n\n")
  }

  /** `Mood history (last ${days} days, ${data.length} entries):` and a blank line. */
  function HistoryHeader(days: int, count: nat): (h: string)
    ensures |h| >= 1 && h[0] == 'M'
  {
    "Mood history (last " + IntText(days) + " days, " + IntText(count) + " entries):\n\n"
  }

  /** One line per item, in the route's order. */
  function HistoryLines(items: seq<HistoryItem>, localeDate: string -> string): (lines: seq<string>)
    ensures |lines| == |items|
    ensures forall i :: 0 <= i < |items| ==> lines[i] == HistoryLine(items[i], localeDate)
  {
    seq(|items|, i requires 0 <= i < |items| => HistoryLine(items[i], localeDate))
  }

  const HistoryErrorPrefix := "Error fetching history: "

  /** A history line, given the label and the score text it shows. */
  lemma LineShows(item: HistoryItem, shownLabel: string, shownScore: string, localeDate: string -> string)
    requires EntryLabel(item.score, item.moodLabel) == shownLabel && ScoreText(item.score) == shownScore
    ensures HistoryLine(item, localeDate) ==
      item.emoji + " " + shownLabel + " (" + shownScore + ") — " + localeDate(item.createdAt) +
      (if item.notes.Some? && item.notes.value != "" then "\n   Notes: " + item.notes.value else "")
  {
  }

  /** The history tool reports an error exactly for a non-ok reply. */
  lemma HistoryErrorIffNotOk(days: Option<int>, reply: Reply<Option<seq<HistoryItem>>>, localeDate: string -> string)
    ensures var r := HistoryText(days, reply, localeDate);
      (|r| >= |HistoryErrorPrefix| && r[..|HistoryErrorPrefix|] == HistoryErrorPrefix) <==> reply.NotOk?
  {
    var r, p := HistoryText(days, reply, localeDate), HistoryErrorPrefix;
    if reply.NotOk? {
      assert r[..|p|] == p;
    } else if |r| >= |p| {
      if reply.data.None? || reply.data.value == [] {
        assert r[0] == 'N';
      } else {
        assert r[0] == 'M';
      }
      assert r[..|p|][0] != p[0];
    }
  }

  /** On an ok reply, the empty text is given exactly when there are no entries. */
  lemma HistoryEmptyIffNoEntries(days: Option<int>, reply: Reply<Option<seq<HistoryItem>>>, localeDate: string -> string)
    requires reply.Ok?
    ensures HistoryText(days, reply, localeDate) == NoEntriesText(HistoryDays(days)) <==>
      reply.data.None? || reply.data.value == []
  {
    if reply.data.Some? && reply.data.value != [] {
      var header := HistoryHeader(HistoryDays(days), |reply.data.value|);
      var body := Join(HistoryLines(reply.data.value, localeDate), "\n\n");
      assert HistoryText(days, reply, localeDate) == header + body;
      assert (header + body)[0] == 'M';
      NoEntriesOpens(HistoryDays(days));
    }
  }

  /**
   * A listing names the day count and the number of entries in its header
   * and opens with the first entry's line.
   */
  lemma HistoryListingOpens(days: Option<int>, items: seq<HistoryItem>, localeDate: string -> string)
    requires items != []
    ensures var r, header := HistoryText(days, Ok(Some(items)), localeDate), HistoryHeader(HistoryDays(days), |items|);
      var first := HistoryLine(items[0], localeDate);
      |r| >= |header| + |first| && r[..|header|] == header && r[|header|..|header| + |first|] == first
  {
    var header := HistoryHeader(HistoryDays(days), |items|);
    var lines := HistoryLines(items, localeDate);
    assert HistoryText(days, Ok(Some(items)), localeDate) == header + Join(lines, "\n\n");
    assert lines[0] == HistoryLine(items[0], localeDate);
    ListingOpens(header, lines);
  }

  /** A header followed by joined lines opens with the header and then the first line. */
  lemma ListingOpens(header: string, lines: seq<string>)
    requires lines != []
    ensures var r := header + Join(lines, "\n\n");
      |r| >= |header| + |lines[0]| && r[..|header|] == header && r[|header|..|header| + |lines[0]|] == lines[0]
  {
    JoinStartsWithFirst(lines, "\n\n");
    PrefixAfter(header, Join(lines, "\n\n"), lines[0]);
  }

  /** A prefix of the second part of a concatenation sits right after the first part. */
  lemma PrefixAfter(a: string, b: string, x: string)
    requires |b| >= |x| && b[..|x|] == x
    ensures |a + b| >= |a| + |x| && (a + b)[..|a|] == a && (a + b)[|a|..|a| + |x|] == x
  {
    assert (a + b)[|a|..|a| + |x|] == b[..|x|];
  }

  /** The header reads back as the day count and the number of entries. */
  lemma HistoryHeaderNumbers(days: int, count: nat)
    ensures var h, p := HistoryHeader(days, count), "Mood history (last ";
      var d := IntText(days);
      var c := IntText(count);
      h[..|p|] == p && h[|p|..|p| + |d|] == d && h[|p| + |d|..|p| + |d| + 7] == " days, " &&
      h[|p| + |d| + 7..|p| + |d| + 7 + |c|] == c &&
      Numeral(d) && NumeralValue(d) == days && Numeral(c) && NumeralValue(c) == count
  {
    IntTextRoundTrip(days);
    IntTextRoundTrip(count);
    var p, d, m, c, t := "Mood history (last ", IntText(days), " days, ", IntText(count), " entries):\n\n";
    assert HistoryHeader(days, count) == p + d + m + c + t;
    assert |m| == 7;
    FourSlices(p, d, m, c, t);
  }

  /** The first four parts of a five-part concatenation, each at its own offset. */
  lemma FourSlices(p: string, d: string, m: string, c: string, t: string)
    ensures var h := p + d + m + c + t;
      h[..|p|] == p && h[|p|..|p| + |d|] == d && h[|p| + |d|..|p| + |d| + |m|] == m &&
      h[|p| + |d| + |m|..|p| + |d| + |m| + |c|] == c
  {
  }

  // ------------------------------------------------------------------
  // get_mood_stats

  /** The stats JSON as the tool reads it; `totalEntries` and `avgScore` may be absent. */
  datatype StatsJson = StatsJson(
    totalEntries: Option<int>,
    avgScore: Option<Tenths>,
    mostFrequentMood: Option<MoodCount>,
    moodFrequency: seq<MoodCount>)

  /** A handler's outcome: its text, or the exception it raises. */
  datatype ToolResult = Text(text: string) | Throws

  /** `${n}` for a number that may be absent. */
  function OptionalIntText(n: Option<int>): string
  {
    if n.Some? then IntText(n.value) else "undefined"
  }

  /** One breakdown line: `  ${m.emoji} ${m.label}: ${m.count} times`. */
  function FrequencyLine(m: MoodCount): string
  {
    "  " + m.emoji + " " + m.moodLabel + ": " + IntText(m.count) + " times"
  }

  /**
   * The reply of `get_mood_stats` (lines 101-130).  Reading the emoji of a
   * null `mostFrequentMood` raises a TypeError, which is `Throws`.
   */
  function StatsText(days: Option<int>, reply: Reply<StatsJson>): ToolResult
  {
    match reply
    case NotOk(e) => Text("Error fetching stats: " + ErrorText(e))
    case Ok(stats) =>
      if stats.totalEntries == Some(0) then Text(NoEntriesText(StatsDays(days)))
      else if stats.mostFrequentMood.None? then Throws
      else
        Text(StatsReport(StatsDays(days), stats.totalEntries, stats.avgScore, stats.mostFrequentMood.value, stats.moodFrequency))
  }

  /** The full report, in its four parts. */
  function StatsReport(days: int, total: Option<int>, avg: Option<Tenths>, top: MoodCount, frequency: seq<MoodCount>): string
  {
    StatsHeader(days, total) + AverageLine(avg) + TopMoodLine(top) + Breakdown(frequency)
  }

  /** `Mood stats (last ${days} days):`, a blank line, and `Total entries: ${total}`. */
  function StatsHeader(days: int, total: Option<int>): string
  {
    "Mood stats (last " + IntText(days) + " days):\n\nTotal entries: " + OptionalIntText(total)
  }

  /** `\nAverage score: ${avgScoreStr} (${label})\n`. */
  function AverageLine(avg: Option<Tenths>): string
  {
    "\nAverage score: " + AverageText(avg) + " (" + SummaryLabel(avg) + ")\n"
  }

  /** `Most frequent mood: ${emoji} ${label} (${count} times)`. */
  function TopMoodLine(top: MoodCount): string
  {
    "Most frequent mood: " + top.emoji + " " + top.moodLabel + " (" + IntText(top.count) + " times)"
  }

  /** A blank line, `Breakdown:`, and one line per frequency row, in the route's order. */
  function Breakdown(frequency: seq<MoodCount>): string
  {
    "\n\nBreakdown:\n" + Join(seq(|frequency|, i requires 0 <= i < |frequency| => FrequencyLine(frequency[i])), "\n")
  }

  /**
   * The stats tool raises only on an ok reply that claims entries but has
   * no most frequent mood; a non-ok reply and a zero total always give text.
   */
  lemma StatsThrowsOnlyWithoutTopMood(days: Option<int>, reply: Reply<StatsJson>)
    ensures StatsText(days, reply).Throws? <==>
      reply.Ok? && reply.data.totalEntries != Some(0) && reply.data.mostFrequentMood.None?
    ensures reply.Ok? && reply.data.totalEntries == Some(0) ==> StatsText(days, reply) == Text(NoEntriesText(StatsDays(days)))
    ensures reply.NotOk? ==> StatsText(days, reply) == Text("Error fetching stats: " + ErrorText(reply.err))
  {
  }

  /** Without an average score the average line reads `undefined (Mixed)`. */
  lemma AverageLineWithoutScore()
    ensures AverageLine(None) == "\nAverage score: undefined (Mixed)\n"
  {
    assert AverageText(None) == "undefined" && SummaryLabel(None) == "Mixed";
  }

  /** A report with entries and a top mood carries the average line between its header and the top mood. */
  lemma StatsReportParts(days: Option<int>, stats: StatsJson)
    requires stats.totalEntries != Some(0) && stats.mostFrequentMood.Some?
    ensures StatsText(days, Ok(stats)) == Text(
      StatsHeader(StatsDays(days), stats.totalEntries) + AverageLine(stats.avgScore) +
      (TopMoodLine(stats.mostFrequentMood.value) + Breakdown(stats.moodFrequency)))
  {
    var a, b, c, d := StatsHeader(StatsDays(days), stats.totalEntries), AverageLine(stats.avgScore),
      TopMoodLine(stats.mostFrequentMood.value), Breakdown(stats.moodFrequency);
    assert a + b + c + d == a + b + (c + d);
  }

  // ------------------------------------------------------------------
  // delete_mood

  /** The reply text of `delete_mood` (lines 140-149). */
  function DeleteText(id: int, reply: Reply<()>): (r: string)
    ensures reply.NotOk? ==> r == "Error deleting entry: " + ErrorText(reply.err)
  {
    match reply
    case NotOk(e) => "Error deleting entry: " + ErrorText(e)
    case Ok(_) => "Deleted mood entry #" + IntText(id) + "."
  }

  /** A confirmed deletion names the deleted id. */
  lemma DeleteNamesId(id: int)
    ensures var s, p := DeleteText(id, Ok(())), "Deleted mood entry #";
      |s| == |p| + |IntText(id)| + 1 && s[..|p|] == p &&
      Numeral(s[|p|..|s| - 1]) && NumeralValue(s[|p|..|s| - 1]) == id
  {
    var s, p := DeleteText(id, Ok(())), "Deleted mood entry #";
    IntTextRoundTrip(id);
    assert s[|p|..|s| - 1] == IntText(id);
  }
}
