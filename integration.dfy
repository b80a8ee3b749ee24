/**
 * The agent tools of mcp-server/src/index.ts talking to the two mood routes
 * of the web app.  The tools speak a score-based dialect (a `score` in
 * [-2, 2], an `avgScore` in the stats) while these routes speak intensities,
 * so the lemmas here state what the tools make of the routes as written.
 */
module Integration {
  import opened Wrappers
  import opened MoodTypes
  import opened NumberText
  import opened Store
  import opened Http
  import MoodRoute
  import StatsRoute
  import McpTools

  /** `res.ok`. */
  predicate IsOk(status: int)
  {
    200 <= status < 300
  }

  /** What the tools read from an error response: its `error` message. */
  function ErrorOf(b: Body): (e: McpTools.ErrorBody)
    ensures b.ErrorMessage? ==> e == McpTools.ErrorJson(Some(b.message))
  {
    if b.ErrorMessage? then McpTools.ErrorJson(Some(b.message)) else McpTools.ErrorJson(None)
  }

  /**
   * What `log_mood` receives from POST /api/mood: the created row when
   * `res.ok`, the error body otherwise.
   */
  function CreatedReply(resp: Response): (r: McpTools.Reply<MoodEntry>)
    requires IsOk(resp.status) ==> resp.body.Created?
    ensures r.Ok? <==> IsOk(resp.status)
    ensures r.NotOk? && resp.body.ErrorMessage? ==> r.err == McpTools.ErrorJson(Some(resp.body.message))
  {
    if IsOk(resp.status) then McpTools.Ok(resp.body.row) else McpTools.NotOk(ErrorOf(resp.body))
  }

  /** Every response of POST /api/mood is one `log_mood` can read: ok ones carry the created row. */
  lemma PostRepliesAreReadable(body: MoodRoute.RequestBody, insert: MoodRoute.NewEntry -> Result<MoodEntry>)
    ensures var resp := MoodRoute.Post(body, insert);
      (IsOk(resp.status) ==> resp.body.Created?) && (!IsOk(resp.status) ==> resp.body.ErrorMessage?)
  {
  }

  /** `?days=${days}`: the tools always send the day count, as decimal text. */
  function DaysParam(days: int): (p: Option<string>)
    ensures p.Some? && p.value != "" && Numeral(p.value) && NumeralValue(p.value) == days
  {
    IntTextRoundTrip(days);
    Some(IntText(days))
  }

  // ------------------------------------------------------------------
  // log_mood -> POST /api/mood

  /** The JSON body `log_mood` posts: `{ emoji, label, score, notes: notes || null }`. */
  function LogMoodBody(emoji: string, moodLabel: string, score: int, notes: Option<string>): MoodRoute.JsonObject
  {
    map[
      "emoji" := MoodRoute.Str(emoji),
      "label" := MoodRoute.Str(moodLabel),
      "score" := MoodRoute.Num(score),
      "notes" := if notes.Some? && notes.value != "" then MoodRoute.Str(notes.value) else MoodRoute.Null]
  }

  /**
   * Whatever the agent logs, the route finds no `intensity` in the body, so
   * it answers 400 without touching the store, and the tool shows the
   * route's missing-field message.
   */
  lemma LogMoodIsRejected(emoji: string, moodLabel: string, score: int, notes: Option<string>,
                          insert: MoodRoute.NewEntry -> Result<MoodEntry>)
    requires McpTools.ScoreInSchema(score)
    ensures MoodRoute.Destructure(LogMoodBody(emoji, moodLabel, score, notes)).intensity == MoodRoute.Missing
    ensures MoodRoute.Post(MoodRoute.Destructure(LogMoodBody(emoji, moodLabel, score, notes)), insert) ==
      Response(400, ErrorMessage(MoodRoute.MissingFieldsError))
    ensures McpTools.LogMoodText(emoji, moodLabel, score, notes,
        CreatedReply(MoodRoute.Post(MoodRoute.Destructure(LogMoodBody(emoji, moodLabel, score, notes)), insert))) ==
      McpTools.LogErrorPrefix + MoodRoute.MissingFieldsError
  {
    var sent := LogMoodBody(emoji, moodLabel, score, notes);
    assert "intensity" !in sent;
    var body := MoodRoute.Destructure(sent);
    assert !MoodRoute.AllPresent(body);
  }

  // ------------------------------------------------------------------
  // get_mood_stats -> GET /api/mood/stats

  /** The stats JSON as the tool reads it: the route sends no `avgScore`. */
  function StatsJsonOf(s: MoodStats): (j: McpTools.StatsJson)
    ensures j.totalEntries == Some(s.totalEntries) && j.avgScore.None?
    ensures j.mostFrequentMood == s.mostFrequentMood && j.moodFrequency == s.moodFrequency
  {
    McpTools.StatsJson(Some(s.totalEntries), None, s.mostFrequentMood, s.moodFrequency)
  }

  /** What `get_mood_stats` receives from GET /api/mood/stats. */
  function StatsReply(resp: Response): (r: McpTools.Reply<McpTools.StatsJson>)
    requires IsOk(resp.status) ==> resp.body.Stats?
    ensures r.Ok? <==> IsOk(resp.status)
  {
    if IsOk(resp.status) then McpTools.Ok(StatsJsonOf(resp.body.stats)) else McpTools.NotOk(ErrorOf(resp.body))
  }

  /** The tool's default of 30 days is sent as the route's own default text. */
  lemma StatsDaysAgree(days: Option<int>, sinceOf: string -> string)
    ensures days.None? ==> DaysParam(McpTools.StatsDays(days)) == Some("30")
    ensures StatsRoute.StatsQuery(DaysParam(McpTools.StatsDays(days)), sinceOf) ==
      Query(true, Some(sinceOf(IntText(McpTools.StatsDays(days)))))
  {
    if days.None? {
      assert DigitChar(3) == '3' && DigitChar(0) == '0';
      assert NatText(30) == NatText(3) + [DigitChar(0)] == "30";
    }
  }

  const UndefinedAverage := "\nAverage score: undefined (Mixed)\n"

  /**
   * The stats tool on statistics that have a top mood whenever they have
   * entries never raises: a zero total gives the empty text, and otherwise
   * the report carries an undefined, "Mixed" average score.
   */
  lemma StatsToolOnStats(days: Option<int>, s: MoodStats)
    requires s.totalEntries == 0 || s.mostFrequentMood.Some?
    ensures McpTools.StatsText(days, StatsReply(Response(200, Stats(s)))).Text?
    ensures s.totalEntries == 0 ==>
      McpTools.StatsText(days, StatsReply(Response(200, Stats(s)))) == McpTools.Text(McpTools.NoEntriesText(McpTools.StatsDays(days)))
    ensures s.totalEntries != 0 ==>
      exists before, after :: McpTools.StatsText(days, StatsReply(Response(200, Stats(s)))).text == before + UndefinedAverage + after
  {
    var stats := StatsJsonOf(s);
    if s.totalEntries != 0 {
      McpTools.StatsReportParts(days, stats);
      McpTools.AverageLineWithoutScore();
      var before := McpTools.StatsHeader(McpTools.StatsDays(days), stats.totalEntries);
      var after := McpTools.TopMoodLine(stats.mostFrequentMood.value) + McpTools.Breakdown(stats.moodFrequency);
      assert McpTools.StatsText(days, McpTools.Ok(stats)).text == before + McpTools.AverageLine(None) + after;
    }
  }

  /** The route's statistics meet that condition: an empty window has a zero total, any other a top mood. */
  lemma RouteStatsHaveTopMood(rows: seq<MoodEntry>)
    ensures var s := StatsRoute.StatsOf(rows);
      (s.totalEntries == 0 <==> rows == []) && (s.totalEntries == 0 || s.mostFrequentMood.Some?)
  {
    StatsRoute.EmptyWindowStats(rows);
  }

  /**
   * On either response GET /api/mood/stats can give, the stats tool
   * answers with text: the store's message after its error prefix, or a
   * report of the window's statistics.
   */
  lemma StatsToolOnRouteResponses(days: Option<int>, rows: seq<MoodEntry>, message: string)
    ensures McpTools.StatsText(days, StatsReply(Response(200, Stats(StatsRoute.StatsOf(rows))))).Text?
    ensures McpTools.StatsText(days, StatsReply(Response(500, ErrorMessage(message)))) ==
      McpTools.Text("Error fetching stats: " + message)
  {
    var s := StatsRoute.StatsOf(rows);
    RouteStatsHaveTopMood(rows);
    StatsToolOnStats(days, s);
  }

  // ------------------------------------------------------------------
  // get_mood_history -> GET /api/mood

  /**
   * A route row as the history tool reads it. `select("*")` returns every
   * column, so `score` is the row's score column (null on a row inserted
   * without one), or `Absent` on a table with only the columns of
   * lib/types.ts.
   */
  function HistoryItemOf(e: MoodEntry, score: McpTools.ScoreField): (item: McpTools.HistoryItem)
    ensures item.score == score
    ensures item.emoji == e.emoji && item.moodLabel == e.moodLabel && item.notes == e.notes && item.createdAt == e.createdAt
  {
    McpTools.HistoryItem(e.emoji, e.moodLabel, score, e.notes, e.createdAt)
  }

  function HistoryItems(rows: seq<MoodEntry>): (items: seq<McpTools.HistoryItem>)
    ensures |items| == |rows|
    ensures forall i :: 0 <= i < |rows| ==> items[i] == HistoryItemOf(rows[i], McpTools.Absent)
  {
    seq(|rows|, i requires 0 <= i < |rows| => HistoryItemOf(rows[i], McpTools.Absent))
  }

  /** What `get_mood_history` receives from GET /api/mood: rows of lib/types.ts's shape, without a score. */
  function HistoryReply(resp: Response): (r: McpTools.Reply<Option<seq<McpTools.HistoryItem>>>)
    requires IsOk(resp.status) ==> resp.body.Entries?
    ensures r.Ok? <==> IsOk(resp.status)
  {
    if IsOk(resp.status) then McpTools.Ok(Some(HistoryItems(resp.body.rows))) else McpTools.NotOk(ErrorOf(resp.body))
  }

  /**
   * A route row without a score is shown with its stored label and an
   * undefined score, and one with a null score with its stored label and
   * "null"; one whose score column holds a schema score is shown with that
   * score's label and its signed text.
   */
  lemma RouteRowLine(e: MoodEntry, score: McpTools.ScoreField, localeDate: string -> string)
    ensures score.Absent? ==>
      McpTools.HistoryLine(HistoryItemOf(e, score), localeDate) ==
      e.emoji + " " + e.moodLabel + " (" + "undefined" + ") — " + localeDate(e.createdAt) +
      (if e.notes.Some? && e.notes.value != "" then "\n   Notes: " + e.notes.value else "")
    ensures score.NullScore? ==>
      McpTools.HistoryLine(HistoryItemOf(e, score), localeDate) ==
      e.emoji + " " + e.moodLabel + " (" + "null" + ") — " + localeDate(e.createdAt) +
      (if e.notes.Some? && e.notes.value != "" then "\n   Notes: " + e.notes.value else "")
    ensures score.Score? && McpTools.ScoreInSchema(score.value) ==>
      McpTools.HistoryLine(HistoryItemOf(e, score), localeDate) ==
      e.emoji + " " + McpTools.ScoreLabels[score.value] + " (" + SignedText(score.value) + ") — " +
      localeDate(e.createdAt) + (if e.notes.Some? && e.notes.value != "" then "\n   Notes: " + e.notes.value else "")
  {
    if score.Absent? {
      RowShows(e, score, e.moodLabel, "undefined", localeDate);
    } else if score.NullScore? {
      RowShows(e, score, e.moodLabel, "null", localeDate);
    } else if McpTools.ScoreInSchema(score.value) {
      RowShows(e, score, McpTools.ScoreLabels[score.value], SignedText(score.value), localeDate);
    }
  }

  /** A route row's line, given the label and the score text it shows. */
  lemma RowShows(e: MoodEntry, score: McpTools.ScoreField, shownLabel: string, shownScore: string,
                 localeDate: string -> string)
    requires McpTools.EntryLabel(score, e.moodLabel) == shownLabel && McpTools.ScoreText(score) == shownScore
    ensures McpTools.HistoryLine(HistoryItemOf(e, score), localeDate) ==
      e.emoji + " " + shownLabel + " (" + shownScore + ") — " + localeDate(e.createdAt) +
      (if e.notes.Some? && e.notes.value != "" then "\n   Notes: " + e.notes.value else "")
  {
    McpTools.LineShows(HistoryItemOf(e, score), shownLabel, shownScore, localeDate);
  }

  /** The tool's day count always narrows the route's window. */
  lemma HistoryToolWindow(days: Option<int>, table: seq<MoodEntry>, sinceOf: string -> string, rows: seq<MoodEntry>)
    requires Answers(table, MoodRoute.HistoryQuery(DaysParam(McpTools.HistoryDays(days)), sinceOf), rows)
    ensures forall e :: e in rows <==> e in table && LexLe(sinceOf(IntText(McpTools.HistoryDays(days))), e.createdAt)
    ensures forall i, j :: 0 <= i < j < |rows| ==> LexLe(rows[j].createdAt, rows[i].createdAt)
  {
    MoodRoute.HistoryWindow(table, DaysParam(McpTools.HistoryDays(days)), sinceOf, rows);
  }

  /**
   * The history tool on the route's rows: no rows give the empty text, and
   * otherwise the listing counts the rows and opens with the newest row's line.
   */
  lemma HistoryToolOnRoute(days: Option<int>, rows: seq<MoodEntry>, localeDate: string -> string)
    ensures rows == [] ==>
      McpTools.HistoryText(days, HistoryReply(Response(200, Entries(rows))), localeDate) ==
      McpTools.NoEntriesText(McpTools.HistoryDays(days))
    ensures rows != [] ==>
      var r := McpTools.HistoryText(days, HistoryReply(Response(200, Entries(rows))), localeDate);
      var header := McpTools.HistoryHeader(McpTools.HistoryDays(days), |rows|);
      var first := McpTools.HistoryLine(HistoryItemOf(rows[0], McpTools.Absent), localeDate);
      |r| >= |header| + |first| && r[..|header|] == header && r[|header|..|header| + |first|] == first
  {
    assert HistoryReply(Response(200, Entries(rows))) == McpTools.Ok(Some(HistoryItems(rows)));
    if rows != [] {
      var items := HistoryItems(rows);
      assert items[0] == HistoryItemOf(rows[0], McpTools.Absent);
      McpTools.HistoryListingOpens(days, items, localeDate);
    }
  }
}
