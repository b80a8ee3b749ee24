/**
 * POST and GET /api/mood (app/api/mood/route.ts): validating and inserting
 * one entry, and listing entries newest first with an optional day window.
 *
 * The request body is parsed JSON, so each field may be any JSON value or
 * absent; validation uses JavaScript truthiness and the number coercion of
 * the relational operators, both written out below.
 */
module MoodRoute {
  import opened Wrappers
  import opened MoodTypes
  import opened NumberText
  import opened Store
  import opened Http

  // ------------------------------------------------------------------
  // JSON field values

  /** A field of the parsed body: `undefined` when absent, else a JSON value (whole numbers only). */
  datatype Json = Missing | Null | Bool(b: bool) | Num(n: int) | Str(s: string) | Obj

  /** JavaScript truthiness: false for undefined, null, false, 0 and "". */
  predicate Truthy(v: Json)
  {
    match v
    case Missing => false
    case Null => false
    case Bool(b) => b
    case Num(n) => n != 0
    case Str(s) => s != ""
    case Obj => true
  }

  /**
   * The number `intensity < 1` compares: None stands for NaN.  A string is
   * read as 0 when empty and as its value when it is a signed decimal
   * numeral; any other string, `undefined` and an object give NaN.
   */
  function ToNumber(v: Json): (r: Option<int>)
    ensures v.Num? ==> r == Some(v.n)
    ensures v.Missing? || v.Obj? ==> r.None?
  {
    match v
    case Missing => None
    case Null => Some(0)
    case Bool(b) => Some(if b then 1 else 0)
    case Num(n) => Some(n)
    case Str(s) => if s == "" then Some(0) else if Numeral(s) then Some(NumeralValue(s)) else None
    case Obj => None
  }

  // ------------------------------------------------------------------
  // POST

  /**
   * A number printed by JavaScript reads back as itself: the coercion
   * inverts `${n}` and the signed `+${n}` form.
   */
  lemma ToNumberReadsPrintedNumbers(n: int)
    ensures ToNumber(Str(IntText(n))) == Some(n)
    ensures ToNumber(Str(SignedText(n))) == Some(n)
  {
    IntTextRoundTrip(n);
    SignedTextRoundTrip(n);
  }

  /** A parsed JSON object body, by key (whole-number and string leaves only). */
  type JsonObject = map<string, Json>

  /** `body.key`: the value under the key, or `undefined` when the object has no such key. */
  function Field(body: JsonObject, key: string): (v: Json)
    ensures key !in body ==> v == Missing
    ensures key in body ==> v == body[key]
  {
    if key in body then body[key] else Missing
  }

  /** The four fields the route destructures from the body. */
  datatype RequestBody = RequestBody(emoji: Json, moodLabel: Json, intensity: Json, notes: Json)

  /** `const { emoji, label, intensity, notes } = body`: any other key of the body is ignored. */
  function Destructure(body: JsonObject): RequestBody
  {
    RequestBody(Field(body, "emoji"), Field(body, "label"), Field(body, "intensity"), Field(body, "notes"))
  }

  /** Only the four destructured keys matter: two bodies that agree on them are validated alike. */
  lemma OnlyFourKeysMatter(a: JsonObject, b: JsonObject)
    requires forall k :: k in ["emoji", "label", "intensity", "notes"] ==> Field(a, k) == Field(b, k)
    ensures Validate(Destructure(a)) == Validate(Destructure(b))
  {
    assert Field(a, "emoji") == Field(b, "emoji");
    assert Field(a, "label") == Field(b, "label");
    assert Field(a, "intensity") == Field(b, "intensity");
    assert Field(a, "notes") == Field(b, "notes");
  }

  /** The row the route asks the store to insert. */
  datatype NewEntry = NewEntry(emoji: Json, moodLabel: Json, intensity: Json, notes: Json)

  const MissingFieldsError := "emoji, label, and intensity are required"
  const IntensityRangeError := "intensity must be between 1 and 10"

  predicate AllPresent(body: RequestBody)
  {
    Truthy(body.emoji) && Truthy(body.moodLabel) && Truthy(body.intensity)
  }

  /** `intensity < 1 || intensity > 10`; NaN compares false both ways. */
  predicate OutOfRange(v: Json)
  {
    var n := ToNumber(v);
    n.Some? && (n.value < 1 || n.value > 10)
  }

  /** `notes || null`. */
  function NotesOrNull(notes: Json): (r: Json)
    ensures Truthy(notes) ==> r == notes
    ensures !Truthy(notes) ==> r == Null
  {
    if Truthy(notes) then notes else Null
  }

  /**
   * Lines 32-50: the missing-field check, then the range check, then the
   * row to insert.  Each error is reported exactly when its check is the
   * first that fails.
   */
  function Validate(body: RequestBody): (r: Result<NewEntry>)
    ensures r.Failure? ==> r.error == MissingFieldsError || r.error == IntensityRangeError
    ensures r.Failure? && r.error == MissingFieldsError <==> !AllPresent(body)
    ensures r.Failure? && r.error == IntensityRangeError <==> AllPresent(body) && OutOfRange(body.intensity)
    ensures r.Success? ==> r.value == NewEntry(body.emoji, body.moodLabel, body.intensity, NotesOrNull(body.notes))
  {
    if !AllPresent(body) then Failure(MissingFieldsError)
    else if OutOfRange(body.intensity) then Failure(IntensityRangeError)
    else Success(NewEntry(body.emoji, body.moodLabel, body.intensity, NotesOrNull(body.notes)))
  }

  /**
   * An accepted entry has all three fields present, an intensity that is a
   * number in [1, 10] whenever it reads as a number, and notes that are null
   * or a truthy value.
   */
  lemma AcceptedEntry(body: RequestBody)
    requires Validate(body).Success?
    ensures AllPresent(body)
    ensures ToNumber(body.intensity).Some? ==> 1 <= ToNumber(body.intensity).value <= 10
    ensures body.intensity.Num? ==> 1 <= body.intensity.n <= 10
    ensures Validate(body).value.notes == Null || Truthy(Validate(body).value.notes)
  {
  }

  /** Intensity 0 is reported as missing, not as out of range. */
  lemma ZeroIntensityIsMissing(body: RequestBody)
    requires body.intensity == Num(0) || body.intensity == Str("") || body.intensity == Null
    ensures Validate(body) == Failure(MissingFieldsError)
  {
  }

  /**
   * As written, an intensity that does not read as a number (a word, an
   * object) passes both checks, because NaN is neither below 1 nor above 10.
   */
  lemma NonNumericIntensityPasses(body: RequestBody)
    requires AllPresent(body) && ToNumber(body.intensity).None?
    ensures Validate(body).Success? && Validate(body).value.intensity == body.intensity
  {
  }

  /**
   * POST /api/mood.  `insert` stands for the store's insert-and-return of one
   * row.  A rejected body never reaches the store.
   */
  function Post(body: RequestBody, insert: NewEntry -> Result<MoodEntry>): (resp: Response)
    ensures Validate(body).Failure? ==> resp == Response(400, ErrorMessage(Validate(body).error))
    ensures Validate(body).Success? && insert(Validate(body).value).Failure? ==>
      resp == Response(500, ErrorMessage(insert(Validate(body).value).error))
    ensures Validate(body).Success? && insert(Validate(body).value).Success? ==>
      resp == Response(201, Created(insert(Validate(body).value).value))
  {
    match Validate(body)
    case Failure(message) => Response(400, ErrorMessage(message))
    case Success(entry) =>
      match insert(entry)
      case Failure(message) => Response(500, ErrorMessage(message))
      case Success(row) => Response(201, Created(row))
  }

  /** The status of a POST response tells which of its outcomes happened. */
  lemma PostOutcomes(body: RequestBody, insert: NewEntry -> Result<MoodEntry>)
    ensures Post(body, insert).status == 400 <==> Validate(body).Failure?
    ensures Post(body, insert).status == 201 <==> Validate(body).Success? && insert(Validate(body).value).Success?
    ensures Post(body, insert).status in {201, 400, 500}
  {
  }

  // ------------------------------------------------------------------
  // GET

  /**
   * The query of lines 8-17: newest first, and restricted to the window
   * start when the `days` parameter is present and not empty.
   */
  function HistoryQuery(days: Option<string>, sinceOf: string -> string): (q: Query)
    ensures !q.ascending
    ensures q.since.Some? <==> days.Some? && days.value != ""
    ensures q.since.Some? ==> q.since.value == sinceOf(days.value)
  {
    if days.Some? && days.value != "" then Query(false, Some(sinceOf(days.value))) else Query(false, None)
  }

  /**
   * GET /api/mood.  The query starts unrestricted and is narrowed in place
   * when `days` is given.  `sinceOf` stands for the clock and date
   * arithmetic, `run` for the store.
   */
  method GetMood(days: Option<string>, sinceOf: string -> string, run: Query -> Result<seq<MoodEntry>>)
    returns (resp: Response)
    ensures run(HistoryQuery(days, sinceOf)).Failure? ==>
      resp == Response(500, ErrorMessage(run(HistoryQuery(days, sinceOf)).error))
    ensures run(HistoryQuery(days, sinceOf)).Success? ==>
      resp == Response(200, Entries(run(HistoryQuery(days, sinceOf)).value))
  {
    var query := Query(false, None);
    if days.Some? && days.value != "" {
      var since := sinceOf(days.value);
      query := query.(since := Some(since));
    }
    var result := run(query);
    if result.Failure? {
      return Response(500, ErrorMessage(result.error));
    }
    resp := Response(200, Entries(result.value));
  }

  /**
   * What an answer to the history query holds: without `days`, every row of
   * the table once; with `days`, exactly the rows created at or after the
   * window start; in both cases newest first.
   */
  lemma HistoryWindow(table: seq<MoodEntry>, days: Option<string>, sinceOf: string -> string, rows: seq<MoodEntry>)
    requires Answers(table, HistoryQuery(days, sinceOf), rows)
    ensures days.None? || days.value == "" ==> multiset(rows) == multiset(table)
    ensures days.Some? && days.value != "" ==>
      forall e :: e in rows <==> e in table && LexLe(sinceOf(days.value), e.createdAt)
    ensures forall i, j :: 0 <= i < j < |rows| ==> LexLe(rows[j].createdAt, rows[i].createdAt)
  {
    AnswerContents(table, HistoryQuery(days, sinceOf), rows);
  }
}
