/**
 * What the two GET routes ask of the store: the rows whose `created_at` is
 * at or after a window start (`.gte("created_at", since)`), ordered by
 * `created_at` (`.order("created_at", { ascending })`).  The store itself is
 * outside the model; `Answers` is the guarantee it is trusted to give.
 *
 * Timestamps are the ISO-8601 texts the store returns, all in one fixed-width
 * UTC format, so chronological order is the lexicographic order `LexLe`.
 */
module Store {
  import opened Wrappers
  import opened MoodTypes

  /** Lexicographic order on strings by code point. */
  predicate LexLe(a: string, b: string)
  {
    a == [] || (b != [] && (a[0] < b[0] || (a[0] == b[0] && LexLe(a[1..], b[1..]))))
  }

  /** The query a route sends: sort direction and an optional window start. */
  datatype Query = Query(ascending: bool, since: Option<string>)

  predicate InWindow(e: MoodEntry, since: Option<string>)
  {
    since.None? || LexLe(since.value, e.createdAt)
  }

  /** The table rows that pass the window filter, in table order. */
  function Window(table: seq<MoodEntry>, since: Option<string>): (w: seq<MoodEntry>)
    ensures forall e :: e in w <==> e in table && InWindow(e, since)
    ensures since.None? ==> w == table
  {
    if table == [] then []
    else (if InWindow(table[0], since) then [table[0]] else []) + Window(table[1..], since)
  }

  predicate Ordered(rows: seq<MoodEntry>, ascending: bool)
  {
    forall i, j :: 0 <= i < j < |rows| ==>
      if ascending then LexLe(rows[i].createdAt, rows[j].createdAt)
      else LexLe(rows[j].createdAt, rows[i].createdAt)
  }

  /** `rows` is a correct answer of the store to query `q` over `table`. */
  predicate Answers(table: seq<MoodEntry>, q: Query, rows: seq<MoodEntry>)
  {
    multiset(rows) == multiset(Window(table, q.since)) && Ordered(rows, q.ascending)
  }

  /** An answer holds each windowed row once and nothing else. */
  lemma AnswerContents(table: seq<MoodEntry>, q: Query, rows: seq<MoodEntry>)
    requires Answers(table, q, rows)
    ensures |rows| == |Window(table, q.since)|
    ensures forall e :: e in rows <==> e in table && InWindow(e, q.since)
  {
    assert |multiset(rows)| == |multiset(Window(table, q.since))|;
    forall e ensures e in rows <==> e in Window(table, q.since) {
      assert e in rows <==> e in multiset(rows);
      assert e in Window(table, q.since) <==> e in multiset(Window(table, q.since));
    }
  }
}
