/** The JSON responses the two mood routes send back (`NextResponse.json(body, { status })`). */
module Http {
  import opened MoodTypes

  datatype Body =
    | ErrorMessage(message: string)
    | Entries(rows: seq<MoodEntry>)
    | Created(row: MoodEntry)
    | Stats(stats: MoodStats)

  datatype Response = Response(status: int, body: Body)
}
