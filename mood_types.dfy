/**
 * The record shapes of lib/types.ts.
 * (`label` is a Dafny keyword, so the label field is called `moodLabel`.)
 *
 * Every field of a `MoodEntry` is always present; only `notes` may be null,
 * which is an `Option`.  A `MoodStats` has a nullable `mostFrequentMood` but
 * always a list of frequency rows (possibly empty), and the nullable mood has
 * the very same `MoodCount` shape as those rows.
 */
module MoodTypes {
  import opened Wrappers

  /** A number x kept with one decimal, stored as the integer round(10 x). */
  type Tenths = int

  /** One row of the mood_entries table; `createdAt` is the ISO-8601 text the store returns. */
  datatype MoodEntry = MoodEntry(
    id: int,
    emoji: string,
    moodLabel: string,
    intensity: int,
    notes: Option<string>,
    createdAt: string)

  /** One row of the emotion palette. */
  datatype Emotion = Emotion(emoji: string, moodLabel: string, color: string)

  /** One row of the frequency histogram, also the shape of the most frequent mood. */
  datatype MoodCount = MoodCount(emoji: string, moodLabel: string, count: int)

  /** One point of the per-day trend: a date and that day's mean intensity. */
  datatype DayAverage = DayAverage(date: string, avgIntensity: Tenths)

  datatype MoodStats = MoodStats(
    totalEntries: int,
    avgIntensity: Tenths,
    mostFrequentMood: Option<MoodCount>,
    moodFrequency: seq<MoodCount>,
    recentTrend: seq<DayAverage>)
}
