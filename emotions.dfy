/**
 * The emotion palette of lib/emotions.ts and the way the UI looks a colour
 * up in it: `EMOTIONS.find((e) => e.emoji === emoji)?.color || "#9E9E9E"`.
 */
module Emotions {
  import opened Wrappers
  import opened MoodTypes

  /** The grey used when an emoji has no palette row. */
  const FallbackColor: string := "#9E9E9E"

  const Palette: seq<Emotion> := [
    Emotion("😊", "Happy", "#FFD93D"),
    Emotion("😌", "Calm", "#6BCB77"),
    Emotion("😐", "Neutral", "#9E9E9E"),
    Emotion("😔", "Sad", "#4D96FF"),
    Emotion("😰", "Anxious", "#FF6B6B"),
    Emotion("😤", "Frustrated", "#FF8C32"),
    Emotion("😍", "Loved", "#FF69B4"),
    Emotion("😴", "Tired", "#8B7EC8"),
    Emotion("🤯", "Overwhelmed", "#E84393"),
    Emotion("🥳", "Excited", "#00D2D3")
  ]

  /** `Array.prototype.find` by emoji: the first row carrying that emoji, if any. */
  function Find(rows: seq<Emotion>, emoji: string): (r: Option<Emotion>)
    ensures r.Some? ==> r.value in rows && r.value.emoji == emoji
    ensures r.None? <==> forall i :: 0 <= i < |rows| ==> rows[i].emoji != emoji
    ensures r.Some? ==> exists i :: 0 <= i < |rows| && rows[i] == r.value && forall j :: 0 <= j < i ==> rows[j].emoji != emoji
  {
    if rows == [] then None
    else if rows[0].emoji == emoji then Some(rows[0])
    else
      var r := Find(rows[1..], emoji);
      if r.Some? then
        var k :| 0 <= k < |rows[1..]| && rows[1..][k] == r.value && forall j :: 0 <= j < k ==> rows[1..][j].emoji != emoji;
        assert rows[k + 1] == r.value && forall j :: 0 <= j < k + 1 ==> rows[j].emoji != emoji;
        r
      else r
  }

  /** The colour shown for an emoji: its palette row's colour, or grey when the lookup misses. */
  function ColorFor(emoji: string): string
  {
    match Find(Palette, emoji)
    case Some(e) => if e.color != "" then e.color else FallbackColor
    case None => FallbackColor
  }

  lemma PaletteShape()
    ensures |Palette| == 10
    ensures forall i, j :: 0 <= i < j < |Palette| ==> Palette[i].emoji != Palette[j].emoji
    ensures forall i, j :: 0 <= i < j < |Palette| ==> Palette[i].moodLabel != Palette[j].moodLabel
    ensures forall i :: 0 <= i < |Palette| ==> Palette[i].color != ""
  {
  }

  /** An emoji of the palette gets exactly its own row's colour. */
  lemma ColorOfPaletteEmoji(i: int)
    requires 0 <= i < |Palette|
    ensures Find(Palette, Palette[i].emoji) == Some(Palette[i])
    ensures ColorFor(Palette[i].emoji) == Palette[i].color
  {
    PaletteShape();
    var r := Find(Palette, Palette[i].emoji);
    var j :| 0 <= j < |Palette| && Palette[j] == r.value;
  }

  /** An emoji with no palette row is drawn in the fallback grey. */
  lemma ColorOfUnknownEmoji(emoji: string)
    requires forall i :: 0 <= i < |Palette| ==> Palette[i].emoji != emoji
    ensures ColorFor(emoji) == FallbackColor
  {
  }

  /** The Neutral row is drawn in the same grey as an unknown emoji. */
  lemma NeutralIsFallbackGrey()
    ensures Palette[2].moodLabel == "Neutral" && Palette[2].color == FallbackColor
    ensures ColorFor("😐") == FallbackColor
  {
    ColorOfPaletteEmoji(2);
  }
}
