/**
 * What a room's difficulty label selects (src/components/RaceRoom.jsx):
 * the passage to type and the range the opponents' speeds are drawn from.
 * A label is `None` when the room has no difficulty; the lookups are the
 * source's object-literal lookups with their `||` fallbacks.
 */
module Difficulty {
  import opened Js

  const EasyText: string :=
    "Speed boosts help drivers fly past the city lights. Keep your hands relaxed and let the rhythm guide your typing."
  const MediumText: string :=
    "Precision matters as engines hum in harmony. Maintain accuracy while the track curves through neon reflections."
  const HardText: string :=
    "Under the roaring floodlights, every millisecond counts. Your focus becomes the throttle and the keyboard your track."

  /** `DIFF_TEXT`: passage per difficulty label. */
  const DiffText: map<string, string> := map["Easy" := EasyText, "Medium" := MediumText, "Hard" := HardText]

  /** An inclusive words-per-minute range `[min, max]`. */
  datatype WpmRange = WpmRange(min: int, max: int)

  /** The `ranges` table of bot speeds per difficulty label. */
  const Ranges: map<string, WpmRange> :=
    map["Easy" := WpmRange(30, 45), "Medium" := WpmRange(45, 70), "Hard" := WpmRange(65, 100)]

  /** The range used for a label the table does not know. */
  const FallbackRange: WpmRange := WpmRange(40, 60)

  /** Whether a JavaScript string is truthy: every string but the empty one. */
  predicate Truthy(s: string) {
    s != ""
  }

  /** `DIFF_TEXT[room?.difficulty] || DIFF_TEXT.Medium`. */
  function TextFor(difficulty: Option<string>): (text: string)
    ensures |text| > 0
    ensures difficulty == Some("Easy") ==> text == EasyText
    ensures difficulty == Some("Hard") ==> text == HardText
    ensures difficulty != Some("Easy") && difficulty != Some("Hard") ==> text == MediumText
  {
    if difficulty.Some? && difficulty.value in DiffText then DiffText[difficulty.value]
    else DiffText["Medium"]
  }

  /** `room?.difficulty || 'Medium'`: a missing or empty label reads as Medium. */
  function EffectiveLabel(difficulty: Option<string>): (eff: string)
    ensures Truthy(eff)
    ensures difficulty.Some? && Truthy(difficulty.value) ==> eff == difficulty.value
    ensures difficulty.None? || difficulty == Some("") ==> eff == "Medium"
  {
    if difficulty.Some? && Truthy(difficulty.value) then difficulty.value else "Medium"
  }

  /** `ranges[diff] || [40, 60]` with `diff` the effective label. */
  function RangeFor(difficulty: Option<string>): (range: WpmRange)
    ensures 30 <= range.min < range.max <= 100
    ensures difficulty == Some("Easy") ==> range == WpmRange(30, 45)
    ensures difficulty == Some("Medium") ==> range == WpmRange(45, 70)
    ensures difficulty == Some("Hard") ==> range == WpmRange(65, 100)
    ensures difficulty == None || difficulty == Some("") ==> range == WpmRange(45, 70)
    ensures difficulty.Some? && difficulty.value !in {"", "Easy", "Medium", "Hard"} ==> range == WpmRange(40, 60)
  {
    var eff := EffectiveLabel(difficulty);
    if eff in Ranges then Ranges[eff] else FallbackRange
  }

  /**
   * A label outside the table still gets the Medium passage, but its bots
   * race at the fallback speeds, not Medium's: the two lookups fall back
   * differently.
   */
  lemma UnknownLabelFallbacks(name: string)
    requires name !in {"", "Easy", "Medium", "Hard"}
    ensures TextFor(Some(name)) == TextFor(Some("Medium"))
    ensures RangeFor(Some(name)) != RangeFor(Some("Medium"))
  {
  }

  /** The passages' lengths; being different, the three passages are distinct. */
  lemma PassageLengths()
    ensures |EasyText| == 113 && |MediumText| == 111 && |HardText| == 117
    ensures EasyText != MediumText && MediumText != HardText && EasyText != HardText
  {
  }
}
