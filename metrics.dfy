/**
 * The player's metrics in a race room (src/components/RaceRoom.jsx):
 * words per minute, accuracy against the passage, progress along it, and
 * the correct / wrong / pending state each passage character is drawn in.
 * All arithmetic is exact; `Math.round` is `Js.Round`.
 */
module Metrics {
  import opened Js

  /** Characters that make one "word" in the words-per-minute convention. */
  const CharsPerWord: real := 5.0
  /** Milliseconds in a minute. */
  const MsPerMinute: real := 60000.0

  /** The unrounded typing rate: `(chars / 5) / (ms / 60000)`. */
  function RawRate(chars: nat, ms: int): real
    requires ms != 0
  {
    (chars as real / CharsPerWord) / (ms as real / MsPerMinute)
  }

  /**
   * `wordsPerMinute(chars, ms)`: 0 for a zero duration (the `!ms` guard),
   * otherwise the rate rounded and clamped at 0 from below.
   */
  function WordsPerMinute(chars: nat, ms: int): (r: nat)
    ensures ms <= 0 ==> r == 0
    ensures ms > 0 ==> r as real - 0.5 <= (chars * 12000) as real / ms as real < r as real + 0.5
  {
    if ms == 0 then 0
    else
      RawRateValue(chars, ms);
      var rounded := Round(RawRate(chars, ms));
      if rounded < 0 then 0 else rounded
  }

  /** Both ways of writing the rate agree, and it has the sign of `ms`. */
  lemma RawRateValue(chars: nat, ms: int)
    requires ms != 0
    ensures RawRate(chars, ms) == (chars * 12000) as real / ms as real
    ensures ms < 0 ==> RawRate(chars, ms) <= 0.0
  {
  }

  /** Typing more characters in the same time never lowers the rate. */
  lemma WordsPerMinuteMonotonic(c1: nat, c2: nat, ms: int)
    requires c1 <= c2
    ensures WordsPerMinute(c1, ms) <= WordsPerMinute(c2, ms)
  {
    if ms > 0 {
      RawRateValue(c1, ms);
      RawRateValue(c2, ms);
      assert (c1 * 12000) as real / ms as real <= (c2 * 12000) as real / ms as real;
      RoundMonotonic(RawRate(c1, ms), RawRate(c2, ms));
    }
  }

  /**
   * Number of typed positions that match the passage, as the accuracy loop
   * counts them: a position past the end of the passage never matches,
   * because `target[i]` is `undefined` there.
   */
  function CorrectCount(input: string, target: string): (n: nat)
    ensures n <= |input|
    decreases |input|
  {
    if input == [] then 0
    else
      var i := |input| - 1;
      CorrectCount(input[..i], target) + (if i < |target| && input[i] == target[i] then 1 else 0)
  }

  /** The accuracy percentage: 100 for empty input, else the rounded share of matches. */
  function AccuracyOf(input: string, target: string): (r: int)
    ensures 0 <= r <= 100
    ensures input == [] ==> r == 100
  {
    if |input| == 0 then 100
    else
      var share := (CorrectCount(input, target) as real / |input| as real) * 100.0;
      assert 0.0 <= share <= 100.0;
      RoundMonotonic(0.0, share);
      RoundMonotonic(share, 100.0);
      RoundOfInt(0);
      RoundOfInt(100);
      Round(share)
  }

  /** The accuracy loop: count the matching positions, then take the share. */
  method Accuracy(input: string, target: string) returns (acc: int)
    ensures acc == AccuracyOf(input, target)
    ensures 0 <= acc <= 100
  {
    var correct := 0;
    for i := 0 to |input|
      invariant correct == CorrectCount(input[..i], target)
    {
      assert input[..i + 1][..i] == input[..i];
      if i < |target| && input[i] == target[i] {
        correct := correct + 1;
      }
    }
    assert input[..|input|] == input;
    acc := if |input| > 0 then Round((correct as real / |input| as real) * 100.0) else 100;
  }

  /** Characters typed past the end of the passage never count as correct. */
  lemma {:induction false} CorrectCountPastTarget(input: string, target: string)
    requires |input| >= |target|
    ensures CorrectCount(input, target) == CorrectCount(input[..|target|], target)
    ensures CorrectCount(input, target) <= |target|
    decreases |input|
  {
    if |input| > |target| {
      var i := |input| - 1;
      assert input[..i][..|target|] == input[..|target|];
      CorrectCountPastTarget(input[..i], target);
    } else {
      assert input[..|target|] == input;
    }
  }

  /** Every typed character matches exactly when the input is a prefix of the passage. */
  lemma {:induction false} AllCorrectIffPrefix(input: string, target: string)
    ensures CorrectCount(input, target) == |input| <==> input <= target
    decreases |input|
  {
    if input != [] {
      var i := |input| - 1;
      AllCorrectIffPrefix(input[..i], target);
      if input <= target {
        assert input[..i] <= target;
      }
    }
  }

  /** A player who has typed only correct characters has 100% accuracy. */
  lemma PrefixIsFullyAccurate(input: string, target: string)
    requires input <= target
    ensures AccuracyOf(input, target) == 100
  {
    AllCorrectIffPrefix(input, target);
    if input != [] {
      assert (|input| as real / |input| as real) * 100.0 == 100.0;
      RoundOfInt(100);
    }
  }

  /** How one passage character is drawn. */
  datatype CharState = Pending | Correct | Wrong

  /** The state of passage character `i`: pending if not typed yet, else whether it matches. */
  function Classify(input: string, target: string, i: nat): (st: CharState)
    requires i < |target|
    ensures st == Pending <==> i >= |input|
    ensures st == Correct <==> i < |input| && input[i] == target[i]
    ensures st == Wrong <==> i < |input| && input[i] != target[i]
  {
    if i >= |input| then Pending
    else if input[i] == target[i] then Correct
    else Wrong
  }

  /** The states of the whole passage, character by character. */
  function Render(input: string, target: string): (states: seq<CharState>)
    ensures |states| == |target|
    ensures forall i :: 0 <= i < |target| ==> states[i] == Classify(input, target, i)
  {
    seq(|target|, i requires 0 <= i < |target| => Classify(input, target, i))
  }

  /** How many entries of `states` equal `st`. */
  function CountState(states: seq<CharState>, st: CharState): (n: nat)
    ensures n <= |states|
    decreases |states|
  {
    if states == [] then 0
    else CountState(states[..|states| - 1], st) + (if states[|states| - 1] == st then 1 else 0)
  }

  lemma {:induction false} CountStatePrefix(states: seq<CharState>, k: nat, st: CharState)
    requires k <= |states|
    requires forall j :: k <= j < |states| ==> states[j] != st
    ensures CountState(states, st) == CountState(states[..k], st)
    decreases |states|
  {
    if |states| > k {
      var i := |states| - 1;
      assert states[..i][..k] == states[..k];
      CountStatePrefix(states[..i], k, st);
    } else {
      assert states[..k] == states;
    }
  }

  lemma {:induction false} RenderedPrefixCount(input: string, target: string, k: nat)
    requires k <= |input| && k <= |target|
    ensures CountState(Render(input, target)[..k], Correct) == CorrectCount(input[..k], target)
    decreases k
  {
    if k > 0 {
      var states := Render(input, target);
      assert states[..k][..k - 1] == states[..k - 1];
      assert input[..k][..k - 1] == input[..k - 1];
      RenderedPrefixCount(input, target, k - 1);
    }
  }

  /**
   * The number of passage characters drawn as correct equals the accuracy
   * loop's count of correct characters.
   */
  lemma RenderedCorrectEqualsCount(input: string, target: string)
    ensures CountState(Render(input, target), Correct) == CorrectCount(input, target)
  {
    var states := Render(input, target);
    if |input| <= |target| {
      CountStatePrefix(states, |input|, Correct);
      RenderedPrefixCount(input, target, |input|);
      assert input[..|input|] == input;
    } else {
      CorrectCountPastTarget(input, target);
      RenderedPrefixCount(input, target, |target|);
      assert states[..|target|] == states;
    }
  }

  /** `youProgress = Math.min(1, input.length / target.length)`. */
  function Progress(typed: nat, targetLen: nat): (p: real)
    requires targetLen > 0
    ensures 0.0 <= p <= 1.0
    ensures p == 1.0 <==> typed >= targetLen
    ensures typed < targetLen ==> p * targetLen as real == typed as real
  {
    var share := typed as real / targetLen as real;
    assert share >= 1.0 <==> typed >= targetLen by {
      assert share * targetLen as real == typed as real;
    }
    MinReal(1.0, share)
  }

  /** Typing more never lowers the player's progress. */
  lemma ProgressMonotonic(t1: nat, t2: nat, targetLen: nat)
    requires targetLen > 0 && t1 <= t2
    ensures Progress(t1, targetLen) <= Progress(t2, targetLen)
  {
    assert t1 as real / targetLen as real <= t2 as real / targetLen as real;
  }

  /**
   * `youWpm`: 0 until the race has started with a (truthy) start time;
   * otherwise the rate over the last recorded elapsed time, or over the
   * time since the start when nothing has been recorded yet (`elapsed || …`).
   */
  function PlayerWpm(started: bool, startTime: Option<int>, typed: nat, elapsed: int, now: int): (r: nat)
    ensures !started || startTime == None || startTime == Some(0) ==> r == 0
    ensures started && startTime.Some? && startTime.value != 0 && elapsed != 0 ==>
              r == WordsPerMinute(typed, elapsed)
    ensures started && startTime.Some? && startTime.value != 0 && elapsed == 0 ==>
              r == WordsPerMinute(typed, now - startTime.value)
  {
    if started && startTime.Some? && startTime.value != 0 then
      WordsPerMinute(typed, if elapsed != 0 then elapsed else now - startTime.value)
    else 0
  }

  /** A three-letter passage typed exactly in six seconds: full progress, 100% accuracy, 6 WPM. */
  lemma ScenarioCat()
    ensures Progress(|"cat"|, |"cat"|) == 1.0
    ensures AccuracyOf("cat", "cat") == 100
    ensures WordsPerMinute(3, 6000) == 6
  {
    PrefixIsFullyAccurate("cat", "cat");
    assert RawRate(3, 6000) == 6.0;
    RoundOfInt(6);
  }
}
