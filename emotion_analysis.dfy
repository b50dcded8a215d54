/** The shared arousal/valence emotion classifier and the nine-key score vector
    (mood-atlas-src/src/utils/emotionAnalysis.ts). */
module EmotionAnalysis {
  import opened Js

  /** The nine labels, in the order the score vector is filled. */
  const EmotionLabels: seq<string> :=
    ["Happy", "Energetic", "Excited", "Romantic", "Calm", "Peaceful", "Sad", "Melancholic", "Angry"]

  /** First-match quadrant rule. Each ensures gives the exact region of the plane that
      yields one label, so the nine regions partition every (energy, valence) pair. */
  function AnalyzeSongEmotion(energy: real, valence: real): (r: string)
    ensures r in EmotionLabels
    ensures r == "Happy" <==> energy > 0.7 && valence > 0.7
    ensures r == "Energetic" <==> energy > 0.7 && 0.4 < valence <= 0.7
    ensures r == "Angry" <==> energy > 0.7 && valence <= 0.4
    ensures r == "Excited" <==> 0.4 < energy <= 0.7 && valence > 0.7
    ensures r == "Romantic" <==> 0.4 < energy <= 0.7 && 0.4 < valence <= 0.7
    ensures r == "Peaceful" <==> energy <= 0.4 && valence > 0.5
    ensures r == "Calm" <==> energy <= 0.4 && 0.3 < valence <= 0.5
    ensures r == "Melancholic" <==>
              (0.4 < energy <= 0.7 && valence <= 0.4) || (0.3 < energy <= 0.4 && valence <= 0.3)
    ensures r == "Sad" <==> energy <= 0.3 && valence <= 0.3
  {
    if energy > 0.7 && valence > 0.7 then "Happy"
    else if energy > 0.7 && valence > 0.4 then "Energetic"
    else if energy > 0.7 && valence <= 0.4 then "Angry"
    else if energy > 0.4 && valence > 0.7 then "Excited"
    else if energy > 0.4 && valence > 0.4 then "Romantic"
    else if energy <= 0.4 && valence > 0.5 then "Peaceful"
    else if energy <= 0.4 && valence > 0.3 then "Calm"
    else if energy > 0.3 && valence <= 0.4 then "Melancholic"
    else "Sad"
  }

  /** The unclamped blend for one label; an unknown label keeps the initial 0.1. */
  function RawScore(emotion: string, energy: real, valence: real): real
  {
    match emotion
    case "Happy" => (if energy > 0.5 then 0.5 else 0.2) + valence * 0.5
    case "Energetic" => energy * 0.8 + (if valence > 0.4 then 0.2 else 0.0)
    case "Excited" => energy * 0.5 + valence * 0.5
    case "Romantic" => (1.0 - Abs(energy - 0.5)) * 0.5 + valence * 0.3
    case "Calm" => (1.0 - energy) * 0.6 + (if valence > 0.4 then 0.4 else 0.2)
    case "Peaceful" => (1.0 - energy) * 0.5 + valence * 0.4
    case "Sad" => (1.0 - valence) * 0.7 + (if energy < 0.5 then 0.3 else 0.0)
    case "Melancholic" => (1.0 - valence) * 0.5 + energy * 0.3
    case "Angry" => energy * 0.7 + (1.0 - valence) * 0.3
    case _ => 0.1
  }

  /** The score vector as a value: every label mapped to its clamped blend. */
  function EmotionScores(energy: real, valence: real): (scores: map<string, real>)
    ensures scores.Keys == set l | l in EmotionLabels
    ensures forall l :: l in scores ==> 0.1 <= scores[l] <= 1.0
  {
    map l | l in EmotionLabels :: Clamp(RawScore(l, energy, valence), 0.1, 1.0)
  }

  /** The `forEach` over the label list that fills the `scores` record one key at a time. */
  method GenerateEmotionScores(energy: real, valence: real) returns (scores: map<string, real>)
    ensures scores == EmotionScores(energy, valence)
    ensures scores.Keys == set l | l in EmotionLabels
    ensures forall l :: l in scores ==> 0.1 <= scores[l] <= 1.0
  {
    scores := map[];
    var i := 0;
    while i < |EmotionLabels|
      invariant 0 <= i <= |EmotionLabels|
      invariant scores.Keys == set l | l in EmotionLabels[..i]
      invariant forall l :: l in scores ==> scores[l] == Clamp(RawScore(l, energy, valence), 0.1, 1.0)
    {
      var emotion := EmotionLabels[i];
      var score := 0.1;
      score := RawScore(emotion, energy, valence);
      scores := scores[emotion := Clamp(score, 0.1, 1.0)];
      assert EmotionLabels[..i + 1] == EmotionLabels[..i] + [emotion];
      i := i + 1;
    }
    assert EmotionLabels[..i] == EmotionLabels;
  }

  /** The Excited score treats energy and valence alike. */
  lemma ExcitedSymmetric(energy: real, valence: real)
    ensures EmotionScores(energy, valence)["Excited"] == EmotionScores(valence, energy)["Excited"]
  {
  }

  /** More valence never lowers the Happy score. */
  lemma HappyMonotoneInValence(energy: real, v1: real, v2: real)
    requires v1 <= v2
    ensures EmotionScores(energy, v1)["Happy"] <= EmotionScores(energy, v2)["Happy"]
  {
    ClampMonotone(RawScore("Happy", energy, v1), RawScore("Happy", energy, v2), 0.1, 1.0);
  }
}
