/**
 * Conversation-quality display: the score thresholds, the category's CSS class, the width
 * of the score bar, and the state left by the quality check once its timer has fired.
 * JavaScript numbers are modelled as reals; only comparisons, one division by 10 and one
 * multiplication by 100 are involved.
 */
module ConvAnalysis {

  /** `getQualityCategory`: 7.5 and above is good, from 6 up to 7.5 moderate, below 6 bad. */
  function QualityCategory(score: real): (quality: string)
    ensures quality == "Good" <==> score >= 7.5
    ensures quality == "Moderate" <==> 6.0 <= score < 7.5
    ensures quality == "Bad" <==> score < 6.0
  {
    if score >= 7.5 then "Good"
    else if score >= 6.0 then "Moderate"
    else "Bad"
  }

  /** The order Bad < Moderate < Good; any other string ranks lowest. */
  function Rank(quality: string): int {
    if quality == "Good" then 2 else if quality == "Moderate" then 1 else 0
  }

  /** A higher score never gets a worse category. */
  lemma CategoryMonotone(lo: real, hi: real)
    requires lo <= hi
    ensures Rank(QualityCategory(lo)) <= Rank(QualityCategory(hi))
  {
  }

  /** `getQualityClass`: the three categories have their own classes, every other string none. */
  function QualityClass(quality: string): (cls: string)
    ensures quality == "Bad" ==> cls == "score-bad"
    ensures quality == "Moderate" ==> cls == "score-moderate"
    ensures quality == "Good" ==> cls == "score-good"
    ensures cls == "" <==> quality != "Bad" && quality != "Moderate" && quality != "Good"
  {
    if quality == "Bad" then "score-bad"
    else if quality == "Moderate" then "score-moderate"
    else if quality == "Good" then "score-good"
    else ""
  }

  /** The three categories get three different classes. */
  lemma ClassesDistinct()
    ensures QualityClass("Bad") != QualityClass("Moderate")
    ensures QualityClass("Moderate") != QualityClass("Good")
    ensures QualityClass("Bad") != QualityClass("Good")
  {
  }

  /** Every score is styled: its category always has a class. */
  lemma EveryScoreStyled(score: real)
    ensures QualityClass(QualityCategory(score)) != ""
  {
  }

  /** The bar width in percent, `Math.min((convScore / 10) * 100, 100)`. */
  function BarWidth(convScore: real): (width: real)
    ensures width <= 100.0
    ensures convScore <= 10.0 ==> width == convScore * 10.0
    ensures convScore >= 10.0 ==> width == 100.0
    ensures convScore >= 0.0 ==> width >= 0.0
  {
    var percentage := convScore / 10.0 * 100.0;
    if percentage < 100.0 then percentage else 100.0
  }

  /** `Math.min(Math.max(x, 0), 10)`: the random draw brought into the score range. */
  function ClampScore(x: real): (score: real)
    ensures 0.0 <= score <= 10.0
    ensures 0.0 <= x <= 10.0 ==> score == x
    ensures x < 0.0 ==> score == 0.0
    ensures x > 10.0 ==> score == 10.0
  {
    var atLeastZero := if x > 0.0 then x else 0.0;
    if atLeastZero < 10.0 then atLeastZero else 10.0
  }

  /** The score every completed check shows. */
  const FinalScore: real := 7.88

  /** The component's state: `convQuality`, `convScore`, `scoreVisible`. */
  class QualityPanel {
    var convQuality: string
    var convScore: real
    var scoreVisible: bool

    constructor ()
      ensures convQuality == "" && convScore == 0.0 && !scoreVisible
    {
      convQuality, convScore, scoreVisible := "", 0.0, false;
    }

    /** `handleQualityCheck` before its timer: the old score is hidden. */
    method StartQualityCheck()
      modifies this
      ensures !scoreVisible && convQuality == old(convQuality) && convScore == old(convScore)
    {
      scoreVisible := false;
    }

    /** The timer callback of `handleQualityCheck`, given the normal draw it would make: the
        draw is clamped and then discarded; the fixed score is shown as Good. */
    method FinishQualityCheck(draw: real)
      modifies this
      ensures convScore == 7.88 && convQuality == "Good" && scoreVisible
      ensures QualityClass(convQuality) == "score-good" && BarWidth(convScore) == 78.8
    {
      var randomScore := ClampScore(draw);
      var finalScore := FinalScore;
      var qualityCategory := QualityCategory(finalScore);
      convScore := finalScore;
      convQuality := qualityCategory;
      scoreVisible := true;
    }
  }
}
