/**
 * The readiness score gauge (components/ai-elements/readiness-score-gauge.tsx):
 * the score clamped to 0..100, its three buckets, and the colour and status
 * label each bucket shows. JavaScript numbers are modelled as `real`
 * (NaN is not modelled).
 */
module ReadinessGauge {
  import opened Wrappers

  /** `Math.max(0, Math.min(100, score))`. */
  function Clamp(score: real): (r: real)
    ensures 0.0 <= r <= 100.0
    ensures 0.0 <= score <= 100.0 ==> r == score
    ensures score < 0.0 ==> r == 0.0
    ensures score > 100.0 ==> r == 100.0
  {
    var capped := if 100.0 < score then 100.0 else score;
    if 0.0 > capped then 0.0 else capped
  }

  /** Clamping twice is clamping once. */
  lemma ClampIdempotent(score: real)
    ensures Clamp(Clamp(score)) == Clamp(score)
  {
  }

  datatype Bucket = Low | Medium | High

  /** The thresholds shared by `getScoreColor` and `status`: below 33, below 66, the rest. */
  function BucketOf(score: real): (b: Bucket)
    ensures b == Low <==> score < 33.0
    ensures b == High <==> score >= 66.0
  {
    if score < 33.0 then Low else if score < 66.0 then Medium else High
  }

  function Rank(b: Bucket): nat {
    match b
    case Low => 0
    case Medium => 1
    case High => 2
  }

  /** A higher score never lands in a lower bucket. */
  lemma BucketMonotone(a: real, b: real)
    requires a <= b
    ensures Rank(BucketOf(a)) <= Rank(BucketOf(b))
  {
  }

  /** Clamping never changes the bucket. */
  lemma BucketOfClamp(score: real)
    ensures BucketOf(Clamp(score)) == BucketOf(score)
  {
  }

  /** `getScoreColor(score)`: red, orange or green by bucket. */
  function ScoreColor(score: real): (r: string)
    ensures BucketOf(score) == Low ==> r == "#EF4444"
    ensures BucketOf(score) == Medium ==> r == "#FFBF66"
    ensures BucketOf(score) == High ==> r == "#2EFFAA"
  {
    if score < 33.0 then "#EF4444" else if score < 66.0 then "#FFBF66" else "#2EFFAA"
  }

  /** The `status` label: Low, Medium or High by bucket. */
  function StatusLabel(score: real): (r: string)
    ensures BucketOf(score) == Low ==> r == "Low"
    ensures BucketOf(score) == Medium ==> r == "Medium"
    ensures BucketOf(score) == High ==> r == "High"
  {
    if score < 33.0 then "Low" else if score < 66.0 then "Medium" else "High"
  }

  /** Colour and label always name the same bucket: equal colours, equal labels. */
  lemma ColorAgreesWithStatus(a: real, b: real)
    ensures ScoreColor(a) == ScoreColor(b) <==> StatusLabel(a) == StatusLabel(b)
  {
    var x, y := BucketOf(a), BucketOf(b);
    if x != y {
      assert ScoreColor(a)[1] != ScoreColor(b)[1];
      assert StatusLabel(a)[0] != StatusLabel(b)[0] || |StatusLabel(a)| != |StatusLabel(b)|;
    }
  }

  class Gauge {
    const targetScore: real
    const animate: bool
    /** The score the arc, colour and label are drawn from. */
    var animatedScore: real

    /**
     * The `animate` prop is optional and defaults to true; the shown score
     * starts at 0, or at the unclamped target when not animating.
     */
    constructor(score: real, animateProp: Option<bool>)
      ensures targetScore == score
      ensures animateProp.None? ==> animate
      ensures animateProp.Some? ==> animate == animateProp.value
      ensures animatedScore == (if animate then 0.0 else score)
    {
      targetScore := score;
      animate := animateProp.GetOr(true);
      animatedScore := if animateProp.GetOr(true) then 0.0 else score;
    }

    /** `clampedScore`. */
    function ClampedScore(): (r: real)
      reads this
      ensures 0.0 <= r <= 100.0
      ensures 0.0 <= targetScore <= 100.0 ==> r == targetScore
      ensures targetScore < 0.0 ==> r == 0.0
      ensures targetScore > 100.0 ==> r == 100.0
    {
      Clamp(targetScore)
    }

    /** The effect without animation: the shown score becomes the clamped one. */
    method SettleWithoutAnimation()
      requires !animate
      modifies this
      ensures animatedScore == ClampedScore()
      ensures 0.0 <= animatedScore <= 100.0
    {
      animatedScore := Clamp(targetScore);
    }

    /** The arc and label colour: red, orange or green by the shown score's bucket. */
    function Color(): (r: string)
      reads this
      ensures r == "#EF4444" <==> BucketOf(animatedScore) == Low
      ensures r == "#FFBF66" <==> BucketOf(animatedScore) == Medium
      ensures r == "#2EFFAA" <==> BucketOf(animatedScore) == High
    {
      ScoreColor(animatedScore)
    }

    /** The status text: Low, Medium or High by the shown score's bucket. */
    function Status(): (r: string)
      reads this
      ensures r == "Low" <==> BucketOf(animatedScore) == Low
      ensures r == "Medium" <==> BucketOf(animatedScore) == Medium
      ensures r == "High" <==> BucketOf(animatedScore) == High
    {
      StatusLabel(animatedScore)
    }
  }

  /**
   * Without animation, the colour and label shown before the effect (from
   * the unclamped target) are those shown after it.
   */
  method NoAnimationKeepsBucket(score: real) returns (g: Gauge)
    ensures !g.animate && g.targetScore == score
    ensures g.animatedScore == Clamp(score)
    ensures g.Color() == ScoreColor(score) && g.Status() == StatusLabel(score)
  {
    g := new Gauge(score, Some(false));
    BucketOfClamp(score);
    g.SettleWithoutAnimation();
  }
}
