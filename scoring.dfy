/** Composite score and advice rules of web_app.py. Probabilities are
    `real`s: only comparisons and one affine formula are involved. */
module Scoring {

  /** A probability in the closed unit interval. web_app.py never checks
      this; it is a premise of the score bounds only. */
  predicate InUnit(p: real)
  {
    0.0 <= p <= 1.0
  }

  /** `score(h, d, hy)`: 100 minus the unweighted mean of the three
      probabilities, expressed in percent. For probabilities in [0,1] the
      score lies in [0,100]; outside that range the application returns whatever
      the formula gives. */
  function Score(h: real, d: real, hy: real): (s: real)
    ensures InUnit(h) && InUnit(d) && InUnit(hy) ==> 0.0 <= s <= 100.0
    ensures s == 100.0 <==> h + d + hy == 0.0
    ensures s == 0.0 <==> h + d + hy == 3.0
  {
    100.0 - ((h + d + hy) / 3.0) * 100.0
  }

  /** Raising any one risk never raises the score. */
  lemma ScoreAntitone(h: real, d: real, hy: real, h': real, d': real, hy': real)
    requires h <= h' && d <= d' && hy <= hy'
    ensures Score(h', d', hy') <= Score(h, d, hy)
  {
  }

  /** The score depends on the three risks only through their sum, so the
      order of the arguments does not matter. */
  lemma ScoreSymmetric(h: real, d: real, hy: real)
    ensures Score(h, d, hy) == Score(d, h, hy) == Score(hy, d, h)
  {
  }

  const HeartTip: string := "Do daily cardio and avoid oily food."
  const DiabetesTip: string := "Reduce sugar and refined carbs."
  const HypertensionTip: string := "Reduce salt and manage stress and have enough sleep."
  const Fallback: string := "Maintain your healthy lifestyle!"

  /** Position of each message in the fixed order heart, diabetes,
      hypertension, fallback; 4 for any other text. */
  function Position(t: string): nat
  {
    if t == HeartTip then 0
    else if t == DiabetesTip then 1
    else if t == HypertensionTip then 2
    else if t == Fallback then 3
    else 4
  }

  /** A tip is triggered by a probability strictly above one half. */
  predicate Triggers(p: real)
  {
    p > 0.5
  }

  /** `advice(h, d, hy)`: one fixed tip per probability strictly above 0.5,
      appended in the order heart, diabetes, hypertension; when none was
      appended, the single fallback message. */
  function Advice(h: real, d: real, hy: real): (tips: seq<string>)
    ensures 1 <= |tips| <= 3
    ensures HeartTip in tips <==> Triggers(h)
    ensures DiabetesTip in tips <==> Triggers(d)
    ensures HypertensionTip in tips <==> Triggers(hy)
    ensures Fallback in tips <==> !Triggers(h) && !Triggers(d) && !Triggers(hy)
    ensures Fallback in tips ==> tips == [Fallback]
    ensures forall i, j :: 0 <= i < j < |tips| ==> Position(tips[i]) < Position(tips[j])
    ensures forall i :: 0 <= i < |tips| ==> Position(tips[i]) < 4
  {
    var tips := (if Triggers(h) then [HeartTip] else [])
              + (if Triggers(d) then [DiabetesTip] else [])
              + (if Triggers(hy) then [HypertensionTip] else []);
    if tips == [] then [Fallback] else tips
  }

  /** 0.5 itself triggers nothing: the fallback alone. */
  lemma AdviceAtHalf()
    ensures Advice(0.5, 0.5, 0.5) == [Fallback]
  {
  }

  /** One high heart risk: the heart tip alone, and a score of 60. */
  lemma HeartOnlyExample()
    ensures Advice(0.7, 0.3, 0.2) == [HeartTip]
    ensures Score(0.7, 0.3, 0.2) == 60.0
  {
    assert [HeartTip] + [] + [] == [HeartTip];
  }
}
