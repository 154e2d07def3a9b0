/** Risk classifier of web_app.py: a model probability becomes one of three
    ordinal categories, with fixed cut points 0.35 and 0.65. */
module Risk {

  datatype RiskCategory = Low | Moderate | High

  /** Ordinal position of a category, used to state monotonicity. */
  function Rank(c: RiskCategory): nat
  {
    match c
    case Low => 0
    case Moderate => 1
    case High => 2
  }

  /** The text the application shows for a category. Every label ends in
      " Risk", and its first letter tells the category, so different
      categories never share a label. */
  function Label(c: RiskCategory): (s: string)
    ensures |s| > 5 && s[|s| - 5..] == " Risk"
    ensures s[0] == 'L' <==> c == Low
    ensures s[0] == 'M' <==> c == Moderate
    ensures s[0] == 'H' <==> c == High
  {
    match c
    case Low => "Low Risk"
    case Moderate => "Moderate Risk"
    case High => "High Risk"
  }

  /** `risk(p)`: the cascade `p < 0.35`, else `p < 0.65`, else High.
      The contract states each category as the interval it covers, so the
      boundary 0.35 is Moderate and 0.65 is High. No range is required of
      `p`: web_app.py does not clamp model output. */
  function Classify(p: real): (c: RiskCategory)
    ensures c == Low <==> p < 0.35
    ensures c == Moderate <==> 0.35 <= p < 0.65
    ensures c == High <==> 0.65 <= p
  {
    if p < 0.35 then Low
    else if p < 0.65 then Moderate
    else High
  }

  /** A larger probability never yields a lower category. */
  lemma ClassifyMonotone(p: real, q: real)
    requires p <= q
    ensures Rank(Classify(p)) <= Rank(Classify(q))
  {
  }
}
