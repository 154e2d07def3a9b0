/** Section order of the PDF report built by `pdf_report` in web_app.py.
    The rendered text of each paragraph and the `%.1f` formatting are left
    abstract: a section records what it shows, not how it is printed. */
module Report {
  import opened Risk
  import opened Scoring

  datatype Condition = Heart | Diabetes | Hypertension

  /** One flowable of the report story. `Gap` is `Spacer(1, 12)`. */
  datatype Section =
    | Title(text: string)
    | Gap
    | PatientLine(name: string)
    | AgeGenderLine(age: int, gender: string)
    | RiskLine(condition: Condition, percent: real, category: RiskCategory)
    | ScoreLine(score: real)
    | TipLine(text: string)

  const ReportTitle: string := "AI Digital Twin Health Report"

  /** Number of sections before the first advice line. */
  const HeaderLength: nat := 11

  /** The fixed part of the story, up to and including the spacer after the
      score line. */
  function Header(name: string, age: int, gender: string,
                  h: real, d: real, hy: real, s: real): (head: seq<Section>)
    ensures |head| == HeaderLength
    ensures head[0] == Title(ReportTitle) && head[9] == ScoreLine(s)
    ensures forall k :: 0 <= k < |head| ==> !head[k].TipLine?
  {
    [ Title(ReportTitle), Gap,
      PatientLine(name), AgeGenderLine(age, gender), Gap,
      RiskLine(Heart, h * 100.0, Classify(h)),
      RiskLine(Diabetes, d * 100.0, Classify(d)),
      RiskLine(Hypertension, hy * 100.0, Classify(hy)), Gap,
      ScoreLine(s), Gap ]
  }

  /** One advice paragraph per tip, in the order of the tips. */
  function TipLines(tips: seq<string>): (lines: seq<Section>)
    ensures |lines| == |tips|
    ensures forall k :: 0 <= k < |tips| ==> lines[k] == TipLine(tips[k])
  {
    if tips == [] then [] else [TipLine(tips[0])] + TipLines(tips[1..])
  }

  /** The whole story: the header, then the advice for the three risks. */
  function ReportSections(name: string, age: int, gender: string,
                          h: real, d: real, hy: real, s: real): (story: seq<Section>)
    ensures |story| == HeaderLength + |Advice(h, d, hy)|
    ensures forall k :: HeaderLength <= k < |story| <==> 0 <= k < |story| && story[k].TipLine?
  {
    Header(name, age, gender, h, d, hy, s) + TipLines(Advice(h, d, hy))
  }

  /** What a reader of the report sees, by position: title, patient,
      age and gender, the three risks with their categories, the score, and
      after that only advice lines, exactly the advice for these risks. */
  lemma ReportLayout(name: string, age: int, gender: string,
                     h: real, d: real, hy: real, s: real)
    ensures var story := ReportSections(name, age, gender, h, d, hy, s);
      && HeaderLength + 1 <= |story| <= HeaderLength + 3
      && story[0] == Title(ReportTitle)
      && story[2] == PatientLine(name)
      && story[3] == AgeGenderLine(age, gender)
      && story[5].category == Classify(h) && story[5].condition == Heart
      && story[6].category == Classify(d) && story[6].condition == Diabetes
      && story[7].category == Classify(hy) && story[7].condition == Hypertension
      && story[9] == ScoreLine(s)
      && (forall k :: 0 <= k < HeaderLength ==> !story[k].TipLine?)
      && (forall k :: HeaderLength <= k < |story| ==>
            story[k] == TipLine(Advice(h, d, hy)[k - HeaderLength]))
  {
  }

  /** `pdf_report(name, age, gender, h, d, hy, s)`: append the header
      flowables one by one, then one paragraph per advice tip. */
  method BuildStory(name: string, age: int, gender: string,
                    h: real, d: real, hy: real, s: real)
    returns (story: seq<Section>)
    ensures story == ReportSections(name, age, gender, h, d, hy, s)
  {
    story := [];
    story := story + [Title(ReportTitle)];
    story := story + [Gap];
    story := story + [PatientLine(name)];
    story := story + [AgeGenderLine(age, gender)];
    story := story + [Gap];
    story := story + [RiskLine(Heart, h * 100.0, Classify(h))];
    story := story + [RiskLine(Diabetes, d * 100.0, Classify(d))];
    story := story + [RiskLine(Hypertension, hy * 100.0, Classify(hy))];
    story := story + [Gap];
    story := story + [ScoreLine(s)];
    story := story + [Gap];
    ghost var header := story;
    assert header == Header(name, age, gender, h, d, hy, s);
    var tips := Advice(h, d, hy);
    for i := 0 to |tips|
      invariant |story| == HeaderLength + i
      invariant story[..HeaderLength] == header
      invariant forall k :: 0 <= k < i ==> story[HeaderLength + k] == TipLine(tips[k])
    {
      story := story + [TipLine(tips[i])];
    }
    assert story == header + TipLines(tips);
  }
}
