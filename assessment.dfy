/** The "Generate Report" handler of web_app.py: three predictions, the
    score, the advice, one saved row and the rendered report. All three
    predictions are made before anything is saved; the report is rendered
    after the save. */
module Assessment {
  import opened Features
  import opened Scoring
  import opened Report
  import opened History

  /** The values the prediction tab has collected for one patient. */
  datatype Form = Form(
    name: string, age: int, gender: string,
    cp: real, trestbps: real, chol: real, thalach: real, oldpeak: real,
    pregnancies: real, glucose: real, bmi: real,
    salt: real, stress: real, sleep: real)

  /** The input of the heart model, keyed by its feature names. */
  function HeartInput(f: Form): (m: map<string, real>)
    ensures m.Keys == {"age", "cp", "trestbps", "chol", "thalach", "oldpeak"}
    ensures m["age"] == f.age as real && m["chol"] == f.chol
  {
    map["age" := f.age as real, "cp" := f.cp, "trestbps" := f.trestbps,
        "chol" := f.chol, "thalach" := f.thalach, "oldpeak" := f.oldpeak]
  }

  /** The input of the diabetes model. The pregnancies field is only asked
      of female patients; every other patient sends 0. */
  function DiabetesInput(f: Form): (m: map<string, real>)
    ensures m.Keys == {"Pregnancies", "Glucose", "BMI", "Age"}
    ensures f.gender != "Female" ==> m["Pregnancies"] == 0.0
  {
    map["Pregnancies" := if f.gender == "Female" then f.pregnancies else 0.0,
        "Glucose" := f.glucose, "BMI" := f.bmi, "Age" := f.age as real]
  }

  /** The input of the hypertension model. */
  function HypertensionInput(f: Form): (m: map<string, real>)
    ensures m.Keys == {"Age", "Salt_Intake", "Stress_Score", "Sleep_Duration", "BMI"}
    ensures m["Age"] == f.age as real && m["BMI"] == f.bmi
  {
    map["Age" := f.age as real, "Salt_Intake" := f.salt, "Stress_Score" := f.stress,
        "Sleep_Duration" := f.sleep, "BMI" := f.bmi]
  }

  /** What one successful run produces for display and download. */
  datatype Assessment = Assessment(
    heart: real, diabetes: real, hypertension: real,
    score: real, tips: seq<string>, story: seq<Section>)

  /** How a run ends: the report was rendered; a prediction raised before
      anything was saved; or rendering the report raised after the row was
      saved. */
  datatype Outcome =
    | Done(result: Assessment)
    | PredictionFailed
    | RenderFailed(result: Assessment)

  /** The "Generate Report" button: predict the three risks, compute the
      score and advice, save one row stamped with `date`, build the report
      story and render it. `render` stands for ReportLab's `doc.build`, which
      may raise (false here). A failing prediction ends the run before the
      save, so the table is left exactly as it was; a failing render ends it
      after the save, so the row stays. */
  method GenerateReport(store: HistoryStore, heart: Predictor, diabetes: Predictor,
                        hypertension: Predictor, render: seq<Section> -> bool,
                        f: Form, date: string)
    returns (out: Outcome)
    requires store.Valid()
    modifies store
    ensures store.Valid()
    ensures out.PredictionFailed? <==>
      || Predict(heart, HeartInput(f)).None?
      || Predict(diabetes, DiabetesInput(f)).None?
      || Predict(hypertension, HypertensionInput(f)).None?
    ensures out.PredictionFailed? ==>
      store.records == old(store.records) && store.nextId == old(store.nextId)
    ensures !out.PredictionFailed? ==>
      var a := out.result;
      && Predict(heart, HeartInput(f)) == Some(a.heart)
      && Predict(diabetes, DiabetesInput(f)) == Some(a.diabetes)
      && Predict(hypertension, HypertensionInput(f)) == Some(a.hypertension)
      && a.score == Score(a.heart, a.diabetes, a.hypertension)
      && a.tips == Advice(a.heart, a.diabetes, a.hypertension)
      && a.story == ReportSections(f.name, f.age, f.gender,
                                   a.heart, a.diabetes, a.hypertension, a.score)
      && store.records == old(store.records)
           + [Record(old(store.nextId), f.name, f.age, f.gender,
                     a.heart, a.diabetes, a.hypertension, a.score, date)]
      && store.nextId == old(store.nextId) + 1
      && (out.RenderFailed? <==> !render(a.story))
  {
    var ph := Predict(heart, HeartInput(f));
    if ph.None? { return PredictionFailed; }
    var pd := Predict(diabetes, DiabetesInput(f));
    if pd.None? { return PredictionFailed; }
    var phy := Predict(hypertension, HypertensionInput(f));
    if phy.None? { return PredictionFailed; }
    var h, d, hy := ph.value, pd.value, phy.value;
    var s := Score(h, d, hy);
    var tips := Advice(h, d, hy);
    store.SaveReport(f.name, f.age, f.gender, h, d, hy, s, date);
    var story := BuildStory(f.name, f.age, f.gender, h, d, hy, s);
    var a := Assessment(h, d, hy, s, tips, story);
    if !render(story) { return RenderFailed(a); }
    return Done(a);
  }

  /** The dashboard as a client sees it: two patients saved, one deleted,
      the other's history intact. */
  method DashboardScenario(date: string)
  {
    var store := new HistoryStore();
    store.SaveReport("Ann", 40, "Female", 0.7, 0.3, 0.2, Score(0.7, 0.3, 0.2), date);
    store.SaveReport("Bob", 55, "Male", 0.1, 0.1, 0.1, Score(0.1, 0.1, 0.1), date);
    ghost var before := store.records;
    var names := store.GetAllPatients();
    assert before[0].name == "Ann" && before[1].name == "Bob";
    assert "Ann" in names && "Bob" in names;
    store.DeletePatient("Ann");
    var annHistory := store.GetHistory("Ann");
    DeletedPatientHasNoHistory(before, "Ann");
    assert annHistory == [];
    var bobHistory := store.GetHistory("Bob");
    DeleteKeepsOthers(before, "Ann", "Bob");
    assert bobHistory == ForPatient(before, "Bob");
    assert bobHistory == [before[1]];
    assert bobHistory[0].id == 2;
    store.DeleteAll();
    names := store.GetAllPatients();
    assert names == [];
  }
}
