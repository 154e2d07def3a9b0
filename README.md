# AI Digital Twin Healthcare: scoring and history engine

This project models the scoring and history engine of `web_app.py`, a single-file
Streamlit application. The application estimates a patient's heart, diabetes and
hypertension risk with three trained models. It then classifies each risk, combines
the three into a health score, derives advice, saves the assessment in a
`reports` table, and renders a PDF report.

The model has six modules:

- `Risk` (`risk.dfy`): the classifier `risk(p)`, with cut points 0.35 and 0.65.
- `Scoring` (`scoring.dfy`): `score(h, d, hy)` and the advice rules `advice(h, d, hy)`.
- `Features` (`features.dfy`): the reindex step of `predict`, and a trained
  predictor whose scaler and probability output are opaque function parameters.
- `History` (`history.dfy`): the `reports` table as a class `HistoryStore`. It holds
  the rows in rowid order and the AUTOINCREMENT counter. The module also has the
  query functions and the lemmas relating insert, query and delete.
- `Report` (`report.dfy`): the order of the flowables that `pdf_report` appends,
  including its loop over the advice tips.
- `Assessment` (`assessment.dfy`): the "Generate Report" handler. It makes three
  predictions, computes the score and advice, saves one row, and builds the report.

Probabilities and scores are `real`s. The timestamp is a parameter. The scaler
transform and `predict_proba` are function-typed fields of `Features.Predictor`.
They may fail, and a failure is `None`.

The application does not clamp, validate or roll back the following, and the model
follows it:

- Model output is never clamped to [0,1]. `Classify` and `Score` accept any real.
  The score bounds are proved only for inputs in [0,1].
- The patient name is not checked to be non-empty. Age and gender are stored as given.
- A failing prediction raises before `save_report`, so nothing is stored. Rendering
  the PDF happens after the save, so a rendering failure leaves the row in the table.
  The model's `GenerateReport` has an outcome for each of these cases.

## Model

| member | source | states |
|---|---|---|
| `Risk.Classify` | web_app.py:101-104 | Low exactly when p < 0.35, Moderate exactly when 0.35 <= p < 0.65, High exactly when p >= 0.65; so 0.35 is Moderate and 0.65 is High |
| `Risk.ClassifyMonotone` | web_app.py:101-104 | a larger probability never gives a lower category |
| `Risk.Label` | web_app.py:102-104 | every label ends in " Risk" and its first letter is L, M or H exactly for Low, Moderate and High, so different categories never share a label |
| `Scoring.Score` | web_app.py:106-107 | for probabilities in [0,1] the score lies in [0,100]; it is 100 exactly when all risks sum to 0 and 0 exactly when they sum to 3 |
| `Scoring.ScoreAntitone` | web_app.py:106-107 | raising any of the three risks never raises the score |
| `Scoring.ScoreSymmetric` | web_app.py:106-107 | the mean is unweighted: swapping arguments leaves the score unchanged |
| `Scoring.Advice` | web_app.py:109-115 | 1 to 3 messages; each tip is present iff its probability is strictly above 0.5; tips come in the order heart, diabetes, hypertension; the fallback is present iff no tip fires, and then it is the only message |
| `Scoring.AdviceAtHalf` | web_app.py:111-114 | advice(0.5, 0.5, 0.5) is exactly the fallback |
| `Scoring.HeartOnlyExample` | web_app.py:106-115 | h=0.7, d=0.3, hy=0.2 gives only the heart tip and a score of 60 |
| `Features.Reindex` | web_app.py:96-97 | one value per scaler feature name, in feature order: the input's value when the name is present, 0 otherwise |
| `Features.ReindexReadsOnlyFeatures` | web_app.py:97 | two inputs that agree on every feature name give the same row |
| `Features.ReindexDropsExtraKeys` | web_app.py:97 | an input key that is not a feature name has no effect |
| `Features.Predict` | web_app.py:95-99 | no probability exactly when the scaler transform of the reindexed row fails or the model fails on the scaled row |
| `Features.PredictReadsOnlyFeatures` | web_app.py:95-99 | a prediction depends on the input only through the scaler's feature names |
| `History.ForPatient` | web_app.py:83-84 | the history of a name holds all and only the rows with that name, and keeps ids ascending |
| `History.Without` | web_app.py:86-88 | deleting a name keeps all and only the rows with other names, and keeps ids ascending |
| `History.DistinctNames` | web_app.py:80-81 | every stored name appears once, no other name appears, and there are no more names than rows |
| `History.ForPatientAppend` | web_app.py:74-84 | after an insert, the history of the inserted name ends with the new row and every other history is unchanged |
| `History.DeletedPatientHasNoHistory` | web_app.py:83-88 | after deleting a name, its history is empty |
| `History.DeleteKeepsOthers` | web_app.py:83-88 | deleting one name leaves every other name's history unchanged, order included |
| `History.DeletePartitions` | web_app.py:86-88 | the rows kept and the rows removed by a delete add up to the table |
| `History.HistoryStore.constructor` | web_app.py:65-72 | a fresh table is empty and its next id is 1 |
| `History.HistoryStore.SaveReport` | web_app.py:74-78 | appends exactly one row with the given values and timestamp; its id is the counter, above every stored id; earlier rows are unchanged |
| `History.HistoryStore.GetAllPatients` | web_app.py:80-81 | each stored name exactly once, and only stored names |
| `History.HistoryStore.GetHistory` | web_app.py:83-84 | returns the rows of that name in table order |
| `History.HistoryStore.DeletePatient` | web_app.py:86-88 | the table becomes the rows with other names; the id counter is unchanged |
| `History.HistoryStore.DeleteAll` | web_app.py:90-92 | the table becomes empty; the AUTOINCREMENT counter is kept, so ids are never reused |
| `Report.Header` | web_app.py:121-132 | the fixed part has 11 sections, starts with the title, has the score line at position 9, and holds no advice line |
| `Report.ReportSections` | web_app.py:121-134 | the story has 11 sections plus one per advice tip, and a section is an advice line exactly when it comes after the fixed part |
| `Report.TipLines` | web_app.py:133-134 | one advice paragraph per tip, in the order of the tips |
| `Report.ReportLayout` | web_app.py:121-134 | the report has 12 to 14 sections: title, patient, age and gender, heart, diabetes and hypertension risk with their categories, score, then only advice lines, exactly the advice for these risks |
| `Report.BuildStory` | web_app.py:117-136 | the story built flowable by flowable, with the loop over the tips, equals the report's section sequence |
| `Assessment.HeartInput` | web_app.py:166 | the heart model gets exactly the keys age, cp, trestbps, chol, thalach and oldpeak; its age and chol entries are the form's age and cholesterol |
| `Assessment.DiabetesInput` | web_app.py:156-167 | the diabetes model gets exactly the keys Pregnancies, Glucose, BMI and Age; Pregnancies is 0 for a patient who is not female |
| `Assessment.HypertensionInput` | web_app.py:168 | the hypertension model gets exactly the keys Age, Salt_Intake, Stress_Score, Sleep_Duration and BMI; its Age and BMI entries are the form's age and BMI |
| `Assessment.GenerateReport` | web_app.py:165-182 | it stops before saving exactly when some prediction fails, and then the table and the id counter are unchanged; otherwise the score, advice and report story come from the three predictions, exactly one row with those values is appended, the id counter goes up by one, and the run ends in a render failure exactly when rendering the story fails |

## Left out

- Streamlit UI: page setup, tabs, widgets, `st.write` display lines, charts and download buttons (web_app.py:8, 139-202). These are presentation only. `Assessment.GenerateReport` returns the values those lines display.
- OTP login and session state (web_app.py:10-45). This is a demo credential check that uses `random` and session globals.
- `load_model` (web_app.py:48-62). It deserialises pickle/joblib files and checks that they exist, which is file I/O.
- SQLite itself (web_app.py:65-72): the connection, the cursor, commits, durability and `check_same_thread=False`. The table is an in-memory sequence, and concurrency is not modelled.
- `pd.DataFrame` and `pd.read_sql` (web_app.py:81-84, 96). Query results are sequences of records and names, not data frames.
- `scaler.transform` and `model.predict_proba` (web_app.py:98-99). They are opaque function parameters of `Features.Predictor`. Nothing is assumed about their values, including that they lie in [0,1].
- ReportLab rendering, the `{name}_report.pdf` file name and the `%.1f` formatting (web_app.py:117-136). A section records the values it shows, and a risk line records its percentage as `p * 100`. Rendering is an opaque parameter of `Assessment.GenerateReport` that may fail; why it fails (for example a name that is not a valid file name) is not modelled.
- `datetime.now().strftime(...)` (web_app.py:77). The formatted timestamp is a parameter of `SaveReport`.
- IEEE floating-point rounding. Arithmetic is exact on `real`, so the score of (0.7, 0.3, 0.2) is exactly 60.
- `History.HistoryStore.GetAllPatients`: SQL gives no order for `SELECT DISTINCT`. The model returns names in first-occurrence order, but the contract promises only membership and no duplicates.
- `History.HistoryStore.GetHistory`: the query has no `ORDER BY`. Table (rowid) order is assumed, which is what SQLite returns for this scan.
