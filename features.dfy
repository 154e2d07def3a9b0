/** The prediction step of web_app.py: a name-to-value input is reindexed
    into the scaler's feature order, then scaled and scored by the trained
    model. The scaler transform and the model's probability output are
    opaque, so they are parameters of the model here. */
module Features {

  datatype Option<T> = None | Some(value: T)

  /** The value a reindex puts in the column `name`: the input's value when
      the name is present, the fill value 0 otherwise. */
  function Lookup(data: map<string, real>, name: string): real
  {
    if name in data then data[name] else 0.0
  }

  /** `df.reindex(columns=names, fill_value=0)` on a one-row frame: one value
      per feature name, in the feature order. */
  function Reindex(data: map<string, real>, names: seq<string>): (row: seq<real>)
    ensures |row| == |names|
    ensures forall i :: 0 <= i < |names| && names[i] in data ==> row[i] == data[names[i]]
    ensures forall i :: 0 <= i < |names| && names[i] !in data ==> row[i] == 0.0
  {
    if names == [] then []
    else [Lookup(data, names[0])] + Reindex(data, names[1..])
  }

  /** Reindexing only reads the listed feature names: two inputs that give
      the same value (or both lack) every listed name yield the same row. */
  lemma ReindexReadsOnlyFeatures(data: map<string, real>, data': map<string, real>, names: seq<string>)
    requires forall n :: n in names ==> Lookup(data, n) == Lookup(data', n)
    ensures Reindex(data, names) == Reindex(data', names)
  {
    var a, b := Reindex(data, names), Reindex(data', names);
    forall i | 0 <= i < |names|
      ensures a[i] == b[i]
    {
      assert names[i] in names;
    }
  }

  /** An input key that is not a feature name has no effect on the row. */
  lemma ReindexDropsExtraKeys(data: map<string, real>, names: seq<string>, key: string, v: real)
    requires key !in names
    ensures Reindex(data[key := v], names) == Reindex(data, names)
  {
    ReindexReadsOnlyFeatures(data[key := v], data, names);
  }

  /** A trained (scaler, model) pair. `transform` stands for the fitted
      scaler and `positive` for `predict_proba(row)[0][1]`; either may fail
      (an exception in web_app.py), which is `None` here. */
  datatype Predictor = Predictor(
    featureNames: seq<string>,
    transform: seq<real> -> Option<seq<real>>,
    positive: seq<real> -> Option<real>)

  /** `predict(model, scaler, data)`: reindex, transform, take the positive
      class probability. The result is passed through unclamped. */
  function Predict(m: Predictor, data: map<string, real>): (p: Option<real>)
    ensures p.None? <==>
      || m.transform(Reindex(data, m.featureNames)).None?
      || m.positive(m.transform(Reindex(data, m.featureNames)).value).None?
  {
    match m.transform(Reindex(data, m.featureNames))
    case None => None
    case Some(scaled) => m.positive(scaled)
  }

  /** A prediction depends on the input only through the scaler's feature
      names. */
  lemma PredictReadsOnlyFeatures(m: Predictor, data: map<string, real>, data': map<string, real>)
    requires forall n :: n in m.featureNames ==> Lookup(data, n) == Lookup(data', n)
    ensures Predict(m, data) == Predict(m, data')
  {
    ReindexReadsOnlyFeatures(data, data', m.featureNames);
  }
}
