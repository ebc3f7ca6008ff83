/**
 * Invoking a condition's classifier on its feature vector (the `predict_*`
 * functions, a.py:293-338), the high/low risk decision of `display_results`
 * (a.py:339-341, 384), and the "model not loaded" guard each prediction page
 * runs before it reads any input (a.py:561-563, 610-612, 674-676, 730-732, 791-793).
 */
module Prediction {
  import opened Options
  import opened Schema
  import opened Registry

  /** What a `predict_*` function returns: `(prediction[0], probability)`. */
  datatype PredictionResult = PredictionResult(prediction: int, probability: real)

  datatype RiskLevel = HighRisk | LowRisk

  datatype RiskVerdict = RiskVerdict(level: RiskLevel, probability: real)

  /**
   * The classifier answers the one-row batch `[v]` with at least one label
   * and one probability row of at least two classes, as scikit-learn's
   * `predict` and `predict_proba` do; the indexing `[0]` and `[0][1]` relies on it.
   */
  predicate Answers(m: Classifier, v: seq<real>) {
    |m.predict([v])| > 0 && |m.predictProba([v])| > 0 && |m.predictProba([v])[0]| > 1
  }

  /**
   * One `predict_*` call: the row laid out by the form's schema goes, as a
   * one-row batch, to both `predict` and `predict_proba`; the label is the
   * first prediction and the probability that of class 1 in the first row.
   */
  function Predict(f: Form, m: Classifier): (r: PredictionResult)
    requires Answers(m, FeatureVector(f))
    ensures forall v :: IsSchemaRow(f, v) && Answers(m, v) ==>
              r.prediction == m.predict([v])[0] && r.probability == m.predictProba([v])[0][1]
  {
    var inputData := [FeatureVector(f)];
    SchemaRowUnique(f);
    PredictionResult(m.predict(inputData)[0], m.predictProba(inputData)[0][1])
  }

  /** The branch of `display_results`: high risk exactly when the prediction is 1; the probability is only reported. */
  function Interpret(r: PredictionResult): (v: RiskVerdict)
    ensures v.level == HighRisk <==> r.prediction == 1
    ensures v.probability == r.probability
  {
    if r.prediction == 1 then RiskVerdict(HighRisk, r.probability) else RiskVerdict(LowRisk, r.probability)
  }

  /** What a prediction page ends in. */
  datatype PageOutcome =
    | ModelNotLoaded            // the `st.error` and early `return`
    | AwaitingSubmit            // the form is shown, the predict button was not pressed
    | Assessed(verdict: RiskVerdict)

  /**
   * One run of a prediction page for condition `c`: `form` is what the
   * widgets hold and `submitted` whether the predict button was pressed.
   */
  function PredictionPage(models: map<string, Classifier>, c: Condition, form: Form, submitted: bool): (r: PageOutcome)
    requires ConditionOf(form) == c
    requires Key(c) in models && submitted ==> Answers(models[Key(c)], FeatureVector(form))
    ensures r == ModelNotLoaded <==> Key(c) !in models
    ensures r.Assessed? <==> Key(c) in models && submitted
    ensures r.Assessed? ==> r.verdict == Interpret(Predict(form, models[Key(c)]))
  {
    if Key(c) !in models then ModelNotLoaded
    else if !submitted then AwaitingSubmit
    else Assessed(Interpret(Predict(form, models[Key(c)])))
  }

  /** A page whose model is missing ends the same way whatever the inputs: nothing is read or predicted. */
  lemma MissingModelIgnoresInputs(models: map<string, Classifier>, c: Condition,
                                  form1: Form, submitted1: bool, form2: Form, submitted2: bool)
    requires Key(c) !in models
    requires ConditionOf(form1) == c && ConditionOf(form2) == c
    ensures PredictionPage(models, c, form1, submitted1) == PredictionPage(models, c, form2, submitted2) == ModelNotLoaded
  {
  }

  /** The probability never changes the verdict's level. */
  lemma LevelIgnoresProbability(prediction: int, p: real, q: real)
    ensures Interpret(PredictionResult(prediction, p)).level == Interpret(PredictionResult(prediction, q)).level
  {
  }

  /** Each condition's key names a `model_paths` entry, and every entry is some condition's key. */
  lemma ModelPathsAreConditions()
    ensures forall c :: PathFor(MODEL_PATHS, Key(c)).Some?
    ensures forall i :: 0 <= i < |MODEL_PATHS| ==> ConditionOfKey(MODEL_PATHS[i].0).Some?
  {
    forall c ensures PathFor(MODEL_PATHS, Key(c)).Some? {
      var i := match c case Diabetes => 0 case Heart => 1 case Liver => 2 case Kidney => 3 case Parkinsons => 4;
      assert MODEL_PATHS[i].0 == Key(c);
    }
  }

  /** Every key the load pass can put in the registry is one of the five conditions. */
  lemma RegistryHoldsOnlyConditions(load: string -> LoadOutcome)
    ensures forall key :: key in LoadPass(MODEL_PATHS, load) ==> ConditionOfKey(key).Some?
  {
    ModelPathsAreConditions();
    forall key | key in LoadPass(MODEL_PATHS, load) ensures ConditionOfKey(key).Some? {
      var i :| 0 <= i < |MODEL_PATHS| && MODEL_PATHS[i].0 == key;
    }
  }

  /**
   * End to end: after the load pass, a submitted page for `c` reaches a
   * verdict exactly when `c`'s own model file loaded, whatever happened to the others.
   */
  lemma PageAvailableIffModelLoaded(load: string -> LoadOutcome, c: Condition, form: Form)
    requires ConditionOf(form) == c
    requires load(PathFor(MODEL_PATHS, Key(c)).GetOr("")).Loaded? ==>
               Answers(load(PathFor(MODEL_PATHS, Key(c)).GetOr("")).classifier, FeatureVector(form))
    ensures var models := LoadPass(MODEL_PATHS, load);
            Key(c) in models ==> Answers(models[Key(c)], FeatureVector(form))
    ensures var models := LoadPass(MODEL_PATHS, load);
            PredictionPage(models, c, form, true).Assessed? <==> load(PathFor(MODEL_PATHS, Key(c)).GetOr("")).Loaded?
  {
    ModelPathsAreConditions();
    ModelPathsDistinct();
    LoadPassContents(MODEL_PATHS, load, Key(c));
  }

  /** The disease names `display_results` prints, keyed like `disease_info` (a.py:242-290). */
  const DISEASE_NAMES: map<string, string> := map[
    "diabetes" := "Diabetes",
    "heart" := "Heart Disease",
    "liver" := "Liver Disease",
    "kidney" := "Kidney Disease",
    "parkinsons" := "Parkinson's Disease"
  ]

  /** `disease_info` has an entry for exactly the keys of `model_paths`. */
  lemma DiseaseInfoCoversRegistry()
    ensures forall key :: key in DISEASE_NAMES <==> PathFor(MODEL_PATHS, key).Some?
  {
    forall key ensures key in DISEASE_NAMES <==> PathFor(MODEL_PATHS, key).Some? {
      ModelPathsAreConditions();
      if PathFor(MODEL_PATHS, key).Some? {
        var i :| 0 <= i < |MODEL_PATHS| && MODEL_PATHS[i].0 == key;
      }
      if key in DISEASE_NAMES {
        assert ConditionOfKey(key).Some?;
        assert Key(ConditionOfKey(key).value) == key;
      }
    }
  }

  /**
   * The diabetes defaults (0, 120, 70, 20, 80, 25.0, 0.5, 33) against a
   * classifier that always answers label 0 with probability 0.10 give a
   * low-risk verdict reporting 0.10.
   */
  lemma DiabetesStubScenario(m: Classifier)
    requires forall batch :: m.predict(batch) == [0]
    requires forall batch :: m.predictProba(batch) == [[0.90, 0.10]]
    ensures var f := DiabetesForm(0.0, 120.0, 70.0, 20.0, 80.0, 25.0, 0.5, 33.0);
            Answers(m, FeatureVector(f)) && Interpret(Predict(f, m)) == RiskVerdict(LowRisk, 0.10)
  {
    var f := DiabetesForm(0.0, 120.0, 70.0, 20.0, 80.0, 25.0, 0.5, 33.0);
    assert m.predict([FeatureVector(f)]) == [0];
    assert m.predictProba([FeatureVector(f)]) == [[0.90, 0.10]];
  }
}
