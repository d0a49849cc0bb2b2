/** The `InjuryPredictor` object: its model state, the lazy load in
    `predict_risk`, and the post-processing of the classifier's probability
    into a risk score, a risk level and a confidence. */
module Predictor {
  import opened Wrappers
  import opened Builtins
  import opened Features
  import opened Explainer

  type Probability = p: real | 0.0 <= p <= 1.0

  /** The trained classifier, seen only through what the predictor asks of it:
      the probability of the injury class for a feature vector, and the
      per-feature importances when the classifier exposes them. */
  datatype Classifier = Classifier(predictProba: seq<real> -> Probability, importances: Option<seq<real>>)

  /** What `predict_risk` returns. */
  datatype Prediction = Prediction(riskScore: real, riskLevel: string, keyFactors: seq<KeyFactor>, confidence: real)

  const ScoreCap: real := 0.95

  /** `min(0.95, probability * weather_factor)`. */
  function AdjustForWeather(probability: real, factor: real): (score: real)
    ensures score <= ScoreCap
    ensures score <= probability * factor
    ensures score == ScoreCap || score == probability * factor
    ensures 0.0 <= probability && 0.0 <= factor ==> 0.0 <= score
  {
    if probability * factor < ScoreCap then probability * factor else ScoreCap
  }

  /** For a fixed probability, worse weather never lowers the score. */
  lemma AdjustMonotoneInFactor(probability: real, f1: real, f2: real)
    requires 0.0 <= probability && f1 <= f2
    ensures AdjustForWeather(probability, f1) <= AdjustForWeather(probability, f2)
  {
    assert probability * f1 <= probability * f2 by {
      assert probability * (f2 - f1) >= 0.0;
    }
  }

  /** `_get_risk_level`. */
  function RiskLevel(score: real): (level: string)
    ensures level in {"low", "medium", "high"}
    ensures level == "low" <==> score < 0.3
    ensures level == "high" <==> score >= 0.7
  {
    if score < 0.3 then "low"
    else if score < 0.7 then "medium"
    else "high"
  }

  function LevelRank(level: string): nat {
    match level
    case "low" => 0
    case "medium" => 1
    case _ => 2
  }

  /** A higher score never gets a lower risk level. */
  lemma RiskLevelMonotone(s1: real, s2: real)
    requires s1 <= s2
    ensures LevelRank(RiskLevel(s1)) <= LevelRank(RiskLevel(s2))
  {
  }

  /** `min(0.95, risk_score * 1.2)`. */
  function Confidence(score: real): (c: real)
    ensures c <= ScoreCap
    ensures 0.0 <= score ==> 0.0 <= c
    ensures 0.0 <= score <= ScoreCap ==> score <= c
    ensures c <= score * 1.2
    ensures c == ScoreCap || c == score * 1.2
  {
    if score * 1.2 < ScoreCap then score * 1.2 else ScoreCap
  }

  /** `hasattr(self.model, 'feature_importances_')`: no model has none. */
  function ImportancesOf(model: Option<Classifier>): Option<seq<real>> {
    if model.Some? then model.value.importances else None
  }

  /** `predict_risk` once a model is in place, as a value. */
  function Predict(c: Classifier, names: seq<string>, d: PlayerData): (r: Result<Prediction, PyError>)
    requires |names| <= FeatureCount
    ensures r.Err? <==> !(d.position.VStr? && d.weatherCondition.VStr?)
    ensures r.Err? ==> r.error == AttributeError
    ensures r.Ok? ==> var p := r.value;
              var v := FeatureVector(d, d.position.s);
              && p.riskScore == AdjustForWeather(c.predictProba(v), WeatherFactor(d.weatherCondition.s))
              && 0.0 <= p.riskScore <= ScoreCap
              && p.riskScore <= 1.2 * c.predictProba(v)
              && p.riskLevel == RiskLevel(p.riskScore)
              && p.confidence == Confidence(p.riskScore)
              && p.riskScore <= p.confidence <= ScoreCap
              && p.keyFactors == Explain(names, c.importances, v)
              && |p.keyFactors| <= TopCount
  {
    match DeriveFeatures(d)
    case Err(e) => Err(e)
    case Ok(derived) =>
      var probability := c.predictProba(derived.vector);
      var score := AdjustForWeather(probability, derived.weatherFactor);
      Ok(Prediction(score, RiskLevel(score), Explain(names, c.importances, derived.vector), Confidence(score)))
  }

  /** The predictor object. `model_path` and the file behind it are not
      modelled: a load is given the stored classifier, if there is one. */
  class InjuryPredictor {
    var model: Option<Classifier>
    var featureNames: seq<string>
    var isTrained: bool
    var weatherFactor: real

    /** A model is present exactly when the predictor counts as trained; the
        names are either unset or the training columns (so never more than
        twelve); the factor is one the weather rule produces. */
    ghost predicate Valid()
      reads this
    {
      (isTrained <==> model.Some?)
      && (featureNames == [] || featureNames == TrainingFeatureNames)
      && |featureNames| <= FeatureCount
      && weatherFactor in {1.0, 1.1, 1.2}
    }

    constructor ()
      ensures Valid()
      ensures model.None? && featureNames == [] && !isTrained && weatherFactor == 1.0
    {
      model := None;
      featureNames := [];
      isTrained := false;
      weatherFactor := 1.0;
    }

    /** The effect of `train()` on the object: a fitted classifier is installed
        and the training columns become the feature names. */
    method Train(c: Classifier)
      requires Valid()
      modifies this
      ensures Valid()
      ensures model == Some(c) && isTrained && featureNames == TrainingFeatureNames
      ensures weatherFactor == old(weatherFactor)
    {
      featureNames := TrainingFeatureNames;
      model := Some(c);
      isTrained := true;
    }

    /** `load_model()`: `stored` is the saved classifier, if the file exists.
        Feature names are not restored by a load. */
    method LoadModel(stored: Option<Classifier>) returns (loaded: bool)
      requires Valid()
      modifies this`model, this`isTrained
      ensures Valid()
      ensures loaded <==> stored.Some?
      ensures loaded ==> model == stored && isTrained
      ensures !loaded ==> model == old(model) && isTrained == old(isTrained)
    {
      if stored.Some? {
        model := stored;
        isTrained := true;
        loaded := true;
      } else {
        loaded := false;
      }
    }

    /** `_prepare_features`: the vector, and `weather_factor` updated as a side
        effect. A non-string position or weather raises before the field is set. */
    method PrepareFeatures(data: PlayerData) returns (r: Result<seq<real>, PyError>)
      requires Valid()
      modifies this`weatherFactor
      ensures Valid()
      ensures DeriveFeatures(data).Err? ==> r == Err(AttributeError) && weatherFactor == old(weatherFactor)
      ensures DeriveFeatures(data).Ok? ==>
                r == Ok(DeriveFeatures(data).value.vector) && weatherFactor == DeriveFeatures(data).value.weatherFactor
    {
      if !data.position.VStr? {
        return Err(AttributeError);
      }
      if !data.weatherCondition.VStr? {
        return Err(AttributeError);
      }
      weatherFactor := WeatherFactor(data.weatherCondition.s);
      r := Ok(FeatureVector(data, data.position.s));
    }

    /** `_get_feature_importance`: the key factors, appended one by one. */
    method GetFeatureImportance(features: seq<real>) returns (factors: seq<KeyFactor>)
      requires Valid() && |features| == FeatureCount
      ensures factors == Explain(featureNames, ImportancesOf(model), features)
      ensures |factors| <= TopCount
    {
      var importances := ImportancesOf(model);
      if importances.None? {
        return [];
      }
      var top := TopEntries(featureNames, importances.value);
      factors := DescribeEach(top, features);
    }

    /** `predict_risk`: loads a stored model when none is trained, failing with
        ValueError before any feature work when there is none to load. */
    method PredictRisk(data: PlayerData, stored: Option<Classifier>) returns (r: Result<Prediction, PyError>)
      requires Valid()
      modifies this
      ensures Valid()
      ensures featureNames == old(featureNames)
      ensures r == Err(ValueError(ModelUnavailable)) <==> !old(isTrained) && stored.None?
      ensures !old(isTrained) && stored.None? ==> unchanged(this)
      ensures old(isTrained) || stored.Some? ==>
                isTrained && model == (if old(isTrained) then old(model) else stored)
                && r == Predict(model.value, featureNames, data)
                && weatherFactor == (if DeriveFeatures(data).Ok? then DeriveFeatures(data).value.weatherFactor
                                     else old(weatherFactor))
    {
      if !isTrained {
        var loaded := LoadModel(stored);
        if !loaded {
          return Err(ValueError(ModelUnavailable));
        }
      }
      var prepared := PrepareFeatures(data);
      if prepared.Err? {
        return Err(prepared.error);
      }
      var features := prepared.value;
      var probability := model.value.predictProba(features);
      var score := AdjustForWeather(probability, weatherFactor);
      var factors := GetFeatureImportance(features);
      r := Ok(Prediction(score, RiskLevel(score), factors, Confidence(score)));
    }
  }

  /** A predictor that was loaded rather than trained has no feature names, so
      it never reports key factors. */
  lemma LoadedPredictorHasNoFactors(c: Classifier, d: PlayerData)
    requires Predict(c, [], d).Ok?
    ensures Predict(c, [], d).value.keyFactors == []
  {
  }
}
