/** The prediction endpoint of the web layer: `build_player_payload` maps the
    request body to the predictor's input, `get_recommendations` builds the
    advice list, and `predict_injury` maps exceptions to HTTP statuses. */
module Views {
  import opened Wrappers
  import opened Builtins
  import opened Features
  import opened Explainer
  import opened Predictor

  // ---------------------------------------------------------------------------
  // build_player_payload
  // ---------------------------------------------------------------------------

  /** `data.get(key, default)`. */
  function Get(data: map<string, Value>, key: string, default: Value): Value {
    if key in data then data[key] else default
  }

  /** The request keys the payload is built from. */
  const RequestKeys: set<string> := {
    "matches_played", "minutes_played", "age", "position", "fatigue_level",
    "training_load", "recovery_time", "fitness_score", "previous_injuries",
    "weather_condition"}

  /** The exceptions of the eight coercions, in the order the code performs them. */
  function CoercionErrors(data: map<string, Value>): seq<PyError> {
    ErrorsOf(IntOf(Get(data, "matches_played", VInt(1))))
    + ErrorsOf(FloatOf(Get(data, "minutes_played", VInt(0))))
    + ErrorsOf(IntOf(Get(data, "age", VInt(25))))
    + ErrorsOf(FloatOf(Get(data, "fatigue_level", VFloat(0.5))))
    + ErrorsOf(FloatOf(Get(data, "training_load", VFloat(0.5))))
    + ErrorsOf(FloatOf(Get(data, "recovery_time", VInt(48))))
    + ErrorsOf(FloatOf(Get(data, "fitness_score", VFloat(0.8))))
    + ErrorsOf(IntOf(Get(data, "previous_injuries", VInt(0))))
  }

  function ErrorsOf<T>(r: Result<T, PyError>): seq<PyError> {
    if r.Err? then [r.error] else []
  }

  /** `build_player_payload`: defaults for missing keys, `int()`/`float()`
      coercion, the renames of `minutes_played` and `previous_injuries`, and
      `matches_played` raised to at least 1. The first failing coercion raises. */
  function BuildPlayerPayload(data: map<string, Value>): (r: Result<PlayerData, PyError>)
    ensures r.Ok? ==> r.value.matchesPlayed >= 1
    ensures r.Err? <==> CoercionErrors(data) != []
    ensures r.Err? ==> r.error == CoercionErrors(data)[0]
    ensures r.Ok? ==> r.value.position == Get(data, "position", VStr("midfielder"))
                      && r.value.weatherCondition == Get(data, "weather_condition", VStr("normal"))
  {
    var requested :- IntOf(Get(data, "matches_played", VInt(1)));
    var matchesPlayed := if 1 < requested then requested else 1;
    var minutesPlayed :- FloatOf(Get(data, "minutes_played", VInt(0)));
    var age :- IntOf(Get(data, "age", VInt(25)));
    var fatigue :- FloatOf(Get(data, "fatigue_level", VFloat(0.5)));
    var load :- FloatOf(Get(data, "training_load", VFloat(0.5)));
    var recovery :- FloatOf(Get(data, "recovery_time", VInt(48)));
    var fitness :- FloatOf(Get(data, "fitness_score", VFloat(0.8)));
    var injuries :- IntOf(Get(data, "previous_injuries", VInt(0)));
    Ok(PlayerData(
      age := age,
      position := Get(data, "position", VStr("midfielder")),
      matchesPlayed := matchesPlayed,
      totalMinutesPlayed := minutesPlayed,
      fatigueLevel := fatigue,
      trainingLoad := load,
      recoveryTime := recovery,
      fitnessScore := fitness,
      previousInjuriesCount := injuries,
      weatherCondition := Get(data, "weather_condition", VStr("normal"))))
  }

  /** An empty request gets every default. */
  lemma PayloadDefaults()
    ensures BuildPlayerPayload(map[]) ==
      Ok(PlayerData(25, VStr("midfielder"), 1, 0.0, 0.5, 0.5, 48.0, 0.8, 0, VStr("normal")))
  {
  }

  /** Only the ten request keys are read: any other key, including the payload
      names `total_minutes_played` and `previous_injuries_count`, is ignored. */
  lemma PayloadReadsOnlyRequestKeys(data: map<string, Value>, key: string, v: Value)
    requires key !in RequestKeys
    ensures BuildPlayerPayload(data[key := v]) == BuildPlayerPayload(data)
  {
    var data' := data[key := v];
    assert Get(data', "matches_played", VInt(1)) == Get(data, "matches_played", VInt(1));
    assert Get(data', "minutes_played", VInt(0)) == Get(data, "minutes_played", VInt(0));
    assert Get(data', "age", VInt(25)) == Get(data, "age", VInt(25));
    assert Get(data', "position", VStr("midfielder")) == Get(data, "position", VStr("midfielder"));
    assert Get(data', "fatigue_level", VFloat(0.5)) == Get(data, "fatigue_level", VFloat(0.5));
    assert Get(data', "training_load", VFloat(0.5)) == Get(data, "training_load", VFloat(0.5));
    assert Get(data', "recovery_time", VInt(48)) == Get(data, "recovery_time", VInt(48));
    assert Get(data', "fitness_score", VFloat(0.8)) == Get(data, "fitness_score", VFloat(0.8));
    assert Get(data', "previous_injuries", VInt(0)) == Get(data, "previous_injuries", VInt(0));
    assert Get(data', "weather_condition", VStr("normal")) == Get(data, "weather_condition", VStr("normal"));
  }

  /** Every coerced field of an accepted request: a key that was sent gives
      the coercion of its value, an absent key gives the default. */
  lemma PayloadFields(data: map<string, Value>)
    requires BuildPlayerPayload(data).Ok?
    ensures var p := BuildPlayerPayload(data).value;
            && ("matches_played" !in data ==> p.matchesPlayed == 1)
            && ("matches_played" in data ==>
                  (IntOf(data["matches_played"]).Ok?
                   && p.matchesPlayed == MatchDivisor(IntOf(data["matches_played"]).value)))
            && ("minutes_played" !in data ==> p.totalMinutesPlayed == 0.0)
            && ("minutes_played" in data ==>
                  (FloatOf(data["minutes_played"]).Ok? && p.totalMinutesPlayed == FloatOf(data["minutes_played"]).value))
            && ("age" !in data ==> p.age == 25)
            && ("age" in data ==> (IntOf(data["age"]).Ok? && p.age == IntOf(data["age"]).value))
            && ("fatigue_level" !in data ==> p.fatigueLevel == 0.5)
            && ("fatigue_level" in data ==>
                  (FloatOf(data["fatigue_level"]).Ok? && p.fatigueLevel == FloatOf(data["fatigue_level"]).value))
            && ("training_load" !in data ==> p.trainingLoad == 0.5)
            && ("training_load" in data ==>
                  (FloatOf(data["training_load"]).Ok? && p.trainingLoad == FloatOf(data["training_load"]).value))
            && ("recovery_time" !in data ==> p.recoveryTime == 48.0)
            && ("recovery_time" in data ==>
                  (FloatOf(data["recovery_time"]).Ok? && p.recoveryTime == FloatOf(data["recovery_time"]).value))
            && ("fitness_score" !in data ==> p.fitnessScore == 0.8)
            && ("fitness_score" in data ==>
                  (FloatOf(data["fitness_score"]).Ok? && p.fitnessScore == FloatOf(data["fitness_score"]).value))
            && ("previous_injuries" !in data ==> p.previousInjuriesCount == 0)
            && ("previous_injuries" in data ==>
                  (IntOf(data["previous_injuries"]).Ok?
                   && p.previousInjuriesCount == IntOf(data["previous_injuries"]).value))
  {
  }

  /** The request's `minutes_played` and `previous_injuries` land in the
      payload's `total_minutes_played` and `previous_injuries_count`, and a
      requested match count below 1 is raised to 1. */
  lemma PayloadRenamesAndClamp(data: map<string, Value>)
    requires BuildPlayerPayload(data).Ok?
    ensures var p := BuildPlayerPayload(data).value;
            ("minutes_played" in data ==> p.totalMinutesPlayed == FloatOf(data["minutes_played"]).value)
            && ("previous_injuries" in data ==> p.previousInjuriesCount == IntOf(data["previous_injuries"]).value)
            && ("matches_played" in data && IntOf(data["matches_played"]).value >= 1 ==>
                  p.matchesPlayed == IntOf(data["matches_played"]).value)
            && ("matches_played" in data && IntOf(data["matches_played"]).value < 1 ==> p.matchesPlayed == 1)
  {
  }

  /** A number sent as text that is not a number raises ValueError, the same
      class as a missing model; `null` raises TypeError. */
  lemma PayloadCoercionErrors()
    ensures BuildPlayerPayload(map["age" := VStr("abc")]) == Err(ValueError(InvalidLiteral("abc")))
    ensures BuildPlayerPayload(map["age" := VNull]) == Err(TypeError)
    ensures BuildPlayerPayload(map["age" := VStr("27")]).Ok?
  {
    var letters := "abc";
    assert !IsDigit(letters[0]);
    assert ParseInt("abc").None?;
    var digits := "27";
    assert AllDigits(digits);
    assert digits[..1] == "2" && DigitsValue("2") == 2;
    assert DigitsValue(digits) == 27;
    assert ParseInt(digits) == Some(27);
  }

  // ---------------------------------------------------------------------------
  // get_recommendations
  // ---------------------------------------------------------------------------

  const HighRiskAdvice: seq<string> := [
    "Immediate workload reduction and individualized recovery plan.",
    "Schedule medical screening before next fixture.",
    "Limit high-intensity drills for the next 72 hours."]

  const MediumRiskAdvice: seq<string> := [
    "Increase focus on recovery protocols (sleep, nutrition).",
    "Monitor training load and reduce intensity spikes.",
    "Add additional mobility and stability sessions."]

  const LowRiskAdvice: seq<string> := [
    "Maintain current training plan.",
    "Continue monitoring key wellness metrics.",
    "Plan progressive overload cautiously."]

  const FatigueNote := "Fatigue readings are high — schedule active recovery or rest day."
  const RecoveryNote := "Recovery time under 24h detected — increase rest before next session."
  const LoadNote := "Training load trending high — consider tapering sessions."

  /** The three baseline strings for `prediction.get('risk_level')`; anything
      but "high" and "medium", a missing level included, gets the low set. */
  function Baseline(riskLevel: Option<string>): (advice: seq<string>)
    ensures |advice| == 3
  {
    if riskLevel == Some("high") then HighRiskAdvice
    else if riskLevel == Some("medium") then MediumRiskAdvice
    else LowRiskAdvice
  }

  /** The high set goes with "high" alone, the medium set with "medium" alone;
      every other level, a missing one included, gets the low set. */
  lemma BaselineByLevel(riskLevel: Option<string>)
    ensures Baseline(riskLevel) in {HighRiskAdvice, MediumRiskAdvice, LowRiskAdvice}
    ensures Baseline(riskLevel) == HighRiskAdvice <==> riskLevel == Some("high")
    ensures Baseline(riskLevel) == MediumRiskAdvice <==> riskLevel == Some("medium")
    ensures Baseline(None) == LowRiskAdvice && Baseline(Some("unknown")) == LowRiskAdvice
  {
  }

  function NoteRank(note: string): nat {
    if note == FatigueNote then 0 else if note == RecoveryNote then 1 else 2
  }

  /** The conditional notes, read from the normalized payload (0-1 scales and
      hours), not from the derived feature vector. */
  function Additions(data: PlayerData): (notes: seq<string>)
    ensures |notes| <= 3
  {
    (if data.fatigueLevel > 0.7 then [FatigueNote] else [])
    + (if data.recoveryTime < 24.0 then [RecoveryNote] else [])
    + (if data.trainingLoad > 0.75 then [LoadNote] else [])
  }

  /** Each note is present exactly when its strict comparison holds, no other
      text is added, and the notes keep the fixed order fatigue, recovery, load. */
  lemma AdditionsMatchConditions(data: PlayerData)
    ensures var notes := Additions(data);
            (FatigueNote in notes <==> data.fatigueLevel > 0.7)
            && (RecoveryNote in notes <==> data.recoveryTime < 24.0)
            && (LoadNote in notes <==> data.trainingLoad > 0.75)
            && (forall n :: n in notes ==> n in {FatigueNote, RecoveryNote, LoadNote})
            && (forall i, j :: 0 <= i < j < |notes| ==> NoteRank(notes[i]) < NoteRank(notes[j]))
  {
  }

  lemma AppendAssoc<T>(a: seq<T>, b: seq<T>, c: seq<T>)
    ensures (a + b) + c == a + (b + c)
  {
  }

  /** `get_recommendations`: the baseline strings, then the notes whose
      conditions hold, appended in a fixed order. */
  method GetRecommendations(riskLevel: Option<string>, data: PlayerData) returns (recommendations: seq<string>)
    ensures recommendations == Baseline(riskLevel) + Additions(data)
    ensures 3 <= |recommendations| <= 6
  {
    recommendations := [];
    if riskLevel == Some("high") {
      recommendations := recommendations + HighRiskAdvice;
    } else if riskLevel == Some("medium") {
      recommendations := recommendations + MediumRiskAdvice;
    } else {
      recommendations := recommendations + LowRiskAdvice;
    }
    ghost var baseline := recommendations;
    ghost var added: seq<string> := [];
    assert recommendations == baseline + added;
    if data.fatigueLevel > 0.7 {
      AppendAssoc(baseline, added, [FatigueNote]);
      recommendations := recommendations + [FatigueNote];
      added := added + [FatigueNote];
    }
    if data.recoveryTime < 24.0 {
      AppendAssoc(baseline, added, [RecoveryNote]);
      recommendations := recommendations + [RecoveryNote];
      added := added + [RecoveryNote];
    }
    if data.trainingLoad > 0.75 {
      AppendAssoc(baseline, added, [LoadNote]);
      recommendations := recommendations + [LoadNote];
      added := added + [LoadNote];
    }
    assert baseline == Baseline(riskLevel);
    assert added == Additions(data);
  }

  /** Fatigue of exactly 0.7, recovery of exactly 24 hours and load of exactly
      0.75 add nothing: every comparison is strict. */
  lemma BoundaryAddsNothing(data: PlayerData)
    requires data.fatigueLevel == 0.7 && data.recoveryTime == 24.0 && data.trainingLoad == 0.75
    ensures Additions(data) == []
  {
  }

  // ---------------------------------------------------------------------------
  // predict_injury
  // ---------------------------------------------------------------------------

  /** The response body: the prediction, or the raised exception (with the
      extra message the 400 branch adds). */
  datatype Body =
    | PredictionBody(injuryRisk: string, riskProbability: real, confidence: real,
                     keyFactors: seq<KeyFactor>, recommendations: seq<string>)
    | ErrorBody(error: PyError, message: Option<string>)

  datatype Response = Response(status: int, body: Body)

  const HttpOk := 200
  const HttpBadRequest := 400
  const HttpServerError := 500

  /** `except ValueError` answers 500; any other exception 400. */
  function ErrorResponse(e: PyError): (resp: Response)
    ensures resp.status == HttpServerError <==> e.ValueError?
    ensures resp.status == HttpBadRequest <==> !e.ValueError?
    ensures resp.body.ErrorBody? && resp.body.error == e
  {
    if e.ValueError? then Response(HttpServerError, ErrorBody(e, None))
    else Response(HttpBadRequest, ErrorBody(e, Some("Error processing prediction request")))
  }

  /** `predict_injury` against the shared predictor; `stored` is the saved
      classifier a lazy load would find. A rejected request or a missing model
      leaves the predictor as it was; otherwise it holds the (possibly just
      loaded) model and the request's weather factor, and the answer is the
      prediction with its recommendations, or 400 when `lower()` fails. */
  method PredictInjury(request: map<string, Value>, predictor: InjuryPredictor, stored: Option<Classifier>)
    returns (response: Response)
    requires predictor.Valid()
    modifies predictor
    ensures predictor.Valid()
    ensures response.status in {HttpOk, HttpBadRequest, HttpServerError}
    ensures BuildPlayerPayload(request).Err? ==>
              response == ErrorResponse(BuildPlayerPayload(request).error)
              && unchanged(predictor)
    ensures BuildPlayerPayload(request).Ok? && !old(predictor.isTrained) && stored.None? ==>
              response == ErrorResponse(ValueError(ModelUnavailable))
              && response.status == HttpServerError
              && unchanged(predictor)
    ensures BuildPlayerPayload(request).Ok? && (old(predictor.isTrained) || stored.Some?) ==>
              var payload := BuildPlayerPayload(request).value;
              && predictor.isTrained
              && predictor.model == (if old(predictor.isTrained) then old(predictor.model) else stored)
              && predictor.featureNames == old(predictor.featureNames)
              && predictor.weatherFactor == (if DeriveFeatures(payload).Ok? then DeriveFeatures(payload).value.weatherFactor
                                             else old(predictor.weatherFactor))
              && var r := Predict(predictor.model.value, predictor.featureNames, payload);
              && (r.Err? ==> response == ErrorResponse(r.error) && response.status == HttpBadRequest)
              && (r.Ok? ==> response == Response(HttpOk, PredictionBody(r.value.riskLevel, r.value.riskScore,
                                                   r.value.confidence, r.value.keyFactors,
                                                   Baseline(Some(r.value.riskLevel)) + Additions(payload))))
  {
    var payload := BuildPlayerPayload(request);
    if payload.Err? {
      return ErrorResponse(payload.error);
    }
    var prediction := predictor.PredictRisk(payload.value, stored);
    if prediction.Err? {
      return ErrorResponse(prediction.error);
    }
    var p := prediction.value;
    var recommendations := GetRecommendations(Some(p.riskLevel), payload.value);
    response := Response(HttpOk, PredictionBody(p.riskLevel, p.riskScore, p.confidence, p.keyFactors, recommendations));
  }
}
