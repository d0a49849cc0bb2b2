/** The feature derivation of `InjuryPredictor._prepare_features`: a player
    record, as the web layer builds it, becomes the twelve numbers the
    classifier was trained on, plus the weather factor applied to its output. */
module Features {
  import opened Wrappers
  import opened Builtins

  /** The player record handed to the predictor. `position` and
      `weatherCondition` are passed through from the request without coercion,
      so they may be any request value; every other field has been coerced. */
  datatype PlayerData = PlayerData(
    age: int,
    position: Value,
    matchesPlayed: int,
    totalMinutesPlayed: real,
    fatigueLevel: real,
    trainingLoad: real,
    recoveryTime: real,
    fitnessScore: real,
    previousInjuriesCount: int,
    weatherCondition: Value)

  /** The column order of the training data, which the vector must follow. */
  const TrainingFeatureNames: seq<string> := [
    "age", "height_cm", "weight_kg", "bmi", "heart_rate_variability",
    "sleep_quality", "fatigue_level", "training_load", "session_intensity",
    "match_minutes", "previous_injuries_count", "days_since_last_injury"]

  const FeatureCount: nat := 12

  // ---------------------------------------------------------------------------
  // Position profile and BMI
  // ---------------------------------------------------------------------------

  /** Height (cm) and weight (kg) assumed for a playing position. */
  datatype Build = Build(heightCm: real, weightKg: real)

  const GoalkeeperBuild := Build(190.0, 85.0)
  const DefenderBuild := Build(183.0, 78.0)
  const MidfielderBuild := Build(178.0, 72.0)
  const ForwardBuild := Build(180.0, 75.0)
  /** The profile of a position the table does not list (equal to the forward's). */
  const DefaultBuild := Build(180.0, 75.0)

  const KnownPositions: set<string> := {"goalkeeper", "defender", "midfielder", "forward"}

  /** The table lookup `position_stats.get(position, (180, 75))`, on an
      already lower-cased position. */
  function PositionBuild(position: string): (b: Build)
    ensures b in {GoalkeeperBuild, DefenderBuild, MidfielderBuild, ForwardBuild}
    ensures position !in KnownPositions ==> b == DefaultBuild
    ensures b == GoalkeeperBuild <==> position == "goalkeeper"
    ensures position == "defender" ==> b == DefenderBuild
    ensures position == "midfielder" ==> b == MidfielderBuild
    ensures position == "forward" ==> b == ForwardBuild
    ensures b.heightCm > 0.0
  {
    match position
    case "goalkeeper" => GoalkeeperBuild
    case "defender" => DefenderBuild
    case "midfielder" => MidfielderBuild
    case "forward" => ForwardBuild
    case _ => DefaultBuild
  }

  /** The position's letter case does not matter: positions that lower-case
      alike give the same build, and "Goalkeeper" finds the goalkeeper's. */
  lemma PositionIgnoresCase(d: PlayerData, p: string, q: string)
    ensures Lower(p) == Lower(q) ==> FeatureVector(d, p) == FeatureVector(d, q)
    ensures PositionBuild(Lower("Goalkeeper")) == GoalkeeperBuild
  {
    assert Lower("Goalkeeper") == "goalkeeper";
  }

  /** Body-mass index `weight / (height / 100) ** 2`. */
  function Bmi(b: Build): (bmi: real)
    requires b.heightCm > 0.0
    ensures bmi * ((b.heightCm / 100.0) * (b.heightCm / 100.0)) == b.weightKg
    ensures b.weightKg > 0.0 ==> bmi > 0.0
  {
    var metres := b.heightCm / 100.0;
    assert metres * metres > 0.0;
    b.weightKg / (metres * metres)
  }

  // ---------------------------------------------------------------------------
  // Rescalings and rules
  // ---------------------------------------------------------------------------

  /** Sleep quality estimated from recovery hours: a four-step function. */
  function SleepQuality(recoveryHours: real): (q: real)
    ensures q in {4.0, 6.0, 7.5, 9.0}
    ensures q == 9.0 <==> recoveryHours >= 72.0
    ensures q >= 7.5 <==> recoveryHours >= 48.0
    ensures q >= 6.0 <==> recoveryHours >= 24.0
  {
    if recoveryHours >= 72.0 then 9.0
    else if recoveryHours >= 48.0 then 7.5
    else if recoveryHours >= 24.0 then 6.0
    else 4.0
  }

  /** More rest never lowers the estimated sleep quality. */
  lemma SleepQualityMonotone(h1: real, h2: real)
    requires h1 <= h2
    ensures SleepQuality(h1) <= SleepQuality(h2)
  {
  }

  /** `max(1, matches_played)`: the divisor of the per-match average. */
  function MatchDivisor(matchesPlayed: int): (d: int)
    ensures d >= 1 && d >= matchesPlayed
    ensures matchesPlayed >= 1 ==> d == matchesPlayed
    ensures matchesPlayed < 1 ==> d == 1
  {
    if matchesPlayed > 1 then matchesPlayed else 1
  }

  /** Average minutes per match, capped at a full match of 90 minutes. */
  function MatchMinutes(totalMinutes: real, matchesPlayed: int): (m: real)
    ensures m <= 90.0
    ensures m < 90.0 ==> m * MatchDivisor(matchesPlayed) as real == totalMinutes
    ensures m == 90.0 ==> totalMinutes >= 90.0 * MatchDivisor(matchesPlayed) as real
    ensures totalMinutes >= 0.0 ==> m >= 0.0
  {
    var average := totalMinutes / MatchDivisor(matchesPlayed) as real;
    if average < 90.0 then average else 90.0
  }

  /** Days since the last injury, estimated from the injury count. */
  function DaysSinceInjury(injuryCount: int): (days: int)
    ensures injuryCount == 0 ==> days == 365
    ensures injuryCount >= 0 ==> 30 <= days <= 365
    ensures injuryCount != 0 ==> days >= 30 && days >= 365 - 60 * injuryCount
                                 && (days > 30 ==> days == 365 - 60 * injuryCount)
  {
    if injuryCount == 0 then 365
    else if 365 - injuryCount * 60 > 30 then 365 - injuryCount * 60
    else 30
  }

  /** More recorded injuries never push the estimate further into the past. */
  lemma DaysSinceInjuryMonotone(c1: int, c2: int)
    requires c1 <= c2
    ensures DaysSinceInjury(c2) <= DaysSinceInjury(c1)
  {
  }

  /** The factor applied to the classifier's probability for the weather text. */
  function WeatherFactor(weather: string): (f: real)
    ensures f in {1.0, 1.1, 1.2}
    ensures f == 1.2 <==> Contains(Lower(weather), "rain") || Contains(Lower(weather), "wet")
    ensures f == 1.1 <==> !Contains(Lower(weather), "rain") && !Contains(Lower(weather), "wet")
                          && (Contains(Lower(weather), "hot") || Contains(Lower(weather), "extreme"))
  {
    var text := Lower(weather);
    if Contains(text, "rain") || Contains(text, "wet") then 1.2
    else if Contains(text, "hot") || Contains(text, "extreme") then 1.1
    else 1.0
  }

  /** The weather rule ignores letter case. */
  lemma WeatherFactorIgnoresCase(weather: string)
    ensures WeatherFactor(Lower(weather)) == WeatherFactor(weather)
  {
    LowerIdempotent(weather);
  }

  /** Rain is recognised whatever its letter case. */
  lemma WeatherHeavyRain()
    ensures WeatherFactor("Heavy Rain") == 1.2
  {
    assert Lower("Heavy Rain") == "heavy rain";
    ContainsSlice("heavy rain", 6, "rain");
  }

  /** Rain or wet weather wins over heat: "hot and wet" is weighted as wet. */
  lemma WeatherWetBeatsHot()
    ensures WeatherFactor("hot and wet") == 1.2
  {
    assert Lower("hot and wet") == "hot and wet";
    ContainsSlice("hot and wet", 8, "wet");
  }

  /** Heat alone gives the moderate factor. */
  lemma WeatherHot()
    ensures WeatherFactor("hot") == 1.1
  {
    assert Lower("hot") == "hot";
    MissingCharNotContained("hot", "rain", 0);
    MissingCharNotContained("hot", "wet", 0);
    ContainsSlice("hot", 0, "hot");
  }

  /** Text without the letters i, w, h and e, in either case, names none of
      the four keywords and leaves the probability as it is. */
  lemma WeatherWithoutKeywordLetters(weather: string)
    requires forall k :: 0 <= k < |weather| ==> LowerChar(weather[k]) !in "iwhe"
    ensures WeatherFactor(weather) == 1.0
  {
    var text := Lower(weather);
    assert 'i' !in text && 'w' !in text && 'h' !in text && 'e' !in text;
    MissingCharNotContained(text, "rain", 2);
    MissingCharNotContained(text, "wet", 0);
    MissingCharNotContained(text, "hot", 0);
    MissingCharNotContained(text, "extreme", 0);
  }

  /** The form's default weather leaves the probability as it is. */
  lemma WeatherNormal()
    ensures WeatherFactor("normal") == 1.0
  {
    WeatherWithoutKeywordLetters("normal");
  }

  // ---------------------------------------------------------------------------
  // The feature vector
  // ---------------------------------------------------------------------------

  /** The derived vector together with the weather factor produced beside it. */
  datatype Derived = Derived(vector: seq<real>, weatherFactor: real)

  /** The twelve features, in training order, for a string-valued position. */
  function FeatureVector(d: PlayerData, position: string): (v: seq<real>)
    ensures |v| == FeatureCount
    ensures v[0] == d.age as real && v[10] == d.previousInjuriesCount as real
    ensures v[5] in {4.0, 6.0, 7.5, 9.0}
    ensures v[9] <= 90.0
    ensures d.totalMinutesPlayed >= 0.0 ==> v[9] >= 0.0
    ensures d.previousInjuriesCount >= 0 ==> 30.0 <= v[11] <= 365.0
  {
    var build := PositionBuild(Lower(position));
    [ d.age as real,
      build.heightCm,
      build.weightKg,
      Bmi(build),
      50.0 + d.fitnessScore * 30.0,
      SleepQuality(d.recoveryTime),
      d.fatigueLevel * 10.0,
      200.0 + d.trainingLoad * 400.0,
      d.trainingLoad * 10.0,
      MatchMinutes(d.totalMinutesPlayed, d.matchesPlayed),
      d.previousInjuriesCount as real,
      DaysSinceInjury(d.previousInjuriesCount) as real ]
  }

  /** The value a feature takes, looked up by its training-column name: an
      independent statement of what each column means. */
  function NamedFeature(name: string, d: PlayerData, position: string): Option<real> {
    var build := PositionBuild(Lower(position));
    match name
    case "age" => Some(d.age as real)
    case "height_cm" => Some(build.heightCm)
    case "weight_kg" => Some(build.weightKg)
    case "bmi" => Some(Bmi(build))
    case "heart_rate_variability" => Some(50.0 + 30.0 * d.fitnessScore)
    case "sleep_quality" => Some(SleepQuality(d.recoveryTime))
    case "fatigue_level" => Some(10.0 * d.fatigueLevel)
    case "training_load" => Some(200.0 + 400.0 * d.trainingLoad)
    case "session_intensity" => Some(10.0 * d.trainingLoad)
    case "match_minutes" => Some(MatchMinutes(d.totalMinutesPlayed, d.matchesPlayed))
    case "previous_injuries_count" => Some(d.previousInjuriesCount as real)
    case "days_since_last_injury" => Some(DaysSinceInjury(d.previousInjuriesCount) as real)
    case _ => None
  }

  /** Position i of the vector holds the feature the i-th training column names. */
  lemma VectorFollowsTrainingOrder(d: PlayerData, position: string)
    ensures |FeatureVector(d, position)| == |TrainingFeatureNames|
    ensures forall i :: 0 <= i < |TrainingFeatureNames| ==>
              NamedFeature(TrainingFeatureNames[i], d, position) == Some(FeatureVector(d, position)[i])
  {
  }

  /** `_prepare_features` as a value: `lower()` on a position or weather that
      is not a string raises AttributeError; otherwise the vector and factor. */
  function DeriveFeatures(d: PlayerData): (r: Result<Derived, PyError>)
    ensures r.Ok? <==> d.position.VStr? && d.weatherCondition.VStr?
    ensures r.Err? ==> r.error == AttributeError
    ensures r.Ok? ==> r.value.vector == FeatureVector(d, d.position.s)
                      && r.value.weatherFactor == WeatherFactor(d.weatherCondition.s)
  {
    if !d.position.VStr? || !d.weatherCondition.VStr? then Err(AttributeError)
    else Ok(Derived(FeatureVector(d, d.position.s), WeatherFactor(d.weatherCondition.s)))
  }

  /** A 25-year-old midfielder with 900 minutes over 10 matches, 48 hours of
      recovery and no earlier injuries: the midfielder's build, sleep quality
      7.5, a full 90 minutes per match and a year since the last injury. */
  lemma MidfielderExample()
    ensures var d := PlayerData(25, VStr("midfielder"), 10, 900.0, 0.5, 0.5, 48.0, 0.8, 0, VStr("normal"));
            var v := FeatureVector(d, "midfielder");
            v[1] == 178.0 && v[2] == 72.0 && v[5] == 7.5 && v[9] == 90.0 && v[11] == 365.0
  {
    assert Lower("midfielder") == "midfielder";
  }

  /** Three earlier injuries put the last one 185 days back; six or more, 30. */
  lemma InjuryCountExamples()
    ensures DaysSinceInjury(3) == 185
    ensures DaysSinceInjury(6) == 30
  {
  }
}
