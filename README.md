# Football injury prediction pipeline in Dafny

This project models the prediction path of a football injury-risk service.

- **Predictor.** `InjuryPredictor` (backend/api/models/injury_predictor.py) turns a player record into a fixed-order vector of twelve features. It asks a trained classifier for the probability of injury. It then adjusts that probability for the weather, buckets it into a risk level, derives a confidence, and explains the prediction by its three most important features.
- **Web layer.** The endpoint in backend/api/views.py builds the player record from the request body. It calls the predictor, adds rule-based recommendations and maps exceptions to HTTP statuses.

The classifier is not modelled. It appears as a value `Predictor.Classifier` with two parts: a total function from feature vectors to a probability in [0, 1], and optional per-feature importances. Numbers are Dafny `real`s. Text is `seq<char>`. A request body is a map from keys to `Builtins.Value`, a small model of decoded JSON values.

Modules:

- `Wrappers`: `Option` and `Result`.
- `Builtins`: the Python behaviour the code relies on:
  - `str.lower()` on ASCII;
  - the substring test `in`;
  - `int()` and `float()` of a request value, with their `ValueError` and `TypeError` outcomes;
  - `str()` of an integer.
- `Features`: the arithmetic and rules of `_prepare_features`, as functions.
- `Explainer`: the stable descending sort, the top three features and the description templates.
- `Predictor`: post-processing functions, and the class `InjuryPredictor`. The class has the fields `model`, `featureNames`, `isTrained` and `weatherFactor`, plus methods that update them. `Predict` is the pure function that the method `PredictRisk` is proved against.
- `Views`: `BuildPlayerPayload`, the imperative `GetRecommendations`, and `PredictInjury` with its status mapping.

Behaviour of the code that the model keeps, where a plain reading might expect otherwise:

- **Bad numbers give 500.** A request field holding text that is not a number makes `int()` / `float()` raise `ValueError`. `predict_injury` catches `ValueError` first and answers 500, the status it also uses for a missing model. Only `null`, lists and objects (`TypeError`) get 400. So does a non-string position or weather (`AttributeError`), but only once the model check has passed.
- **A loaded model explains nothing.** `feature_names` is filled only by training (backend/api/models/injury_predictor.py:95). A predictor that loads a saved model keeps an empty name list. `zip` then pairs nothing, so its key factors are always empty (`Predictor.LoadedPredictorHasNoFactors`).
- **The model loads lazily.** `predict_risk` loads a saved model on first use and raises `ValueError` only when there is none. It does not fail at start-up.
- **The web layer imports another copy of the predictor.** views.py imports the predictor from `.ml.injury_predictor` (backend/api/views.py:12). That file is not part of this model. The model follows backend/api/models/injury_predictor.py.
- **The FastAPI copy differs.** backend/api/ml/main.py is a second endpoint with different rules. It checks only for "rain" in the weather text (lines 63-65). It buckets risk with strict `>` thresholds (line 71). It falls back to `predict()` when `predict_proba` fails (lines 54-60). That endpoint is not modelled.

## Model

| member | source | states |
|---|---|---|
| `Builtins.Lower` | backend/api/models/injury_predictor.py:143 | `lower()` keeps the length and lower-cases each ASCII letter, leaving every other character |
| `Builtins.LowerIdempotent` | backend/api/models/injury_predictor.py:194 | lower-casing twice gives the same text as once |
| `Builtins.ContainsIff` | backend/api/models/injury_predictor.py:196-198 | the left-to-right scan behind `sub in s` succeeds exactly when `sub` occurs at some position of `s` |
| `Builtins.Trunc` | backend/api/models/injury_predictor.py:277 | `int(x)` of a float truncates toward zero: within 1 of `x`, never farther from 0 |
| `Builtins.ParseIntShowInt` | backend/api/views.py:85 | `int(str(n)) == n` for every integer |
| `Builtins.FloatOfIntLiteral` | backend/api/views.py:86 | an integer literal means the same number to `float()` as to `int()` |
| `Builtins.IntOf` | backend/api/views.py:85-97 | `int(v)` fails exactly for null, lists/objects (TypeError) and non-numeric text (ValueError); an int passes unchanged, a float is truncated toward zero, a boolean gives 1 or 0, accepted text gives its parsed value |
| `Builtins.FloatOf` | backend/api/views.py:86-96 | `float(v)` fails exactly for null, lists/objects (TypeError) and non-numeric text (ValueError); ints and floats convert exactly, a boolean gives 1.0 or 0.0, accepted text gives its parsed decimal value |
| `Builtins.FloatOfAcceptsIntOf` | backend/api/views.py:85-97 | whatever `int()` accepts, `float()` accepts, with the same number unless a fraction was truncated |
| `Features.PositionBuild` | backend/api/models/injury_predictor.py:146-152 | each of the four listed positions gets its own table profile; an unlisted position gets (180, 75); the goalkeeper profile belongs to "goalkeeper" alone |
| `Features.PositionIgnoresCase` | backend/api/models/injury_predictor.py:143-152 | positions that lower-case alike give the same feature vector, for every record; "Goalkeeper" finds (190, 85) |
| `Features.Bmi` | backend/api/models/injury_predictor.py:153 | bmi times the squared height in metres gives back the weight; positive for a positive weight |
| `Features.SleepQuality` | backend/api/models/injury_predictor.py:170-178 | the value is one of 4.0, 6.0, 7.5, 9.0; 9.0 iff ≥72 h, at least 7.5 iff ≥48 h, at least 6.0 iff ≥24 h |
| `Features.SleepQualityMonotone` | backend/api/models/injury_predictor.py:170-178 | more recovery hours never lower sleep quality |
| `Features.MatchDivisor` | backend/api/models/injury_predictor.py:181 | `max(1, matches)`: the match count when that is at least 1, otherwise 1 |
| `Features.MatchMinutes` | backend/api/models/injury_predictor.py:181-183 | at most 90; below 90 it times the divisor gives back the total; 90 means the total reaches 90 per match; non-negative for a non-negative total |
| `Features.DaysSinceInjury` | backend/api/models/injury_predictor.py:186-191 | `max(30, 365 − 60·count)` for a nonzero count, 365 for none; in [30, 365] for any count ≥ 0 |
| `Features.DaysSinceInjuryMonotone` | backend/api/models/injury_predictor.py:186-191 | more injuries never give a longer time since the last one, for every pair of counts, negative ones included |
| `Features.InjuryCountExamples` | backend/api/models/injury_predictor.py:186-191 | three injuries give 185 days, six give the floor of 30 |
| `Features.WeatherFactor` | backend/api/models/injury_predictor.py:194-199 | the factor is 1.0, 1.1 or 1.2; 1.2 iff the lower-cased text contains "rain" or "wet"; 1.1 iff it contains neither but "hot" or "extreme" |
| `Features.WeatherFactorIgnoresCase` | backend/api/models/injury_predictor.py:194 | the weather rule ignores letter case |
| `Features.WeatherHeavyRain` | backend/api/models/injury_predictor.py:196-197 | "Heavy Rain" gives 1.2 |
| `Features.WeatherWetBeatsHot` | backend/api/models/injury_predictor.py:196-199 | "hot and wet" gives 1.2: rain/wet takes precedence over hot/extreme |
| `Features.WeatherHot` | backend/api/models/injury_predictor.py:198-199 | "hot" alone gives 1.1 |
| `Features.WeatherWithoutKeywordLetters` | backend/api/models/injury_predictor.py:194-199 | text with none of the letters i, w, h, e (in either case) matches no keyword, so the factor stays 1.0 |
| `Features.WeatherNormal` | backend/api/models/injury_predictor.py:195 | the default "normal" gives 1.0 |
| `Features.FeatureVector` | backend/api/models/injury_predictor.py:202-215 | twelve entries; entry 0 is the raw age and entry 10 the raw injury count; sleep, match minutes and days since injury lie in their ranges |
| `Features.VectorFollowsTrainingOrder` | backend/api/models/injury_predictor.py:74-86 | position i of the vector holds exactly the feature that the i-th training column names |
| `Features.DeriveFeatures` | backend/api/models/injury_predictor.py:139-220 | succeeds iff position and weather are strings (else AttributeError from `lower()`), giving the vector and the weather factor |
| `Features.MidfielderExample` | backend/api/models/injury_predictor.py:143-191 | a midfielder with 900 minutes over 10 matches, 48 h recovery and no injuries gets height 178, weight 72, sleep 7.5, match minutes 90 and 365 days |
| `Explainer.FirstExceeded` | backend/api/models/injury_predictor.py:273-281 | a chained `a if v > c0 else b if v > c1 ...` picks the first threshold the value exceeds: above it, and not above any earlier one |
| `Explainer.BandMonotone` | backend/api/models/injury_predictor.py:273-281 | a larger value never earns a lower band of a template |
| `Explainer.Describe` | backend/api/models/injury_predictor.py:270-285 | a feature without a template is described as "<name> is <value>"; every other template except match minutes is plain text |
| `Explainer.TrainingLoadDescription` | backend/api/models/injury_predictor.py:273 | training load reads "very high" above 500, "high" above 400, "moderate" above 300, else "low" |
| `Explainer.Zip` | backend/api/models/injury_predictor.py:253-254 | `zip` is as long as the shorter input and pairs the i-th name with the i-th importance |
| `Explainer.Insert` | backend/api/models/injury_predictor.py:257 | inserting adds exactly the one entry to the multiset |
| `Explainer.SortDescending` | backend/api/models/injury_predictor.py:257 | the sort is a permutation of its input |
| `Explainer.InsertRanked` | backend/api/models/injury_predictor.py:257 | inserting an entry that precedes all others in input order keeps the sequence in stable descending order |
| `Explainer.SortRanked` | backend/api/models/injury_predictor.py:257 | sorting pairs given in input order yields descending importance, ties in input order (Python's stable `reverse=True` sort) |
| `Explainer.RankedPrefixMaximal` | backend/api/models/injury_predictor.py:257 | in a ranked sequence, each element of a prefix comes before each element after it: more important, or equally important and earlier |
| `Explainer.TopEntries` | backend/api/models/injury_predictor.py:257 | the top list has min(3, number of pairs) entries, all of them pairs of the input |
| `Explainer.TopEntriesCorrect` | backend/api/models/injury_predictor.py:253-257 | the top list is in stable descending order, holds pairs of the zipped input, and every pair kept comes before every pair left out, so ties are cut in input order |
| `Explainer.DescribeEach` | backend/api/models/injury_predictor.py:259-266 | the loop appends exactly one described factor per ranked entry, in order, with that entry's name, importance and vector value |
| `Explainer.Explain` | backend/api/models/injury_predictor.py:248-268 | no importances give no factors; otherwise min(3, number of pairs) factors |
| `Explainer.ExplainOrdered` | backend/api/models/injury_predictor.py:253-266 | impacts are non-increasing; equal impacts keep name order; each factor carries its feature's importance and its value at the feature's vector position |
| `Explainer.ExplainKeepsMostImportant` | backend/api/models/injury_predictor.py:257 | a feature left out is no more important than any factor reported, and a reported factor of equal importance comes earlier in the name list |
| `Predictor.AdjustForWeather` | backend/api/models/injury_predictor.py:236 | the score is at most 0.95 and at most probability × factor, equal to one of the two, non-negative for non-negative inputs |
| `Predictor.AdjustMonotoneInFactor` | backend/api/models/injury_predictor.py:236 | for a fixed probability, a larger weather factor never lowers the score |
| `Predictor.RiskLevel` | backend/api/models/injury_predictor.py:287-294 | the level is low, medium or high; "low" iff score < 0.3; "high" iff score ≥ 0.7 |
| `Predictor.RiskLevelMonotone` | backend/api/models/injury_predictor.py:287-294 | a higher score never gets a lower level |
| `Predictor.Confidence` | backend/api/models/injury_predictor.py:245 | `min(0.95, 1.2 × score)`: at most both, equal to one of them; for a score in [0, 0.95], at least the score |
| `Predictor.Predict` | backend/api/models/injury_predictor.py:229-246 | fails only with AttributeError for a non-string position or weather; otherwise the score is `AdjustForWeather` of the classifier's probability on the feature vector and the weather factor, the level comes from the thresholds, the confidence is `Confidence` of the score, and the key factors are `Explain` of the names, importances and vector |
| `Predictor.LoadedPredictorHasNoFactors` | backend/api/models/injury_predictor.py:250-257 | with no feature names (a loaded, untrained predictor) the key factors are empty |
| `Predictor.InjuryPredictor.constructor` | backend/api/models/injury_predictor.py:21-26 | no model, no names, not trained, weather factor 1.0 |
| `Predictor.InjuryPredictor.Train` | backend/api/models/injury_predictor.py:95-122 | training installs the classifier, sets the training columns as names, marks trained, leaves the weather factor |
| `Predictor.InjuryPredictor.LoadModel` | backend/api/models/injury_predictor.py:296-303 | returns true iff a saved model exists; on success installs it and marks trained; on failure changes nothing; names untouched |
| `Predictor.InjuryPredictor.PrepareFeatures` | backend/api/models/injury_predictor.py:139-220 | returns the derived vector and writes the derived factor to `weather_factor`, and no other field; on AttributeError the field keeps its value |
| `Predictor.InjuryPredictor.GetFeatureImportance` | backend/api/models/injury_predictor.py:248-268 | the factors it returns are exactly the explanation of the model's importances (none when the model has none) |
| `Predictor.InjuryPredictor.PredictRisk` | backend/api/models/injury_predictor.py:222-246 | ValueError iff untrained and no saved model, with the object unchanged; otherwise the model is loaded if needed, the result is `Predict` on it, the names stay and the weather factor is the request's when the features could be derived |
| `Views.BuildPlayerPayload` | backend/api/views.py:83-100 | matches played ≥ 1; fails iff some coercion fails, with the first failing coercion's exception in code order; position and weather pass through with defaults |
| `Views.PayloadDefaults` | backend/api/views.py:85-99 | an empty request gives age 25, midfielder, 1 match, 0 minutes, fatigue 0.5, load 0.5, 48 h, fitness 0.8, 0 injuries, "normal" |
| `Views.PayloadReadsOnlyRequestKeys` | backend/api/views.py:85-98 | only the ten request keys are read; `total_minutes_played` or any other key in the request changes nothing |
| `Views.PayloadFields` | backend/api/views.py:85-98 | for every accepted request, each of the eight coerced fields is the default when its key is absent and the `int()`/`float()` of the sent value when present, the match count raised to at least 1 |
| `Views.PayloadRenamesAndClamp` | backend/api/views.py:85-97 | `minutes_played` becomes the total minutes, `previous_injuries` the injury count; a match count below 1 becomes 1, others are kept |
| `Views.PayloadCoercionErrors` | backend/api/views.py:89 | age "abc" raises ValueError (served as 500), age null raises TypeError (400), age "27" is accepted |
| `Views.Baseline` | backend/api/views.py:51-71 | exactly three baseline strings for any level |
| `Views.BaselineByLevel` | backend/api/views.py:51-71 | the high set iff level "high", the medium set iff "medium", the low set for anything else, a missing level included |
| `Views.Additions` | backend/api/views.py:73-78 | at most three notes |
| `Views.AdditionsMatchConditions` | backend/api/views.py:73-78 | each note is present iff its strict comparison on the normalized payload holds, no other text is added, and the notes keep the fixed order fatigue, recovery, load |
| `Views.GetRecommendations` | backend/api/views.py:49-80 | the list built by the appends is the baseline for the level, unchanged, followed by the notes whose conditions hold: between 3 and 6 strings |
| `Views.BoundaryAddsNothing` | backend/api/views.py:73-77 | fatigue exactly 0.7, recovery exactly 24 h and load exactly 0.75 add no note |
| `Views.ErrorResponse` | backend/api/views.py:40-46 | status 500 iff the exception is a ValueError, else 400, with the exception in the body |
| `Views.PredictInjury` | backend/api/views.py:24-46 | payload errors answer by exception class and leave the predictor untouched; a missing model answers 500 and leaves it untouched; otherwise the predictor holds the (loaded) model, its names and the request's weather factor, and the answer is 400 when `lower()` fails and otherwise 200 with `Predict`'s result and the recommendations for its level and payload |

## Left out

- Training (`generate_training_data`, `train`): random sampling, the random-forest fit, the accuracy score and the prints are not modelled. `Train` models only its effect on the object's fields.
- Model files: `joblib.dump` / `joblib.load`, `os.path.exists` and `model_path` are file I/O. `LoadModel` is given the stored classifier, or none, as a parameter. Saving after training is not modelled.
- Classifier failures: an exception raised inside `predict_proba`, for example for a vector of the wrong shape, is not modelled. The classifier is a total function.
- `Explainer.Describe`: the one-decimal rendering `{value:.1f}` is not modelled. Those descriptions keep the exact value between two texts.
- `Views.PredictInjury`: `round(..., 4)` on the score and confidence is not modelled. The body carries the exact values. Error bodies carry the exception, not its message text.
- `Views.PredictInjury`: the request body is taken to be a decoded JSON object. The source also answers 400 for a body that is a JSON list, `null` or a scalar, where `data.get` raises AttributeError. It answers 400 as well for a body that does not decode, whose parse error is raised inside the same `try`. Neither kind of body is modelled.
- `Builtins.IntOf`: text is accepted only as an optional sign followed by ASCII digits. Python also accepts surrounding whitespace, underscores between digits and non-ASCII digits. For those the model raises ValueError.
- `Builtins.FloatOf`: text is accepted only in plain decimal notation (`12`, `-0.5`, `3.`, `.25`). Python also accepts exponents, "inf", "nan", whitespace, underscores and non-ASCII digits. For those the model raises ValueError.
- `Builtins.Lower`: only ASCII letters are lower-cased. Python's `lower()` also lower-cases other Unicode letters.
- Floating point: all arithmetic is exact over the reals. Rounding, infinities and NaN are not modelled. JSON numbers too large for a float are not modelled either.
- `Explainer.Explain`: names are used by position. With duplicate names, Python's `dict` would merge them. The predictor's names are either empty or the twelve distinct training columns, as `InjuryPredictor.Valid` states. `Explain` also requires the name list to be no longer than the vector, which the twelve columns meet.
- Other endpoints and files: `health_check`, `csrf_token` and `social_login_success`, and the auth, session and settings code, are not part of this model. Neither are the FastAPI copy in backend/api/ml/main.py, the unused schemas in backend/api/ml/data_models.py, the ORM model in backend/api/models.py, the scripts and the frontend.
- Concurrency: the shared global predictor is modelled as one object passed to `PredictInjury`. Concurrent requests are not modelled.
