/** The explanation step of `InjuryPredictor`: the classifier's feature
    importances are paired with the feature names, sorted by importance in
    descending order with a stable sort, cut to the top three, and each kept
    feature is described in words from its current value. */
module Explainer {
  import opened Wrappers
  import opened Builtins

  // ---------------------------------------------------------------------------
  // Descriptions
  // ---------------------------------------------------------------------------

  /** A factor description. The one-decimal rendering of `{value:.1f}` is not
      modelled: such descriptions keep the exact value between their two texts. */
  datatype Description =
    | Text(text: string)
    | WithDecimal(before: string, value: real, after: string)

  /** Index of the first cut the value lies strictly above, or `|cuts|` when
      it lies above none: which branch of a chained conditional is taken. */
  function FirstExceeded(value: real, cuts: seq<real>): (k: nat)
    ensures k <= |cuts|
    ensures k < |cuts| ==> value > cuts[k]
    ensures forall j :: 0 <= j < k ==> value <= cuts[j]
  {
    if cuts == [] then 0
    else if value > cuts[0] then 0
    else 1 + FirstExceeded(value, cuts[1..])
  }

  /** The word a value earns: `words[0] if value > cuts[0] else words[1] if ... else words[last]`. */
  function Band(value: real, cuts: seq<real>, words: seq<string>): string
    requires |words| == |cuts| + 1
  {
    words[FirstExceeded(value, cuts)]
  }

  /** A larger value never earns a later (lower) band. */
  lemma {:induction false} BandMonotone(v1: real, v2: real, cuts: seq<real>)
    requires v1 <= v2
    ensures FirstExceeded(v2, cuts) <= FirstExceeded(v1, cuts)
  {
    if cuts != [] && !(v2 > cuts[0]) {
      BandMonotone(v1, v2, cuts[1..]);
    }
  }

  const TrainingLoadCuts: seq<real> := [500.0, 400.0, 300.0]
  const TrainingLoadWords: seq<string> := ["very high", "high", "moderate", "low"]

  /** The features that have a template of their own. */
  const DescribedFeatures: set<string> := {
    "training_load", "sleep_quality", "heart_rate_variability", "fatigue_level",
    "previous_injuries_count", "recovery_time", "fitness_score", "age",
    "session_intensity", "match_minutes"}

  /** `_get_factor_description`: the template for the feature, or the generic
      "<name> is <value>" for a feature without one. `int(value)` truncates. */
  function Describe(feature: string, value: real): (d: Description)
    ensures feature !in DescribedFeatures ==> d == WithDecimal(feature + " is ", value, "")
    ensures feature in DescribedFeatures - {"match_minutes"} ==> d.Text?
  {
    match feature
    case "training_load" =>
      Text("Training load is " + Band(value, TrainingLoadCuts, TrainingLoadWords))
    case "sleep_quality" =>
      Text("Sleep quality is " + Band(value, [8.0, 6.0], ["excellent", "good", "poor"]))
    case "heart_rate_variability" =>
      Text("HRV indicates " + Band(value, [75.0, 65.0, 55.0], ["excellent", "good", "moderate", "poor"]) + " recovery")
    case "fatigue_level" =>
      Text("Fatigue level is " + Band(value, [8.0, 6.0, 4.0], ["very high", "high", "moderate", "low"]))
    case "previous_injuries_count" =>
      Text("Player has " + ShowInt(Trunc(value)) + " previous injuries")
    case "recovery_time" =>
      Text("Recovery time is " + Band(value, [72.0, 48.0], ["optimal", "good", "insufficient"]))
    case "fitness_score" =>
      Text("Fitness score is " + Band(value, [0.8, 0.6], ["excellent", "good", "average"]))
    case "age" =>
      Text("Player age is " + ShowInt(Trunc(value)) + " years")
    case "session_intensity" =>
      Text("Session intensity is " + Band(value, [8.0, 6.0], ["very high", "high", "moderate"]))
    case "match_minutes" =>
      WithDecimal("Average match minutes is ", value, "")
    case _ =>
      WithDecimal(feature + " is ", value, "")
  }

  /** The training-load template: "very high" above 500, "high" above 400,
      "moderate" above 300, otherwise "low". */
  lemma TrainingLoadDescription(value: real)
    ensures Describe("training_load", value) == Text("Training load is " +
      (if value > 500.0 then "very high" else if value > 400.0 then "high"
       else if value > 300.0 then "moderate" else "low"))
  {
    var k := FirstExceeded(value, TrainingLoadCuts);
    assert TrainingLoadCuts[0] == 500.0 && TrainingLoadCuts[1] == 400.0 && TrainingLoadCuts[2] == 300.0;
    if value > 500.0 {
      assert k == 0;
    } else if value > 400.0 {
      assert k == 1;
    } else if value > 300.0 {
      assert k == 2;
    } else {
      assert k == 3;
    }
  }

  // ---------------------------------------------------------------------------
  // Ranking
  // ---------------------------------------------------------------------------

  /** A (name, importance) pair of `zip(feature_names, importances)`, with its
      position in the zipped sequence, which is also its position in the vector. */
  datatype Entry = Entry(index: nat, name: string, importance: real)

  function Min(a: int, b: int): int {
    if a < b then a else b
  }

  /** `zip(names, importances)`: as long as the shorter of the two. */
  function Zip(names: seq<string>, importances: seq<real>): (es: seq<Entry>)
    ensures |es| == Min(|names|, |importances|)
    ensures forall i :: 0 <= i < |es| ==> es[i] == Entry(i, names[i], importances[i])
  {
    seq(Min(|names|, |importances|), i requires 0 <= i < Min(|names|, |importances|) =>
      Entry(i, names[i], importances[i]))
  }

  /** The order a stable descending sort produces: higher importance first,
      and among equal importances the earlier position first. */
  predicate Before(a: Entry, b: Entry) {
    a.importance > b.importance || (a.importance == b.importance && a.index < b.index)
  }

  predicate Ranked(s: seq<Entry>) {
    forall i, j :: 0 <= i < j < |s| ==> Before(s[i], s[j])
  }

  predicate IndicesIncreasing(s: seq<Entry>) {
    forall i, j :: 0 <= i < j < |s| ==> s[i].index < s[j].index
  }

  /** Places `e` before the first entry whose importance is not greater. */
  function Insert(e: Entry, s: seq<Entry>): (r: seq<Entry>)
    ensures multiset(r) == multiset(s) + multiset{e}
  {
    if s == [] || s[0].importance <= e.importance then [e] + s
    else assert s == [s[0]] + s[1..]; [s[0]] + Insert(e, s[1..])
  }

  /** `sorted(..., key=importance, reverse=True)`, as an insertion sort. */
  function SortDescending(s: seq<Entry>): (r: seq<Entry>)
    ensures multiset(r) == multiset(s)
  {
    if s == [] then []
    else assert s == [s[0]] + s[1..]; Insert(s[0], SortDescending(s[1..]))
  }

  lemma {:induction false} InsertRanked(e: Entry, s: seq<Entry>)
    requires Ranked(s)
    requires forall x :: x in s ==> e.index < x.index
    ensures Ranked(Insert(e, s))
  {
    if s == [] || s[0].importance <= e.importance {
      var r := [e] + s;
      forall j | 0 < j < |r|
        ensures Before(r[0], r[j])
      {
        assert r[j] == s[j - 1] && r[j] in s;
        if j > 1 {
          assert Before(s[0], s[j - 1]);
        }
      }
    } else {
      var tail := Insert(e, s[1..]);
      assert Ranked(s[1..]) by {
        forall i, j | 0 <= i < j < |s[1..]|
          ensures Before(s[1..][i], s[1..][j])
        {
          assert Before(s[i + 1], s[j + 1]);
        }
      }
      InsertRanked(e, s[1..]);
      var r := [s[0]] + tail;
      forall j | 0 < j < |r|
        ensures Before(r[0], r[j])
      {
        assert r[j] in multiset(tail);
        assert r[j] in multiset(s[1..]) + multiset{e};
        if r[j] != e {
          var k :| 0 <= k < |s[1..]| && s[1..][k] == r[j];
          assert Before(s[0], s[k + 1]);
        }
      }
    }
  }

  lemma {:induction false} SortRanked(s: seq<Entry>)
    requires IndicesIncreasing(s)
    ensures Ranked(SortDescending(s))
  {
    if s != [] {
      var rest := s[1..];
      assert IndicesIncreasing(rest) by {
        forall i, j | 0 <= i < j < |rest|
          ensures rest[i].index < rest[j].index
        {
          assert s[i + 1].index < s[j + 1].index;
        }
      }
      SortRanked(rest);
      var sorted := SortDescending(rest);
      forall x | x in sorted
        ensures s[0].index < x.index
      {
        assert x in multiset(rest);
        var k :| 0 <= k < |rest| && rest[k] == x;
        assert s[0].index < s[k + 1].index;
      }
      InsertRanked(s[0], sorted);
    }
  }

  const TopCount: nat := 3

  /** `sorted(zip(names, importances), ..., reverse=True)[:3]`. */
  function TopEntries(names: seq<string>, importances: seq<real>): (top: seq<Entry>)
    ensures |top| == Min(TopCount, Min(|names|, |importances|))
    ensures forall e :: e in top ==> e.index < Min(|names|, |importances|)
  {
    var zipped := Zip(names, importances);
    var sorted := SortDescending(zipped);
    assert |sorted| == |multiset(sorted)| == |multiset(zipped)| == |zipped|;
    var top := sorted[..Min(TopCount, |sorted|)];
    forall e | e in top
      ensures e.index < Min(|names|, |importances|)
    {
      assert e in multiset(zipped);
    }
    top
  }

  /** In a ranked sequence, everything in a prefix comes before anything after
      it: it weighs more, or as much and sits earlier in the input. */
  lemma RankedPrefixMaximal(sorted: seq<Entry>, n: nat)
    requires Ranked(sorted) && n <= |sorted|
    ensures Ranked(sorted[..n])
    ensures forall e, t :: e in sorted && e !in sorted[..n] && t in sorted[..n] ==> Before(t, e)
  {
    forall e, t | e in sorted && e !in sorted[..n] && t in sorted[..n]
      ensures Before(t, e)
    {
      var p :| 0 <= p < |sorted| && sorted[p] == e;
      var q :| 0 <= q < n && sorted[..n][q] == t;
      assert forall k :: 0 <= k < n ==> sorted[..n][k] == sorted[k];
      assert Before(sorted[q], sorted[p]);
    }
  }

  /** The top entries come in stable descending order, are pairs of the
      zipped input, and every kept pair comes before every pair left out: it
      is more important, or equally important and earlier in the input. */
  lemma TopEntriesCorrect(names: seq<string>, importances: seq<real>)
    ensures var top := TopEntries(names, importances);
            var zipped := Zip(names, importances);
            Ranked(top)
            && (forall e :: e in top ==> e in zipped)
            && (forall e, t :: e in zipped && e !in top && t in top ==> Before(t, e))
  {
    var zipped := Zip(names, importances);
    var sorted := SortDescending(zipped);
    SortRanked(zipped);
    assert |sorted| == |multiset(sorted)| == |multiset(zipped)| == |zipped|;
    var n := Min(TopCount, |sorted|);
    assert sorted[..n] == TopEntries(names, importances);
    RankedPrefixMaximal(sorted, n);
    forall e | e in zipped
      ensures e in sorted
    {
      assert e in multiset(sorted);
    }
    forall e | e in sorted
      ensures e in zipped
    {
      assert e in multiset(zipped);
    }
  }

  // ---------------------------------------------------------------------------
  // Key factors
  // ---------------------------------------------------------------------------

  /** One entry of `key_factors`. */
  datatype KeyFactor = KeyFactor(factorName: string, factorImpact: real, currentValue: real, description: Description)

  /** The key factor for a kept entry: its value is the vector entry at the
      feature's position (`dict(zip(feature_names, features))[name]`). */
  function Factor(e: Entry, features: seq<real>): KeyFactor
    requires e.index < |features|
  {
    KeyFactor(e.name, e.importance, features[e.index], Describe(e.name, features[e.index]))
  }

  /** The loop of `_get_feature_importance`: one described factor per entry,
      in the entries' order. */
  method DescribeEach(top: seq<Entry>, features: seq<real>) returns (factors: seq<KeyFactor>)
    requires forall e :: e in top ==> e.index < |features|
    ensures factors == seq(|top|, k requires 0 <= k < |top| => Factor(top[k], features))
  {
    ghost var described := seq(|top|, k requires 0 <= k < |top| => Factor(top[k], features));
    factors := [];
    var i := 0;
    while i < |top|
      invariant 0 <= i <= |top|
      invariant factors == described[..i]
    {
      factors := factors + [Factor(top[i], features)];
      i := i + 1;
      assert described[..i] == described[..i - 1] + [described[i - 1]];
    }
    assert described[..i] == described;
  }

  /** `_get_feature_importance`: no factors when the classifier exposes no
      importances, otherwise the described top three. */
  function Explain(names: seq<string>, importances: Option<seq<real>>, features: seq<real>): (factors: seq<KeyFactor>)
    requires |names| <= |features|
    ensures importances.None? ==> factors == []
    ensures importances.Some? ==> |factors| == Min(TopCount, Min(|names|, |importances.value|))
  {
    match importances
    case None => []
    case Some(w) =>
      var top := TopEntries(names, w);
      seq(|top|, k requires 0 <= k < |top| => Factor(top[k], features))
  }

  /** The factors come in non-increasing impact; ties keep the order of the
      names; each carries the importance and the vector value of its feature. */
  lemma {:induction false} ExplainOrdered(names: seq<string>, w: seq<real>, features: seq<real>)
    requires |names| <= |features|
    ensures var factors := Explain(names, Some(w), features);
            (forall i, j :: 0 <= i < j < |factors| ==> factors[i].factorImpact >= factors[j].factorImpact)
            && (forall i, j :: 0 <= i < j < |factors| && factors[i].factorImpact == factors[j].factorImpact ==>
                  exists p, q :: 0 <= p < q < |names| && names[p] == factors[i].factorName && names[q] == factors[j].factorName)
            && (forall k :: 0 <= k < |factors| ==>
                  exists p :: 0 <= p < Min(|names|, |w|) && names[p] == factors[k].factorName
                              && factors[k].factorImpact == w[p] && factors[k].currentValue == features[p])
  {
    var factors := Explain(names, Some(w), features);
    var top := TopEntries(names, w);
    TopEntriesCorrect(names, w);
    var zipped := Zip(names, w);
    forall i, j | 0 <= i < j < |factors|
      ensures factors[i].factorImpact >= factors[j].factorImpact
    {
      assert Before(top[i], top[j]);
    }
    forall i, j | 0 <= i < j < |factors| && factors[i].factorImpact == factors[j].factorImpact
      ensures exists p, q :: 0 <= p < q < |names| && names[p] == factors[i].factorName && names[q] == factors[j].factorName
    {
      assert Before(top[i], top[j]);
      assert top[i] in zipped && top[j] in zipped;
      var p, q := top[i].index, top[j].index;
      assert zipped[p] == top[i] && zipped[q] == top[j];
    }
    forall k | 0 <= k < |factors|
      ensures exists p :: 0 <= p < Min(|names|, |w|) && names[p] == factors[k].factorName
                          && factors[k].factorImpact == w[p] && factors[k].currentValue == features[p]
    {
      assert top[k] in zipped;
      var p := top[k].index;
      assert zipped[p] == top[k];
    }
  }

  /** A feature missing from the factors is no more important than any factor,
      and a factor of equal importance comes earlier in the name list. */
  lemma ExplainKeepsMostImportant(names: seq<string>, w: seq<real>, features: seq<real>, p: nat)
    requires |names| <= |features|
    requires p < Min(|names|, |w|)
    ensures var factors := Explain(names, Some(w), features);
            (forall k :: 0 <= k < |factors| ==> factors[k].factorName != names[p]) ==>
              forall k :: 0 <= k < |factors| ==>
                factors[k].factorImpact >= w[p]
                && (factors[k].factorImpact == w[p] ==> exists q :: 0 <= q < p && names[q] == factors[k].factorName)
  {
    var factors := Explain(names, Some(w), features);
    var top := TopEntries(names, w);
    var zipped := Zip(names, w);
    TopEntriesCorrect(names, w);
    if forall k :: 0 <= k < |factors| ==> factors[k].factorName != names[p] {
      assert zipped[p] !in top by {
        forall k | 0 <= k < |top|
          ensures top[k] != zipped[p]
        {
          assert factors[k].factorName == top[k].name;
        }
      }
      forall k | 0 <= k < |factors|
        ensures factors[k].factorImpact >= w[p]
        ensures factors[k].factorImpact == w[p] ==> exists q :: 0 <= q < p && names[q] == factors[k].factorName
      {
        assert top[k] in top && Before(top[k], zipped[p]);
        assert top[k] in zipped;
        var q := top[k].index;
        assert zipped[q] == top[k];
      }
    }
  }
}
