/**
 * The reporter's computations: grouping results by (task, config[, model]),
 * the aggregated metrics of a group, and the regression check between a
 * baseline and a current run, key by key in sorted order. The Rich console
 * output and the JSON export are not modelled.
 */
module Reporter {
  import opened Wrappers
  import opened Models
  import opened Sorting
  import Statistics

  // ---------------------------------------------------------------------
  // Grouping
  // ---------------------------------------------------------------------

  /** A grouping key: the tuple (task_id, config_name[, model]). */
  type GroupKey = seq<string>

  function KeyOf(r: EvalResult, includeModel: bool): (k: GroupKey)
    ensures |k| == if includeModel then 3 else 2
  {
    if includeModel then [r.taskId, r.configName, r.model] else [r.taskId, r.configName]
  }

  /** The keys that occur among `results`. */
  function KeySet(results: seq<EvalResult>, includeModel: bool): set<GroupKey>
  {
    set i | 0 <= i < |results| :: KeyOf(results[i], includeModel)
  }

  /** The results whose key is `key`, in input order. */
  function Members(results: seq<EvalResult>, includeModel: bool, key: GroupKey): seq<EvalResult>
  {
    if results == [] then []
    else
      var last := results[|results| - 1];
      Members(results[..|results| - 1], includeModel, key) + (if KeyOf(last, includeModel) == key then [last] else [])
  }

  predicate Distinct<T(==)>(s: seq<T>)
  {
    forall i, j :: 0 <= i < j < |s| ==> s[i] != s[j]
  }

  lemma MembersOfSnoc(results: seq<EvalResult>, r: EvalResult, includeModel: bool, key: GroupKey)
    ensures Members(results + [r], includeModel, key)
      == Members(results, includeModel, key) + (if KeyOf(r, includeModel) == key then [r] else [])
  {
    assert (results + [r])[..|results|] == results;
  }

  /** A key that no result carries has no members. */
  lemma {:induction false} MembersOfAbsentKey(results: seq<EvalResult>, includeModel: bool, key: GroupKey)
    requires key !in KeySet(results, includeModel)
    ensures Members(results, includeModel, key) == []
  {
    if results != [] {
      var init := results[..|results| - 1];
      assert KeySet(init, includeModel) <= KeySet(results, includeModel) by {
        forall k | k in KeySet(init, includeModel) ensures k in KeySet(results, includeModel) {
          var i :| 0 <= i < |init| && KeyOf(init[i], includeModel) == k;
          assert results[i] == init[i];
        }
      }
      MembersOfAbsentKey(init, includeModel, key);
      assert KeyOf(results[|results| - 1], includeModel) in KeySet(results, includeModel);
    }
  }

  /** Every member of a group carries the group's key. */
  lemma {:induction false} MembersHaveKey(results: seq<EvalResult>, includeModel: bool, key: GroupKey)
    ensures forall r :: r in Members(results, includeModel, key) ==> KeyOf(r, includeModel) == key
  {
    if results != [] {
      MembersHaveKey(results[..|results| - 1], includeModel, key);
    }
  }

  /** Every result lands in the group of its own key. */
  lemma {:induction false} ResultInItsGroup(results: seq<EvalResult>, includeModel: bool, i: nat)
    requires i < |results|
    ensures results[i] in Members(results, includeModel, KeyOf(results[i], includeModel))
  {
    var init := results[..|results| - 1];
    if i < |results| - 1 {
      assert init[i] == results[i];
      ResultInItsGroup(init, includeModel, i);
    }
  }

  /** Grouping keeps input order: the group of a concatenation is the concatenation of the groups. */
  lemma {:induction false} MembersOfConcat(a: seq<EvalResult>, b: seq<EvalResult>, includeModel: bool, key: GroupKey)
    ensures Members(a + b, includeModel, key) == Members(a, includeModel, key) + Members(b, includeModel, key)
  {
    if b == [] {
      assert a + b == a;
    } else {
      var init := b[..|b| - 1];
      MembersOfConcat(a, init, includeModel, key);
      assert (a + b)[..|a + b| - 1] == a + init;
      assert (a + b)[|a + b| - 1] == b[|b| - 1];
    }
  }

  /** `grouped` maps every key to its group, and a key it lacks has no members (`grouped.get(key, [])`). */
  ghost predicate IsGrouping(grouped: map<GroupKey, seq<EvalResult>>, results: seq<EvalResult>, includeModel: bool)
  {
    forall k :: Members(results, includeModel, k) == if k in grouped then grouped[k] else []
  }

  lemma KeySetOfSnoc(results: seq<EvalResult>, r: EvalResult, includeModel: bool)
    ensures KeySet(results + [r], includeModel) == KeySet(results, includeModel) + {KeyOf(r, includeModel)}
  {
    var s := results + [r];
    forall k | k in KeySet(s, includeModel) ensures k in KeySet(results, includeModel) + {KeyOf(r, includeModel)} {
      var j :| 0 <= j < |s| && KeyOf(s[j], includeModel) == k;
      if j < |results| { assert s[j] == results[j]; }
    }
    forall k | k in KeySet(results, includeModel) ensures k in KeySet(s, includeModel) {
      var j :| 0 <= j < |results| && KeyOf(results[j], includeModel) == k;
      assert s[j] == results[j];
    }
    assert s[|results|] == r;
  }

  /** The keys of `results`, each where it first occurs. */
  function KeyOrder(results: seq<EvalResult>, includeModel: bool): seq<GroupKey>
  {
    if results == [] then []
    else
      var order := KeyOrder(results[..|results| - 1], includeModel);
      var key := KeyOf(results[|results| - 1], includeModel);
      if key in order then order else order + [key]
  }

  /** The key order lists exactly the keys that occur, each once. */
  lemma {:induction false} KeyOrderListsKeys(results: seq<EvalResult>, includeModel: bool)
    ensures Elements(KeyOrder(results, includeModel)) == KeySet(results, includeModel)
    ensures Distinct(KeyOrder(results, includeModel))
  {
    if results != [] {
      var init, last := results[..|results| - 1], results[|results| - 1];
      KeyOrderListsKeys(init, includeModel);
      assert results == init + [last];
      KeySetOfSnoc(init, last, includeModel);
    }
  }

  /** One more result: its key joins the key set and, when new, the end of the order; its group gains it. */
  lemma GroupStep(done: seq<EvalResult>, r: EvalResult, includeModel: bool)
    ensures KeySet(done + [r], includeModel) == KeySet(done, includeModel) + {KeyOf(r, includeModel)}
    ensures KeyOrder(done + [r], includeModel)
      == KeyOrder(done, includeModel) + (if KeyOf(r, includeModel) in KeySet(done, includeModel) then [] else [KeyOf(r, includeModel)])
    ensures forall k ::
      Members(done + [r], includeModel, k) == Members(done, includeModel, k) + (if KeyOf(r, includeModel) == k then [r] else [])
    ensures KeyOf(r, includeModel) !in KeySet(done, includeModel) ==> Members(done, includeModel, KeyOf(r, includeModel)) == []
  {
    KeySetOfSnoc(done, r, includeModel);
    KeyOrderListsKeys(done, includeModel);
    assert (done + [r])[..|done|] == done;
    forall k ensures Members(done + [r], includeModel, k)
      == Members(done, includeModel, k) + (if KeyOf(r, includeModel) == k then [r] else []) {
      MembersOfSnoc(done, r, includeModel, k);
    }
    if KeyOf(r, includeModel) !in KeySet(done, includeModel) {
      MembersOfAbsentKey(done, includeModel, KeyOf(r, includeModel));
    }
  }

  /**
   * Keys are listed by first occurrence: wherever a key occurs, every key
   * listed before it has already occurred.
   */
  lemma {:induction false} KeyOrderIsFirstOccurrence(results: seq<EvalResult>, includeModel: bool, i: nat, j: nat, q: nat)
    requires i < j < |KeyOrder(results, includeModel)|
    requires q < |results| && KeyOf(results[q], includeModel) == KeyOrder(results, includeModel)[j]
    ensures exists p :: 0 <= p < q && KeyOf(results[p], includeModel) == KeyOrder(results, includeModel)[i]
  {
    var init, last := results[..|results| - 1], results[|results| - 1];
    var prior := KeyOrder(init, includeModel);
    var order := KeyOrder(results, includeModel);
    KeyOrderListsKeys(init, includeModel);
    assert order[..|prior|] == prior;
    if j < |prior| {
      assert order[i] == prior[i] && order[j] == prior[j];
      var q' := q;
      if q == |init| {
        assert prior[j] in KeySet(init, includeModel);
        var k :| 0 <= k < |init| && KeyOf(init[k], includeModel) == prior[j];
        q' := k;
      }
      assert init[q'] == results[q'];
      KeyOrderIsFirstOccurrence(init, includeModel, i, j, q');
      var p :| 0 <= p < q' && KeyOf(init[p], includeModel) == prior[i];
      assert results[p] == init[p];
    } else {
      assert order[j] == KeyOf(last, includeModel) && order[j] !in prior;
      assert forall k :: 0 <= k < |init| ==> results[k] == init[k] && KeyOf(init[k], includeModel) in KeySet(init, includeModel);
      assert q == |init|;
      assert order[i] == prior[i] && prior[i] in KeySet(init, includeModel);
      var p :| 0 <= p < |init| && KeyOf(init[p], includeModel) == prior[i];
      assert results[p] == init[p];
    }
  }

  /**
   * `_group_results_by_key`. `order` lists the keys in first-occurrence
   * order, as the dictionary's keys come out.
   */
  method GroupResultsByKey(results: seq<EvalResult>, includeModel: bool)
    returns (order: seq<GroupKey>, grouped: map<GroupKey, seq<EvalResult>>)
    ensures grouped.Keys == KeySet(results, includeModel)
    ensures order == KeyOrder(results, includeModel)
    ensures Elements(order) == grouped.Keys && Distinct(order)
    ensures forall k :: k in grouped ==> grouped[k] == Members(results, includeModel, k)
    ensures IsGrouping(grouped, results, includeModel)
  {
    order, grouped := [], map[];
    for i := 0 to |results|
      invariant grouped.Keys == KeySet(results[..i], includeModel)
      invariant order == KeyOrder(results[..i], includeModel)
      invariant HoldsGroups(grouped, results[..i], includeModel)
    {
      var r := results[i];
      var key := KeyOf(r, includeModel);
      assert results[..i + 1] == results[..i] + [r];
      GroupStep(results[..i], r, includeModel);
      GroupedAfter(grouped, results[..i], r, includeModel);
      if key !in grouped {
        order := order + [key];
        grouped := grouped[key := [r]];
      } else {
        grouped := grouped[key := grouped[key] + [r]];
      }
    }
    assert results[..|results|] == results;
    KeyOrderListsKeys(results, includeModel);
    GroupingOfKeySet(grouped, results, includeModel);
  }

  /** Every key of `grouped` maps to that key's members of `results`. */
  ghost predicate HoldsGroups(grouped: map<GroupKey, seq<EvalResult>>, results: seq<EvalResult>, includeModel: bool)
  {
    forall k :: k in grouped ==> grouped[k] == Members(results, includeModel, k)
  }

  /** Appending a result to its key's group (a new group when the key is new) keeps the groups right. */
  lemma GroupedAfter(grouped: map<GroupKey, seq<EvalResult>>, done: seq<EvalResult>, r: EvalResult, includeModel: bool)
    requires grouped.Keys == KeySet(done, includeModel) && HoldsGroups(grouped, done, includeModel)
    ensures var key := KeyOf(r, includeModel);
      HoldsGroups(if key in grouped then grouped[key := grouped[key] + [r]] else grouped[key := [r]], done + [r], includeModel)
  {
    GroupStep(done, r, includeModel);
  }

  /** A map over exactly the keys that occur, holding each key's members, is the grouping. */
  lemma GroupingOfKeySet(grouped: map<GroupKey, seq<EvalResult>>, results: seq<EvalResult>, includeModel: bool)
    requires grouped.Keys == KeySet(results, includeModel) && HoldsGroups(grouped, results, includeModel)
    ensures forall k :: k in grouped ==> grouped[k] == Members(results, includeModel, k)
    ensures IsGrouping(grouped, results, includeModel)
  {
    forall k | k !in grouped ensures Members(results, includeModel, k) == [] {
      MembersOfAbsentKey(results, includeModel, k);
    }
  }

  /** Σ over `keys` of the group sizes. */
  function GroupSizes(results: seq<EvalResult>, includeModel: bool, keys: seq<GroupKey>): nat
  {
    if keys == [] then 0
    else GroupSizes(results, includeModel, keys[..|keys| - 1]) + |Members(results, includeModel, keys[|keys| - 1])|
  }

  lemma {:induction false} GroupSizesOfNone(includeModel: bool, keys: seq<GroupKey>)
    ensures GroupSizes([], includeModel, keys) == 0
  {
    if keys != [] {
      GroupSizesOfNone(includeModel, keys[..|keys| - 1]);
    }
  }

  /** One more result adds one to the sizes when its key is listed (once). */
  lemma {:induction false} GroupSizesOfSnoc(results: seq<EvalResult>, r: EvalResult, includeModel: bool, keys: seq<GroupKey>)
    requires Distinct(keys)
    ensures GroupSizes(results + [r], includeModel, keys)
      == GroupSizes(results, includeModel, keys) + (if KeyOf(r, includeModel) in keys then 1 else 0)
  {
    if keys != [] {
      var init, last := keys[..|keys| - 1], keys[|keys| - 1];
      assert Distinct(init);
      GroupSizesOfSnoc(results, r, includeModel, init);
      MembersOfSnoc(results, r, includeModel, last);
      assert keys == init + [last];
      assert KeyOf(r, includeModel) == last ==> KeyOf(r, includeModel) !in init;
    }
  }

  /** The groups partition the results: over all keys, each listed once, the sizes sum to the input length. */
  lemma {:induction false} GroupsPartition(results: seq<EvalResult>, includeModel: bool, keys: seq<GroupKey>)
    requires Distinct(keys) && KeySet(results, includeModel) <= Elements(keys)
    ensures GroupSizes(results, includeModel, keys) == |results|
  {
    if results == [] {
      GroupSizesOfNone(includeModel, keys);
    } else {
      var init, last := results[..|results| - 1], results[|results| - 1];
      assert results == init + [last];
      assert KeySet(init, includeModel) <= KeySet(results, includeModel) by {
        forall k | k in KeySet(init, includeModel) ensures k in KeySet(results, includeModel) {
          var i :| 0 <= i < |init| && KeyOf(init[i], includeModel) == k;
          assert results[i] == init[i];
        }
      }
      assert KeyOf(results[|results| - 1], includeModel) in KeySet(results, includeModel);
      GroupsPartition(init, includeModel, keys);
      GroupSizesOfSnoc(init, last, includeModel, keys);
    }
  }

  // ---------------------------------------------------------------------
  // Aggregated metrics
  // ---------------------------------------------------------------------

  datatype AggregatedMetrics = AggregatedMetrics(
    totalRuns: nat,
    passed: nat,
    failed: int,
    passRate: real,
    avgScore: real,
    avgTokens: int,
    avgDuration: real,
    avgCost: real,
    passAtK: map<int, real>,
    stability: Option<Statistics.StabilityMetrics>)

  /** `passed / total if total else 0`. */
  function PassRateOf(results: seq<EvalResult>): (r: real)
    ensures 0.0 <= r <= 1.0
    ensures results == [] ==> r == 0.0
  {
    if results == [] then 0.0
    else
      var n, c := |results| as real, Statistics.CountPassed(results) as real;
      Statistics.RatioInUnit(0.0, c, n);
      c / n
  }

  /** Python's `int(x)`: truncation toward zero. */
  function TruncateToInt(x: real): (n: int)
    ensures x >= 0.0 ==> n as real <= x < n as real + 1.0
    ensures x < 0.0 ==> n as real - 1.0 < x <= n as real
  {
    if x >= 0.0 then x.Floor else -((-x).Floor)
  }

  /**
   * `_calculate_metrics`. The cost model is `costOf`, the square root of the
   * stability metrics `sqrt`.
   */
  function CalculateMetrics(results: seq<EvalResult>, costOf: TokenUsage -> real, sqrt: real -> real): (m: AggregatedMetrics)
    ensures m.totalRuns == |results| && m.passed == Statistics.CountPassed(results)
    ensures m.failed == m.totalRuns - m.passed && m.failed >= 0
    ensures m.passRate == PassRateOf(results)
    ensures m.avgScore == Statistics.MeanOrZero(Statistics.Scores(results))
    ensures m.avgDuration == Statistics.MeanOrZero(Statistics.DurationsOf(results))
    ensures m.avgCost == Statistics.MeanOrZero(Statistics.CostsOf(results, costOf))
    ensures results == [] ==> m.avgTokens == 0
    ensures results != [] ==> m.avgTokens == TruncateToInt(Statistics.Mean(Statistics.TokensOf(results)))
    ensures m.passAtK.Keys == {1, 3, 5}
    ensures forall k :: k in m.passAtK ==> m.passAtK[k] == Statistics.PassAtK(results, k)
    ensures m.stability.Some? <==> results != []
    ensures results != [] ==> m.stability.value == Statistics.CalculateStability(results, sqrt)
  {
    var total := |results|;
    var passed := Statistics.CountPassed(results);
    var avgTokens := if total == 0 then 0 else TruncateToInt(Statistics.Mean(Statistics.TokensOf(results)));
    var passAtK := map[1 := Statistics.PassAtK(results, 1), 3 := Statistics.PassAtK(results, 3), 5 := Statistics.PassAtK(results, 5)];
    var stability := if results == [] then None else Some(Statistics.CalculateStability(results, sqrt));
    AggregatedMetrics(total, passed, total - passed, PassRateOf(results),
      Statistics.MeanOrZero(Statistics.Scores(results)), avgTokens,
      Statistics.MeanOrZero(Statistics.DurationsOf(results)),
      Statistics.MeanOrZero(Statistics.CostsOf(results, costOf)), passAtK, stability)
  }

  /** Every rate and estimate of the metrics lies in [0, 1]. */
  lemma MetricsInRange(results: seq<EvalResult>, costOf: TokenUsage -> real, sqrt: real -> real)
    ensures var m := CalculateMetrics(results, costOf, sqrt);
      0.0 <= m.passRate <= 1.0 && forall k :: k in m.passAtK ==> 0.0 <= m.passAtK[k] <= 1.0
  {
    var m := CalculateMetrics(results, costOf, sqrt);
    forall k | k in m.passAtK ensures 0.0 <= m.passAtK[k] <= 1.0 {
      assert m.passAtK[k] == Statistics.PassEstimate(|results|, Statistics.CountPassed(results), k);
    }
  }

  /** An empty group has every count, rate and average at 0 and no stability metrics. */
  lemma EmptyGroupMetrics(costOf: TokenUsage -> real, sqrt: real -> real)
    ensures var m := CalculateMetrics([], costOf, sqrt);
      && m.totalRuns == 0 && m.passed == 0 && m.failed == 0 && m.passRate == 0.0
      && m.avgScore == 0.0 && m.avgTokens == 0 && m.avgDuration == 0.0 && m.avgCost == 0.0
      && m.stability == None && forall k :: k in m.passAtK ==> m.passAtK[k] == 0.0
  {
    var m := CalculateMetrics([], costOf, sqrt);
    forall k | k in m.passAtK ensures m.passAtK[k] == 0.0 {
      assert m.passAtK[k] == Statistics.PassEstimate(0, 0, k);
    }
  }

  /** A non-negative average token count is the whole part of the mean. */
  lemma AverageTokensTruncate(results: seq<EvalResult>, costOf: TokenUsage -> real, sqrt: real -> real)
    requires results != []
    requires forall i :: 0 <= i < |results| ==> TotalTokens(results[i].trace.usage) >= 0
    ensures var m := CalculateMetrics(results, costOf, sqrt);
      var mean := Statistics.Mean(Statistics.TokensOf(results));
      m.avgTokens >= 0 && m.avgTokens as real <= mean < m.avgTokens as real + 1.0
  {
    var xs := Statistics.TokensOf(results);
    SumNonNegative(xs);
    Statistics.RatioInUnit(0.0, Statistics.Sum(xs), |xs| as real);
  }

  lemma {:induction false} SumNonNegative(xs: seq<real>)
    requires forall i :: 0 <= i < |xs| ==> xs[i] >= 0.0
    ensures Statistics.Sum(xs) >= 0.0
  {
    if xs != [] {
      var init := xs[..|xs| - 1];
      assert forall i :: 0 <= i < |init| ==> init[i] == xs[i];
      SumNonNegative(init);
    }
  }

  // ---------------------------------------------------------------------
  // Regression check
  // ---------------------------------------------------------------------

  /** One entry of `comparisons`; `stats` holds the statistical details when both sides have results. */
  datatype Comparison = Comparison(
    taskId: string,
    config: string,
    model: string,
    baselinePassRate: real,
    currentPassRate: real,
    delta: real,
    stats: Option<Statistics.ComparisonResult>)

  /**
   * What scipy and numpy compute for `compare_configs`: the Mann-Whitney
   * outcome on a baseline and a current sample, and `np.sqrt`.
   */
  datatype Numerics = Numerics(rankTest: (seq<EvalResult>, seq<EvalResult>) -> Statistics.RankTest, sqrt: real -> real)

  /** The comparison of one key, given the key's baseline and current results. */
  function KeyComparison(key: GroupKey, baseline: seq<EvalResult>, current: seq<EvalResult>, numerics: Numerics): Comparison
    requires |key| == 3
  {
    var baselineRate := PassRateOf(baseline);
    var currentRate := PassRateOf(current);
    var stats :=
      if baseline != [] && current != [] then
        Some(Statistics.CompareConfigs(baseline, current, 0.05, numerics.rankTest(baseline, current), numerics.sqrt))
      else None;
    Comparison(key[0], key[1], key[2], baselineRate, currentRate, currentRate - baselineRate, stats)
  }

  /** The comparison of `key` over its baseline and current groups. */
  function ComparisonOfKey(key: GroupKey, baseline: seq<EvalResult>, current: seq<EvalResult>, numerics: Numerics): Comparison
    requires |key| == 3
  {
    KeyComparison(key, Members(baseline, true, key), Members(current, true, key), numerics)
  }

  /**
   * A comparison names its key, carries both pass rates and their difference,
   * and holds the statistical comparison (at alpha 0.05) exactly when both
   * sides have results.
   */
  lemma KeyComparisonCorrect(key: GroupKey, baseline: seq<EvalResult>, current: seq<EvalResult>, numerics: Numerics)
    requires |key| == 3
    ensures var c := KeyComparison(key, baseline, current, numerics);
      && c.taskId == key[0] && c.config == key[1] && c.model == key[2]
      && c.baselinePassRate == PassRateOf(baseline) && c.currentPassRate == PassRateOf(current)
      && c.delta == c.currentPassRate - c.baselinePassRate
      && (c.stats.Some? <==> baseline != [] && current != [])
  {
  }

  /** The statistics of a comparison are those of `compare_configs` on the baseline (A) and current (B) results. */
  lemma KeyComparisonStats(key: GroupKey, baseline: seq<EvalResult>, current: seq<EvalResult>, numerics: Numerics)
    requires |key| == 3 && baseline != [] && current != []
    ensures KeyComparison(key, baseline, current, numerics).stats ==
      Some(Statistics.CompareConfigs(baseline, current, 0.05, numerics.rankTest(baseline, current), numerics.sqrt))
  {
  }

  /** A drop beyond the threshold, significant when significance is required and a test was run. */
  predicate Regressed(c: Comparison, threshold: real, requireSignificance: bool)
  {
    c.delta < -threshold && (requireSignificance && c.stats.Some? ==> c.stats.value.isSignificant)
  }

  /** A gain beyond the threshold under the same significance gate. */
  predicate Improved(c: Comparison, threshold: real, requireSignificance: bool)
  {
    c.delta > threshold && (requireSignificance && c.stats.Some? ==> c.stats.value.isSignificant)
  }

  /** The comparisons listed as regressions, in order. */
  function Regressions(cs: seq<Comparison>, threshold: real, requireSignificance: bool): seq<Comparison>
  {
    if cs == [] then []
    else
      var last := cs[|cs| - 1];
      Regressions(cs[..|cs| - 1], threshold, requireSignificance) + (if Regressed(last, threshold, requireSignificance) then [last] else [])
  }

  /** The comparisons listed as improvements (the `elif`: never a regression), in order. */
  function Improvements(cs: seq<Comparison>, threshold: real, requireSignificance: bool): seq<Comparison>
  {
    if cs == [] then []
    else
      var last := cs[|cs| - 1];
      var keep := !Regressed(last, threshold, requireSignificance) && Improved(last, threshold, requireSignificance);
      Improvements(cs[..|cs| - 1], threshold, requireSignificance) + (if keep then [last] else [])
  }

  /** The regressions are exactly the comparisons that regressed. */
  lemma {:induction false} RegressionsSelect(cs: seq<Comparison>, threshold: real, requireSignificance: bool)
    ensures forall c :: c in Regressions(cs, threshold, requireSignificance) <==> c in cs && Regressed(c, threshold, requireSignificance)
  {
    if cs != [] {
      var init := cs[..|cs| - 1];
      RegressionsSelect(init, threshold, requireSignificance);
      assert cs == init + [cs[|cs| - 1]];
    }
  }

  /** The improvements are exactly the comparisons that improved without regressing. */
  lemma {:induction false} ImprovementsSelect(cs: seq<Comparison>, threshold: real, requireSignificance: bool)
    ensures forall c :: c in Improvements(cs, threshold, requireSignificance) <==>
      c in cs && !Regressed(c, threshold, requireSignificance) && Improved(c, threshold, requireSignificance)
  {
    if cs != [] {
      var init := cs[..|cs| - 1];
      ImprovementsSelect(init, threshold, requireSignificance);
      assert cs == init + [cs[|cs| - 1]];
    }
  }

  /** No comparison is listed both as a regression and as an improvement. */
  lemma RegressionsAndImprovementsDisjoint(cs: seq<Comparison>, threshold: real, requireSignificance: bool)
    ensures forall c :: c in Regressions(cs, threshold, requireSignificance) ==> c !in Improvements(cs, threshold, requireSignificance)
  {
    RegressionsSelect(cs, threshold, requireSignificance);
    ImprovementsSelect(cs, threshold, requireSignificance);
  }

  /** A threshold of at least 0 never makes a comparison both a regression and an improvement. */
  lemma RegressedExcludesImproved(c: Comparison, threshold: real, requireSignificance: bool)
    requires threshold >= 0.0
    ensures !(Regressed(c, threshold, requireSignificance) && Improved(c, threshold, requireSignificance))
  {
  }

  function KeyList(results: seq<EvalResult>): (ks: seq<GroupKey>)
    ensures Elements(ks) == KeySet(results, true)
  {
    var ks := seq(|results|, i requires 0 <= i < |results| => KeyOf(results[i], true));
    forall k | k in KeySet(results, true) ensures k in ks {
      var i :| 0 <= i < |results| && KeyOf(results[i], true) == k;
      assert ks[i] == k;
    }
    ks
  }

  /** `sorted(set(baseline_grouped.keys()) | set(current_grouped.keys()))`. */
  function RegressionKeys(baseline: seq<EvalResult>, current: seq<EvalResult>): seq<GroupKey>
  {
    SortUnique(KeyList(baseline) + KeyList(current), TupleLess)
  }

  /** The keys checked: every key of either side, each once, in increasing order. */
  lemma RegressionKeysCorrect(baseline: seq<EvalResult>, current: seq<EvalResult>)
    ensures var keys := RegressionKeys(baseline, current);
      && StrictlySorted(keys, TupleLess) && Distinct(keys)
      && Elements(keys) == KeySet(baseline, true) + KeySet(current, true)
      && forall i :: 0 <= i < |keys| ==> |keys[i]| == 3
  {
    var keys := RegressionKeys(baseline, current);
    var all := KeyList(baseline) + KeyList(current);
    TupleLessIsStrictTotalOrder();
    SortUniqueCorrect(all, TupleLess);
    assert Elements(all) == Elements(KeyList(baseline)) + Elements(KeyList(current)) by {
      assert forall k :: k in all <==> k in KeyList(baseline) || k in KeyList(current);
    }
    forall i, j | 0 <= i < j < |keys| ensures keys[i] != keys[j] {
      StrictlySortedDistinct(keys, TupleLess, i, j);
    }
    forall i | 0 <= i < |keys| ensures |keys[i]| == 3 {
      assert keys[i] in Elements(keys);
    }
  }

  /** A key that disappeared from the current run with a pass rate above the threshold regresses, significance notwithstanding. */
  lemma VanishedKeyRegresses(key: GroupKey, baseline: seq<EvalResult>, numerics: Numerics, threshold: real)
    requires |key| == 3 && baseline != [] && PassRateOf(baseline) > threshold
    ensures Regressed(KeyComparison(key, baseline, [], numerics), threshold, true)
  {
  }

  /** The report `check_regression` returns next to its boolean. */
  datatype RegressionReport = RegressionReport(
    hasRegressions: bool,
    regressionCount: nat,
    improvementCount: nat,
    threshold: real,
    requireSignificance: bool,
    regressions: seq<Comparison>,
    improvements: seq<Comparison>,
    comparisons: seq<Comparison>)

  /** `grouped.get(key, [])`: the group of `key`. */
  method GroupOf(grouped: map<GroupKey, seq<EvalResult>>, results: seq<EvalResult>, key: GroupKey) returns (g: seq<EvalResult>)
    requires IsGrouping(grouped, results, true)
    ensures g == Members(results, true, key)
  {
    g := if key in grouped then grouped[key] else [];
  }

  /**
   * The classification in the loop of `check_regression`: `comparison` joins
   * the regressions, else the improvements, or neither.
   */
  method Classify(comparison: Comparison, threshold: real, requireSignificance: bool,
                  comparisons: seq<Comparison>, regressions: seq<Comparison>, improvements: seq<Comparison>)
    returns (regressions': seq<Comparison>, improvements': seq<Comparison>)
    requires regressions == Regressions(comparisons, threshold, requireSignificance)
    requires improvements == Improvements(comparisons, threshold, requireSignificance)
    ensures regressions' == Regressions(comparisons + [comparison], threshold, requireSignificance)
    ensures improvements' == Improvements(comparisons + [comparison], threshold, requireSignificance)
  {
    var isRegression := comparison.delta < -threshold;
    if requireSignificance && comparison.stats.Some? {
      isRegression := isRegression && comparison.stats.value.isSignificant;
    }
    var isImprovement := comparison.delta > threshold;
    if requireSignificance && comparison.stats.Some? {
      isImprovement := isImprovement && comparison.stats.value.isSignificant;
    }
    regressions', improvements' := regressions, improvements;
    if isRegression {
      regressions' := regressions + [comparison];
    } else if isImprovement {
      improvements' := improvements + [comparison];
    }
    assert (comparisons + [comparison])[..|comparisons|] == comparisons;
  }

  /**
   * The loop of `check_regression`: one comparison per key, classified as a
   * regression, else as an improvement.
   */
  method CompareKeys(keys: seq<GroupKey>, baseline: seq<EvalResult>, current: seq<EvalResult>,
                     baselineGrouped: map<GroupKey, seq<EvalResult>>, currentGrouped: map<GroupKey, seq<EvalResult>>,
                     threshold: real, requireSignificance: bool, numerics: Numerics)
    returns (regressions: seq<Comparison>, improvements: seq<Comparison>, comparisons: seq<Comparison>)
    requires forall i :: 0 <= i < |keys| ==> |keys[i]| == 3
    requires IsGrouping(baselineGrouped, baseline, true) && IsGrouping(currentGrouped, current, true)
    ensures |comparisons| == |keys|
    ensures forall j :: 0 <= j < |keys| ==>
      comparisons[j] == ComparisonOfKey(keys[j], baseline, current, numerics)
    ensures regressions == Regressions(comparisons, threshold, requireSignificance)
    ensures improvements == Improvements(comparisons, threshold, requireSignificance)
  {
    regressions, improvements, comparisons := [], [], [];
    for i := 0 to |keys|
      invariant |comparisons| == i
      invariant forall j :: 0 <= j < i ==>
        comparisons[j] == ComparisonOfKey(keys[j], baseline, current, numerics)
      invariant regressions == Regressions(comparisons, threshold, requireSignificance)
      invariant improvements == Improvements(comparisons, threshold, requireSignificance)
    {
      var key := keys[i];
      var baselineResults := GroupOf(baselineGrouped, baseline, key);
      var currentResults := GroupOf(currentGrouped, current, key);
      var comparison := KeyComparison(key, baselineResults, currentResults, numerics);
      assert comparison == ComparisonOfKey(key, baseline, current, numerics);
      regressions, improvements := Classify(comparison, threshold, requireSignificance, comparisons, regressions, improvements);
      comparisons := comparisons + [comparison];
    }
  }

  /** `Reporter.check_regression` (default threshold 0.05, significance required). */
  method CheckRegression(baseline: seq<EvalResult>, current: seq<EvalResult>, threshold: real, requireSignificance: bool,
                         numerics: Numerics)
    returns (hasRegressions: bool, report: RegressionReport)
    ensures var keys := RegressionKeys(baseline, current);
      && (forall i :: 0 <= i < |keys| ==> |keys[i]| == 3)
      && |report.comparisons| == |keys|
      && forall j :: 0 <= j < |keys| ==>
        report.comparisons[j] == ComparisonOfKey(keys[j], baseline, current, numerics)
    ensures report.regressions == Regressions(report.comparisons, threshold, requireSignificance)
    ensures report.improvements == Improvements(report.comparisons, threshold, requireSignificance)
    ensures report.regressionCount == |report.regressions| && report.improvementCount == |report.improvements|
    ensures hasRegressions == report.hasRegressions && (hasRegressions <==> report.regressionCount > 0)
    ensures report.threshold == threshold && report.requireSignificance == requireSignificance
  {
    var baselineOrder, baselineGrouped := GroupResultsByKey(baseline, true);
    var currentOrder, currentGrouped := GroupResultsByKey(current, true);
    var keys := SortUnique(baselineOrder + currentOrder, TupleLess);
    SameKeys(baseline, current, baselineOrder, currentOrder);
    RegressionKeysCorrect(baseline, current);
    var regressions, improvements, comparisons :=
      CompareKeys(keys, baseline, current, baselineGrouped, currentGrouped, threshold, requireSignificance, numerics);
    hasRegressions := |regressions| > 0;
    report := RegressionReport(hasRegressions, |regressions|, |improvements|, threshold, requireSignificance,
      regressions, improvements, comparisons);
  }

  /** Sorting the two first-occurrence key orders gives the same keys as sorting the key sets. */
  lemma SameKeys(baseline: seq<EvalResult>, current: seq<EvalResult>, baselineOrder: seq<GroupKey>, currentOrder: seq<GroupKey>)
    requires Elements(baselineOrder) == KeySet(baseline, true) && Elements(currentOrder) == KeySet(current, true)
    ensures SortUnique(baselineOrder + currentOrder, TupleLess) == RegressionKeys(baseline, current)
  {
    var all := baselineOrder + currentOrder;
    TupleLessIsStrictTotalOrder();
    SortUniqueCorrect(all, TupleLess);
    RegressionKeysCorrect(baseline, current);
    assert forall k :: k in all <==> k in baselineOrder || k in currentOrder;
    StrictlySortedUnique(SortUnique(all, TupleLess), RegressionKeys(baseline, current), TupleLess);
  }
}
