/**
 * The composite grading policy: every code assertion is graded by the code
 * grader and every LLM assertion by the judge, each grade is relabelled with
 * an id built from its position and kind, the grades are combined into a
 * weighted mean whose weights are found by substring match on those ids, and
 * the task passes when the mean reaches its threshold or when every code
 * assertion passed.
 */
module CompositeGrader {
  import opened Wrappers
  import opened Text
  import opened Models
  import CodeGraders

  // ---------------------------------------------------------------------
  // Thresholds
  // ---------------------------------------------------------------------

  /** `DIFFICULTY_THRESHOLDS`: a higher bar for easy tasks, more leeway for hard ones. */
  function DifficultyThreshold(d: TaskDifficulty): real
  {
    match d
    case Easy => 0.85
    case Medium => 0.70
    case Hard => 0.55
  }

  /** `get_threshold_for_task`: an explicit per-task threshold wins over the difficulty table. */
  function ThresholdFor(t: Task): (th: real)
    ensures t.passThreshold.Some? ==> th == t.passThreshold.value
    ensures t.passThreshold.None? ==> th == DifficultyThreshold(t.difficulty)
    ensures t.passThreshold.None? ==> 0.55 <= th <= 0.85
  {
    if t.passThreshold.Some? then t.passThreshold.value else DifficultyThreshold(t.difficulty)
  }

  /** Harder tasks never get a higher default bar. */
  lemma DifficultyThresholdsDecrease()
    ensures DifficultyThreshold(Easy) > DifficultyThreshold(Medium) > DifficultyThreshold(Hard)
  {
  }

  // ---------------------------------------------------------------------
  // Weighted score
  // ---------------------------------------------------------------------

  /** Position `j` of the weight map holds a key that occurs in `id`. */
  function KeyIn(w: Weights, id: string): nat -> bool
  {
    (j: nat) => j < |w| && Contains(id, w[j].0)
  }

  /** The weight of the first key (in insertion order) that is a substring of `id`, or 0.0. */
  function MatchedWeight(w: Weights, id: string): real
  {
    match FirstWhere(KeyIn(w, id), 0, |w|)
    case None => 0.0
    case Some(j) => w[j].1
  }

  /** The matched weight belongs to the first key occurring in the id; with no such key it is 0. */
  lemma MatchedWeightIsFirstKey(w: Weights, id: string)
    ensures (forall j :: 0 <= j < |w| ==> !Contains(id, w[j].0)) ==> MatchedWeight(w, id) == 0.0
    ensures forall j :: 0 <= j < |w| && Contains(id, w[j].0) && (forall k :: 0 <= k < j ==> !Contains(id, w[k].0)) ==>
      MatchedWeight(w, id) == w[j].1
  {
    var p := KeyIn(w, id);
    FirstWhereIsLeast(p, 0, |w|);
    assert forall j: nat :: p(j) == (j < |w| && Contains(id, w[j].0));
    forall j | 0 <= j < |w| && Contains(id, w[j].0) && (forall k :: 0 <= k < j ==> !Contains(id, w[k].0))
      ensures MatchedWeight(w, id) == w[j].1
    {
      FirstWhereAt(p, 0, |w|, j);
    }
  }

  /** The weight a grade counts with: a missing or zero match counts as 1.0. */
  function EffectiveWeight(w: Weights, id: string): (r: real)
    ensures r != 0.0
    ensures MatchedWeight(w, id) != 0.0 ==> r == MatchedWeight(w, id)
  {
    var m := MatchedWeight(w, id);
    if m == 0.0 then 1.0 else m
  }

  /** Σ of the effective weights. */
  function TotalEffective(grades: seq<GradeResult>, w: Weights): real
  {
    if grades == [] then 0.0
    else TotalEffective(grades[..|grades| - 1], w) + EffectiveWeight(w, grades[|grades| - 1].assertionId)
  }

  /** Σ score · effective weight. */
  function WeightedSum(grades: seq<GradeResult>, w: Weights): real
  {
    if grades == [] then 0.0
    else WeightedSum(grades[..|grades| - 1], w) + grades[|grades| - 1].score * EffectiveWeight(w, grades[|grades| - 1].assertionId)
  }

  /** Σ score. */
  function ScoreSum(grades: seq<GradeResult>): real
  {
    if grades == [] then 0.0 else ScoreSum(grades[..|grades| - 1]) + grades[|grades| - 1].score
  }

  /** The value `_calculate_weighted_score` computes. */
  function WeightedScore(grades: seq<GradeResult>, w: Weights): real
  {
    if grades == [] then 0.0
    else if w == [] then ScoreSum(grades) / |grades| as real
    else if TotalEffective(grades, w) > 0.0 then WeightedSum(grades, w) / TotalEffective(grades, w)
    else 0.0
  }

  /** The inner loop: the first key occurring in the id gives the weight. */
  method LookupWeight(w: Weights, id: string) returns (weight: real)
    ensures weight == MatchedWeight(w, id)
  {
    MatchedWeightIsFirstKey(w, id);
    for j := 0 to |w|
      invariant forall k :: 0 <= k < j ==> !Contains(id, w[k].0)
    {
      if Contains(id, w[j].0) {
        return w[j].1;
      }
    }
    return 0.0;
  }

  /** `_calculate_weighted_score`: the accumulation over the grades. */
  method CalculateWeightedScore(grades: seq<GradeResult>, w: Weights) returns (score: real)
    ensures score == WeightedScore(grades, w)
  {
    if grades == [] {
      return 0.0;
    }
    if w == [] {
      var sum := 0.0;
      for i := 0 to |grades|
        invariant sum == ScoreSum(grades[..i])
      {
        assert grades[..i + 1][..i] == grades[..i];
        sum := sum + grades[i].score;
      }
      assert grades[..|grades|] == grades;
      return sum / |grades| as real;
    }
    var total, weighted := 0.0, 0.0;
    for i := 0 to |grades|
      invariant total == TotalEffective(grades[..i], w)
      invariant weighted == WeightedSum(grades[..i], w)
    {
      assert grades[..i + 1][..i] == grades[..i];
      var weight := LookupWeight(w, grades[i].assertionId);
      if weight == 0.0 {
        weight := 1.0;
      }
      total := total + weight;
      weighted := weighted + grades[i].score * weight;
    }
    assert grades[..|grades|] == grades;
    score := if total > 0.0 then weighted / total else 0.0;
  }

  lemma ScaleWithin(s: real, e: real, x: real)
    requires 0.0 <= s <= 1.0 && e > 0.0 && x == s * e
    ensures 0.0 <= x <= e
  {
    assert e - x == (1.0 - s) * e;
  }

  lemma RatioWithin(a: real, b: real)
    requires 0.0 <= a <= b && b > 0.0
    ensures 0.0 <= a / b <= 1.0
  {
  }

  /** With non-negative weights and scores in [0, 1], the sums bound each other. */
  lemma {:induction false} WeightedSumWithin(grades: seq<GradeResult>, w: Weights)
    requires forall i :: 0 <= i < |grades| ==> UnitScore(grades[i].score)
    requires forall k :: 0 <= k < |w| ==> w[k].1 >= 0.0
    ensures 0.0 <= WeightedSum(grades, w) <= TotalEffective(grades, w)
    ensures grades != [] ==> TotalEffective(grades, w) > 0.0
  {
    if grades != [] {
      var init := grades[..|grades| - 1];
      var g := grades[|grades| - 1];
      WeightedSumWithin(init, w);
      EffectiveWeightPositive(w, g.assertionId);
      ScaleWithin(g.score, EffectiveWeight(w, g.assertionId), g.score * EffectiveWeight(w, g.assertionId));
    }
  }

  /** With non-negative weights, every effective weight is positive. */
  lemma EffectiveWeightPositive(w: Weights, id: string)
    requires forall k :: 0 <= k < |w| ==> w[k].1 >= 0.0
    ensures EffectiveWeight(w, id) > 0.0
  {
    var p := KeyIn(w, id);
    FirstWhereIsLeast(p, 0, |w|);
  }

  lemma {:induction false} ScoreSumWithin(grades: seq<GradeResult>)
    requires forall i :: 0 <= i < |grades| ==> UnitScore(grades[i].score)
    ensures 0.0 <= ScoreSum(grades) <= |grades| as real
  {
    if grades != [] {
      ScoreSumWithin(grades[..|grades| - 1]);
    }
  }

  /** With non-negative weights and scores in [0, 1], the overall score lies in [0, 1]. */
  lemma WeightedScoreInUnit(grades: seq<GradeResult>, w: Weights)
    requires forall i :: 0 <= i < |grades| ==> UnitScore(grades[i].score)
    requires forall k :: 0 <= k < |w| ==> w[k].1 >= 0.0
    ensures UnitScore(WeightedScore(grades, w))
  {
    if grades != [] {
      if w == [] {
        ScoreSumWithin(grades);
        RatioWithin(ScoreSum(grades), |grades| as real);
      } else {
        WeightedSumWithin(grades, w);
        RatioWithin(WeightedSum(grades, w), TotalEffective(grades, w));
      }
    }
  }

  /**
   * Weights are not sign-checked, so without `WeightedScoreInUnit`'s premise the
   * overall score can leave [0, 1]: a code grade of 0 weighted -1 beside an LLM
   * grade of 1 weighted 2 gives 2.
   */
  lemma NegativeWeightLeavesUnit()
    ensures var w: Weights := [("code", -1.0), ("llm", 2.0)];
      var grades := [UnitGrade("code_0_file_exists", 0.0), UnitGrade("llm_0", 1.0)];
      WeightedScore(grades, w) == 2.0 && !UnitScore(WeightedScore(grades, w))
  {
    var w: Weights := [("code", -1.0), ("llm", 2.0)];
    var code, llm := UnitGrade("code_0_file_exists", 0.0), UnitGrade("llm_0", 1.0);
    var grades := [code, llm];
    assert StartsWith(code.assertionId, "code");
    assert !Contains("llm_0", "code") by {
      var hay := "llm_0";
      forall i | 0 <= i <= |hay| ensures !StartsWith(hay[i..], "code") {
        assert i < |hay| ==> hay[i] != 'c';
        assert i < |hay| ==> hay[i..][0] == hay[i];
      }
      assert hay[5..] == "" && hay[4..] == "0" && hay[3..] == "_0" && hay[2..] == "m_0" && hay[1..] == "lm_0";
      assert !Contains(hay[5..], "code");
      assert !Contains(hay[4..], "code");
      assert !Contains(hay[3..], "code");
      assert !Contains(hay[2..], "code");
      assert !Contains(hay[1..], "code");
    }
    assert StartsWith(llm.assertionId, "llm");
    MatchedWeightIsFirstKey(w, code.assertionId);
    MatchedWeightIsFirstKey(w, llm.assertionId);
    assert EffectiveWeight(w, code.assertionId) == -1.0;
    assert EffectiveWeight(w, llm.assertionId) == 2.0;
    TwoGrades(code, llm, w);
  }

  /** The two sums over a pair of grades. */
  lemma TwoGrades(a: GradeResult, b: GradeResult, w: Weights)
    ensures TotalEffective([a, b], w) == EffectiveWeight(w, a.assertionId) + EffectiveWeight(w, b.assertionId)
    ensures WeightedSum([a, b], w) == a.score * EffectiveWeight(w, a.assertionId) + b.score * EffectiveWeight(w, b.assertionId)
  {
    var ea, eb := EffectiveWeight(w, a.assertionId), EffectiveWeight(w, b.assertionId);
    assert [a, b][..1] == [a] && [a][..0] == [];
    assert TotalEffective([a], w) == ea && WeightedSum([a], w) == a.score * ea;
    assert TotalEffective([a, b], w) == TotalEffective([a], w) + eb;
    assert WeightedSum([a, b], w) == WeightedSum([a], w) + b.score * eb;
  }

  /** A grade with the given id and score and every other field empty. */
  function UnitGrade(id: string, score: real): (g: GradeResult)
    ensures g.assertionId == id && g.score == score
  {
    GradeResult(id, "", "", true, score, "", "", "", "", [])
  }

  /** When no key occurs in any grade's id, every grade counts once and the score is the plain mean. */
  lemma {:induction false} UnmatchedWeightsGiveMean(grades: seq<GradeResult>, w: Weights)
    requires forall i, k :: 0 <= i < |grades| && 0 <= k < |w| ==> !Contains(grades[i].assertionId, w[k].0)
    ensures TotalEffective(grades, w) == |grades| as real
    ensures WeightedSum(grades, w) == ScoreSum(grades)
  {
    if grades != [] {
      var init := grades[..|grades| - 1];
      UnmatchedWeightsGiveMean(init, w);
      MatchedWeightIsFirstKey(w, grades[|grades| - 1].assertionId);
    }
  }

  /** Equal weighting: with no weights, or none that match, the score is the arithmetic mean. */
  lemma EqualWeightingIsMean(grades: seq<GradeResult>, w: Weights)
    requires grades != []
    requires forall i, k :: 0 <= i < |grades| && 0 <= k < |w| ==> !Contains(grades[i].assertionId, w[k].0)
    ensures WeightedScore(grades, w) == ScoreSum(grades) / |grades| as real
  {
    UnmatchedWeightsGiveMean(grades, w);
  }

  // ---------------------------------------------------------------------
  // Assertion ids
  // ---------------------------------------------------------------------

  /** `f"code_{i}_{assertion.check.value}"`. */
  function CodeId(i: nat, a: CodeAssertion): string
  {
    "code_" + NatToString(i) + "_" + CheckValue(a.check)
  }

  /** `f"llm_{i}"`. */
  function LlmId(i: nat): string
  {
    "llm_" + NatToString(i)
  }

  /** The ids in grading order: every code assertion, then every LLM assertion. */
  function AssertionIds(cs: seq<CodeAssertion>, llmCount: nat): (ids: seq<string>)
    ensures |ids| == |cs| + llmCount
    ensures forall i :: 0 <= i < |cs| ==> ids[i] == CodeId(i, cs[i])
    ensures forall j :: 0 <= j < llmCount ==> ids[|cs| + j] == LlmId(j)
  {
    seq(|cs|, i requires 0 <= i < |cs| => CodeId(i, cs[i])) + seq(llmCount, j requires 0 <= j => LlmId(j))
  }

  /** Two digit strings each followed by '_' can only be glued into the same text if they are equal. */
  lemma DigitsBeforeUnderscore(di: string, ri: string, dj: string, rj: string)
    requires AllDigits(di) && AllDigits(dj) && ri != [] && rj != [] && ri[0] == '_' && rj[0] == '_'
    requires di + ri == dj + rj
    ensures di == dj
  {
    CodeGraders.DigitRunOfDigits(di, ri, 0);
    CodeGraders.DigitRunOfDigits(dj, rj, 0);
    assert (di + ri)[..|di|] == di && (dj + rj)[..|dj|] == dj;
  }

  /** `"code_" + d + "_" + c` determines its digit part `d`. */
  lemma CodeTextInjective(di: string, ci: string, dj: string, cj: string)
    requires AllDigits(di) && AllDigits(dj)
    requires "code_" + di + "_" + ci == "code_" + dj + "_" + cj
    ensures di == dj
  {
    var x := "code_" + di + "_" + ci;
    assert x[5..] == di + ("_" + ci);
    assert x[5..] == dj + ("_" + cj);
    DigitsBeforeUnderscore(di, "_" + ci, dj, "_" + cj);
  }

  lemma CodeIdInjective(i: nat, j: nat, a: CodeAssertion, b: CodeAssertion)
    ensures CodeId(i, a) == CodeId(j, b) ==> i == j
  {
    if CodeId(i, a) == CodeId(j, b) {
      CodeTextInjective(NatToString(i), CheckValue(a.check), NatToString(j), CheckValue(b.check));
      NatToStringInjective(i, j);
    }
  }

  lemma LlmIdInjective(i: nat, j: nat)
    ensures LlmId(i) == LlmId(j) ==> i == j
  {
    if LlmId(i) == LlmId(j) {
      assert LlmId(i)[4..] == NatToString(i) && LlmId(j)[4..] == NatToString(j);
      NatToStringInjective(i, j);
    }
  }

  /** Code ids begin with "code_"; LLM ids never do. */
  lemma IdPrefixes(i: nat, a: CodeAssertion, j: nat)
    ensures StartsWith(CodeId(i, a), "code_")
    ensures !StartsWith(LlmId(j), "code_")
  {
    assert CodeId(i, a)[..5] == "code_";
    assert LlmId(j)[0] == 'l';
  }

  /** No two grades of a task share an id, and exactly the code grades carry the "code_" prefix. */
  lemma AssertionIdsDistinct(cs: seq<CodeAssertion>, llmCount: nat)
    ensures var ids := AssertionIds(cs, llmCount);
      forall i, j :: 0 <= i < j < |ids| ==> ids[i] != ids[j]
    ensures var ids := AssertionIds(cs, llmCount);
      forall i :: 0 <= i < |ids| ==> (StartsWith(ids[i], "code_") <==> i < |cs|)
  {
    var ids := AssertionIds(cs, llmCount);
    forall i, j | 0 <= i < j < |ids| ensures ids[i] != ids[j] {
      if j < |cs| {
        CodeIdInjective(i, j, cs[i], cs[j]);
      } else if i < |cs| {
        IdPrefixes(i, cs[i], j - |cs|);
      } else {
        LlmIdInjective(i - |cs|, j - |cs|);
      }
    }
    forall i | 0 <= i < |ids| ensures StartsWith(ids[i], "code_") <==> i < |cs| {
      if i < |cs| {
        IdPrefixes(i, cs[i], 0);
      } else {
        IdPrefixes(0, CodeAssertion(TestsPass, None, None, None), i - |cs|);
      }
    }
  }

  // ---------------------------------------------------------------------
  // Grading a task
  // ---------------------------------------------------------------------

  /** The grades, overall score and verdict, or the exception a code grader raised. */
  datatype CompositeOutcome = Completed(grades: seq<GradeResult>, score: real, passed: bool) | Raised(message: string)

  /** `all(g.passed for g in code_grades) if code_grades else True`, code grades being those whose id starts with "code_". */
  predicate AllCodePassed(grades: seq<GradeResult>)
  {
    forall i :: 0 <= i < |grades| && StartsWith(grades[i].assertionId, "code_") ==> grades[i].passed
  }

  /**
   * The first loop: each code grade relabelled `code_<i>_<check>`. When a
   * grader raises, `grades` holds the grades before it and `raised` its message.
   */
  method GradeCodeAssertions(cs: seq<CodeAssertion>, grade: CodeAssertion -> CodeGraders.Outcome)
    returns (grades: seq<GradeResult>, raised: Option<string>)
    ensures raised.None? ==> |grades| == |cs|
    ensures raised.Some? ==> |grades| < |cs| && grade(cs[|grades|]) == CodeGraders.Raised(raised.value)
    ensures |grades| <= |cs| && forall k :: 0 <= k < |grades| ==> grade(cs[k]).Graded?
    ensures forall k :: 0 <= k < |grades| ==> grades[k] == grade(cs[k]).grade.(assertionId := CodeId(k, cs[k]))
  {
    grades := [];
    for i := 0 to |cs|
      invariant |grades| == i
      invariant forall k :: 0 <= k < i ==> grade(cs[k]).Graded?
      invariant forall k :: 0 <= k < i ==> grades[k] == grade(cs[k]).grade.(assertionId := CodeId(k, cs[k]))
    {
      var outcome := grade(cs[i]);
      if outcome.Raised? {
        return grades, Some(outcome.message);
      }
      grades := grades + [outcome.grade.(assertionId := CodeId(i, cs[i]))];
    }
    raised := None;
  }

  /** The second loop: each LLM grade relabelled `llm_<j>`. */
  method GradeLlmAssertions(ls: seq<LLMAssertion>, llmGrade: LLMAssertion -> GradeResult) returns (grades: seq<GradeResult>)
    ensures |grades| == |ls|
    ensures forall j :: 0 <= j < |ls| ==> grades[j] == llmGrade(ls[j]).(assertionId := LlmId(j))
    ensures forall j :: 0 <= j < |ls| ==> grades[j].assertionId == LlmId(j)
  {
    grades := [];
    for j := 0 to |ls|
      invariant |grades| == j
      invariant forall k :: 0 <= k < j ==> grades[k] == llmGrade(ls[k]).(assertionId := LlmId(k))
    {
      grades := grades + [llmGrade(ls[j]).(assertionId := LlmId(j))];
    }
  }

  /**
   * Code grades labelled `code_<i>_<check>` followed by LLM grades labelled
   * `llm_<j>`: the "code_" filter selects exactly the code grades, and no
   * two grades share an id.
   */
  lemma LabelledGrades(codeGrades: seq<GradeResult>, llmGrades: seq<GradeResult>, cs: seq<CodeAssertion>)
    requires |codeGrades| == |cs|
    requires forall i :: 0 <= i < |cs| ==> codeGrades[i].assertionId == CodeId(i, cs[i])
    requires forall j :: 0 <= j < |llmGrades| ==> llmGrades[j].assertionId == LlmId(j)
    ensures var grades := codeGrades + llmGrades;
      AllCodePassed(grades) <==> forall i :: 0 <= i < |cs| ==> grades[i].passed
    ensures var grades := codeGrades + llmGrades;
      forall i, j :: 0 <= i < j < |grades| ==> grades[i].assertionId != grades[j].assertionId
  {
    var grades := codeGrades + llmGrades;
    var ids := AssertionIds(cs, |llmGrades|);
    AssertionIdsDistinct(cs, |llmGrades|);
    assert forall i :: 0 <= i < |grades| ==> grades[i].assertionId == ids[i] by {
      forall i | 0 <= i < |grades| ensures grades[i].assertionId == ids[i] {
        if i >= |cs| {
          assert grades[i] == llmGrades[i - |cs|];
        }
      }
    }
  }

  /**
   * `CompositeGrader.grade`. `codeGrade` is the code grader built for the
   * task's environment, `CodeGraders.Grade` at that environment's path and
   * outcomes; `llmGrade` is the LLM judge, which never raises.
   */
  method GradeTask(task: Task, codeGrade: CodeAssertion -> CodeGraders.Outcome, llmGrade: LLMAssertion -> GradeResult)
    returns (r: CompositeOutcome)
    ensures var cs := CodeAssertions(task);
      r.Raised? <==> exists i :: 0 <= i < |cs| && codeGrade(cs[i]).Raised?
    ensures var cs := CodeAssertions(task);
      r.Raised? ==>
        exists i :: (0 <= i < |cs| && codeGrade(cs[i]) == CodeGraders.Raised(r.message)
                     && forall k :: 0 <= k < i ==> codeGrade(cs[k]).Graded?)
    ensures var cs, ls := CodeAssertions(task), LlmAssertions(task);
      r.Completed? ==>
        && |r.grades| == |cs| + |ls|
        && (forall i :: 0 <= i < |cs| ==>
              r.grades[i] == codeGrade(cs[i]).grade.(assertionId := CodeId(i, cs[i])))
        && (forall j :: 0 <= j < |ls| ==> r.grades[|cs| + j] == llmGrade(ls[j]).(assertionId := LlmId(j)))
        && r.score == WeightedScore(r.grades, task.scoring)
        && (r.passed <==> r.score >= ThresholdFor(task) || forall i :: 0 <= i < |cs| ==> r.grades[i].passed)
        && (cs == [] ==> r.passed)
        && (forall i, j :: 0 <= i < j < |r.grades| ==> r.grades[i].assertionId != r.grades[j].assertionId)
  {
    var cs, ls := CodeAssertions(task), LlmAssertions(task);
    var codeGrades, raised := GradeCodeAssertions(cs, codeGrade);
    if raised.Some? {
      assert codeGrade(cs[|codeGrades|]).Raised?;
      return Raised(raised.value);
    }
    var llmGrades := GradeLlmAssertions(ls, llmGrade);
    var grades := codeGrades + llmGrades;
    LabelledGrades(codeGrades, llmGrades, cs);
    var score := CalculateWeightedScore(grades, task.scoring);
    var threshold := ThresholdFor(task);
    var allCodePassed := forall i :: 0 <= i < |grades| && StartsWith(grades[i].assertionId, "code_") ==> grades[i].passed;
    r := Completed(grades, score, score >= threshold || allCodePassed);
  }
}
