/**
 * The harness's data model: tasks, configurations, execution traces, grades
 * and evaluation results, with the helpers defined on them (total token count,
 * assertion filters, the exact-key weighted overall score) and the [0, 1]
 * bounds that pydantic enforces when a score-carrying record is built.
 */
module Models {
  import opened Wrappers

  datatype FileAction = Created | Modified | Deleted

  /** One file touched during a run; `diff` for modifications, `contentAfter` for creations. */
  datatype FileChange = FileChange(path: string, action: FileAction, diff: Option<string>, contentAfter: Option<string>)

  datatype TaskCategory = Coding | Refactoring | Exploration

  datatype TaskDifficulty = Easy | Medium | Hard

  /** The kinds of objective check a code assertion can ask for. */
  datatype CodeCheckType = TestsPass | FileContains | FileExists | FileNotContains | CommandSucceeds | RuffClean | MypyClean

  /** The enum's string value, as used in assertion ids. */
  function CheckValue(c: CodeCheckType): string
  {
    var names := ["tests_pass", "file_contains", "file_exists", "file_not_contains", "command_succeeds", "ruff_clean", "mypy_clean"];
    names[match c case TestsPass => 0 case FileContains => 1 case FileExists => 2 case FileNotContains => 3 case CommandSucceeds => 4 case RuffClean => 5 case MypyClean => 6]
  }

  datatype CodeAssertion = CodeAssertion(check: CodeCheckType, command: Option<string>, file: Option<string>, pattern: Option<string>)

  /** A judged assertion: the rubric and the optional calibration examples. */
  datatype LLMAssertion = LLMAssertion(rubric: string, passingExample: Option<string>, failingExample: Option<string>, borderlineExample: Option<string>)

  datatype Assertion = Code(code: CodeAssertion) | Llm(llm: LLMAssertion)

  /** A `dict[str, float]` in insertion order; Python keeps its keys distinct. */
  type Weights = seq<(string, real)>

  datatype Task = Task(
    id: string,
    category: TaskCategory,
    description: string,
    difficulty: TaskDifficulty,
    prompt: string,
    assertions: seq<Assertion>,
    scoring: Weights,
    fixturePath: Option<string>,
    timeoutSeconds: int,
    passThreshold: Option<real>)

  datatype AllowedTools = AllTools | Tools(names: seq<string>)

  /** One agent configuration under evaluation. */
  datatype Config = Config(
    name: string,
    description: string,
    claudeMd: Option<string>,
    skillsPath: Option<string>,
    agentsMd: Option<string>,
    model: string,
    maxTurns: int,
    allowedTools: AllowedTools)

  const DefaultModel: string := "claude-sonnet-4-20250514"
  const DefaultMaxTurns: int := 10

  /** A JSON value, as `json.loads` produces it; objects keep their keys in order. */
  datatype JsonValue =
    | JsonNull
    | JsonBool(b: bool)
    | JsonNumber(n: real)
    | JsonString(s: string)
    | JsonArray(items: seq<JsonValue>)
    | JsonObject(members: seq<(string, JsonValue)>)

  /** A tool call; the timestamp is kept as the ISO 8601 text `datetime.fromisoformat` accepted. */
  datatype ToolCall = ToolCall(
    name: string,
    input: seq<(string, JsonValue)>,
    output: Option<string>,
    error: Option<string>,
    timestamp: Option<string>)

  datatype TokenUsage = TokenUsage(inputTokens: int, outputTokens: int, cacheReadTokens: int, cacheCreationTokens: int)

  /** `TokenUsage.total_tokens`. */
  function TotalTokens(u: TokenUsage): int
  {
    u.inputTokens + u.outputTokens
  }

  /** Cache reads and cache creation never change the total. */
  lemma TotalTokensExcludesCache(u: TokenUsage, cacheRead: int, cacheCreation: int)
    ensures TotalTokens(u.(cacheReadTokens := cacheRead, cacheCreationTokens := cacheCreation)) == TotalTokens(u)
    ensures TotalTokens(u) - u.inputTokens == u.outputTokens
  {
  }

  datatype ConfigSnapshot = ConfigSnapshot(model: string, claudeMd: Option<string>, skillsPath: Option<string>, maxTurns: int)

  datatype ExecutionTrace = ExecutionTrace(
    sessionId: Option<string>,
    result: string,
    isError: bool,
    usage: TokenUsage,
    toolCalls: seq<ToolCall>,
    durationSeconds: real,
    numTurns: int,
    fileChanges: seq<FileChange>,
    claudePrompt: string,
    claudeResponse: string,
    configSnapshot: ConfigSnapshot,
    maxTurns: int,
    hitTurnLimit: bool,
    stderr: string)

  /** An `ExecutionTrace` with every field at its declared default. */
  const EmptyTrace: ExecutionTrace := ExecutionTrace(
    None, "", false, TokenUsage(0, 0, 0, 0), [], 0.0, 0, [], "", "",
    ConfigSnapshot("", None, None, 0), 0, false, "")

  datatype CriterionScore = CriterionScore(criterion: string, score: real, reasoning: string)

  datatype GradeResult = GradeResult(
    assertionId: string,
    assertionType: string,
    assertionName: string,
    passed: bool,
    score: real,
    details: string,
    reasoning: string,
    fullOutput: string,
    gradingPrompt: string,
    criteriaScores: seq<CriterionScore>)

  datatype EvalResult = EvalResult(
    taskId: string,
    configName: string,
    model: string,
    runIndex: int,
    trace: ExecutionTrace,
    grades: seq<GradeResult>,
    overallScore: real,
    passed: bool)

  /** The `Field(ge=0.0, le=1.0)` constraint. */
  predicate UnitScore(x: real)
  {
    0.0 <= x <= 1.0
  }

  /** Building a `CriterionScore` fails validation unless its score is in [0, 1]. */
  function NewCriterionScore(criterion: string, score: real, reasoning: string): (r: Option<CriterionScore>)
    ensures r.Some? <==> UnitScore(score)
    ensures r.Some? ==> r.value.score == score && r.value.criterion == criterion && r.value.reasoning == reasoning
  {
    if UnitScore(score) then Some(CriterionScore(criterion, score, reasoning)) else None
  }

  /** Building a `GradeResult` fails validation unless its score is in [0, 1]. */
  function NewGradeResult(
    id: string, kind: string, name: string, passed: bool, score: real, details: string,
    reasoning: string, fullOutput: string, prompt: string, criteria: seq<CriterionScore>): (r: Option<GradeResult>)
    ensures r.Some? <==> UnitScore(score)
    ensures r.Some? ==> r.value.score == score && r.value.passed == passed && r.value.assertionId == id
  {
    if UnitScore(score) then Some(GradeResult(id, kind, name, passed, score, details, reasoning, fullOutput, prompt, criteria))
    else None
  }

  /** Building an `EvalResult` fails validation unless its overall score is in [0, 1]. */
  function NewEvalResult(
    taskId: string, configName: string, model: string, runIndex: int, trace: ExecutionTrace,
    grades: seq<GradeResult>, overallScore: real, passed: bool): (r: Option<EvalResult>)
    ensures r.Some? <==> UnitScore(overallScore)
    ensures r.Some? ==> r.value.overallScore == overallScore && r.value.passed == passed && r.value.grades == grades
  {
    if UnitScore(overallScore) then Some(EvalResult(taskId, configName, model, runIndex, trace, grades, overallScore, passed))
    else None
  }

  /** `Task.code_assertions` over a list of assertions. */
  function CodeAssertionsOf(s: seq<Assertion>): seq<CodeAssertion>
  {
    if s == [] then []
    else (if s[0].Code? then [s[0].code] else []) + CodeAssertionsOf(s[1..])
  }

  /** `Task.llm_assertions` over a list of assertions. */
  function LlmAssertionsOf(s: seq<Assertion>): seq<LLMAssertion>
  {
    if s == [] then []
    else (if s[0].Llm? then [s[0].llm] else []) + LlmAssertionsOf(s[1..])
  }

  function CodeAssertions(t: Task): seq<CodeAssertion>
  {
    CodeAssertionsOf(t.assertions)
  }

  function LlmAssertions(t: Task): seq<LLMAssertion>
  {
    LlmAssertionsOf(t.assertions)
  }

  /**
   * The two filters split the assertions between them: their lengths add up,
   * each keeps exactly its own kind, and filtering a concatenation filters each
   * part in turn, so the original relative order is kept.
   */
  lemma {:induction false} AssertionFiltersPartition(s: seq<Assertion>, t: seq<Assertion>)
    ensures |CodeAssertionsOf(s)| + |LlmAssertionsOf(s)| == |s|
    ensures forall c :: c in CodeAssertionsOf(s) <==> Code(c) in s
    ensures forall l :: l in LlmAssertionsOf(s) <==> Llm(l) in s
    ensures CodeAssertionsOf(s + t) == CodeAssertionsOf(s) + CodeAssertionsOf(t)
    ensures LlmAssertionsOf(s + t) == LlmAssertionsOf(s) + LlmAssertionsOf(t)
  {
    FiltersSplit(s);
    FiltersDistribute(s, t);
  }

  lemma {:induction false} FiltersSplit(s: seq<Assertion>)
    ensures |CodeAssertionsOf(s)| + |LlmAssertionsOf(s)| == |s|
    ensures forall c :: c in CodeAssertionsOf(s) <==> Code(c) in s
    ensures forall l :: l in LlmAssertionsOf(s) <==> Llm(l) in s
  {
    if s != [] {
      FiltersSplit(s[1..]);
      assert forall a :: a in s <==> a == s[0] || a in s[1..];
    }
  }

  lemma {:induction false} FiltersDistribute(s: seq<Assertion>, t: seq<Assertion>)
    ensures CodeAssertionsOf(s + t) == CodeAssertionsOf(s) + CodeAssertionsOf(t)
    ensures LlmAssertionsOf(s + t) == LlmAssertionsOf(s) + LlmAssertionsOf(t)
  {
    if s != [] {
      FiltersDistribute(s[1..], t);
      assert (s + t)[1..] == s[1..] + t;
    } else {
      assert s + t == t;
    }
  }

  /** `weights.get(key, 0.0)`. */
  function WeightOf(w: Weights, key: string): real
  {
    if w == [] then 0.0 else if w[0].0 == key then w[0].1 else WeightOf(w[1..], key)
  }

  /** `sum(weights.values())`. */
  function TotalWeight(w: Weights): real
  {
    if w == [] then 0.0 else TotalWeight(w[..|w| - 1]) + w[|w| - 1].1
  }

  /** Σ score · weights.get(assertion_id, 0) over the grades. */
  function ExactWeightedSum(grades: seq<GradeResult>, w: Weights): real
  {
    if grades == [] then 0.0
    else ExactWeightedSum(grades[..|grades| - 1], w) + grades[|grades| - 1].score * WeightOf(w, grades[|grades| - 1].assertionId)
  }

  /** The value `calculate_overall_score` computes. */
  function OverallScore(grades: seq<GradeResult>, w: Weights): real
  {
    if grades == [] || w == [] then 0.0
    else if TotalWeight(w) == 0.0 then 0.0
    else ExactWeightedSum(grades, w) / TotalWeight(w)
  }

  /** `EvalResult.calculate_overall_score`: the accumulation loop. */
  method CalculateOverallScore(r: EvalResult, weights: Weights) returns (score: real)
    ensures score == OverallScore(r.grades, weights)
    ensures (r.grades == [] || weights == [] || TotalWeight(weights) == 0.0) ==> score == 0.0
  {
    if r.grades == [] || weights == [] {
      return 0.0;
    }
    var total := 0.0;
    var k := 0;
    while k < |weights|
      invariant 0 <= k <= |weights|
      invariant total == TotalWeight(weights[..k])
    {
      assert weights[..k + 1][..k] == weights[..k];
      total := total + weights[k].1;
      k := k + 1;
    }
    assert weights[..k] == weights;
    if total == 0.0 {
      return 0.0;
    }
    var weighted := 0.0;
    var i := 0;
    while i < |r.grades|
      invariant 0 <= i <= |r.grades|
      invariant weighted == ExactWeightedSum(r.grades[..i], weights)
    {
      assert r.grades[..i + 1][..i] == r.grades[..i];
      weighted := weighted + r.grades[i].score * WeightOf(weights, r.grades[i].assertionId);
      i := i + 1;
    }
    assert r.grades[..i] == r.grades;
    score := weighted / total;
  }

  /** A key that no grade carries contributes nothing to the numerator. */
  lemma {:induction false} UnmatchedKeyAddsNothing(grades: seq<GradeResult>, w: Weights, key: string, v: real)
    requires forall g :: g in grades ==> g.assertionId != key
    ensures ExactWeightedSum(grades, [(key, v)] + w) == ExactWeightedSum(grades, w)
  {
    if grades != [] {
      var init := grades[..|grades| - 1];
      assert forall g :: g in init ==> g in grades;
      UnmatchedKeyAddsNothing(init, w, key, v);
      assert grades[|grades| - 1] in grades;
    }
  }

  lemma {:induction false} TotalWeightPrepend(w: Weights, key: string, v: real)
    ensures TotalWeight([(key, v)] + w) == v + TotalWeight(w)
    decreases |w|
  {
    if w != [] {
      var x := [(key, v)] + w;
      assert x[..|x| - 1] == [(key, v)] + w[..|w| - 1];
      TotalWeightPrepend(w[..|w| - 1], key, v);
    }
  }

  /**
   * The denominator counts every weight: adding a key that no grade matches
   * keeps the numerator and grows the denominator by its weight.
   */
  lemma UnmatchedKeyDilutes(grades: seq<GradeResult>, w: Weights, key: string, v: real)
    requires grades != [] && w != []
    requires forall g :: g in grades ==> g.assertionId != key
    requires TotalWeight(w) != 0.0 && TotalWeight(w) + v != 0.0
    ensures OverallScore(grades, [(key, v)] + w) == ExactWeightedSum(grades, w) / (TotalWeight(w) + v)
  {
    UnmatchedKeyAddsNothing(grades, w, key, v);
    TotalWeightPrepend(w, key, v);
  }
}
