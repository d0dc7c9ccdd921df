# agent-eval harness core, modelled in Dafny

The agent-eval harness runs a coding agent on evaluation tasks under
several agent configurations, grades each run and compares the
configurations. This project models the computations at the harness's
core and proves properties about them:

- **Data model** (`models.dfy`): tasks with code and LLM assertions,
  configurations, execution traces, grades and evaluation results. Also
  the token total, the assertion filters, the exact-key weighted overall
  score, and the `[0, 1]` score bounds that record construction enforces.
- **Code graders** (`code_graders.dfy`): the dispatch over check kinds and
  its parameter validation.
  - Tests-pass gives partial credit read from pytest's "N passed / N failed /
    N error" summary.
  - Ruff and mypy lose a fixed penalty per violation.
  - The file-contains, file-not-contains, file-exists and command-succeeds
    checks are binary.
- **Composite grading**: each assertion is graded and relabelled with an id.
  The grades are combined into a substring-keyed weighted mean. The task
  passes when that mean reaches the task's threshold, or when every code
  assertion passed.
- **LLM judge**: parsing the judge's reply into a grade, and building the
  calibration section of the grading prompt.
- **Statistics**:
  - the unbiased pass@k estimator;
  - stability metrics;
  - comparing two configurations, by effect size, significance and the
    recommendation text;
  - comparing efficiency, with its recommendation;
  - regression detection;
  - the minimum sample size of a power analysis.
- **Reporter**: grouping results by key, the aggregated metrics of a group,
  and the baseline-versus-current regression check.
- **Isolator**: the temporary environment's lifecycle, the before/after file
  diff, the combined diff text, and the archive exclusion filter.
- **Config importer**: the sanitisation of settings for CI.
- **Paths** (`paths.dfy`): POSIX paths as pathlib joins and renders them,
  used for the file checks' paths and the CI environment's home.
- **Executor**: the agent CLI's command line, parsing its JSON output, and
  extracting the tool calls.
- **Runner**: one run, the task × config × model × run matrix, and the
  execution summary.
- **Validator**: the validator module of the getting-started fixture
  project.

Python floats are modelled as exact reals. Dictionaries are sequences of
key/value pairs in insertion order. Every subprocess, file-system probe,
regex search on a user-supplied pattern, JSON decode, clock, Unicode
character table and numeric library routine (scipy's
Mann-Whitney test, `sqrt`, normal quantiles) is an input to the model.
Each operation is then a function of what those calls returned or raised.

## Model

| member | source | states |
|---|---|---|
| Models.TotalTokensExcludesCache | harness/models.py:133-136 | the token total is input plus output tokens; cache reads and cache creation never change it |
| Models.NewCriterionScore | harness/models.py:170-176 | a criterion score is built exactly when its score lies in [0, 1], and keeps its fields |
| Models.NewGradeResult | harness/models.py:178-193 | a grade result is built exactly when its score lies in [0, 1], and keeps score, verdict and id |
| Models.NewEvalResult | harness/models.py:195-206 | an evaluation result is built exactly when its overall score lies in [0, 1], and keeps score, verdict and grades |
| Models.AssertionFiltersPartition | harness/models.py:91-100 | the code and LLM filters split the assertions: lengths add up, each keeps exactly its own kind, and both distribute over concatenation (order kept) |
| Models.CalculateOverallScore | harness/models.py:208-222 | the loop computes Σ score·weights.get(id, 0) / Σ weights; no grades, no weights or a zero total gives 0 |
| Models.UnmatchedKeyDilutes | harness/models.py:208-222 | a weight key that no grade carries adds nothing to the numerator but still grows the denominator |
| Models.UnmatchedKeyAddsNothing | harness/models.py:217-220 | a weight key no grade id equals contributes nothing to the weighted sum |
| Models.TotalWeightPrepend | harness/models.py:213 | the denominator is the sum of every weight in the map |
| CodeGraders.CreateGradeResult | harness/graders/code_graders.py:20-48 | a code grade has id and name equal to the check name, type "code", the given verdict, score, details and output, and no reasoning, prompt or criteria |
| CodeGraders.Failure | harness/graders/code_graders.py:64-68 | the failure grade is not passed and scores 0 |
| CodeGraders.DigitRun | harness/graders/code_graders.py:135-137 | the `\d+` run is maximal: it ends at the end of the text or before a non-digit |
| CodeGraders.DigitRunIsDigits | harness/graders/code_graders.py:135-137 | every character of the `\d+` run is a digit |
| CodeGraders.SpaceRun | harness/graders/code_graders.py:135-137 | the `\s+` run is maximal |
| CodeGraders.SpaceRunIsSpaces | harness/graders/code_graders.py:135-137 | every character of the `\s+` run is whitespace |
| CodeGraders.CountAtIffSplit | harness/graders/code_graders.py:135-137 | the greedy reading matches `(\d+)\s+word` at a position iff some split into digits, whitespace and the word does |
| CodeGraders.CountAtIsSplit | harness/graders/code_graders.py:135-137 | a greedy match is a split into the maximal digit and whitespace runs followed by the word |
| CodeGraders.SplitIsCountAt | harness/graders/code_graders.py:135-137 | any split into digits, whitespace and the word is a greedy match |
| CodeGraders.SplitIsGreedy | harness/graders/code_graders.py:135-137 | for a word starting with neither a digit nor whitespace, every matching split uses the maximal runs |
| CodeGraders.WordAfterSplit | harness/graders/code_graders.py:135-137 | the word follows the runs iff the next characters equal it |
| CodeGraders.DigitRunIs | harness/graders/code_graders.py:135-137 | a digit block followed by a non-digit is exactly the `\d+` run |
| CodeGraders.SpaceRunIs | harness/graders/code_graders.py:135-137 | a whitespace block followed by a non-space is exactly the `\s+` run |
| CodeGraders.FirstMatch | harness/graders/code_graders.py:135-139 | the position `re.search` reports lies inside the text |
| CodeGraders.FirstMatchIsLeftmost | harness/graders/code_graders.py:135-139 | the match found is a match and none starts earlier; without a result the pattern matches nowhere |
| CodeGraders.DigitRunOfDigits | harness/graders/code_graders.py:135-139 | a digit string followed by a non-digit is read whole |
| CodeGraders.PhraseMatchesAtStart | harness/graders/code_graders.py:135-139 | "digits word…" matches at position 0 with the whole digit run |
| CodeGraders.CountOfDigitsPhrase | harness/graders/code_graders.py:135-141 | the count read in front of "digits word…" is the value of the digits |
| CodeGraders.CountOfPhrase | harness/graders/code_graders.py:135-141 | pytest's "n word…" reads back as n, whatever follows the word |
| CodeGraders.ErrorsAreCounted | harness/graders/code_graders.py:137-141 | the "error" pattern also reads "n errors" as n |
| CodeGraders.PassRatio | harness/graders/code_graders.py:143-147 | the ratio lies in [0, 1], times the total gives the passed count, and is 1 exactly when nothing failed or errored |
| CodeGraders.RatioOfCounts | harness/graders/code_graders.py:147 | passed/total lies in [0, 1] and equals 1 exactly when passed == total |
| CodeGraders.GradeCounted | harness/graders/code_graders.py:145-161 | with counts, the score is the pass ratio and the run passes iff the exit code is 0 or the ratio reaches the threshold |
| CodeGraders.GradeUncounted | harness/graders/code_graders.py:162-172 | without counts, the exit code alone decides, the score is binary and details are at most 2000 characters |
| CodeGraders.GradeTestsPass | harness/graders/code_graders.py:103-190 | tests-pass: partial credit from the counts, binary fallback without counts, failure on timeout, subprocess or OS error; output that is not valid text raises; every grade's score in [0, 1] |
| CodeGraders.AllTestsPassedGetsFullCredit | harness/graders/code_graders.py:143-161 | a run reporting only passed tests scores 1.0 and passes, whatever the exit code |
| CodeGraders.RuffCommand | harness/graders/code_graders.py:210-213 | the ruff argv is `ruff check --output-format json [--config path] .`, with `--config` exactly when a path is given |
| CodeGraders.RuleCodes | harness/graders/code_graders.py:246 | each violation's rule is its "code", or "unknown" without one |
| CodeGraders.RuleCountsAreOccurrences | harness/graders/code_graders.py:244-247 | the rule dictionary holds one key per distinct rule, mapped to its number of occurrences |
| CodeGraders.CountRules | harness/graders/code_graders.py:244-247 | the counting loop builds exactly that dictionary |
| CodeGraders.SummaryParts | harness/graders/code_graders.py:249 | one "rule: count" part per rule, in the given order |
| CodeGraders.SortedRules | harness/graders/code_graders.py:249 | every summarised rule is a key of the counts |
| CodeGraders.RuffSummaryCorrect | harness/graders/code_graders.py:244-249 | the summary lists each rule seen exactly once, strictly sorted, with its occurrence count |
| CodeGraders.RuffGrade | harness/graders/code_graders.py:192-285 | ruff: id "ruff_clean", score in [0, 1]; an OS error other than a missing binary, and output that is not valid text, escape; run failures give a failed grade |
| CodeGraders.RuffRulesOfViolations | harness/graders/code_graders.py:244-249 | the summarised rules are those of the first twenty violations (at most twenty codes, "unknown" for a missing code), strictly sorted, each once |
| CodeGraders.RuffDetailsSummary | harness/graders/code_graders.py:243-252 | the details give the violation count, then "rule: count" for at most five rules, the first in sorted order among the rules of the first twenty violations (counted over those twenty), then " (+k more rules)" when those carry more than five rules |
| CodeGraders.GradeRuffClean | harness/graders/code_graders.py:208-260 | the ruff check with its counting loop returns the same outcome as the ruff grade function |
| CodeGraders.RuffPassesIffAtMostThree | harness/graders/code_graders.py:231-260 | ruff passes iff there are at most three violations, and scores 1 − n/10 floored at 0 |
| CodeGraders.UndecodableRuffOutputPasses | harness/graders/code_graders.py:223-238 | output that is not JSON counts as no violations: a clean pass with score 1.0 |
| CodeGraders.MypyCommand | harness/graders/code_graders.py:305-308 | the mypy argv is `mypy --no-error-summary [--config-file path] .`, with `--config-file` exactly when a path is given |
| CodeGraders.ErrorLines | harness/graders/code_graders.py:322-325 | the error lines are the stdout lines containing ": error:", each counted as often as it occurs, so the mypy count includes repeats |
| CodeGraders.ErrorLinesConcat | harness/graders/code_graders.py:322-325 | the selection keeps output order: the error lines of two stretches of output are those of the first followed by those of the second |
| CodeGraders.GradeMypyClean | harness/graders/code_graders.py:287-375 | mypy: exit code 0 or no error lines passes with 1.0; otherwise the score loses 0.05 per error and passes iff at most six errors; run failures fail; output that is not valid text raises |
| CodeGraders.GradeFileSearch | harness/graders/code_graders.py:377-465 | file-contains and file-not-contains pass iff the file is readable and the search agrees with the expectation; the score is binary; undecodable text escapes; a searched file's output is its first 5000 characters (`content[:5000]`) |
| CodeGraders.ContainsAndNotContainsDisagree | harness/graders/code_graders.py:398-408 | on a readable file and a valid pattern, the two checks give opposite verdicts |
| CodeGraders.GradeFileExists | harness/graders/code_graders.py:467-485 | file-exists passes iff the path exists; the score is binary and the output names the joined path as pathlib renders it |
| CodeGraders.GradeCommandSucceeds | harness/graders/code_graders.py:487-533 | command-succeeds passes iff the command finished with exit code 0; the details are the first 1000 characters of stdout on success, of stderr on failure; output that is not valid text raises |
| CodeGraders.Grade | harness/graders/code_graders.py:50-101 | dispatch: a check missing its file, pattern or command fails with the source's message; tests-pass runs the command or "pytest"; only file-exists can never raise |
| CodeGraders.GradeNamesCheck | harness/graders/code_graders.py:50-101 | every code grade carries its check's name as id |
| CodeGraders.GradeScoreInUnit | harness/graders/code_graders.py:50-101 | every code grade's score lies in [0, 1] |
| CodeGraders.BinaryChecksScoreByVerdict | harness/graders/code_graders.py:377-533 | the binary checks score exactly 1.0 on a pass and 0.0 on a failure |
| CompositeGrader.ThresholdFor | harness/graders/composite_grader.py:104-115 | a task's own threshold wins; otherwise the difficulty table decides, between 0.55 and 0.85 |
| CompositeGrader.DifficultyThresholdsDecrease | harness/graders/composite_grader.py:25-29 | easy > medium > hard default thresholds |
| CompositeGrader.MatchedWeightIsFirstKey | harness/graders/composite_grader.py:144-148 | the weight comes from the first key, in insertion order, that is a substring of the id; 0 with none |
| CompositeGrader.EffectiveWeight | harness/graders/composite_grader.py:150-152 | a missing or zero weight counts as 1.0, a non-zero match counts as itself |
| CompositeGrader.LookupWeight | harness/graders/composite_grader.py:144-148 | the inner loop returns the first substring match's weight |
| CompositeGrader.CalculateWeightedScore | harness/graders/composite_grader.py:117-157 | the accumulation equals Σ score·weight / Σ weight, with 0 for no grades |
| CompositeGrader.WeightedSumWithin | harness/graders/composite_grader.py:142-157 | with non-negative weights and unit scores, 0 ≤ Σ score·weight ≤ Σ weight, and the total is positive when there is a grade |
| CompositeGrader.EffectiveWeightPositive | harness/graders/composite_grader.py:150-152 | with non-negative weights, every effective weight is positive |
| CompositeGrader.ScoreSumWithin | harness/graders/composite_grader.py:131-136 | the sum of unit scores lies between 0 and the number of grades |
| CompositeGrader.WeightedScoreInUnit | harness/graders/composite_grader.py:117-157 | the overall score lies in [0, 1] |
| CompositeGrader.NegativeWeightLeavesUnit | harness/graders/composite_grader.py:142-157 | weights are not sign-checked: a code grade of 0 weighted −1 beside an LLM grade of 1 weighted 2 gives an overall score of 2, outside [0, 1] |
| CompositeGrader.UnmatchedWeightsGiveMean | harness/graders/composite_grader.py:142-157 | when no key occurs in any id, each grade weighs 1 |
| CompositeGrader.EqualWeightingIsMean | harness/graders/composite_grader.py:131-157 | with no matching weights the score is the arithmetic mean |
| CompositeGrader.AssertionIds | harness/graders/composite_grader.py:75-84 | ids are `code_<i>_<check>` for the code assertions, then `llm_<j>` |
| CompositeGrader.DigitsBeforeUnderscore | harness/graders/composite_grader.py:78 | two digit strings each followed by '_' glue into the same text only if equal |
| CompositeGrader.CodeTextInjective | harness/graders/composite_grader.py:78 | `code_<d>_<c>` determines its digits |
| CompositeGrader.CodeIdInjective | harness/graders/composite_grader.py:78 | distinct code positions give distinct ids |
| CompositeGrader.LlmIdInjective | harness/graders/composite_grader.py:84 | distinct LLM positions give distinct ids |
| CompositeGrader.IdPrefixes | harness/graders/composite_grader.py:78-99 | code ids start with "code_", LLM ids never do |
| CompositeGrader.AssertionIdsDistinct | harness/graders/composite_grader.py:75-99 | no two grades share an id, and exactly the code grades carry the "code_" prefix |
| CompositeGrader.GradeCodeAssertions | harness/graders/composite_grader.py:74-79 | the first loop relabels each code grade; a raising grader stops it with the grades before |
| CompositeGrader.GradeLlmAssertions | harness/graders/composite_grader.py:81-85 | the second loop relabels each LLM grade `llm_<j>` |
| CompositeGrader.LabelledGrades | harness/graders/composite_grader.py:96-100 | the "code_" filter selects exactly the code grades, and ids are distinct |
| CompositeGrader.GradeTask | harness/graders/composite_grader.py:49-102 | the task raises iff some code grader raises, with the first such message; otherwise the grades in order, the weighted score, passed iff score ≥ threshold or all code grades passed (so no code assertions passes) |
| Reporter.KeyOf | harness/reporter.py:44-48 | the key is (task, config, model) or (task, config) |
| Reporter.MembersOfSnoc | harness/reporter.py:44-49 | appending a result extends its own group only |
| Reporter.MembersOfAbsentKey | harness/reporter.py:43-50 | a key no result carries has no members |
| Reporter.MembersHaveKey | harness/reporter.py:44-49 | every member of a group carries the group's key |
| Reporter.ResultInItsGroup | harness/reporter.py:44-49 | every result lands in its own key's group |
| Reporter.MembersOfConcat | harness/reporter.py:44-49 | grouping keeps input order |
| Reporter.KeySetOfSnoc | harness/reporter.py:44-49 | appending a result adds its key to the key set |
| Reporter.GroupResultsByKey | harness/reporter.py:30-50 | the dictionary's keys are the keys present, listed as `KeyOrder` (first-occurrence order), each mapped to its members in input order |
| Reporter.KeyOrderListsKeys | harness/reporter.py:44-49 | the key order lists exactly the keys that occur, each once |
| Reporter.KeyOrderIsFirstOccurrence | harness/reporter.py:44-49 | a key listed before another has occurred before every occurrence of the other |
| Reporter.GroupSizesOfNone | harness/reporter.py:43 | no results, no members |
| Reporter.GroupSizesOfSnoc | harness/reporter.py:49 | one more result grows the group sizes by one when its key is listed |
| Reporter.GroupsPartition | harness/reporter.py:30-50 | the groups partition the results: their sizes add up to the number of results |
| Reporter.PassRateOf | harness/reporter.py:175 | the pass rate lies in [0, 1], and is 0 for no results |
| Reporter.TruncateToInt | harness/reporter.py:150 | `int(x)` truncates toward zero |
| Reporter.CalculateMetrics | harness/reporter.py:143-182 | counts, pass rate, mean score, truncated mean tokens, mean duration and cost, pass@1/3/5 and stability (only for a non-empty group) |
| Reporter.MetricsInRange | harness/reporter.py:163-175 | pass rate and every pass@k lie in [0, 1] |
| Reporter.EmptyGroupMetrics | harness/reporter.py:143-182 | an empty group has every count, rate and average 0 and no stability |
| Reporter.AverageTokensTruncate | harness/reporter.py:149-151 | the average token count is the whole part of the mean |
| Reporter.KeyComparisonCorrect | harness/reporter.py:704-748 | a comparison names its key, carries both pass rates and their difference, and has statistics iff both sides have results |
| Reporter.KeyComparisonStats | harness/reporter.py:725-746 | those statistics are `compare_configs` of baseline (A) against current (B) |
| Reporter.RegressionsSelect | harness/reporter.py:751-760 | the regressions are exactly the comparisons that dropped beyond the threshold, significantly when required |
| Reporter.ImprovementsSelect | harness/reporter.py:755-762 | the improvements are exactly those that rose beyond the threshold and did not regress |
| Reporter.RegressionsAndImprovementsDisjoint | harness/reporter.py:759-762 | nothing is both a regression and an improvement |
| Reporter.RegressedExcludesImproved | harness/reporter.py:751-757 | with a non-negative threshold, a comparison never both regressed and improved |
| Reporter.KeyList | harness/reporter.py:701 | the listed keys are exactly the keys of the results |
| Reporter.RegressionKeysCorrect | harness/reporter.py:701-704 | the keys checked are every key of either side, each once, strictly sorted, each a triple |
| Reporter.VanishedKeyRegresses | harness/reporter.py:720-753 | a key missing from the current run whose baseline rate exceeds the threshold regresses, even with significance required |
| Reporter.GroupOf | harness/reporter.py:706-707 | `grouped.get(key, [])` is the key's members |
| Reporter.Classify | harness/reporter.py:750-762 | one step of the classification keeps both lists equal to the selection over the comparisons so far |
| Reporter.CompareKeys | harness/reporter.py:703-762 | one comparison per key, in order, and the regressions and improvements selected from them |
| Reporter.CheckRegression | harness/reporter.py:671-775 | the report: comparisons over the sorted keys, regressions, improvements, their counts, the threshold and flag, and has-regressions iff the count is positive |
| Reporter.SameKeys | harness/reporter.py:694-703 | sorting the two groupings' keys gives the sorted union of the key sets |
| LlmGraders.UntilFence | harness/graders/llm_graders.py:263-268 | the lines kept before a fence are never more than the lines given |
| LlmGraders.UntilFenceIsLongestPrefix | harness/graders/llm_graders.py:263-270 | the lines up to the closing fence are the longest fence-free prefix |
| LlmGraders.FenceBodyAfterFirstFence | harness/graders/llm_graders.py:260-271 | the JSON lines are those after the first fence line up to the next one; no fence, no lines |
| LlmGraders.ExtractFenced | harness/graders/llm_graders.py:260-271 | the `in_json` loop collects exactly those lines |
| LlmGraders.SplitKeepsPrefix | harness/graders/llm_graders.py:258-260 | a reply starting with the fence keeps it on its first line |
| LlmGraders.FencedReply | harness/graders/llm_graders.py:257-271 | a reply opening with a fence is parsed from the lines after its first line, up to the next fence |
| LlmGraders.UnfencedReply | harness/graders/llm_graders.py:257-258 | any other reply is parsed as it stands, stripped |
| LlmGraders.ParsedGradeInRange | harness/graders/llm_graders.py:243-350 | the parser raises exactly on an exception it does not catch (a reply that is not a JSON object, a null score); every parsed grade is an `llm_quality` grade with its score and criterion scores in [0, 1] |
| LlmGraders.StructuredGradeInRange | harness/graders/llm_graders.py:279-336 | a grade built from a decoded verdict keeps the `llm_quality` labels, and its score and criterion scores lie in [0, 1] |
| LlmGraders.DefaultPassRule | harness/graders/llm_graders.py:275-276 | without `passed` and without a failed regression check, the verdict is score ≥ 0.7 |
| LlmGraders.ExplicitPassWins | harness/graders/llm_graders.py:276 | an explicit `passed` decides unless the regression check failed |
| LlmGraders.RegressionCap | harness/graders/llm_graders.py:316-324 | a failed regression check caps the score at 0.5, fails the grade and ends the details with the warning |
| LlmGraders.ChangesSummaryFirst | harness/graders/llm_graders.py:308-313 | the changes summary is the first detail line |
| LlmGraders.ChangesSummaryContents | harness/graders/llm_graders.py:310-312 | the summary joins the first three changes and counts the rest |
| LlmGraders.DetailsFallBackToReasoning | harness/graders/llm_graders.py:326 | with no detail lines the details are the overall reasoning, and there are none exactly when nothing is listed |
| LlmGraders.CriteriaBreakdown | harness/graders/llm_graders.py:285-305 | one criterion score per entry, in order, with defaults "unknown" and 0.0 |
| LlmGraders.InvalidCriterionFallsBack | harness/graders/llm_graders.py:299-305 | a criterion score outside [0, 1] fails validation and sends the reply to the keyword fallback |
| LlmGraders.KeywordFallbackRule | harness/graders/llm_graders.py:338-350 | the fallback passes iff "passed" or "success" occurs case-insensitively, scores 0.7 or 0.3 and keeps the first 500 characters |
| LlmGraders.JoinLast | harness/graders/llm_graders.py:326 | the joined details end with their last line |
| LlmGraders.JoinFirst | harness/graders/llm_graders.py:326 | the joined details start with their first line |
| LlmGraders.ReadCriteria | harness/graders/llm_graders.py:285-305 | the criteria loop builds every line and score when all scores are valid, and reports failure otherwise |
| LlmGraders.ExtractJsonText | harness/graders/llm_graders.py:257-271 | the opening of the parser yields the text handed to the decoder |
| LlmGraders.GradeVerdict | harness/graders/llm_graders.py:275-337 | the decoded verdict becomes the structured grade, or none when a score fails validation |
| LlmGraders.ParseResponse | harness/graders/llm_graders.py:243-350 | the parser returns the grade of the reply, or the exception that escapes it |
| LlmGraders.GradingFailed | harness/graders/llm_graders.py:97-107 | a failed call gives a failed `llm_quality` grade with score 0 and the error as details and output |
| LlmGraders.Grade | harness/graders/llm_graders.py:84-107 | the parsed grade carries the prompt and full reply; a failed call, or an exception escaping the parser, gives the "LLM grading failed" grade; the score is always in [0, 1] |
| LlmGraders.SubsectionPresence | harness/graders/llm_graders.py:132-146 | a subsection appears exactly for a set example, and quotes it |
| LlmGraders.CalibrationPresence | harness/graders/llm_graders.py:123-131 | the section is present exactly when some example is set, and opens with its heading |
| LlmGraders.CalibrationOrder | harness/graders/llm_graders.py:129-146 | the set examples appear in the order passing, failing, borderline |
| LlmGraders.BuildCalibrationSection | harness/graders/llm_graders.py:123-146 | the appending code builds that section, and nothing without an assertion |
| Runner.RunSingle | harness/runner.py:50-108 | an exception raised while grading escapes, and an overall score outside [0, 1] is refused as building the `EvalResult` refuses it; otherwise the result names the task, configuration and model, keeps the run index, records changes, prompt and turn limit, sets hit-turn-limit iff turns ≥ max turns, and carries the composite grading's grades, score and verdict |
| Runner.SnapshotKeepsPrefix | harness/runner.py:87-92 | the stored snapshot keeps model and turn limit, and CLAUDE.md (when set) cut to its first 200 characters |
| Runner.ModelsFor | harness/runner.py:134 | the models run are those given, or the configuration's own model when none are given |
| Runner.RunMatrix | harness/runner.py:110-148 | when no run raises, one result per task × configuration × model × run, in loop order, each its combination's result, and one callback call per result, after its append; otherwise it stops at the first combination that raises, with that exception and the results and calls of the combinations before it |
| Runner.MatrixEnds | harness/runner.py:110-148 | the matrix raises iff some combination raises; with no exception there is one result per combination, otherwise the exception is that of the combination right after the returned results; each returned result is its combination's, and callback call i reports result i after i + 1 appends |
| Runner.RunTask | harness/runner.py:133-146 | the configuration loop appends the results of every configuration's combinations, or stops at the first that raises |
| Runner.RunConfig | harness/runner.py:136-146 | the model loop appends the results of every model's runs, or stops at the first that raises |
| Runner.RunModel | harness/runner.py:141-146 | the run loop appends one result per run index, or stops at the first run that raises |
| Runner.RunCell | harness/runner.py:138-142 | the loop body runs the task with a copy of the configuration set to the combination's model, giving that combination's outcome |
| Runner.Record | harness/runner.py:142-146 | each result is appended and then, with a callback, reported with the count so far |
| Runner.MulIsProduct | harness/runner.py:132-141 | repeated addition is the product |
| Runner.RunCellsLength | harness/runner.py:141 | a run loop visits exactly runs-per-combo combinations |
| Runner.ModelCellsLength | harness/runner.py:136-141 | the model loop visits models × runs combinations |
| Runner.ConfigCellsLength | harness/runner.py:133-141 | the configuration loop visits configurations × models × runs combinations |
| Runner.MatrixCellsLength | harness/runner.py:132-141 | the whole matrix visits tasks × configurations × models × runs combinations |
| Runner.MatrixSize | harness/runner.py:132-148 | the matrix visits tasks·configurations·models·runs combinations, so with `MatrixEnds` it returns that many results when nothing raises |
| Runner.RunCellsMembers | harness/runner.py:141 | a combination is visited by the run loop iff its run index is below the run count |
| Runner.ModelCellsMembers | harness/runner.py:136-141 | a combination is visited by the model loop iff its model is listed and its run index is in range |
| Runner.ConfigCellsMembers | harness/runner.py:133-141 | a combination is visited by the configuration loop iff its configuration, model and run index are |
| Runner.MatrixCellsMembers | harness/runner.py:132-141 | a combination is visited iff its task, configuration, model and run index are among those given |
| Runner.ResultsCarryTheirCell | harness/runner.py:138-142 | every returned result carries the run index, task, model and configuration name of its combination |
| Runner.TaskIds | harness/runner.py:256 | the task id of every result, in order |
| Runner.ConfigNames | harness/runner.py:257 | the configuration name of every result, in order |
| Runner.PassedPlusFailed | harness/runner.py:251-252 | passed and failed counts add up to the number of results |
| Runner.HitTurnLimitBound | harness/runner.py:247 | no more runs hit the turn limit than there are results |
| Runner.DistinctCount | harness/runner.py:256-257 | a list without repeats has as many distinct elements as entries |
| Runner.ElementsCountBounds | harness/runner.py:256-257 | the distinct count is between 1 and the length for a non-empty list |
| Runner.DistinctIdsBySorting | harness/runner.py:256-257 | the distinct count is the length of the sorted duplicate-free list |
| Runner.ExecutionSummaryConsistent | harness/runner.py:236-258 | the summary's counts are consistent: passed + failed = total, turn-limit count ≤ total, unique counts between 1 and the total |
| Isolator.LookupWitness | harness/isolator.py:185-194 | a path the snapshot lookup finds is the key of some entry with that content |
| Isolator.LookupAt | harness/isolator.py:185-194 | with distinct paths, looking up an entry's path finds that entry's content |
| Isolator.LastKeyIsNew | harness/isolator.py:184-194 | the last path of a snapshot does not occur before it |
| Isolator.TruncateRule | harness/isolator.py:244-246 | a diff within 10000 characters is kept; a longer one keeps its first 10000 characters and gains the "... (truncated)" marker |
| Isolator.DiffFiles | harness/isolator.py:150-215 | the two loops of `diff_files` record creations and modifications in the current snapshot's order, then deletions in the earlier snapshot's order |
| Isolator.CreatedAndModifiedSound | harness/isolator.py:184-203 | the first loop records only current files, each once and correctly classified: new files with content cut to 10000 characters, modified ones with their diff |
| Isolator.CreatedAndModifiedComplete | harness/isolator.py:184-203 | a current file is recorded by the first loop exactly when it is new or its content changed |
| Isolator.DeletionsSound | harness/isolator.py:206-213 | the second loop records only earlier files that are gone, each once |
| Isolator.DeletionsComplete | harness/isolator.py:206-213 | every earlier file that is gone is recorded as deleted |
| Isolator.DeletionsCover | harness/isolator.py:206-213 | the second loop records a path exactly when it was in the earlier snapshot and is missing from the current one |
| Isolator.FileChangesCorrect | harness/isolator.py:184-215 | every record agrees with the snapshots, no path is recorded twice, and deletions come after all creations and modifications |
| Isolator.FileChangesCover | harness/isolator.py:184-215 | a path is recorded exactly when it is new, modified or gone |
| Isolator.Marked | harness/isolator.py:413-414 | one marked line per content line |
| Isolator.ChangeBlockShape | harness/isolator.py:407-428 | a creation opens with "--- /dev/null" and "+++ b/path", a deletion with "--- a/path" and "+++ /dev/null"; a modification without a diff adds nothing; every block ends with an empty line |
| Isolator.ChangeBlockBody | harness/isolator.py:412-423 | a creation's body is its content's lines marked "+", a deletion's the old content's lines marked "-" |
| Isolator.AppendMarked | harness/isolator.py:413-414 | the marking loop appends exactly the marked lines |
| Isolator.AppendBlock | harness/isolator.py:407-428 | one iteration appends exactly the block of its change |
| Isolator.CombinedDiff | harness/isolator.py:391-430 | the combined diff is the blocks of all changes, in order, joined by newlines |
| Isolator.KeepMember | harness/isolator.py:380-385 | an archive member is kept iff no exclusion pattern occurs in its name as a substring |
| Isolator.StarPatternNeedsStar | harness/isolator.py:376-383 | a pattern containing `*` never matches a name without one |
| Isolator.DefaultGlobsInert | harness/isolator.py:370-385 | among the default exclusions, `*.pyc` and `*.pyo` drop nothing whose name has no `*` |
| Isolator.IsolatedEnv.constructor | harness/isolator.py:17-22 | a new environment is not cleaned up, its root exists and nothing has been removed |
| Isolator.IsolatedEnv.Cleanup | harness/isolator.py:24-28 | cleanup removes the root once, and only when it is not cleaned up and the root exists; otherwise nothing changes |
| Isolator.IsolatedEnv.Exit | harness/isolator.py:33-34 | leaving the context is exactly cleanup: it removes the root once when not cleaned up and the root exists, and otherwise changes nothing; the root is gone afterwards |
| Isolator.CleanupIsIdempotent | harness/isolator.py:24-28 | cleaning up twice removes the root exactly once |
| ConfigImporter.SanitizeForCi | harness/config_importer.py:52-87 | the copy, override and pop steps compute the sanitised settings |
| ConfigImporter.SanitizedContents | harness/config_importer.py:66-87 | analytics and telemetry are off; with MCP disabled both server entries are empty, otherwise as given; the local paths are gone; every other key keeps its value |
| ConfigImporter.SanitizedKeys | harness/config_importer.py:67-85 | the keys are the input's plus the overrides, less the local paths |
| ConfigImporter.SanitizedIdempotent | harness/config_importer.py:52-87 | sanitising sanitised settings changes nothing |
| ConfigImporter.SetupCiEnvironment | harness/config_importer.py:13-50 | the Claude home holds CLAUDE.md when set, the sanitised settings, the MCP servers (none when disabled) and the skills; HOME is the temp dir and CLAUDE_HOME its `.claude`, both as pathlib renders them |
| Paths.RenderIsNormal | harness/graders/code_graders.py:477 | a path built from a root and clean pieces reads back as itself |
| Paths.NormalizeIdempotent | harness/config_importer.py:48 | rendering a path twice changes nothing |
| Paths.JoinPathIsNormal | harness/graders/code_graders.py:477 | `env_path / file` is a path pathlib leaves as it is |
| Paths.JoinDropsDotSegment | harness/graders/code_graders.py:477 | `base / "a/./b"` is `base / "a/b"` |
| Paths.JoinCollapsesSeparators | harness/graders/code_graders.py:477 | `base / "a//b"` is `base / "a/b"` |
| Paths.JoinDropsTrailingSeparator | harness/graders/code_graders.py:477 | `base / "a/"` is `base / "a"` |
| Executor.BuildCommand | harness/executor.py:119-153 | the appending code builds the command line |
| Executor.CommandLineRoundTrip | harness/executor.py:119-153 | the command reads back as executable, prompt, model and turn limit, followed by exactly the intended flags: skip-permissions iff asked, no-session-persistence iff CI mode, MCP config only in CI mode with a path, tools iff not "all", system prompt iff CLAUDE.md is set |
| Executor.ParseCommandOfBase | harness/executor.py:121-131 | the fixed head of nine words reads back as executable, prompt, model and turn limit |
| Executor.ParseOptionalFlags | harness/executor.py:133-151 | the optional flags read back as the intended ones |
| Executor.ParseFlagsSkip | harness/executor.py:134-135 | the permissions flag reads back as asked |
| Executor.ParseFlagsCi | harness/executor.py:138-143 | the CI flags read back: no session persistence in CI mode, and the MCP config only then |
| Executor.ParseFlagsTools | harness/executor.py:146-147 | the allowed tools read back comma-joined, and only when they are not "all" |
| Executor.ParseFlagsPrompt | harness/executor.py:150-151 | the system prompt reads back exactly when CLAUDE.md is set |
| Executor.FlagOrder | harness/executor.py:133-151 | with every option on, the flags come in the order permissions, CI, tools, system prompt |
| Executor.ExtractToolCalls | harness/executor.py:202-220 | one tool call per raw entry, in order, with its input (empty when missing); an unnamed one is called "unknown"; the first timestamp `fromisoformat` rejects raises its error, and only then |
| Executor.ParseOutput | harness/executor.py:155-200 | decoded output fills the trace with every missing field at its default (stdout as result, no error, zero tokens, as many turns as tool calls) and the rest at the trace defaults; non-JSON gives stdout or stderr, an error iff stderr is non-empty; JSON of another shape, or a bad timestamp, raises |
| Executor.BlankOutputDefaults | harness/executor.py:161-181 | blank stdout is read as `{}`: the stdout itself as result, no error, no turns, no tokens, no session |
| Executor.Run | harness/executor.py:64-117 | a timeout gives the timed-out trace; a failure to run, or an exception from parsing, gives "Execution failed: " with its message; otherwise the parsed trace; the duration is always kept |
| Statistics.SquaredDeviations | harness/statistics.py:548 | the sum of squared deviations is never negative |
| Statistics.SampleVariance | harness/statistics.py:548 | the sample variance (ddof=1, 0 for one score) is never negative |
| Statistics.SampleVarianceDdof1 | harness/statistics.py:548 | for two or more values the variance is the sum of squared deviations from the mean over n − 1 (one delta degree of freedom); for fewer it is 0 |
| Statistics.PooledVariance | harness/statistics.py:226-229 | the pooled variance is never negative |
| Statistics.MinOf | harness/statistics.py:554 | the minimum is one of the scores and at most each of them |
| Statistics.MaxOf | harness/statistics.py:555 | the maximum is one of the scores and at least each of them |
| Statistics.Scores | harness/statistics.py:546 | the overall score of every result, in order |
| Statistics.ConstantSample | harness/statistics.py:546-548 | a constant sample sums to n·c and has no spread |
| Statistics.CombAboveN | harness/statistics.py:517-518 | C(n, k) is 0 for k > n |
| Statistics.CombPositive | harness/statistics.py:518-520 | C(n, k) ≥ 1 for k ≤ n, so the zero-denominator guard never fires there |
| Statistics.CombOfOne | harness/statistics.py:517-518 | C(n, 1) = n |
| Statistics.CombMonotone | harness/statistics.py:517-518 | C(m, k) ≤ C(n, k) for m ≤ n |
| Statistics.CombAbsorb | harness/statistics.py:517-518 | the absorption identity k·C(m, k) = m·C(m − 1, k − 1) |
| Statistics.CombStep | harness/statistics.py:517-518 | (k + 1)·C(m, k + 1) = (m − k)·C(m, k) |
| Statistics.CountPassed | harness/statistics.py:497 | the number of passing results is at most the number of results |
| Statistics.PassEstimate | harness/statistics.py:496-524 | pass@k lies in [0, 1]; it is 0 with no runs or no passes, 1 when all pass, and c/n when k is out of range |
| Statistics.PassAtOne | harness/statistics.py:514-521 | pass@1 is the plain pass rate c/n |
| Statistics.PassAtKSaturates | harness/statistics.py:514-521 | when k exceeds the number of failures, pass@k is 1 |
| Statistics.ComplementRatio | harness/statistics.py:521 | 1 − f/n = c/n when f + c = n |
| Statistics.RatioCompare | harness/statistics.py:521 | cross-multiplication orders two ratios |
| Statistics.PassEstimateFormula | harness/statistics.py:514-521 | between the guards, pass@k is 1 − C(n − c, k)/C(n, k) |
| Statistics.PassAtKIncreasing | harness/statistics.py:479-524 | pass@k never decreases as k grows, and strictly increases while k ≤ n − c with some passes and some failures |
| Statistics.CalculateStability | harness/statistics.py:527-564 | no results give all zeros; otherwise the variance is the n − 1 sample variance (0 for one result), std dev = sqrt(variance), min and max are scores bounding all others, range = max − min, CV = std/mean for a positive mean and 0 otherwise |
| Statistics.StabilityOfConstantScores | harness/statistics.py:546-564 | identical scores have zero variance, deviation, range and variation |
| Statistics.CancelCount | harness/statistics.py:547 | the mean of n copies of c is c |
| Statistics.EffectMagnitudeMonotone | harness/statistics.py:235-243 | a larger effect never falls in a smaller Cohen's d bucket |
| Statistics.NpMean | harness/statistics.py:200 | `np.mean` has a value exactly for a non-empty sample (NaN otherwise) |
| Statistics.OptDelta | harness/statistics.py:201 | the difference of means exists exactly when both means do |
| Statistics.CompareConfigs | harness/statistics.py:177-275 | counts and means of both groups; fewer than 2 runs on a side gives p = 1, not significant, negligible, zero change and the insufficient-samples text; otherwise the test's p-value, significance iff p < alpha, Cohen's d over sqrt of the pooled variance, its bucket, the relative change and the recommendation |
| Statistics.EffectSize | harness/statistics.py:230-233 | Cohen's d is non-negative, is \|delta\|/pooled std for a positive pooled std, and 0 otherwise |
| Statistics.RelativeChangeIsPercent | harness/statistics.py:249 | the relative change is delta as a percentage of a positive baseline mean, and 0 without one |
| Statistics.InsufficientIsDistinct | harness/statistics.py:217 | no recommendation text equals the insufficient-samples text |
| Statistics.InsufficientNamesNoVerdict | harness/statistics.py:217 | the insufficient-samples text reads back as no verdict |
| Statistics.Classify | harness/statistics.py:432-476 | too few samples iff fewer than 5; no difference iff not significant (suggesting more data iff fewer than 10); otherwise a significant change whose direction is the sign of delta, with the given magnitude |
| Statistics.PrefixOfConcat | harness/statistics.py:435-476 | a text starts with its own opening |
| Statistics.NotPrefixAt | harness/statistics.py:435-476 | a text differing from a prefix at some position does not start with it |
| Statistics.NotPrefixOfConcat | harness/statistics.py:435-476 | that stays so whatever follows |
| Statistics.SuffixOfConcat | harness/statistics.py:435-476 | a text ends with its own closing |
| Statistics.LastCharsDiffer | harness/statistics.py:435-476 | texts whose second-to-last characters differ do not share that ending |
| Statistics.RecommendationRoundTrip | harness/statistics.py:423-476 | every recommendation text reads back as the verdict it was made from |
| Statistics.TooFewRoundTrip | harness/statistics.py:434-438 | the too-small text reads back as too few samples |
| Statistics.NoDifferenceRoundTrip | harness/statistics.py:440-449 | the two no-difference texts read back, distinguished by their advice |
| Statistics.SignificantRoundTrip | harness/statistics.py:451-476 | every significant-change text reads back with its direction and magnitude |
| Statistics.DirectionRoundTrip | harness/statistics.py:451-476 | a lead and a direction word are read back whatever follows |
| Statistics.DirectionsDiffer | harness/statistics.py:451 | "regression" is never read as "improvement" |
| Statistics.LeadSelects | harness/statistics.py:453-476 | the opening words select the magnitude |
| Statistics.IsRegression | harness/statistics.py:567-594 | the comparison is `compare_configs` at alpha 0.05; a regression iff the mean drops by more than the threshold and, when required, significantly |
| Statistics.SmallSamplesNeverRegress | harness/statistics.py:204-218 | with significance required, fewer than two runs on either side is never a regression |
| Statistics.DeviationPositive | harness/statistics.py:548 | a score away from the mean makes the squared deviations positive |
| Statistics.VarianceOfDifferentScores | harness/statistics.py:548 | two different scores give a positive sample variance |
| Statistics.TokensOf | harness/statistics.py:297-298 | the total tokens of every result, in order |
| Statistics.DurationsOf | harness/statistics.py:300-301 | the duration of every result, in order |
| Statistics.CostsOf | harness/statistics.py:303-310 | the cost of every result's usage, in order |
| Statistics.MeanOrZero | harness/statistics.py:313-318 | the mean of a non-empty sample, 0 for an empty one |
| Statistics.CompareEfficiency | harness/statistics.py:277-376 | the means of tokens, duration and cost on both sides, B − A deltas, each percentage the relative change of its A mean (see RelativeChangeIsPercent), p-values only with two runs per side, and the recommendation from the percentages |
| Statistics.EfficiencyNotes | harness/statistics.py:392-418 | a token note iff tokens moved by more than 10%, a duration note iff duration did, each with its direction and significance; "more efficient overall" iff both fell by more than 10%, "less efficient overall" iff both rose; notes in fixed order |
| Statistics.NoteTexts | harness/statistics.py:399-418 | one sentence per note, in order |
| Statistics.EfficiencyQuietIff | harness/statistics.py:387-420 | with two runs per side, the text is "no difference" exactly when neither tokens nor duration moved by more than 10% |
| Statistics.JoinStartsWithFirst | harness/statistics.py:420 | the joined text starts with its first sentence |
| Statistics.NoteNotQuiet | harness/statistics.py:408-409 | a text opening with a note is not the no-difference text |
| Statistics.NoteTextsSnoc | harness/statistics.py:392-418 | appending a note appends its sentence |
| Statistics.ChangeSentences | harness/statistics.py:392-406 | the appending code collects the token and duration sentences |
| Statistics.GenerateEfficiencyRecommendation | harness/statistics.py:378-420 | the appending code produces the efficiency recommendation, including the insufficient-samples and no-difference texts |
| Statistics.Ceil | harness/statistics.py:163 | the ceiling is the least integer at least x |
| Statistics.SampleSizeFor | harness/statistics.py:163-164 | the sample size is at least 5, reaches num/den, and is the least such whole number above 5 |
| Statistics.AltRate | harness/statistics.py:135-140 | the alternative rate is baseline + effect, pulled back to 0.99 or 0.01 outside (0, 1) |
| Statistics.MinimumSampleSize | harness/statistics.py:104-175 | an invalid baseline or a zero effect gives 30 with its note; otherwise the ceiling of the two-proportion formula, at least 5, with the power/effect note; the inputs are echoed |
| Statistics.SmallerEffectNeedsMoreSamples | harness/statistics.py:104-175 | at a 70% baseline, detecting a 5-point change needs more runs than a 20-point change |
| Statistics.FivePointNumerator | harness/statistics.py:150-157 | the formula's numerator for 70% → 75% is at least 0.3969·(zα + zβ)² |
| Statistics.TwentyPointNumerator | harness/statistics.py:150-157 | the formula's numerator for 70% → 90% is at most 0.320356·(zα + zβ)² |
| Statistics.NumeratorAt | harness/statistics.py:143-157 | the numerator is (zα·√(2p̄(1 − p̄)) + zβ·√(p₁(1 − p₁) + p₂(1 − p₂)))² |
| Validator.PositiveIsStrict | examples/getting-started/fixtures/python-utils/src/validator.py:13 | zero is not positive; of a non-zero number and its negation exactly one is positive |
| Validator.RangeIsInclusive | examples/getting-started/fixtures/python-utils/src/validator.py:27 | both bounds are in range; an empty range holds nothing |
| Validator.AllWordCharsIff | examples/getting-started/fixtures/python-utils/src/validator.py:50 | the scan accepts exactly the strings made of alphanumerics and underscores |
| Validator.UsernameRule | examples/getting-started/fixtures/python-utils/src/validator.py:44-50 | a username is valid iff it has 3 to 20 characters, starts with an `isalpha` character, and holds only `isalnum` characters and underscores |
| Validator.UsernameRejects | examples/getting-started/fixtures/python-utils/src/validator.py:50 | one character that is neither `isalnum` nor an underscore makes a username invalid |
| Validator.FirstCharMustBeLetter | examples/getting-started/fixtures/python-utils/src/validator.py:44-48 | an empty name, or one whose first character is not `isalpha`, is invalid |
| Validator.AsciiUsernameRule | examples/getting-started/fixtures/python-utils/src/validator.py:44-50 | on ASCII names, with Python's classes, valid iff 3 to 20 characters, a-z or A-Z first, then only a-z, A-Z, 0-9 and underscores |
| Validator.NonAsciiLetterAccepted | examples/getting-started/fixtures/python-utils/src/validator.py:44-50 | a non-ASCII character that `isalpha` accepts may start and fill a valid username |
| Validator.UsernameExamples | examples/getting-started/fixtures/python-utils/src/validator.py:30-50 | with Python's classes on ASCII, "john_doe" and "user123" are valid; "ab", "123user", "user@name" and a 21-letter name are not |

## Left out

- Floating point: scores, rates and means are exact reals, not IEEE doubles.
- Percent and fixed-point formatting (`:.0%`, `:.1f`, `:.2f`, `:.3f`) rounds exact reals half to even. It does not reproduce the binary representation of the double being printed.
- Ruff's JSON output is an input: the model sees only the decoded list of violation codes, or the absence of a decode, in place of `json.loads`. A violation without a `"code"` field counts as the rule "unknown". A `"code"` that is present but null is not told apart from a missing one. In the source it becomes `None`, and sorting `None` together with string rules raises.
- An `OSError` other than `FileNotFoundError` raised while running ruff is not caught by the source. The model returns it as the `Raised` outcome rather than as a grade. A `UnicodeDecodeError` is handled the same way, both while reading a file in the file checks and while reading a subprocess's output as text in tests-pass, ruff, mypy and command-succeeds.
- CodeGraders.DigitRun: the pytest counts are read with ASCII digits only. Python's `\d` and `int()` also accept other Unicode decimal digits.
- A task with no assertions passes, because `all(...)` over the empty list of code grades is true (harness/graders/composite_grader.py:97-99).
- Python's Unicode character tables behind `str.isalpha` and `str.isalnum` are inputs to the username rule. The model relies only on what `Validator.PythonClasses` states about them.
- Numerical routines are inputs: the Mann-Whitney U statistic and p-value, `sqrt`, and the normal quantiles from `norm.ppf` used by the power analysis. The model does not re-derive them.
- CostMetrics, ToolCallPattern and ReadabilityMetrics are not part of this model. The cost of a token usage is the parameter `costOf`.
- The grade dispatch's fallback for an unknown check name cannot occur. The check kinds form a closed datatype.
- Clocks and timestamps: run durations and start times are inputs. Whether `datetime.fromisoformat` accepts a tool call's timestamp is an input too, and an accepted timestamp is kept as its text.
- The JSON decoders are inputs. For the judge's reply and the agent CLI's output, a decode of a shape the parser cannot read is the `Uncaught` outcome with the exception's message; the model does not derive which shapes raise. The trace's `raw_output` copy of the decoded JSON is not kept.
- Docker: container management and the container executor are not part of this model, and they read Docker state and user ids.
- The command-line entry point, the Rich console printing and the JSON export of the reporter are rendering only, and are left out.
- The Anthropic client call, the rest of the judge prompt's text, and `_read_modified_files` are left out. Reading modified files depends on file modification times. The judge's reply is an input.
- The file system is left out: the globbing that builds a file snapshot, `difflib`, `tarfile`, `shutil.copytree`, and the agent subprocess itself. A snapshot is a list of (path, content) pairs, a unified diff is the output of a `Differ` parameter, and a subprocess is its outcome.
- Loading and saving tasks, configurations and results as YAML or JSON is I/O only. So are the configuration exporter and the scaffolding templates. Copying `os.environ` and the file writes of `_restore_skills` are left out too.
- Paths: only POSIX paths are modelled. A `..` piece is kept, as pathlib keeps it; resolving it, and following symbolic links, is the file system's work.
- Isolator.IsolatedEnv.Cleanup: removing the temporary tree (`shutil.rmtree`) is modelled as a removal counter and a flag saying whether the root still exists. It does not model the files under the root.
- Models.TotalTokensExcludesCache: the property follows from the definition alone, without proof steps.
- Statistics.CompareEfficiency: its percentages are stated through `RelativeChange`, whose meaning is proved once in `Statistics.RelativeChangeIsPercent`.
