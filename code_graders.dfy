/**
 * The objective code graders: the grade-result builder, the dispatch over
 * check kinds with its parameter validation, tests-pass partial credit read
 * from the "N passed / N failed / N error" summary, the ruff and mypy
 * penalties, and the binary file and command checks.
 *
 * Every subprocess run, file probe, regex search on a user pattern and JSON
 * decode is an injected outcome: the graders are functions of what those
 * calls returned or raised.
 */
module CodeGraders {
  import opened Wrappers
  import opened Text
  import opened Sorting
  import opened Models
  import Paths

  /** What `subprocess.run` returned, or which exception it raised. */
  datatype RunOutcome =
    | Finished(returnCode: int, stdout: string, stderr: string)
    | TimedOut
    | ToolMissing(message: string)        // FileNotFoundError
    | SubprocessFailed(message: string)   // any other SubprocessError
    | OsFailed(message: string)           // any other OSError
    | Undecoded(message: string)          // UnicodeDecodeError reading the output as text, which no grader catches

  /** `Path.exists` followed by `read_text`. */
  datatype FileRead =
    | Absent
    | Text(content: string)
    | ReadFailed(message: string)         // OSError while reading
    | Undecodable(message: string)        // UnicodeDecodeError, which no grader catches

  /** `re.search(pattern, content)` on a user-supplied pattern. */
  datatype SearchOutcome = Found | NoMatch | BadPattern(message: string)

  /** A grade, or an exception that escapes a code check. */
  datatype Outcome = Graded(grade: GradeResult) | Raised(message: string)

  /**
   * The evaluation environment seen from the graders: shell commands and
   * argument vectors run in it (with their timeout in seconds), its files by
   * path, the regex engine, and the JSON decoder applied to ruff's output
   * (a list of violations, each with its optional "code").
   */
  datatype Environment = Environment(
    shell: (string, nat) -> RunOutcome,
    exec: (seq<string>, nat) -> RunOutcome,
    probe: string -> FileRead,
    search: (string, string) -> SearchOutcome,
    decodeViolations: string -> Option<seq<Option<string>>>)

  /** `CodeGrader._create_grade_result`. */
  function CreateGradeResult(name: string, passed: bool, score: real, details: string, fullOutput: string): (r: GradeResult)
    ensures r.assertionId == name && r.assertionName == name && r.assertionType == "code"
    ensures r.passed == passed && r.score == score && r.details == details && r.fullOutput == fullOutput
    ensures r.reasoning == "" && r.gradingPrompt == "" && r.criteriaScores == []
  {
    GradeResult(name, "code", name, passed, score, details, "", fullOutput, "", [])
  }

  /** A failed grade: passed false and score 0. */
  function Failure(name: string, details: string, fullOutput: string): (r: GradeResult)
    ensures !r.passed && r.score == 0.0 && r.assertionId == name
  {
    CreateGradeResult(name, false, 0.0, details, fullOutput)
  }

  /** Score 1.0 for a pass and 0.0 for a failure. */
  function Binary(passed: bool): real
  {
    if passed then 1.0 else 0.0
  }

  function Max(a: real, b: real): real
  {
    if a >= b then a else b
  }

  /** `f"{stdout}\n{stderr}".strip()`. */
  function Combined(stdout: string, stderr: string): string
  {
    Strip(stdout + "\n" + stderr)
  }

  // ---------------------------------------------------------------------
  // Reading "<digits><whitespace><word>" out of pytest's output
  // ---------------------------------------------------------------------

  /** The length of the run of ASCII digits starting at `i`. */
  function DigitRun(s: string, i: nat): (n: nat)
    requires i <= |s|
    ensures i + n <= |s| && (i + n == |s| || !IsDigit(s[i + n]))
    decreases |s| - i
  {
    if i < |s| && IsDigit(s[i]) then 1 + DigitRun(s, i + 1) else 0
  }

  lemma {:induction false} DigitRunIsDigits(s: string, i: nat)
    requires i <= |s|
    ensures forall k :: i <= k < i + DigitRun(s, i) ==> IsDigit(s[k])
    decreases |s| - i
  {
    if i < |s| && IsDigit(s[i]) {
      DigitRunIsDigits(s, i + 1);
    }
  }

  /** The length of the run of whitespace starting at `i`. */
  function SpaceRun(s: string, i: nat): (n: nat)
    requires i <= |s|
    ensures i + n <= |s| && (i + n == |s| || !IsSpace(s[i + n]))
    decreases |s| - i
  {
    if i < |s| && IsSpace(s[i]) then 1 + SpaceRun(s, i + 1) else 0
  }

  lemma {:induction false} SpaceRunIsSpaces(s: string, i: nat)
    requires i <= |s|
    ensures forall k :: i <= k < i + SpaceRun(s, i) ==> IsSpace(s[k])
    decreases |s| - i
  {
    if i < |s| && IsSpace(s[i]) {
      SpaceRunIsSpaces(s, i + 1);
    }
  }

  /**
   * `(\d+)\s+word` matches at `i`. Both runs are taken whole: a shorter digit
   * run would leave a digit where whitespace is needed, and a shorter
   * whitespace run would leave whitespace where the word must start.
   */
  predicate CountAt(s: string, word: string, i: nat)
  {
    i <= |s| && DigitRun(s, i) > 0 && SpaceRun(s, i + DigitRun(s, i)) > 0
    && StartsWith(s[i + DigitRun(s, i) + SpaceRun(s, i + DigitRun(s, i))..], word)
  }

  /** A split of `s` from `i` into a digit run, a whitespace run and `word`. */
  predicate SplitMatch(s: string, word: string, i: nat, d: nat, w: nat)
  {
    && d > 0 && w > 0 && i + d + w + |word| <= |s|
    && (forall k :: i <= k < i + d ==> IsDigit(s[k]))
    && (forall k :: i + d <= k < i + d + w ==> IsSpace(s[k]))
    && s[i + d + w..i + d + w + |word|] == word
  }

  /** A word that starts with neither a digit nor whitespace, like "passed". */
  predicate Plain(word: string)
  {
    word != [] && !IsDigit(word[0]) && !IsSpace(word[0])
  }

  /** The greedy reading agrees with the regex's: some split of the text matches. */
  lemma CountAtIffSplit(s: string, word: string, i: nat)
    requires i <= |s| && Plain(word)
    ensures CountAt(s, word, i) <==> exists d: nat, w: nat :: SplitMatch(s, word, i, d, w)
  {
    if CountAt(s, word, i) {
      CountAtIsSplit(s, word, i);
    }
    forall d: nat, w: nat | SplitMatch(s, word, i, d, w) ensures CountAt(s, word, i) {
      SplitIsCountAt(s, word, i, d, w);
    }
  }

  lemma CountAtIsSplit(s: string, word: string, i: nat)
    requires CountAt(s, word, i)
    ensures SplitMatch(s, word, i, DigitRun(s, i), SpaceRun(s, i + DigitRun(s, i)))
  {
    var d := DigitRun(s, i);
    var w := SpaceRun(s, i + d);
    DigitRunIsDigits(s, i);
    SpaceRunIsSpaces(s, i + d);
    WordAfterSplit(s, word, i + d + w);
  }

  lemma SplitIsCountAt(s: string, word: string, i: nat, d: nat, w: nat)
    requires i <= |s| && Plain(word) && SplitMatch(s, word, i, d, w)
    ensures CountAt(s, word, i)
  {
    SplitIsGreedy(s, word, i, d, w);
    WordAfterSplit(s, word, i + d + w);
  }

  lemma WordAfterSplit(s: string, word: string, k: nat)
    requires k + |word| <= |s|
    ensures StartsWith(s[k..], word) <==> s[k..k + |word|] == word
  {
    assert s[k..][..|word|] == s[k..k + |word|];
  }

  lemma SplitIsGreedy(s: string, word: string, i: nat, d: nat, w: nat)
    requires i <= |s| && Plain(word) && SplitMatch(s, word, i, d, w)
    ensures DigitRun(s, i) == d && SpaceRun(s, i + d) == w
  {
    DigitRunIs(s, i, d);
    assert s[i + d + w] == word[0];
    SpaceRunIs(s, i + d, w);
  }

  lemma {:induction false} DigitRunIs(s: string, i: nat, d: nat)
    requires i + d < |s| && !IsDigit(s[i + d])
    requires forall k :: i <= k < i + d ==> IsDigit(s[k])
    ensures DigitRun(s, i) == d
    decreases d
  {
    if d > 0 {
      DigitRunIs(s, i + 1, d - 1);
    }
  }

  lemma {:induction false} SpaceRunIs(s: string, i: nat, w: nat)
    requires i + w < |s| && !IsSpace(s[i + w])
    requires forall k :: i <= k < i + w ==> IsSpace(s[k])
    ensures SpaceRun(s, i) == w
    decreases w
  {
    if w > 0 {
      SpaceRunIs(s, i + 1, w - 1);
    }
  }

  /** `CountAt` at a fixed text and word, as a predicate on positions. */
  function MatchesIn(s: string, word: string): nat -> bool
  {
    (j: nat) => CountAt(s, word, j)
  }

  /** The leftmost position where `(\d+)\s+word` matches, as `re.search` finds it. */
  function FirstMatch(s: string, word: string): (r: Option<nat>)
    ensures r.Some? ==> r.value < |s|
  {
    FirstWhere(MatchesIn(s, word), 0, |s|)
  }

  /** The match found is a match, and none starts earlier; without a result the pattern matches nowhere. */
  lemma FirstMatchIsLeftmost(s: string, word: string)
    ensures FirstMatch(s, word).Some? ==>
      CountAt(s, word, FirstMatch(s, word).value) && forall j :: 0 <= j < FirstMatch(s, word).value ==> !CountAt(s, word, j)
    ensures FirstMatch(s, word).None? ==> forall j :: 0 <= j < |s| ==> !CountAt(s, word, j)
  {
    var p := MatchesIn(s, word);
    FirstWhereIsLeast(p, 0, |s|);
    assert forall j: nat :: p(j) == CountAt(s, word, j);
  }

  /** `int(m.group(1)) if (m := re.search(r"(\d+)\s+" + word, s)) else 0`. */
  function CountOf(s: string, word: string): nat
  {
    match FirstMatch(s, word)
    case None => 0
    case Some(i) =>
      DigitRunIsDigits(s, i);
      ParseDigits(s[i..i + DigitRun(s, i)])
  }

  lemma {:induction false} DigitRunOfDigits(a: string, b: string, i: nat)
    requires i <= |a| && AllDigits(a) && (b == [] || !IsDigit(b[0]))
    ensures DigitRun(a + b, i) == |a| - i
    decreases |a| - i
  {
    if i < |a| {
      DigitRunOfDigits(a, b, i + 1);
    }
  }

  /** A digit run, one space and `word` at the very start match there, with the whole run read. */
  lemma PhraseMatchesAtStart(a: string, word: string, rest: string)
    requires a != [] && AllDigits(a) && Plain(word)
    ensures CountAt(a + " " + word + rest, word, 0) && DigitRun(a + " " + word + rest, 0) == |a|
  {
    var t := " " + word + rest;
    var s := a + " " + word + rest;
    assert s == a + t by {
      assert |s| == |a + t|;
      forall k | 0 <= k < |s| ensures s[k] == (a + t)[k] {}
    }
    DigitRunOfDigits(a, t, 0);
    WordAfterSpace(s, |a|, word, rest);
  }

  /** One space at `i` followed by `word + rest` is a whitespace run of one, then the word. */
  lemma WordAfterSpace(s: string, i: nat, word: string, rest: string)
    requires Plain(word) && i < |s| && s[i] == ' ' && s[i + 1..] == word + rest
    ensures SpaceRun(s, i) == 1 && StartsWith(s[i + 1..], word)
  {
    assert s[i + 1] == word[0];
    SpaceRunIs(s, i, 1);
    assert (word + rest)[..|word|] == word;
  }

  /** A digit run, one space and `word` at the very start are read as that run's value. */
  lemma CountOfDigitsPhrase(a: string, word: string, rest: string)
    requires a != [] && AllDigits(a) && Plain(word)
    ensures CountOf(a + " " + word + rest, word) == ParseDigits(a)
  {
    var s := a + " " + word + rest;
    PhraseMatchesAtStart(a, word, rest);
    assert FirstMatch(s, word) == Some(0);
    assert s[0..|a|] == a;
  }

  /**
   * pytest's summary reads back: the count in front of "<n> <word>..." is `n`,
   * whatever follows the word, so the pattern for "error" also reads "errors".
   */
  lemma CountOfPhrase(n: nat, word: string, rest: string)
    requires Plain(word)
    ensures CountOf(NatToString(n) + " " + word + rest, word) == n
  {
    CountOfDigitsPhrase(NatToString(n), word, rest);
    ParseNatToString(n);
  }

  /** "error" also counts the "N errors" wording. */
  lemma ErrorsAreCounted(n: nat)
    ensures CountOf(NatToString(n) + " errors", "error") == n
  {
    var a := NatToString(n);
    assert " errors" == " " + "error" + "s";
    assert a + " errors" == a + " " + "error" + "s";
    CountOfPhrase(n, "error", "s");
  }

  // ---------------------------------------------------------------------
  // tests_pass
  // ---------------------------------------------------------------------

  const TestsTimedOut: string := "Test command timed out"
  const TestsTimedOutOutput: string := "Test command timed out after 120 seconds"

  /** The partial-credit ratio, when pytest reported at least one test. */
  function PassRatio(passed: nat, failed: nat, errors: nat): (r: real)
    requires passed + failed + errors > 0
    ensures 0.0 <= r <= 1.0
    ensures r * (passed + failed + errors) as real == passed as real
    ensures r == 1.0 <==> failed + errors == 0
  {
    var t := (passed + failed + errors) as real;
    RatioOfCounts(passed as real, t);
    passed as real / t
  }

  lemma RatioOfCounts(p: real, t: real)
    requires 0.0 <= p <= t && t > 0.0
    ensures 0.0 <= p / t <= 1.0 && (p / t) * t == p
    ensures p / t == 1.0 <==> p == t
  {
  }

  /** `f"{p}/{t} tests passed ({score:.0%})"`, with ", {e} errors" when there were errors. */
  function TestsDetails(passed: nat, total: nat, errors: nat, score: real): string
  {
    NatToString(passed) + "/" + NatToString(total) + " tests passed (" + FormatPercent(score) + ")"
    + (if errors > 0 then ", " + NatToString(errors) + " errors" else "")
  }

  /** The grade when pytest's output names at least one test. */
  function GradeCounted(code: int, passed: nat, failed: nat, errors: nat, passThreshold: real, out: string): (r: GradeResult)
    requires passed + failed + errors > 0
    ensures r.assertionId == "tests_pass" && UnitScore(r.score) && r.fullOutput == out
    ensures r.score == PassRatio(passed, failed, errors)
    ensures r.passed <==> code == 0 || r.score >= passThreshold
  {
    var score := PassRatio(passed, failed, errors);
    CreateGradeResult("tests_pass", code == 0 || score >= passThreshold, score,
                      TestsDetails(passed, passed + failed + errors, errors, score), out)
  }

  /** The grade when no count can be read: the exit code decides. */
  function GradeUncounted(code: int, stdout: string, stderr: string, out: string): (r: GradeResult)
    ensures r.assertionId == "tests_pass" && r.fullOutput == out
    ensures (r.passed <==> code == 0) && r.score == Binary(r.passed) && |r.details| <= 2000
  {
    var passed := code == 0;
    var details := if passed then stdout else stdout + "\n" + stderr;
    CreateGradeResult("tests_pass", passed, Binary(passed), Take(details, 2000), out)
  }

  /** The number of tests pytest reports run, read from its combined output. */
  function TotalTests(out: string): nat
  {
    CountOf(out, "passed") + CountOf(out, "failed") + CountOf(out, "error")
  }

  /**
   * `grade_tests_pass`: partial credit from the counts in the combined
   * output; without counts, the exit code alone decides and the details are
   * cut to 2000 characters; run failures give a failed grade, and output
   * that is not valid text escapes as an exception.
   */
  function GradeTestsPass(run: RunOutcome, passThreshold: real): (r: Outcome)
    ensures r.Raised? <==> run.Undecoded?
    ensures r.Graded? ==> r.grade.assertionId == "tests_pass" && r.grade.assertionType == "code" && UnitScore(r.grade.score)
    ensures r.Graded? && !run.Finished? ==> !r.grade.passed && r.grade.score == 0.0
    ensures run.Finished? ==> r.Graded? && r.grade.fullOutput == Combined(run.stdout, run.stderr)
    ensures run.Finished? && TotalTests(Combined(run.stdout, run.stderr)) > 0 ==>
      && r.Graded?
      && r.grade.score == PassRatio(CountOf(Combined(run.stdout, run.stderr), "passed"),
                                    CountOf(Combined(run.stdout, run.stderr), "failed"),
                                    CountOf(Combined(run.stdout, run.stderr), "error"))
      && (r.grade.passed <==> run.returnCode == 0 || r.grade.score >= passThreshold)
    ensures run.Finished? && TotalTests(Combined(run.stdout, run.stderr)) == 0 ==>
      r.Graded? && (r.grade.passed <==> run.returnCode == 0) && r.grade.score == Binary(r.grade.passed) && |r.grade.details| <= 2000
  {
    match run
    case Finished(code, stdout, stderr) =>
      var out := Combined(stdout, stderr);
      var p := CountOf(out, "passed");
      var f := CountOf(out, "failed");
      var e := CountOf(out, "error");
      if p + f + e > 0 then Graded(GradeCounted(code, p, f, e, passThreshold, out))
      else Graded(GradeUncounted(code, stdout, stderr, out))
    case TimedOut => Graded(Failure("tests_pass", TestsTimedOut, TestsTimedOutOutput))
    case SubprocessFailed(m) => Graded(Failure("tests_pass", "Subprocess error running tests: " + m, m))
    case ToolMissing(m) => Graded(Failure("tests_pass", "OS error running tests: " + m, m))
    case OsFailed(m) => Graded(Failure("tests_pass", "OS error running tests: " + m, m))
    case Undecoded(m) => Raised(m)
  }

  /** A run whose every test passed gets full credit and passes, whatever the exit code. */
  lemma AllTestsPassedGetsFullCredit(code: int, stdout: string, stderr: string, passThreshold: real)
    requires passThreshold <= 1.0
    requires var out := Combined(stdout, stderr); CountOf(out, "passed") > 0 && CountOf(out, "failed") == 0 && CountOf(out, "error") == 0
    ensures GradeTestsPass(Finished(code, stdout, stderr), passThreshold).grade.score == 1.0
    ensures GradeTestsPass(Finished(code, stdout, stderr), passThreshold).grade.passed
  {
  }

  // ---------------------------------------------------------------------
  // ruff_clean
  // ---------------------------------------------------------------------

  /** `["ruff", "check", "--output-format", "json", ("--config", path)?, "."]`. */
  function RuffCommand(configPath: Option<string>): (cmd: seq<string>)
    ensures 5 <= |cmd| && cmd[..4] == ["ruff", "check", "--output-format", "json"] && cmd[|cmd| - 1] == "."
    ensures Truthy(configPath) <==> "--config" in cmd
    ensures Truthy(configPath) ==> |cmd| == 7 && cmd[4..6] == ["--config", configPath.value]
  {
    ["ruff", "check", "--output-format", "json"]
    + (if Truthy(configPath) then ["--config", configPath.value] else [])
    + ["."]
  }

  /** The rule of each violation, "unknown" when it carries no "code". */
  function RuleCodes(violations: seq<Option<string>>): (codes: seq<string>)
    ensures |codes| == |violations|
    ensures forall i :: 0 <= i < |codes| ==> codes[i] == violations[i].GetOr("unknown")
  {
    if violations == [] then []
    else RuleCodes(violations[..|violations| - 1]) + [violations[|violations| - 1].GetOr("unknown")]
  }

  /** The `rule_counts` dictionary after counting `codes`. */
  function RuleCounts(codes: seq<string>): map<string, nat>
  {
    if codes == [] then map[]
    else
      var m := RuleCounts(codes[..|codes| - 1]);
      var c := codes[|codes| - 1];
      m[c := (if c in m then m[c] else 0) + 1]
  }

  /** The counts hold one key per distinct rule, mapped to its number of occurrences. */
  lemma {:induction false} RuleCountsAreOccurrences(codes: seq<string>)
    ensures forall c :: c in RuleCounts(codes) <==> c in codes
    ensures forall c :: c in RuleCounts(codes) ==> RuleCounts(codes)[c] == multiset(codes)[c]
  {
    if codes != [] {
      var init := codes[..|codes| - 1];
      RuleCountsAreOccurrences(init);
      assert codes == init + [codes[|codes| - 1]];
      assert multiset(codes) == multiset(init) + multiset{codes[|codes| - 1]};
    }
  }

  /** The counting loop over the first twenty violations. */
  method CountRules(codes: seq<string>) returns (counts: map<string, nat>)
    ensures counts == RuleCounts(codes)
  {
    counts := map[];
    var i := 0;
    while i < |codes|
      invariant 0 <= i <= |codes|
      invariant counts == RuleCounts(codes[..i])
    {
      assert codes[..i + 1][..i] == codes[..i];
      var c := codes[i];
      counts := counts[c := (if c in counts then counts[c] else 0) + 1];
      i := i + 1;
    }
    assert codes[..i] == codes;
  }

  /** `[f"{rule}: {count}" for rule, count in sorted(rule_counts.items())]`. */
  function SummaryParts(rules: seq<string>, counts: map<string, nat>): (parts: seq<string>)
    requires forall i :: 0 <= i < |rules| ==> rules[i] in counts
    ensures |parts| == |rules|
    ensures forall i :: 0 <= i < |rules| ==> parts[i] == rules[i] + ": " + NatToString(counts[rules[i]])
  {
    if rules == [] then []
    else SummaryParts(rules[..|rules| - 1], counts) + [rules[|rules| - 1] + ": " + NatToString(counts[rules[|rules| - 1]])]
  }

  /** The rules of the first twenty violations, sorted and without repeats. */
  function SortedRules(codes: seq<string>): (rules: seq<string>)
    ensures forall i :: 0 <= i < |rules| ==> rules[i] in RuleCounts(codes)
  {
    var rules := SortUnique(codes, StrLess);
    StrLessIsStrictTotalOrder();
    SortUniqueCorrect(codes, StrLess);
    RuleCountsAreOccurrences(codes);
    assert forall i :: 0 <= i < |rules| ==> rules[i] in Elements(codes);
    rules
  }

  /** The rule summary: strictly sorted rules, exactly those seen, each with its count. */
  lemma RuffSummaryCorrect(codes: seq<string>)
    ensures StrictlySorted(SortedRules(codes), StrLess)
    ensures forall c :: c in SortedRules(codes) <==> c in codes
    ensures forall i :: 0 <= i < |SortedRules(codes)| ==>
      SummaryParts(SortedRules(codes), RuleCounts(codes))[i]
      == SortedRules(codes)[i] + ": " + NatToString(multiset(codes)[SortedRules(codes)[i]])
  {
    StrLessIsStrictTotalOrder();
    SortUniqueCorrect(codes, StrLess);
    RuleCountsAreOccurrences(codes);
    assert forall c :: c in SortedRules(codes) <==> c in Elements(SortedRules(codes));
    assert forall c :: c in codes <==> c in Elements(codes);
  }

  /** `f"{n} violations: {', '.join(parts[:5])}"`, plus " (+k more rules)" past five. */
  function RuffDetails(n: nat, parts: seq<string>): string
  {
    NatToString(n) + " violations: " + Join(Take(parts, 5), ", ")
    + (if |parts| > 5 then " (+" + NatToString(|parts| - 5) + " more rules)" else "")
  }

  /** The ruff score: 0.1 off per violation, never below 0. */
  function RuffScore(n: nat): real
  {
    Max(0.0, 1.0 - n as real * 0.1)
  }

  /** The violations `json.loads` gives for ruff's stdout; empty output and undecodable output give none. */
  function Violations(stdout: string, decode: string -> Option<seq<Option<string>>>): seq<Option<string>>
  {
    if stdout == "" then [] else decode(stdout).GetOr([])
  }

  /** What `grade_ruff_clean` returns or raises for a run of ruff. */
  function RuffGrade(run: RunOutcome, decode: string -> Option<seq<Option<string>>>): (r: Outcome)
    ensures r.Graded? ==> r.grade.assertionId == "ruff_clean" && UnitScore(r.grade.score)
    ensures r.Raised? <==> run.OsFailed? || run.Undecoded?
    ensures !run.Finished? && r.Graded? ==> !r.grade.passed && r.grade.score == 0.0
  {
    match run
    case Finished(_, stdout, stderr) =>
      var full := if stdout != "" then stdout else stderr;
      var vs := Violations(stdout, decode);
      var n := |vs|;
      if n == 0 then Graded(CreateGradeResult("ruff_clean", true, 1.0, "No linting violations", full))
      else
        var codes := RuleCodes(Take(vs, 20));
        var score := RuffScore(n);
        Graded(CreateGradeResult("ruff_clean", score >= 0.7, score,
                                 RuffDetails(n, SummaryParts(SortedRules(codes), RuleCounts(codes))), full))
    case ToolMissing(_) => Graded(Failure("ruff_clean", "ruff not found - install with: pip install ruff", "ruff command not found"))
    case TimedOut => Graded(Failure("ruff_clean", "ruff command timed out", "ruff command timed out after 60 seconds"))
    case SubprocessFailed(m) => Graded(Failure("ruff_clean", "Subprocess error running ruff: " + m, m))
    case OsFailed(m) => Raised(m)
    case Undecoded(m) => Raised(m)
  }

  /** `grade_ruff_clean`, counting rules with the dictionary loop. */
  method GradeRuffClean(run: RunOutcome, decode: string -> Option<seq<Option<string>>>) returns (r: Outcome)
    ensures r == RuffGrade(run, decode)
  {
    match run {
      case Finished(_, stdout, stderr) =>
        var full := if stdout != "" then stdout else stderr;
        var vs := Violations(stdout, decode);
        if |vs| == 0 {
          r := Graded(CreateGradeResult("ruff_clean", true, 1.0, "No linting violations", full));
        } else {
          var codes := RuleCodes(Take(vs, 20));
          var counts := CountRules(codes);
          var score := RuffScore(|vs|);
          var details := RuffDetails(|vs|, SummaryParts(SortedRules(codes), counts));
          r := Graded(CreateGradeResult("ruff_clean", score >= 0.7, score, details, full));
        }
      case _ =>
        r := RuffGrade(run, decode);
    }
  }

  /** With exact arithmetic, ruff passes iff there are at most three violations. */
  lemma RuffPassesIffAtMostThree(code: int, stdout: string, stderr: string, decode: string -> Option<seq<Option<string>>>)
    ensures var r := RuffGrade(Finished(code, stdout, stderr), decode);
      r.Graded? && (r.grade.passed <==> |Violations(stdout, decode)| <= 3)
    ensures var r := RuffGrade(Finished(code, stdout, stderr), decode);
      var n := |Violations(stdout, decode)|;
      r.grade.score == (if n >= 10 then 0.0 else 1.0 - n as real / 10.0)
  {
  }

  /** `f"{rule}: {count}"` for each of `rules`, with its number of occurrences in `codes`. */
  function RuleTallies(rules: seq<string>, codes: seq<string>): (r: seq<string>)
    ensures |r| == |rules|
  {
    seq(|rules|, i requires 0 <= i < |rules| => rules[i] + ": " + NatToString(multiset(codes)[rules[i]]))
  }

  /**
   * The rules a ruff summary draws on: one code per violation among the first
   * twenty ("unknown" for a missing code), sorted without repeats.
   */
  lemma RuffRulesOfViolations(vs: seq<Option<string>>)
    ensures var codes := RuleCodes(Take(vs, 20));
      var rules := SortedRules(codes);
      && |codes| == (if |vs| <= 20 then |vs| else 20)
      && (forall i :: 0 <= i < |codes| ==> codes[i] == vs[i].GetOr("unknown"))
      && StrictlySorted(rules, StrLess) && (forall c :: c in rules <==> c in codes)
  {
    RuffSummaryCorrect(RuleCodes(Take(vs, 20)));
  }

  /**
   * The ruff details: the number of violations, then the tallies of at most
   * five rules, the first in sorted order among the rules of the first twenty
   * violations (`RuffRulesOfViolations`), then " (+k more rules)" when those
   * carry more than five rules.
   */
  lemma RuffDetailsSummary(code: int, stdout: string, stderr: string, decode: string -> Option<seq<Option<string>>>)
    requires Violations(stdout, decode) != []
    ensures var vs := Violations(stdout, decode);
      var codes := RuleCodes(Take(vs, 20));
      var rules := SortedRules(codes);
      RuffGrade(Finished(code, stdout, stderr), decode).grade.details
      == NatToString(|vs|) + " violations: " + Join(RuleTallies(Take(rules, 5), codes), ", ")
         + (if |rules| > 5 then " (+" + NatToString(|rules| - 5) + " more rules)" else "")
  {
    RuffGradeDetails(code, stdout, stderr, decode);
    TalliedDetails(|Violations(stdout, decode)|, RuleCodes(Take(Violations(stdout, decode), 20)));
  }

  /** The details of a run with violations are `RuffDetails` over the summary parts of the first twenty. */
  lemma RuffGradeDetails(code: int, stdout: string, stderr: string, decode: string -> Option<seq<Option<string>>>)
    requires Violations(stdout, decode) != []
    ensures var vs := Violations(stdout, decode);
      var codes := RuleCodes(Take(vs, 20));
      RuffGrade(Finished(code, stdout, stderr), decode).grade.details
      == RuffDetails(|vs|, SummaryParts(SortedRules(codes), RuleCounts(codes)))
  {
  }

  /** `RuffDetails` over the summary parts, written with the tallies of the first five sorted rules. */
  lemma TalliedDetails(n: nat, codes: seq<string>)
    ensures var rules := SortedRules(codes);
      RuffDetails(n, SummaryParts(rules, RuleCounts(codes)))
      == NatToString(n) + " violations: " + Join(RuleTallies(Take(rules, 5), codes), ", ")
         + (if |rules| > 5 then " (+" + NatToString(|rules| - 5) + " more rules)" else "")
  {
    ShownTallies(codes);
  }

  /** The first five summary parts are the tallies of the first five sorted rules. */
  lemma ShownTallies(codes: seq<string>)
    ensures Take(SummaryParts(SortedRules(codes), RuleCounts(codes)), 5) == RuleTallies(Take(SortedRules(codes), 5), codes)
  {
    RuffSummaryCorrect(codes);
  }

  /** Output that does not decode as JSON counts as no violations, so the grade passes. */
  lemma UndecodableRuffOutputPasses(code: int, stdout: string, stderr: string, decode: string -> Option<seq<Option<string>>>)
    requires decode(stdout).None?
    ensures RuffGrade(Finished(code, stdout, stderr), decode) == Graded(CreateGradeResult("ruff_clean", true, 1.0, "No linting violations", if stdout != "" then stdout else stderr))
  {
  }

  // ---------------------------------------------------------------------
  // mypy_clean
  // ---------------------------------------------------------------------

  /** `["mypy", "--no-error-summary", ("--config-file", path)?, "."]`. */
  function MypyCommand(configPath: Option<string>): (cmd: seq<string>)
    ensures 3 <= |cmd| && cmd[..2] == ["mypy", "--no-error-summary"] && cmd[|cmd| - 1] == "."
    ensures Truthy(configPath) <==> "--config-file" in cmd
  {
    ["mypy", "--no-error-summary"]
    + (if Truthy(configPath) then ["--config-file", configPath.value] else [])
    + ["."]
  }

  /** The lines holding ": error:", in order, each as often as it occurs. */
  function ErrorLines(lines: seq<string>): (r: seq<string>)
    ensures |r| <= |lines|
    ensures forall l :: l in r <==> l in lines && Contains(l, ": error:")
    ensures forall l :: multiset(r)[l] == (if Contains(l, ": error:") then multiset(lines)[l] else 0)
  {
    if lines == [] then []
    else
      var init, last := lines[..|lines| - 1], lines[|lines| - 1];
      assert lines == init + [last];
      ErrorLines(init) + (if Contains(last, ": error:") then [last] else [])
  }

  /** One more line of output adds itself exactly when it is an error line. */
  lemma ErrorLinesSnoc(lines: seq<string>, l: string)
    ensures ErrorLines(lines + [l]) == ErrorLines(lines) + (if Contains(l, ": error:") then [l] else [])
  {
    assert (lines + [l])[..|lines|] == lines;
  }

  /**
   * The error lines of two stretches of output are those of the first, then
   * those of the second: the selection keeps the order of the output.
   */
  lemma {:induction false} ErrorLinesConcat(a: seq<string>, b: seq<string>)
    ensures ErrorLines(a + b) == ErrorLines(a) + ErrorLines(b)
  {
    if b == [] {
      assert a + b == a;
    } else {
      var init, last := b[..|b| - 1], b[|b| - 1];
      var tail := if Contains(last, ": error:") then [last] else [];
      assert b == init + [last];
      assert a + b == (a + init) + [last];
      calc {
        ErrorLines(a + b);
        == { ErrorLinesSnoc(a + init, last); }
        ErrorLines(a + init) + tail;
        == { ErrorLinesConcat(a, init); }
        (ErrorLines(a) + ErrorLines(init)) + tail;
        ==
        ErrorLines(a) + (ErrorLines(init) + tail);
        == { ErrorLinesSnoc(init, last); }
        ErrorLines(a) + ErrorLines(b);
      }
    }
  }

  /** The mypy score: 0.05 off per error, never below 0. */
  function MypyScore(n: nat): real
  {
    Max(0.0, 1.0 - n as real * 0.05)
  }

  /** `grade_mypy_clean`: output that is not valid text escapes as an exception. */
  function GradeMypyClean(run: RunOutcome): (r: Outcome)
    ensures r.Raised? <==> run.Undecoded?
    ensures r.Graded? ==> r.grade.assertionId == "mypy_clean" && UnitScore(r.grade.score)
    ensures r.Graded? && !run.Finished? ==> !r.grade.passed && r.grade.score == 0.0
    ensures run.Finished? ==>
      var n := |ErrorLines(Split(run.stdout, '\n'))|;
      && r.Graded?
      && r.grade.fullOutput == Combined(run.stdout, run.stderr)
      && (run.returnCode == 0 || n == 0 ==> r.grade.passed && r.grade.score == 1.0)
      && (run.returnCode != 0 && n > 0 ==> r.grade.score == MypyScore(n) && (r.grade.passed <==> n <= 6))
      && (run.returnCode != 0 && n > 3 ==> r.grade.details == NatToString(n) + " type errors")
  {
    match run
    case Finished(code, stdout, stderr) =>
      var full := Combined(stdout, stderr);
      var errors := ErrorLines(Split(stdout, '\n'));
      var n := |errors|;
      if code == 0 || n == 0 then Graded(CreateGradeResult("mypy_clean", true, 1.0, "No type errors", full))
      else
        var score := MypyScore(n);
        var details := if n > 3 then NatToString(n) + " type errors"
                       else NatToString(n) + " type errors. First few: " + Join(Take(errors, 3), "; ");
        Graded(CreateGradeResult("mypy_clean", score >= 0.7, score, details, full))
    case ToolMissing(_) => Graded(Failure("mypy_clean", "mypy not found - install with: pip install mypy", "mypy command not found"))
    case TimedOut => Graded(Failure("mypy_clean", "mypy command timed out", "mypy command timed out after 120 seconds"))
    case SubprocessFailed(m) => Graded(Failure("mypy_clean", "Subprocess error running mypy: " + m, m))
    case OsFailed(m) => Graded(Failure("mypy_clean", "OS error running mypy: " + m, m))
    case Undecoded(m) => Raised(m)
  }

  // ---------------------------------------------------------------------
  // The binary checks
  // ---------------------------------------------------------------------

  /**
   * `grade_file_contains` (`expectMatch`) and `grade_file_not_contains`:
   * a missing file fails, a readable file passes iff the search agrees with
   * the expectation, read and pattern errors fail, and undecodable text escapes.
   */
  function GradeFileSearch(expectMatch: bool, file: string, pattern: string, read: FileRead, search: (string, string) -> SearchOutcome): (r: Outcome)
    ensures var name := if expectMatch then "file_contains" else "file_not_contains";
      r.Graded? ==> r.grade.assertionId == name && r.grade.score == Binary(r.grade.passed)
    ensures r.Raised? <==> read.Undecodable?
    ensures r.Graded? && r.grade.passed <==> read.Text? && search(pattern, read.content) == (if expectMatch then Found else NoMatch)
    ensures read.Text? && !search(pattern, read.content).BadPattern? ==>
      r.Graded? && r.grade.fullOutput == Take(read.content, 5000) && |r.grade.fullOutput| <= 5000
  {
    var name := if expectMatch then "file_contains" else "file_not_contains";
    match read
    case Absent => Graded(Failure(name, "File not found: " + file, "Expected file " + file + " does not exist"))
    case Text(content) =>
      (match search(pattern, content)
       case BadPattern(m) => Graded(Failure(name, "Invalid regex pattern: " + m, m))
       case _ =>
         var passed := search(pattern, content) == (if expectMatch then Found else NoMatch);
         var word := if expectMatch then (if passed then "found" else "not found") else (if passed then "absent" else "found");
         Graded(CreateGradeResult(name, passed, Binary(passed), "Pattern " + word + ": " + pattern, Take(content, 5000))))
    case ReadFailed(m) => Graded(Failure(name, "Error reading file: " + m, m))
    case Undecodable(m) => Raised(m)
  }

  /** On a readable file and a valid pattern, contains and not-contains give opposite verdicts. */
  lemma ContainsAndNotContainsDisagree(file: string, pattern: string, content: string, search: (string, string) -> SearchOutcome)
    requires !search(pattern, content).BadPattern?
    ensures GradeFileSearch(true, file, pattern, Text(content), search).grade.passed
            != GradeFileSearch(false, file, pattern, Text(content), search).grade.passed
  {
  }

  /** `grade_file_exists`. */
  function GradeFileExists(envPath: string, file: string, read: FileRead): (r: GradeResult)
    ensures r.assertionId == "file_exists" && r.score == Binary(r.passed)
    ensures r.passed <==> !read.Absent?
    ensures r.fullOutput == "Checked path: " + Paths.JoinPath(envPath, file)
  {
    var passed := !read.Absent?;
    CreateGradeResult("file_exists", passed, Binary(passed),
                      "File " + (if passed then "exists" else "not found") + ": " + file,
                      "Checked path: " + Paths.JoinPath(envPath, file))
  }

  /** `grade_command_succeeds`: output that is not valid text escapes as an exception. */
  function GradeCommandSucceeds(run: RunOutcome): (r: Outcome)
    ensures r.Raised? <==> run.Undecoded?
    ensures r.Graded? ==> r.grade.assertionId == "command_succeeds" && r.grade.score == Binary(r.grade.passed)
    ensures r.Graded? ==> (r.grade.passed <==> run.Finished? && run.returnCode == 0)
    ensures run.Finished? ==>
      && r.Graded?
      && r.grade.details == Take(if r.grade.passed then run.stdout else run.stderr, 1000)
      && r.grade.fullOutput == Combined(run.stdout, run.stderr)
  {
    match run
    case Finished(code, stdout, stderr) =>
      var passed := code == 0;
      Graded(CreateGradeResult("command_succeeds", passed, Binary(passed),
                               if passed then Take(stdout, 1000) else Take(stderr, 1000), Combined(stdout, stderr)))
    case TimedOut => Graded(Failure("command_succeeds", "Command timed out", "Command timed out after 60 seconds"))
    case SubprocessFailed(m) => Graded(Failure("command_succeeds", "Subprocess error running command: " + m, m))
    case ToolMissing(m) => Graded(Failure("command_succeeds", "OS error running command: " + m, m))
    case OsFailed(m) => Graded(Failure("command_succeeds", "OS error running command: " + m, m))
    case Undecoded(m) => Raised(m)
  }

  // ---------------------------------------------------------------------
  // Dispatch
  // ---------------------------------------------------------------------

  const TestsTimeout: nat := 120
  const CommandTimeout: nat := 60
  const RuffTimeout: nat := 60
  const MypyTimeout: nat := 120

  /** The pass ratio below which a partially passing test run fails. */
  const DefaultPassThreshold: real := 0.8

  /** `CodeGrader.grade`: validate the parameters the check needs, then run it. */
  function Grade(a: CodeAssertion, envPath: string, env: Environment): (r: Outcome)
    ensures a.check == FileExists ==> r.Graded?
    ensures a.check == FileContains && !(Truthy(a.file) && Truthy(a.pattern)) ==>
      r == Graded(Failure("file_contains", "file_contains requires file and pattern", ""))
    ensures a.check == FileNotContains && !(Truthy(a.file) && Truthy(a.pattern)) ==>
      r == Graded(Failure("file_not_contains", "file_not_contains requires file and pattern", ""))
    ensures a.check == FileExists && !Truthy(a.file) ==> r == Graded(Failure("file_exists", "file_exists requires file", ""))
    ensures a.check == CommandSucceeds && !Truthy(a.command) ==>
      r == Graded(Failure("command_succeeds", "command_succeeds requires command", ""))
    ensures a.check == TestsPass ==>
      r == GradeTestsPass(env.shell(if Truthy(a.command) then a.command.value else "pytest", TestsTimeout), DefaultPassThreshold)
  {
    match a.check
    case TestsPass =>
      var command := if Truthy(a.command) then a.command.value else "pytest";
      GradeTestsPass(env.shell(command, TestsTimeout), DefaultPassThreshold)
    case FileContains =>
      if !(Truthy(a.file) && Truthy(a.pattern)) then
        Graded(Failure("file_contains", "file_contains requires file and pattern", ""))
      else GradeFileSearch(true, a.file.value, a.pattern.value, env.probe(Paths.JoinPath(envPath, a.file.value)), env.search)
    case FileExists =>
      if !Truthy(a.file) then Graded(Failure("file_exists", "file_exists requires file", ""))
      else Graded(GradeFileExists(envPath, a.file.value, env.probe(Paths.JoinPath(envPath, a.file.value))))
    case FileNotContains =>
      if !(Truthy(a.file) && Truthy(a.pattern)) then
        Graded(Failure("file_not_contains", "file_not_contains requires file and pattern", ""))
      else GradeFileSearch(false, a.file.value, a.pattern.value, env.probe(Paths.JoinPath(envPath, a.file.value)), env.search)
    case CommandSucceeds =>
      if !Truthy(a.command) then Graded(Failure("command_succeeds", "command_succeeds requires command", ""))
      else GradeCommandSucceeds(env.shell(a.command.value, CommandTimeout))
    case RuffClean => RuffGrade(env.exec(RuffCommand(a.pattern), RuffTimeout), env.decodeViolations)
    case MypyClean => GradeMypyClean(env.exec(MypyCommand(a.pattern), MypyTimeout))
  }

  /** Every grade a code check returns carries the check's name as its id. */
  lemma GradeNamesCheck(a: CodeAssertion, envPath: string, env: Environment)
    ensures var r := Grade(a, envPath, env); r.Graded? ==> r.grade.assertionId == CheckValue(a.check)
  {
    match a.check
    case TestsPass => assert CheckValue(a.check) == "tests_pass";
    case FileContains => assert CheckValue(a.check) == "file_contains";
    case FileExists => assert CheckValue(a.check) == "file_exists";
    case FileNotContains => assert CheckValue(a.check) == "file_not_contains";
    case CommandSucceeds => assert CheckValue(a.check) == "command_succeeds";
    case RuffClean => assert CheckValue(a.check) == "ruff_clean";
    case MypyClean => assert CheckValue(a.check) == "mypy_clean";
  }

  /** Every grade a code check returns has a score between 0 and 1. */
  lemma GradeScoreInUnit(a: CodeAssertion, envPath: string, env: Environment)
    ensures var r := Grade(a, envPath, env); r.Graded? ==> UnitScore(r.grade.score)
  {
    match a.check
    case TestsPass =>
    case FileContains =>
    case FileExists =>
    case FileNotContains =>
    case CommandSucceeds =>
    case RuffClean =>
    case MypyClean =>
  }

  /** The binary checks score exactly 1.0 when they pass and 0.0 when they fail. */
  lemma BinaryChecksScoreByVerdict(a: CodeAssertion, envPath: string, env: Environment)
    requires a.check in {FileContains, FileNotContains, FileExists, CommandSucceeds}
    ensures var r := Grade(a, envPath, env); r.Graded? ==> r.grade.score == Binary(r.grade.passed)
  {
  }
}
