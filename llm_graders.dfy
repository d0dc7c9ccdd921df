/**
 * The LLM judge's response post-processing: extracting the JSON text from a
 * fenced reply, turning the decoded verdict into a `GradeResult` (default
 * pass rule, regression cap, changes summary, criteria breakdown), the
 * keyword fallback when the reply cannot be parsed, the fallback when the
 * grading call fails, and the calibration section of the grading prompt.
 * The API call, `json.loads` and the rest of the prompt text are inputs.
 */
module LlmGraders {
  import opened Wrappers
  import opened Text
  import opened Models

  // ---------------------------------------------------------------------
  // Code-fence extraction
  // ---------------------------------------------------------------------

  /** A line that opens or closes a Markdown code block. */
  predicate IsFence(line: string)
  {
    StartsWith(line, "```")
  }

  /** The lines before the first fence line (all of them when there is none). */
  function UntilFence(lines: seq<string>): (u: seq<string>)
    ensures |u| <= |lines|
  {
    if lines == [] || IsFence(lines[0]) then [] else [lines[0]] + UntilFence(lines[1..])
  }

  /** The lines strictly after the first fence line, up to the next fence line or the end. */
  function FenceBody(lines: seq<string>): seq<string>
  {
    if lines == [] then []
    else if IsFence(lines[0]) then UntilFence(lines[1..])
    else FenceBody(lines[1..])
  }

  /** `UntilFence` is the longest prefix without a fence line. */
  lemma {:induction false} UntilFenceIsLongestPrefix(lines: seq<string>)
    ensures var u := UntilFence(lines);
      && u == lines[..|u|]
      && (forall k :: 0 <= k < |u| ==> !IsFence(u[k]))
      && (|u| < |lines| ==> IsFence(lines[|u|]))
  {
    if lines != [] && !IsFence(lines[0]) {
      UntilFenceIsLongestPrefix(lines[1..]);
      var u, t := UntilFence(lines), UntilFence(lines[1..]);
      assert u == [lines[0]] + t;
      assert lines[..|u|] == [lines[0]] + lines[1..][..|t|];
      assert forall k :: 0 < k < |u| ==> u[k] == t[k - 1];
    }
  }

  /** The body follows the first fence line: it is `UntilFence` of what comes after it, or empty without a fence. */
  lemma {:induction false} FenceBodyAfterFirstFence(lines: seq<string>)
    ensures (forall k :: 0 <= k < |lines| ==> !IsFence(lines[k])) ==> FenceBody(lines) == []
    ensures forall i :: 0 <= i < |lines| && IsFence(lines[i]) && (forall k :: 0 <= k < i ==> !IsFence(lines[k])) ==>
      FenceBody(lines) == UntilFence(lines[i + 1..])
  {
    if lines != [] && !IsFence(lines[0]) {
      FenceBodyAfterFirstFence(lines[1..]);
      forall i | 0 <= i < |lines| && IsFence(lines[i]) && (forall k :: 0 <= k < i ==> !IsFence(lines[k]))
        ensures FenceBody(lines) == UntilFence(lines[i + 1..])
      {
        assert i > 0;
        assert lines[1..][i - 1] == lines[i];
        assert forall k :: 0 <= k < i - 1 ==> lines[1..][k] == lines[k + 1];
        assert lines[1..][i - 1 + 1..] == lines[i + 1..];
      }
      assert forall k :: 0 <= k < |lines[1..]| ==> lines[1..][k] == lines[k + 1];
    }
  }

  /** The fence loop of `_parse_response`, a small state machine over the lines with an `in_json` flag. */
  method ExtractFenced(lines: seq<string>) returns (jsonLines: seq<string>)
    ensures jsonLines == FenceBody(lines)
  {
    jsonLines := [];
    var inJson := false;
    var i := 0;
    while i < |lines|
      invariant 0 <= i <= |lines|
      invariant !inJson ==> jsonLines == [] && FenceBody(lines) == FenceBody(lines[i..])
      invariant inJson ==> FenceBody(lines) == jsonLines + UntilFence(lines[i..])
    {
      var line := lines[i];
      assert lines[i..][1..] == lines[i + 1..];
      if IsFence(line) && !inJson {
        inJson := true;
        i := i + 1;
        continue;
      } else if IsFence(line) && inJson {
        break;
      } else if inJson {
        jsonLines := jsonLines + [line];
      }
      i := i + 1;
    }
  }

  /** Splitting keeps a separator-free prefix at the head of the first piece. */
  lemma {:induction false} SplitKeepsPrefix(s: string, c: char, p: string)
    requires StartsWith(s, p) && c !in p
    ensures StartsWith(Split(s, c)[0], p)
  {
    if p != [] {
      assert p[0] == s[0] && s[1..][..|p| - 1] == p[1..];
      SplitKeepsPrefix(s[1..], c, p[1..]);
      assert Split(s, c)[0] == [s[0]] + Split(s[1..], c)[0];
    }
  }

  /** The text handed to `json.loads`: the stripped reply, or the body of its first code block. */
  function JsonText(response: string): string
  {
    var text := Strip(response);
    if StartsWith(text, "```") then Join(FenceBody(Split(text, '\n')), "\n") else text
  }

  /** A reply that opens with a fence yields the lines after that first line, up to the next fence or the end. */
  lemma FencedReply(response: string)
    requires StartsWith(Strip(response), "```")
    ensures JsonText(response) == Join(UntilFence(Split(Strip(response), '\n')[1..]), "\n")
  {
    var lines := Split(Strip(response), '\n');
    SplitKeepsPrefix(Strip(response), '\n', "```");
    assert IsFence(lines[0]);
  }

  /** A reply without a leading fence is parsed as it stands, stripped. */
  lemma UnfencedReply(response: string)
    requires !StartsWith(Strip(response), "```")
    ensures JsonText(response) == Strip(response)
  {
  }

  // ---------------------------------------------------------------------
  // The decoded verdict
  // ---------------------------------------------------------------------

  /** One entry of `criteria_scores`; `None` is a missing key. */
  datatype CriterionEntry = CriterionEntry(criterion: Option<string>, score: Option<real>, reasoning: Option<string>, evidence: Option<string>)

  /** `regression_check` when it is a non-empty object. */
  datatype RegressionCheck = RegressionCheck(passed: Option<bool>, notes: Option<string>)

  /**
   * The fields `_parse_response` reads from the judge's JSON; a missing
   * `criteria_scores` or `step1_changes` is the empty list, a missing or
   * empty `regression_check` is `None`.
   */
  datatype Verdict = Verdict(
    overallScore: Option<real>,
    passed: Option<bool>,
    overallReasoning: Option<string>,
    criteria: seq<CriterionEntry>,
    changes: seq<string>,
    regressionCheck: Option<RegressionCheck>)

  /**
   * What `json.loads` and the reads of its fields make of the text: a
   * verdict; an error `_parse_response` catches (`JSONDecodeError`,
   * `KeyError`, `ValueError`); or an exception it does not catch, such as the
   * `AttributeError` of a reply that is not a JSON object or the `TypeError`
   * of `float(None)` for a null score.
   */
  datatype Decoded = Decoded(verdict: Verdict) | DecodeError(message: string) | Uncaught(message: string)

  /** What `_parse_response` returns, or the exception that escapes it. */
  datatype ParseOutcome = Parsed(grade: GradeResult) | ParseRaised(message: string)

  function OverallScore(v: Verdict): real
  {
    v.overallScore.GetOr(0.0)
  }

  function Reasoning(v: Verdict): string
  {
    v.overallReasoning.GetOr("")
  }

  /** A regression check whose `passed` is false (a missing `passed` counts as true). */
  predicate RegressionFailed(v: Verdict)
  {
    v.regressionCheck.Some? && !v.regressionCheck.value.passed.GetOr(true)
  }

  function RegressionNotes(v: Verdict): string
    requires v.regressionCheck.Some?
  {
    v.regressionCheck.value.notes.GetOr("")
  }

  function Min(a: real, b: real): real
  {
    if a <= b then a else b
  }

  /** The score after the regression penalty. */
  function FinalScore(v: Verdict): real
  {
    if RegressionFailed(v) then Min(OverallScore(v), 0.5) else OverallScore(v)
  }

  /** The verdict after the regression penalty; a missing `passed` is `overall_score >= 0.7`. */
  predicate FinalPassed(v: Verdict)
  {
    !RegressionFailed(v) && v.passed.GetOr(OverallScore(v) >= 0.7)
  }

  function CriterionName(c: CriterionEntry): string
  {
    c.criterion.GetOr("unknown")
  }

  function CriterionValue(c: CriterionEntry): real
  {
    c.score.GetOr(0.0)
  }

  /** The detail line of one criterion, with the evidence block when there is evidence. */
  function CriterionLine(c: CriterionEntry): string
  {
    var reason := c.reasoning.GetOr("");
    if Truthy(c.evidence) then
      "- " + CriterionName(c) + ": " + FormatFixed(CriterionValue(c), 2) + "\n  Evidence: " + c.evidence.value + "\n  Reasoning: " + reason
    else
      "- " + CriterionName(c) + ": " + FormatFixed(CriterionValue(c), 2) + " - " + reason
  }

  /** The reasoning kept for one criterion: evidence and reason on two lines, or the reason alone. */
  function CriterionReasoning(c: CriterionEntry): string
  {
    var reason := c.reasoning.GetOr("");
    if Truthy(c.evidence) then c.evidence.value + "\n" + reason else reason
  }

  /** Every criterion score passes the `CriterionScore` bounds. */
  predicate CriteriaValid(cs: seq<CriterionEntry>)
  {
    forall i :: 0 <= i < |cs| ==> UnitScore(CriterionValue(cs[i]))
  }

  function CriteriaScores(cs: seq<CriterionEntry>): seq<CriterionScore>
  {
    seq(|cs|, i requires 0 <= i < |cs| => CriterionScore(CriterionName(cs[i]), CriterionValue(cs[i]), CriterionReasoning(cs[i])))
  }

  function CriterionLines(cs: seq<CriterionEntry>): seq<string>
  {
    seq(|cs|, i requires 0 <= i < |cs| => CriterionLine(cs[i]))
  }

  /** "Changes identified: " and the first three changes, with a count of the rest. */
  function ChangesSummary(changes: seq<string>): string
  {
    "Changes identified: " + Join(Take(changes, 3), "; ")
    + (if |changes| > 3 then " (+" + NatToString(|changes| - 3) + " more)" else "")
  }

  /** The lines of `details`: the changes summary first, then one line per criterion, then the regression warning. */
  function DetailParts(v: Verdict): seq<string>
  {
    (if v.changes != [] then [ChangesSummary(v.changes)] else [])
    + CriterionLines(v.criteria)
    + (if RegressionFailed(v) then ["REGRESSION WARNING: " + RegressionNotes(v)] else [])
  }

  function Details(v: Verdict): string
  {
    if DetailParts(v) == [] then Reasoning(v) else Join(DetailParts(v), "\n")
  }

  /** The structured grade of a verdict, or `None` when a score fails validation (`ValidationError` is a `ValueError`). */
  function StructuredGrade(v: Verdict): Option<GradeResult>
  {
    if !CriteriaValid(v.criteria) then None
    else NewGradeResult("llm_quality", "llm", "llm_quality", FinalPassed(v), FinalScore(v), Details(v), Reasoning(v),
      "", "", CriteriaScores(v.criteria))
  }

  /** The `except` branch of `_parse_response`: a keyword guess on the raw reply. */
  function KeywordFallback(response: string, message: string): GradeResult
  {
    var lower := Lower(response);
    var passed := Contains(lower, "passed") || Contains(lower, "success");
    GradeResult("llm_quality", "llm", "llm_quality", passed, if passed then 0.7 else 0.3,
      "Could not parse structured response: " + message, Take(response, 500), "", "", [])
  }

  /**
   * `_parse_response` on a reply. `decode` stands for `json.loads` and the
   * `float` conversions; `validationMessage` is the text of the
   * `ValidationError` raised for a score outside [0, 1].
   */
  function ParsedGrade(response: string, decode: string -> Decoded, validationMessage: string): ParseOutcome
  {
    match decode(JsonText(response))
    case Uncaught(m) => ParseRaised(m)
    case DecodeError(m) => Parsed(KeywordFallback(response, m))
    case Decoded(v) =>
      match StructuredGrade(v)
      case Some(g) => Parsed(g)
      case None => Parsed(KeywordFallback(response, validationMessage))
  }

  // ---------------------------------------------------------------------
  // Properties of the parsed grade
  // ---------------------------------------------------------------------

  /**
   * Only an uncaught exception escapes the parser, and every parsed grade is
   * an `llm_quality` grade whose score and criterion scores lie in [0, 1].
   */
  lemma ParsedGradeInRange(response: string, decode: string -> Decoded, validationMessage: string)
    ensures ParsedGrade(response, decode, validationMessage).ParseRaised? <==> decode(JsonText(response)).Uncaught?
    ensures var p := ParsedGrade(response, decode, validationMessage);
      p.Parsed? ==>
        var g := p.grade;
        && g.assertionId == "llm_quality" && g.assertionType == "llm" && g.assertionName == "llm_quality"
        && UnitScore(g.score)
        && forall i :: 0 <= i < |g.criteriaScores| ==> UnitScore(g.criteriaScores[i].score)
  {
    match decode(JsonText(response))
    case Uncaught(_) =>
    case DecodeError(_) =>
    case Decoded(v) =>
      if StructuredGrade(v).Some? {
        StructuredGradeInRange(v);
      }
  }

  /** A structured grade keeps the `llm_quality` labels, and its criterion scores are the validated ones. */
  lemma StructuredGradeInRange(v: Verdict)
    requires StructuredGrade(v).Some?
    ensures var g := StructuredGrade(v).value;
      && g.assertionId == "llm_quality" && g.assertionType == "llm" && g.assertionName == "llm_quality"
      && UnitScore(g.score)
      && forall i :: 0 <= i < |g.criteriaScores| ==> UnitScore(g.criteriaScores[i].score)
  {
    var cs := CriteriaScores(v.criteria);
    assert forall i :: 0 <= i < |cs| ==> cs[i].score == CriterionValue(v.criteria[i]);
  }

  /** Without a `passed` field and without a failed regression check, passed is `overall_score >= 0.7`. */
  lemma DefaultPassRule(v: Verdict)
    requires StructuredGrade(v).Some? && v.passed.None? && !RegressionFailed(v)
    ensures StructuredGrade(v).value.passed <==> OverallScore(v) >= 0.7
    ensures StructuredGrade(v).value.score == OverallScore(v)
  {
  }

  /** An explicit `passed` field decides, unless the regression check failed. */
  lemma ExplicitPassWins(v: Verdict)
    requires StructuredGrade(v).Some? && v.passed.Some? && !RegressionFailed(v)
    ensures StructuredGrade(v).value.passed == v.passed.value
  {
  }

  /** A failed regression check caps the score at 0.5, fails the grade and ends the details with the warning. */
  lemma RegressionCap(v: Verdict)
    requires StructuredGrade(v).Some? && RegressionFailed(v)
    ensures var g := StructuredGrade(v).value;
      && g.score == Min(OverallScore(v), 0.5) && g.score <= 0.5 && !g.passed
      && EndsWith(g.details, "REGRESSION WARNING: " + RegressionNotes(v))
  {
    var parts := DetailParts(v);
    JoinLast(parts, "\n");
  }

  /** The changes summary comes first in the details. */
  lemma ChangesSummaryFirst(v: Verdict)
    requires StructuredGrade(v).Some? && v.changes != []
    ensures StartsWith(StructuredGrade(v).value.details, ChangesSummary(v.changes))
  {
    JoinFirst(DetailParts(v), "\n");
  }

  /** The summary names the first three changes, and counts the others when there are more. */
  lemma ChangesSummaryContents(changes: seq<string>)
    ensures |changes| <= 3 ==> ChangesSummary(changes) == "Changes identified: " + Join(changes, "; ")
    ensures |changes| > 3 ==>
      && StartsWith(ChangesSummary(changes), "Changes identified: " + Join(changes[..3], "; "))
      && EndsWith(ChangesSummary(changes), " (+" + NatToString(|changes| - 3) + " more)")
  {
    var s := ChangesSummary(changes);
    if |changes| > 3 {
      var head := "Changes identified: " + Join(changes[..3], "; ");
      var tail := " (+" + NatToString(|changes| - 3) + " more)";
      assert s == head + tail;
      assert s[..|head|] == head;
      assert s[|s| - |tail|..] == tail;
    }
  }

  /** With nothing to list, the details are the overall reasoning. */
  lemma DetailsFallBackToReasoning(v: Verdict)
    requires StructuredGrade(v).Some?
    ensures DetailParts(v) == [] <==> v.changes == [] && v.criteria == [] && !RegressionFailed(v)
    ensures DetailParts(v) == [] ==> StructuredGrade(v).value.details == Reasoning(v)
  {
    assert |DetailParts(v)| == (if v.changes != [] then 1 else 0) + |v.criteria| + (if RegressionFailed(v) then 1 else 0);
  }

  /** The criteria breakdown keeps every criterion in order, with defaults "unknown" and 0.0. */
  lemma CriteriaBreakdown(v: Verdict)
    requires StructuredGrade(v).Some?
    ensures var g := StructuredGrade(v).value;
      && |g.criteriaScores| == |v.criteria|
      && forall i :: 0 <= i < |v.criteria| ==>
        && g.criteriaScores[i].criterion == v.criteria[i].criterion.GetOr("unknown")
        && g.criteriaScores[i].score == v.criteria[i].score.GetOr(0.0)
  {
  }

  /** A criterion score outside [0, 1] sends the reply to the keyword fallback. */
  lemma InvalidCriterionFallsBack(response: string, decode: string -> Decoded, validationMessage: string, i: nat)
    requires decode(JsonText(response)).Decoded?
    requires var cs := decode(JsonText(response)).verdict.criteria; i < |cs| && !UnitScore(CriterionValue(cs[i]))
    ensures ParsedGrade(response, decode, validationMessage) == Parsed(KeywordFallback(response, validationMessage))
  {
  }

  /** The keyword fallback: passed iff "passed" or "success" occurs (ASCII case-insensitively), score 0.7 or 0.3, the first 500 characters as reasoning. */
  lemma KeywordFallbackRule(response: string, message: string)
    ensures var g := KeywordFallback(response, message);
      && (g.passed <==> Contains(Lower(response), "passed") || Contains(Lower(response), "success"))
      && g.score == (if g.passed then 0.7 else 0.3)
      && g.reasoning == response[..|g.reasoning|] && |g.reasoning| == (if |response| <= 500 then |response| else 500)
      && g.assertionId == "llm_quality"
  {
  }

  lemma {:induction false} JoinLast(parts: seq<string>, sep: string)
    requires parts != []
    ensures EndsWith(Join(parts, sep), parts[|parts| - 1])
  {
    if |parts| > 1 {
      JoinLast(parts[1..], sep);
      var rest := Join(parts[1..], sep);
      var s := parts[0] + sep + rest;
      var last := parts[|parts| - 1];
      assert parts[1..][|parts[1..]| - 1] == last;
      assert s[|s| - |last|..] == rest[|rest| - |last|..];
    }
  }

  lemma JoinFirst(parts: seq<string>, sep: string)
    requires parts != []
    ensures StartsWith(Join(parts, sep), parts[0])
  {
    if |parts| > 1 {
      var s := parts[0] + sep + Join(parts[1..], sep);
      assert s[..|parts[0]|] == parts[0];
    }
  }

  // ---------------------------------------------------------------------
  // The imperative parser and the grading call
  // ---------------------------------------------------------------------

  /** The criteria loop: one detail line and one `CriterionScore` per entry; `ok` is false once a score fails validation. */
  method ReadCriteria(cs: seq<CriterionEntry>) returns (ok: bool, scores: seq<CriterionScore>, lines: seq<string>)
    ensures ok <==> CriteriaValid(cs)
    ensures ok ==> scores == CriteriaScores(cs) && lines == CriterionLines(cs)
  {
    scores, lines := [], [];
    for i := 0 to |cs|
      invariant CriteriaValid(cs[..i])
      invariant scores == CriteriaScores(cs[..i]) && lines == CriterionLines(cs[..i])
    {
      var c := cs[i];
      lines := lines + [CriterionLine(c)];
      var score := NewCriterionScore(CriterionName(c), CriterionValue(c), CriterionReasoning(c));
      if score.None? {
        assert !UnitScore(CriterionValue(cs[i]));
        return false, scores, lines;
      }
      scores := scores + [score.value];
      assert cs[..i + 1][i] == c;
      assert forall k :: 0 <= k < i ==> cs[..i + 1][k] == cs[..i][k];
    }
    assert cs[..|cs|] == cs;
    ok := true;
  }

  /** The opening of `_parse_response`: strip the reply and, when it opens with a fence, keep the fenced lines. */
  method ExtractJsonText(response: string) returns (text: string)
    ensures text == JsonText(response)
  {
    text := Strip(response);
    if StartsWith(text, "```") {
      var jsonLines := ExtractFenced(Split(text, '\n'));
      text := Join(jsonLines, "\n");
    }
  }

  /** The part of `_parse_response` after `json.loads`: `None` when building a score fails validation. */
  method GradeVerdict(v: Verdict) returns (g: Option<GradeResult>)
    ensures g == StructuredGrade(v)
  {
    var overallScore := v.overallScore.GetOr(0.0);
    var passed := v.passed.GetOr(overallScore >= 0.7);
    var reasoning := v.overallReasoning.GetOr("");
    var ok, criteriaScores, detailsParts := ReadCriteria(v.criteria);
    if !ok {
      return None;
    }
    ghost var head := if v.changes != [] then [ChangesSummary(v.changes)] else [];
    ghost var warning := if RegressionFailed(v) then ["REGRESSION WARNING: " + RegressionNotes(v)] else [];
    if v.changes != [] {
      detailsParts := [ChangesSummary(v.changes)] + detailsParts;
    } else {
      assert detailsParts == head + detailsParts;
    }
    ghost var body := detailsParts;
    if v.regressionCheck.Some? {
      var regPassed := v.regressionCheck.value.passed.GetOr(true);
      var regNotes := v.regressionCheck.value.notes.GetOr("");
      if !regPassed {
        detailsParts := detailsParts + ["REGRESSION WARNING: " + regNotes];
        overallScore := Min(overallScore, 0.5);
        passed := false;
      }
    }
    assert detailsParts == body + warning;
    var details := if detailsParts != [] then Join(detailsParts, "\n") else reasoning;
    g := NewGradeResult("llm_quality", "llm", "llm_quality", passed, overallScore, details, reasoning, "", "", criteriaScores);
  }

  /** `LLMGrader._parse_response`. */
  method ParseResponse(response: string, decode: string -> Decoded, validationMessage: string) returns (r: ParseOutcome)
    ensures r == ParsedGrade(response, decode, validationMessage)
  {
    var text := ExtractJsonText(response);
    var data := decode(text);
    match data {
      case Uncaught(m) =>
        return ParseRaised(m);
      case DecodeError(m) =>
        return Parsed(KeywordFallback(response, m));
      case Decoded(v) =>
        var g := GradeVerdict(v);
        if g.None? {
          return Parsed(KeywordFallback(response, validationMessage));
        }
        r := Parsed(g.value);
    }
  }

  /** The reply of the judge model: its text, or the exception the call raised. */
  datatype JudgeReply = Reply(text: string) | CallFailed(message: string)

  /** The `except Exception` branch of `LLMGrader.grade`. */
  function GradingFailed(message: string, prompt: string): (g: GradeResult)
    ensures g.assertionId == "llm_quality" && g.assertionType == "llm" && !g.passed && g.score == 0.0
    ensures g.details == "LLM grading failed: " + message && g.fullOutput == message && g.gradingPrompt == prompt
  {
    GradeResult("llm_quality", "llm", "llm_quality", false, 0.0, "LLM grading failed: " + message, "", message, prompt, [])
  }

  /**
   * `LLMGrader.grade` once the prompt is built: the parsed grade carries the
   * prompt and the full reply; a failed call, or an exception escaping the
   * parser, becomes the "LLM grading failed" grade.
   */
  method Grade(prompt: string, reply: JudgeReply, decode: string -> Decoded, validationMessage: string) returns (r: GradeResult)
    ensures reply.CallFailed? ==> r == GradingFailed(reply.message, prompt)
    ensures reply.Reply? && decode(JsonText(reply.text)).Uncaught? ==>
      r == GradingFailed(decode(JsonText(reply.text)).message, prompt)
    ensures reply.Reply? && !decode(JsonText(reply.text)).Uncaught? ==>
      r == ParsedGrade(reply.text, decode, validationMessage).grade.(gradingPrompt := prompt, fullOutput := reply.text)
    ensures r.assertionId == "llm_quality" && UnitScore(r.score) && r.gradingPrompt == prompt
  {
    match reply
    case CallFailed(message) =>
      r := GradingFailed(message, prompt);
    case Reply(text) =>
      var result := ParseResponse(text, decode, validationMessage);
      ParsedGradeInRange(text, decode, validationMessage);
      match result {
        case ParseRaised(message) =>
          r := GradingFailed(message, prompt);
        case Parsed(g) =>
          r := g.(gradingPrompt := prompt, fullOutput := text);
      }
  }

  // ---------------------------------------------------------------------
  // Calibration section of the grading prompt
  // ---------------------------------------------------------------------

  const CalibrationHeader := "\n## Calibration Examples (use these to anchor your scoring)\n"
  const PassingTitle := "PASSING Example (Score: 0.9-1.0)"
  const FailingTitle := "FAILING Example (Score: 0.0-0.3)"
  const BorderlineTitle := "BORDERLINE Example (Score: 0.5-0.6)"

  /** One calibration subsection, empty unless the example is set (not `None`, not ""). */
  function Subsection(title: string, example: Option<string>): string
  {
    if Truthy(example) then "\n### " + title + "\n" + example.value + "\n" else ""
  }

  /** The calibration part of `_build_grading_prompt`. */
  function CalibrationSection(a: LLMAssertion): string
  {
    if Truthy(a.passingExample) || Truthy(a.failingExample) || Truthy(a.borderlineExample) then
      CalibrationHeader
      + Subsection(PassingTitle, a.passingExample)
      + Subsection(FailingTitle, a.failingExample)
      + Subsection(BorderlineTitle, a.borderlineExample)
    else ""
  }

  /** A subsection appears exactly for an example that is set, and then quotes it. */
  lemma SubsectionPresence(title: string, example: Option<string>)
    ensures Subsection(title, example) != "" <==> Truthy(example)
    ensures Truthy(example) ==> Contains(Subsection(title, example), example.value)
  {
    if Truthy(example) {
      var s := Subsection(title, example);
      var i := |"\n### " + title + "\n"|;
      assert s[i..i + |example.value|] == example.value;
      assert OccursAt(s, example.value, i);
      ContainsAt(s, example.value);
    }
  }

  /** The section is present exactly when some example is set, and then opens with the heading. */
  lemma CalibrationPresence(a: LLMAssertion)
    ensures CalibrationSection(a) != "" <==> Truthy(a.passingExample) || Truthy(a.failingExample) || Truthy(a.borderlineExample)
    ensures CalibrationSection(a) != "" ==> StartsWith(CalibrationSection(a), CalibrationHeader)
  {
    var s := CalibrationSection(a);
    if s != "" {
      assert s[..|CalibrationHeader|] == CalibrationHeader;
    }
  }

  /** The set examples appear in order passing, failing, borderline, and an unset one contributes nothing. */
  lemma CalibrationOrder(a: LLMAssertion)
    requires Truthy(a.passingExample) || Truthy(a.failingExample) || Truthy(a.borderlineExample)
    ensures CalibrationSection(a) == CalibrationHeader
      + Subsection(PassingTitle, a.passingExample)
      + Subsection(FailingTitle, a.failingExample)
      + Subsection(BorderlineTitle, a.borderlineExample)
    ensures !Truthy(a.failingExample) && !Truthy(a.borderlineExample) ==>
      CalibrationSection(a) == CalibrationHeader + Subsection(PassingTitle, a.passingExample)
  {
  }

  /**
   * The calibration part of `_build_grading_prompt` as written: no assertion
   * gives nothing; otherwise the heading is followed by each set example's
   * subsection, appended in turn.
   */
  method BuildCalibrationSection(assertion: Option<LLMAssertion>) returns (section: string)
    ensures assertion.None? ==> section == ""
    ensures assertion.Some? ==> section == CalibrationSection(assertion.value)
  {
    section := "";
    if assertion.Some? {
      var a := assertion.value;
      if Truthy(a.passingExample) || Truthy(a.failingExample) || Truthy(a.borderlineExample) {
        section := CalibrationHeader;
        ghost var expected := CalibrationHeader;
        if Truthy(a.passingExample) {
          section := section + ("\n### " + PassingTitle + "\n" + a.passingExample.value + "\n");
        }
        expected := expected + Subsection(PassingTitle, a.passingExample);
        assert section == expected;
        if Truthy(a.failingExample) {
          section := section + ("\n### " + FailingTitle + "\n" + a.failingExample.value + "\n");
        }
        expected := expected + Subsection(FailingTitle, a.failingExample);
        assert section == expected;
        if Truthy(a.borderlineExample) {
          section := section + ("\n### " + BorderlineTitle + "\n" + a.borderlineExample.value + "\n");
        }
        expected := expected + Subsection(BorderlineTitle, a.borderlineExample);
        assert section == expected;
      }
    }
  }
}
