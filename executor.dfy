/**
 * The Claude Code CLI executor: the command line it builds for a prompt
 * and a configuration, and how it turns the process's output into an
 * execution trace. Running the process, the clock and JSON decoding are
 * inputs.
 */
module Executor {
  import opened Wrappers
  import opened Text
  import opened Models

  /**
   * The settings a `ClaudeExecutor` is constructed with; nothing updates them
   * afterwards. `mcpConfigPath` holds `str(mcp_config_path)`, the path as
   * pathlib renders it (`Paths.Normalize` of the text it was built from), so
   * the command line passes it on unchanged.
   */
  datatype ClaudeExecutor = ClaudeExecutor(
    claudePath: string,
    ciMode: bool,
    mcpConfigPath: Option<string>,
    skipPermissions: bool)

  /** `ClaudeExecutor()` with every argument at its default. */
  const DefaultExecutor := ClaudeExecutor("claude", false, None, true)

  // ---------------------------------------------------------------------
  // The command line
  // ---------------------------------------------------------------------

  function SkipPart(ex: ClaudeExecutor): seq<string>
  {
    if ex.skipPermissions then ["--dangerously-skip-permissions"] else []
  }

  function CiPart(ex: ClaudeExecutor): seq<string>
  {
    if !ex.ciMode then []
    else ["--no-session-persistence"] + (if ex.mcpConfigPath.Some? then ["--mcp-config", ex.mcpConfigPath.value] else [])
  }

  function ToolsPart(config: Config): seq<string>
  {
    if config.allowedTools.Tools? then ["--allowedTools", Join(config.allowedTools.names, ",")] else []
  }

  function PromptPart(config: Config): seq<string>
  {
    if Truthy(config.claudeMd) then ["--append-system-prompt", config.claudeMd.value] else []
  }

  /** The fixed head of every command. */
  function BaseCommand(ex: ClaudeExecutor, prompt: string, config: Config): seq<string>
  {
    [ex.claudePath, "-p", prompt, "--model", config.model, "--output-format", "json", "--max-turns", IntToString(config.maxTurns)]
  }

  /** The command `_build_command` returns. */
  function CommandLine(ex: ClaudeExecutor, prompt: string, config: Config): seq<string>
  {
    BaseCommand(ex, prompt, config) + SkipPart(ex) + CiPart(ex) + ToolsPart(config) + PromptPart(config)
  }

  /** `_build_command`: the base command, then each optional flag in turn. */
  method BuildCommand(ex: ClaudeExecutor, prompt: string, config: Config) returns (cmd: seq<string>)
    ensures cmd == CommandLine(ex, prompt, config)
  {
    cmd := [ex.claudePath, "-p", prompt, "--model", config.model, "--output-format", "json", "--max-turns", IntToString(config.maxTurns)];
    if ex.skipPermissions {
      cmd := cmd + ["--dangerously-skip-permissions"];
    }
    assert cmd == BaseCommand(ex, prompt, config) + SkipPart(ex);
    ghost var upToSkip := cmd;
    if ex.ciMode {
      cmd := cmd + ["--no-session-persistence"];
      if ex.mcpConfigPath.Some? {
        cmd := cmd + ["--mcp-config", ex.mcpConfigPath.value];
      }
    }
    assert cmd == upToSkip + CiPart(ex);
    ghost var upToCi := cmd;
    if config.allowedTools.Tools? {
      cmd := cmd + ["--allowedTools", Join(config.allowedTools.names, ",")];
    }
    assert cmd == upToCi + ToolsPart(config);
    if Truthy(config.claudeMd) {
      cmd := cmd + ["--append-system-prompt", config.claudeMd.value];
    }
  }

  // ---------------------------------------------------------------------
  // Reading a command line back
  // ---------------------------------------------------------------------

  /** The optional flags of a command line, as the CLI would read them. */
  datatype Flags = Flags(
    skipPermissions: bool,
    noSessionPersistence: bool,
    mcpConfig: Option<string>,
    allowedTools: Option<string>,
    appendSystemPrompt: Option<string>)

  const NoFlags := Flags(false, false, None, None, None)

  datatype Invocation = Invocation(executable: string, prompt: string, model: string, maxTurns: string, flags: Flags)

  /** Reads optional flags, each with its argument where it takes one; an unknown word or a missing argument is an error. */
  function ParseFlags(args: seq<string>, acc: Flags): Option<Flags>
    decreases |args|
  {
    if args == [] then Some(acc)
    else if args[0] == "--dangerously-skip-permissions" then ParseFlags(args[1..], acc.(skipPermissions := true))
    else if args[0] == "--no-session-persistence" then ParseFlags(args[1..], acc.(noSessionPersistence := true))
    else if |args| < 2 then None
    else if args[0] == "--mcp-config" then ParseFlags(args[2..], acc.(mcpConfig := Some(args[1])))
    else if args[0] == "--allowedTools" then ParseFlags(args[2..], acc.(allowedTools := Some(args[1])))
    else if args[0] == "--append-system-prompt" then ParseFlags(args[2..], acc.(appendSystemPrompt := Some(args[1])))
    else None
  }

  /** Reads a command line of the shape `_build_command` produces. */
  function ParseCommand(cmd: seq<string>): Option<Invocation>
  {
    if |cmd| < 9 || cmd[1] != "-p" || cmd[3] != "--model" || cmd[5] != "--output-format" || cmd[6] != "json" || cmd[7] != "--max-turns"
    then None
    else match ParseFlags(cmd[9..], NoFlags)
      case None => None
      case Some(flags) => Some(Invocation(cmd[0], cmd[2], cmd[4], cmd[8], flags))
  }

  /** The flags a command for these settings is meant to carry. */
  function IntendedFlags(ex: ClaudeExecutor, config: Config): Flags
  {
    Flags(
      ex.skipPermissions,
      ex.ciMode,
      if ex.ciMode then ex.mcpConfigPath else None,
      if config.allowedTools.Tools? then Some(Join(config.allowedTools.names, ",")) else None,
      if Truthy(config.claudeMd) then config.claudeMd else None)
  }

  lemma ParseFlagsSkip(ex: ClaudeExecutor, rest: seq<string>, acc: Flags)
    ensures ParseFlags(SkipPart(ex) + rest, acc) == ParseFlags(rest, acc.(skipPermissions := acc.skipPermissions || ex.skipPermissions))
  {
    if ex.skipPermissions {
      assert (SkipPart(ex) + rest)[1..] == rest;
    } else {
      assert SkipPart(ex) + rest == rest;
    }
  }

  lemma ParseFlagsCi(ex: ClaudeExecutor, rest: seq<string>, acc: Flags)
    requires !acc.noSessionPersistence && acc.mcpConfig.None?
    ensures ParseFlags(CiPart(ex) + rest, acc)
      == ParseFlags(rest, acc.(noSessionPersistence := ex.ciMode, mcpConfig := if ex.ciMode then ex.mcpConfigPath else None))
  {
    var args := CiPart(ex) + rest;
    if !ex.ciMode {
      assert args == rest;
    } else if ex.mcpConfigPath.Some? {
      assert args[1..][0] == "--mcp-config" && args[1..][1] == ex.mcpConfigPath.value && args[1..][2..] == rest;
    } else {
      assert args[1..] == rest;
    }
  }

  lemma ParseFlagsTools(config: Config, rest: seq<string>, acc: Flags)
    requires acc.allowedTools.None?
    ensures ParseFlags(ToolsPart(config) + rest, acc)
      == ParseFlags(rest, acc.(allowedTools := if config.allowedTools.Tools? then Some(Join(config.allowedTools.names, ",")) else None))
  {
    if config.allowedTools.Tools? {
      assert (ToolsPart(config) + rest)[2..] == rest;
    } else {
      assert ToolsPart(config) + rest == rest;
    }
  }

  lemma ParseFlagsPrompt(config: Config, acc: Flags)
    requires acc.appendSystemPrompt.None?
    ensures ParseFlags(PromptPart(config), acc)
      == Some(acc.(appendSystemPrompt := if Truthy(config.claudeMd) then config.claudeMd else None))
  {
    if Truthy(config.claudeMd) {
      assert PromptPart(config)[2..] == [];
    }
  }

  /**
   * The command line reads back as the executable, the prompt, the model and
   * the turn limit in their fixed places, followed by exactly the intended
   * flags: skipping permissions iff asked, no session persistence iff in CI
   * mode, the MCP config only in CI mode with a path given, the allowed
   * tools comma-joined iff they are not "all", and the system prompt iff
   * the CLAUDE.md text is non-empty.
   */
  lemma CommandLineRoundTrip(ex: ClaudeExecutor, prompt: string, config: Config)
    ensures ParseCommand(CommandLine(ex, prompt, config))
      == Some(Invocation(ex.claudePath, prompt, config.model, IntToString(config.maxTurns), IntendedFlags(ex, config)))
  {
    var flags := SkipPart(ex) + (CiPart(ex) + (ToolsPart(config) + PromptPart(config)));
    assert CommandLine(ex, prompt, config) == BaseCommand(ex, prompt, config) + flags;
    ParseCommandOfBase(ex, prompt, config, flags);
    ParseOptionalFlags(ex, config);
  }

  lemma ParseCommandOfBase(ex: ClaudeExecutor, prompt: string, config: Config, flags: seq<string>)
    ensures ParseCommand(BaseCommand(ex, prompt, config) + flags)
      == match ParseFlags(flags, NoFlags)
         case None => None
         case Some(f) => Some(Invocation(ex.claudePath, prompt, config.model, IntToString(config.maxTurns), f))
  {
    assert (BaseCommand(ex, prompt, config) + flags)[9..] == flags;
  }

  lemma ParseOptionalFlags(ex: ClaudeExecutor, config: Config)
    ensures ParseFlags(SkipPart(ex) + (CiPart(ex) + (ToolsPart(config) + PromptPart(config))), NoFlags)
      == Some(IntendedFlags(ex, config))
  {
    var tools := ToolsPart(config) + PromptPart(config);
    var ci := CiPart(ex) + tools;
    ParseFlagsSkip(ex, ci, NoFlags);
    var a1 := NoFlags.(skipPermissions := ex.skipPermissions);
    ParseFlagsCi(ex, tools, a1);
    var a2 := a1.(noSessionPersistence := ex.ciMode, mcpConfig := if ex.ciMode then ex.mcpConfigPath else None);
    ParseFlagsTools(config, PromptPart(config), a2);
    var a3 := a2.(allowedTools := if config.allowedTools.Tools? then Some(Join(config.allowedTools.names, ",")) else None);
    ParseFlagsPrompt(config, a3);
  }

  /** The optional flags come in a fixed order: permissions, CI isolation, tools, system prompt. */
  lemma FlagOrder(ex: ClaudeExecutor, prompt: string, config: Config)
    requires ex.skipPermissions && ex.ciMode && config.allowedTools.Tools? && Truthy(config.claudeMd)
    ensures var cmd := CommandLine(ex, prompt, config);
      && cmd[9] == "--dangerously-skip-permissions"
      && cmd[10] == "--no-session-persistence"
      && cmd[|cmd| - 4] == "--allowedTools"
      && cmd[|cmd| - 2] == "--append-system-prompt"
  {
  }

  // ---------------------------------------------------------------------
  // Parsing the output
  // ---------------------------------------------------------------------

  /** One entry of the output's `tool_calls` list; absent keys are `None`. */
  datatype RawToolCall = RawToolCall(
    name: Option<string>,
    input: Option<seq<(string, JsonValue)>>,
    output: Option<string>,
    error: Option<string>,
    timestamp: Option<string>)

  /** The output's `usage` object; absent keys are `None`. */
  datatype RawUsage = RawUsage(inputTokens: Option<int>, outputTokens: Option<int>, cacheReadTokens: Option<int>, cacheCreationTokens: Option<int>)

  /** The fields of the CLI's JSON output that the executor reads; absent keys are `None`. */
  datatype RawOutput = RawOutput(
    sessionId: Option<string>,
    result: Option<string>,
    isError: Option<bool>,
    usage: Option<RawUsage>,
    toolCalls: Option<seq<RawToolCall>>,
    numTurns: Option<int>)

  /** `{}`, what an empty or blank stdout stands for. */
  const EmptyOutput := RawOutput(None, None, None, None, None, None)

  /**
   * What `json.loads` and the reads of its fields make of stdout: an output
   * of the expected shape; a `JSONDecodeError`, the one exception
   * `_parse_output` catches; or an exception it does not catch, raised by
   * JSON of another shape: a top level that is not an object, a null
   * `usage` or tool-call entry, or a null or ill-typed value where the trace
   * needs a string, a number or a flag.
   */
  datatype Decoded = Json(output: RawOutput) | NotJson | Uncaught(message: string)

  /** `json.loads(stdout) if stdout.strip() else {}`. */
  function Decode(stdout: string, decode: string -> Decoded): Decoded
  {
    if Strip(stdout) == "" then Json(EmptyOutput) else decode(stdout)
  }

  function UsageOf(usage: Option<RawUsage>): TokenUsage
  {
    match usage
    case None => TokenUsage(0, 0, 0, 0)
    case Some(u) => TokenUsage(u.inputTokens.GetOr(0), u.outputTokens.GetOr(0), u.cacheReadTokens.GetOr(0), u.cacheCreationTokens.GetOr(0))
  }

  function ToolCallOf(call: RawToolCall): ToolCall
  {
    ToolCall(call.name.GetOr("unknown"), call.input.GetOr([]), call.output, call.error, call.timestamp)
  }

  /**
   * A `"timestamp"` that `datetime.fromisoformat` rejects: `timestampError`
   * gives the message of the `ValueError` it raises, `None` for valid text.
   */
  predicate BadTimestamp(call: RawToolCall, timestampError: string -> Option<string>)
  {
    call.timestamp.Some? && timestampError(call.timestamp.value).Some?
  }

  function TimestampMessage(call: RawToolCall, timestampError: string -> Option<string>): string
    requires BadTimestamp(call, timestampError)
  {
    timestampError(call.timestamp.value).value
  }

  predicate TimestampsValid(raw: seq<RawToolCall>, timestampError: string -> Option<string>)
  {
    forall i :: 0 <= i < |raw| ==> !BadTimestamp(raw[i], timestampError)
  }

  /** Entry `i` is the first whose timestamp is rejected. */
  predicate FirstBadTimestamp(raw: seq<RawToolCall>, timestampError: string -> Option<string>, i: int)
  {
    && 0 <= i < |raw| && BadTimestamp(raw[i], timestampError)
    && forall k :: 0 <= k < i ==> !BadTimestamp(raw[k], timestampError)
  }

  /** The tool calls, or the `ValueError` of the first timestamp that does not parse. */
  datatype Extracted = Calls(calls: seq<ToolCall>) | TimestampRejected(message: string)

  /**
   * `_extract_tool_calls`: one tool call per raw entry, in order, an unnamed
   * one called "unknown" and a missing input empty; the first timestamp that
   * does not parse raises.
   */
  method ExtractToolCalls(output: RawOutput, timestampError: string -> Option<string>) returns (r: Extracted)
    ensures var raw := output.toolCalls.GetOr([]);
      && (r.Calls? <==> TimestampsValid(raw, timestampError))
      && (r.Calls? ==> |r.calls| == |raw| && forall i :: 0 <= i < |raw| ==> r.calls[i] == ToolCallOf(raw[i]))
      && (r.TimestampRejected? ==>
            exists i :: FirstBadTimestamp(raw, timestampError, i) && r.message == TimestampMessage(raw[i], timestampError))
  {
    var rawCalls := output.toolCalls.GetOr([]);
    var toolCalls := [];
    for i := 0 to |rawCalls|
      invariant |toolCalls| == i
      invariant forall k :: 0 <= k < i ==> toolCalls[k] == ToolCallOf(rawCalls[k]) && !BadTimestamp(rawCalls[k], timestampError)
    {
      var call := rawCalls[i];
      if call.timestamp.Some? {
        var error := timestampError(call.timestamp.value);
        if error.Some? {
          assert FirstBadTimestamp(rawCalls, timestampError, i);
          return TimestampRejected(error.value);
        }
      }
      toolCalls := toolCalls + [ToolCallOf(call)];
    }
    r := Calls(toolCalls);
  }

  /**
   * `trace` is what `_parse_output` builds from a decoded output: each
   * missing field at its default (the session absent, the result the raw
   * stdout, no error, zero tokens, as many turns as tool calls), one tool
   * call per entry, and every other field at its declared default.
   */
  predicate TraceOfOutput(trace: ExecutionTrace, out: RawOutput, stdout: string, duration: real)
  {
    && trace.sessionId == out.sessionId
    && trace.result == out.result.GetOr(stdout)
    && trace.isError == out.isError.GetOr(false)
    && trace.usage == UsageOf(out.usage)
    && |trace.toolCalls| == |out.toolCalls.GetOr([])|
    && (forall i :: 0 <= i < |trace.toolCalls| ==> trace.toolCalls[i] == ToolCallOf(out.toolCalls.GetOr([])[i]))
    && trace.numTurns == out.numTurns.GetOr(|trace.toolCalls|)
    && trace.durationSeconds == duration
    && trace == EmptyTrace.(sessionId := trace.sessionId, result := trace.result, isError := trace.isError, usage := trace.usage,
                            toolCalls := trace.toolCalls, durationSeconds := duration, numTurns := trace.numTurns)
  }

  /** The fallback trace for output that is not JSON: stdout (or stderr), an error iff stderr is non-empty. */
  function NotJsonTrace(stdout: string, stderr: string, duration: real): ExecutionTrace
  {
    EmptyTrace.(result := if stdout != "" then stdout else stderr, isError := stderr != "", durationSeconds := duration)
  }

  /** The trace, or the exception that escapes `_parse_output`. */
  datatype TraceOutcome = Traced(trace: ExecutionTrace) | Escaped(message: string)

  /**
   * `_parse_output`. A decoded output fills the trace; output that is not
   * JSON gives the fallback trace; JSON of another shape, or a tool call
   * whose timestamp does not parse, raises.
   */
  method ParseOutput(stdout: string, stderr: string, duration: real, decode: string -> Decoded,
                     timestampError: string -> Option<string>) returns (r: TraceOutcome)
    ensures match Decode(stdout, decode)
      case Json(out) =>
        var raw := out.toolCalls.GetOr([]);
        && (r.Escaped? <==> !TimestampsValid(raw, timestampError))
        && (r.Escaped? ==> exists i :: FirstBadTimestamp(raw, timestampError, i) && r.message == TimestampMessage(raw[i], timestampError))
        && (r.Traced? ==> TraceOfOutput(r.trace, out, stdout, duration))
      case NotJson => r == Traced(NotJsonTrace(stdout, stderr, duration))
      case Uncaught(m) => r == Escaped(m)
  {
    var decoded := if Strip(stdout) == "" then Json(EmptyOutput) else decode(stdout);
    match decoded {
      case Json(output) =>
        var usage := UsageOf(output.usage);
        var extracted := ExtractToolCalls(output, timestampError);
        if extracted.TimestampRejected? {
          return Escaped(extracted.message);
        }
        var toolCalls := extracted.calls;
        var numTurns := output.numTurns.GetOr(|toolCalls|);
        r := Traced(EmptyTrace.(
          sessionId := output.sessionId,
          result := output.result.GetOr(stdout),
          isError := output.isError.GetOr(false),
          usage := usage,
          toolCalls := toolCalls,
          durationSeconds := duration,
          numTurns := numTurns));
      case NotJson =>
        r := Traced(NotJsonTrace(stdout, stderr, duration));
      case Uncaught(message) =>
        r := Escaped(message);
    }
  }

  /** Blank stdout is read as `{}`: the result is the stdout itself, no error, no turns. */
  method BlankOutputDefaults(stdout: string, stderr: string, duration: real, decode: string -> Decoded,
                             timestampError: string -> Option<string>) returns (r: TraceOutcome)
    requires Strip(stdout) == ""
    ensures r.Traced?
    ensures r.trace.result == stdout && !r.trace.isError && r.trace.numTurns == 0 && r.trace.toolCalls == []
    ensures r.trace.usage == TokenUsage(0, 0, 0, 0) && r.trace.sessionId.None?
  {
    r := ParseOutput(stdout, stderr, duration, decode, timestampError);
  }

  /** What the subprocess did: finished with its output, ran past the timeout, or could not run. */
  datatype ProcessOutcome = Finished(stdout: string, stderr: string) | TimedOut | Failed(message: string)

  /** The trace of the `except Exception` branch of `run`. */
  function FailedTrace(message: string, duration: real): ExecutionTrace
  {
    EmptyTrace.(result := "Execution failed: " + message, isError := true, durationSeconds := duration)
  }

  /**
   * `ClaudeExecutor.run`, after the process: a timeout becomes an error
   * trace, and so does any other exception, whether the process could not
   * run or parsing its output raised.
   */
  method Run(outcome: ProcessOutcome, duration: real, decode: string -> Decoded, timestampError: string -> Option<string>)
    returns (trace: ExecutionTrace)
    ensures outcome.TimedOut? ==> trace == EmptyTrace.(result := "Execution timed out", isError := true, durationSeconds := duration)
    ensures outcome.Failed? ==> trace == FailedTrace(outcome.message, duration)
    ensures outcome.Finished? ==>
      match Decode(outcome.stdout, decode)
      case Json(out) =>
        var raw := out.toolCalls.GetOr([]);
        && (TimestampsValid(raw, timestampError) ==> TraceOfOutput(trace, out, outcome.stdout, duration))
        && (!TimestampsValid(raw, timestampError) ==>
              exists i :: FirstBadTimestamp(raw, timestampError, i) && trace == FailedTrace(TimestampMessage(raw[i], timestampError), duration))
      case NotJson => trace == NotJsonTrace(outcome.stdout, outcome.stderr, duration)
      case Uncaught(m) => trace == FailedTrace(m, duration)
    ensures trace.durationSeconds == duration
  {
    match outcome {
      case Finished(stdout, stderr) =>
        var parsed := ParseOutput(stdout, stderr, duration, decode, timestampError);
        match parsed {
          case Traced(t) =>
            trace := t;
          case Escaped(message) =>
            trace := FailedTrace(message, duration);
        }
      case TimedOut =>
        trace := EmptyTrace.(result := "Execution timed out", isError := true, durationSeconds := duration);
      case Failed(message) =>
        trace := FailedTrace(message, duration);
    }
  }
}
