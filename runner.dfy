/**
 * The evaluation runner: one run of a task under a configuration, the
 * matrix of runs over tasks, configurations, models and repetitions, and
 * the execution summary of a list of results. The isolated environment,
 * the executor and the composite grading are inputs.
 */
module Runner {
  import opened Wrappers
  import opened Text
  import opened Models
  import opened Sorting
  import CompositeGrader

  // ---------------------------------------------------------------------
  // One run
  // ---------------------------------------------------------------------

  /**
   * What `run_single` gives: the result, or the exception that escapes it,
   * either from the grading or from `EvalResult`'s validation of an overall
   * score outside [0, 1].
   */
  datatype SingleOutcome = Ran(result: EvalResult) | GradingRaised(message: string) | ScoreRejected(overallScore: real)

  /** The snapshot of a configuration stored with a trace; CLAUDE.md is cut to its first 200 characters. */
  function SnapshotOf(config: Config): ConfigSnapshot
  {
    ConfigSnapshot(
      config.model,
      if Truthy(config.claudeMd) then Some(Take(config.claudeMd.value, 200)) else None,
      config.skillsPath,
      config.maxTurns)
  }

  /** The executor's trace completed with what `run_single` records after the run. */
  function CompletedTrace(trace: ExecutionTrace, task: Task, config: Config, changes: seq<FileChange>): ExecutionTrace
  {
    trace.(
      fileChanges := changes,
      claudePrompt := task.prompt,
      configSnapshot := SnapshotOf(config),
      maxTurns := config.maxTurns,
      hitTurnLimit := trace.numTurns >= config.maxTurns)
  }

  /**
   * `run_single`, given the executor's trace, the isolator's file changes
   * and the composite grading: the result names the task, the configuration and its
   * model, carries the run index, the completed trace and the grading. A raising
   * grader, or an overall score `EvalResult` refuses, makes it raise.
   */
  function RunSingle(task: Task, config: Config, runIndex: nat, trace: ExecutionTrace, changes: seq<FileChange>,
                     grade: (Task, ExecutionTrace) -> CompositeGrader.CompositeOutcome): (r: SingleOutcome)
    ensures match grade(task, CompletedTrace(trace, task, config, changes))
      case Raised(m) => r == GradingRaised(m)
      case Completed(grades, score, passed) =>
        if UnitScore(score) then r.Ran? && r.result.grades == grades && r.result.overallScore == score && r.result.passed == passed
        else r == ScoreRejected(score)
    ensures r.Ran? ==>
      && r.result.taskId == task.id && r.result.configName == config.name && r.result.model == config.model
      && r.result.runIndex == runIndex
      && r.result.trace.fileChanges == changes && r.result.trace.claudePrompt == task.prompt
      && r.result.trace.maxTurns == config.maxTurns
      && (r.result.trace.hitTurnLimit <==> trace.numTurns >= config.maxTurns)
      && r.result.trace.numTurns == trace.numTurns && r.result.trace.toolCalls == trace.toolCalls
      && r.result.trace.result == trace.result
  {
    var completed := CompletedTrace(trace, task, config, changes);
    match grade(task, completed)
    case Raised(m) => GradingRaised(m)
    case Completed(grades, score, passed) =>
      match NewEvalResult(task.id, config.name, config.model, runIndex, completed, grades, score, passed)
      case Some(result) => Ran(result)
      case None => ScoreRejected(score)
  }

  /** The stored snapshot keeps the model and the turn limit, and at most 200 characters of CLAUDE.md, from its start. */
  lemma SnapshotKeepsPrefix(config: Config)
    ensures SnapshotOf(config).model == config.model && SnapshotOf(config).maxTurns == config.maxTurns
    ensures SnapshotOf(config).claudeMd.Some? <==> Truthy(config.claudeMd)
    ensures Truthy(config.claudeMd) ==>
      var md := SnapshotOf(config).claudeMd.value;
      |md| <= 200 && StartsWith(config.claudeMd.value, md) && (|config.claudeMd.value| <= 200 ==> md == config.claudeMd.value)
  {
    if Truthy(config.claudeMd) {
      var full := config.claudeMd.value;
      var md := Take(full, 200);
      assert full[..|md|] == md;
      StartsWithPrefix(full, |md|);
    }
  }

  lemma StartsWithPrefix(s: string, n: nat)
    requires n <= |s|
    ensures StartsWith(s, s[..n])
  {
  }

  // ---------------------------------------------------------------------
  // The matrix
  // ---------------------------------------------------------------------

  /** One combination of the matrix: a task, the configuration as given, the model it runs with, and the run index. */
  datatype Cell = Cell(task: Task, config: Config, model: string, run: nat)

  /** `models or [config.model]`: no models, or an empty list, mean the configuration's own model. */
  function ModelsFor(config: Config, models: Option<seq<string>>): (ms: seq<string>)
    ensures |ms| == ModelCount(models)
  {
    if models.Some? && models.value != [] then models.value else [config.model]
  }

  function ModelCount(models: Option<seq<string>>): nat
  {
    if models.Some? && models.value != [] then |models.value| else 1
  }

  function RunCells(task: Task, config: Config, model: string, runs: nat): seq<Cell>
  {
    if runs == 0 then [] else RunCells(task, config, model, runs - 1) + [Cell(task, config, model, runs - 1)]
  }

  function ModelCells(task: Task, config: Config, models: seq<string>, runs: nat): seq<Cell>
  {
    if models == [] then []
    else ModelCells(task, config, models[..|models| - 1], runs) + RunCells(task, config, models[|models| - 1], runs)
  }

  function ConfigCells(task: Task, configs: seq<Config>, models: Option<seq<string>>, runs: nat): seq<Cell>
  {
    if configs == [] then []
    else
      var config := configs[|configs| - 1];
      ConfigCells(task, configs[..|configs| - 1], models, runs) + ModelCells(task, config, ModelsFor(config, models), runs)
  }

  /** The combinations `run_matrix` visits, in the order it visits them. */
  function MatrixCells(tasks: seq<Task>, configs: seq<Config>, models: Option<seq<string>>, runs: nat): seq<Cell>
  {
    if tasks == [] then []
    else MatrixCells(tasks[..|tasks| - 1], configs, models, runs) + ConfigCells(tasks[|tasks| - 1], configs, models, runs)
  }

  /** What the isolated environment and the executor produce for one run: the trace and the file changes. */
  type Execute = (Task, Config, nat) -> (ExecutionTrace, seq<FileChange>)

  /** The composite grading of a task's trace, which may raise. */
  type Grade = (Task, ExecutionTrace) -> CompositeGrader.CompositeOutcome

  /** The outcome of one combination: `run_single` on a copy of the configuration with the cell's model. */
  function Outcome(cell: Cell, execute: Execute, grade: Grade): SingleOutcome
  {
    var config := cell.config.(model := cell.model);
    var (trace, changes) := execute(cell.task, config, cell.run);
    RunSingle(cell.task, config, cell.run, trace, changes, grade)
  }

  /** One call of the progress callback, with how many results had been appended when it fired. */
  datatype CallbackCall = CallbackCall(task: Task, config: Config, model: string, run: nat, result: EvalResult, appended: nat)

  /**
   * Every one of `cells` ran and `results` holds their results in order; with a
   * callback, the i-th call reports the i-th result once i + 1 results are appended.
   */
  ghost predicate Tally(results: seq<EvalResult>, calls: seq<CallbackCall>, cells: seq<Cell>,
                        execute: Execute, grade: Grade, hasCallback: bool)
  {
    && |results| == |cells|
    && (forall i {:trigger Outcome(cells[i], execute, grade)} :: 0 <= i < |cells| ==>
          Outcome(cells[i], execute, grade) == Ran(results[i]))
    && |calls| == (if hasCallback then |cells| else 0)
    && (forall i :: 0 <= i < |calls| ==>
          calls[i] == CallbackCall(cells[i].task, cells[i].config, cells[i].model, cells[i].run, results[i], i + 1))
  }

  /** The combinations before the `|results|`-th ran as tallied, and that one raised `failure`: the first that raised. */
  ghost predicate Stopped(results: seq<EvalResult>, calls: seq<CallbackCall>, cells: seq<Cell>, failure: SingleOutcome,
                          execute: Execute, grade: Grade, hasCallback: bool)
  {
    && |results| < |cells|
    && Tally(results, calls, cells[..|results|], execute, grade, hasCallback)
    && !failure.Ran? && failure == Outcome(cells[|results|], execute, grade)
  }

  /** Every one of `cells` runs without raising. */
  ghost predicate AllRan(cells: seq<Cell>, execute: Execute, grade: Grade)
  {
    forall i :: 0 <= i < |cells| ==> Outcome(cells[i], execute, grade).Ran?
  }

  /**
   * `run_matrix`: task, then configuration, then model, then run index, each
   * run appended and then reported. The first combination whose `run_single`
   * raises ends the matrix with that exception (`failure`); the results and
   * callback calls before it are those of the combinations that ran.
   * `MatrixEnds` spells out what this says combination by combination.
   */
  method RunMatrix(tasks: seq<Task>, configs: seq<Config>, models: Option<seq<string>>, runsPerCombo: nat,
                   execute: Execute, grade: Grade, hasCallback: bool)
    returns (results: seq<EvalResult>, calls: seq<CallbackCall>, failure: Option<SingleOutcome>)
    ensures var cells := MatrixCells(tasks, configs, models, runsPerCombo);
      && (failure.None? ==> Tally(results, calls, cells, execute, grade, hasCallback))
      && (failure.Some? ==> Stopped(results, calls, cells, failure.value, execute, grade, hasCallback))
  {
    results, calls, failure := [], [], None;
    ghost var cells: seq<Cell> := [];
    for ti := 0 to |tasks|
      invariant cells == MatrixCells(tasks[..ti], configs, models, runsPerCombo)
      invariant Tally(results, calls, cells, execute, grade, hasCallback)
      invariant failure.None?
    {
      results, calls, failure := RunTask(tasks[ti], configs, models, runsPerCombo, execute, grade, hasCallback,
                                         results, calls, cells);
      MatrixCellsSnoc(tasks, ti, configs, models, runsPerCombo);
      cells := cells + ConfigCells(tasks[ti], configs, models, runsPerCombo);
      if failure.Some? {
        StoppedInMatrix(results, calls, tasks, ti + 1, configs, models, runsPerCombo, failure.value, execute, grade, hasCallback);
        return;
      }
    }
    assert tasks[..|tasks|] == tasks;
  }

  /** The configuration loop of `run_matrix` for one task. */
  method RunTask(task: Task, configs: seq<Config>, models: Option<seq<string>>, runsPerCombo: nat,
                 execute: Execute, grade: Grade, hasCallback: bool,
                 results0: seq<EvalResult>, calls0: seq<CallbackCall>, ghost before: seq<Cell>)
    returns (results: seq<EvalResult>, calls: seq<CallbackCall>, failure: Option<SingleOutcome>)
    requires Tally(results0, calls0, before, execute, grade, hasCallback)
    ensures failure.None? ==>
      Tally(results, calls, before + ConfigCells(task, configs, models, runsPerCombo), execute, grade, hasCallback)
    ensures failure.Some? ==>
      Stopped(results, calls, before + ConfigCells(task, configs, models, runsPerCombo), failure.value, execute, grade, hasCallback)
  {
    results, calls, failure := results0, calls0, None;
    ghost var cells := before;
    for ci := 0 to |configs|
      invariant cells == before + ConfigCells(task, configs[..ci], models, runsPerCombo)
      invariant Tally(results, calls, cells, execute, grade, hasCallback)
      invariant failure.None?
    {
      var config := configs[ci];
      var modelsToTest := ModelsFor(config, models);
      results, calls, failure := RunConfig(task, config, modelsToTest, runsPerCombo, execute, grade, hasCallback,
                                           results, calls, cells);
      ConfigCellsSnoc(before, task, configs, ci, models, runsPerCombo);
      cells := cells + ModelCells(task, config, modelsToTest, runsPerCombo);
      if failure.Some? {
        StoppedInConfigs(results, calls, before, task, configs, ci + 1, models, runsPerCombo, failure.value, execute, grade, hasCallback);
        return;
      }
    }
    assert configs[..|configs|] == configs;
  }

  /** The model loop of `run_matrix` for one task and configuration. */
  method RunConfig(task: Task, config: Config, modelsToTest: seq<string>, runsPerCombo: nat,
                   execute: Execute, grade: Grade, hasCallback: bool,
                   results0: seq<EvalResult>, calls0: seq<CallbackCall>, ghost before: seq<Cell>)
    returns (results: seq<EvalResult>, calls: seq<CallbackCall>, failure: Option<SingleOutcome>)
    requires Tally(results0, calls0, before, execute, grade, hasCallback)
    ensures failure.None? ==>
      Tally(results, calls, before + ModelCells(task, config, modelsToTest, runsPerCombo), execute, grade, hasCallback)
    ensures failure.Some? ==>
      Stopped(results, calls, before + ModelCells(task, config, modelsToTest, runsPerCombo), failure.value, execute, grade, hasCallback)
  {
    results, calls, failure := results0, calls0, None;
    ghost var cells := before;
    for mi := 0 to |modelsToTest|
      invariant cells == before + ModelCells(task, config, modelsToTest[..mi], runsPerCombo)
      invariant Tally(results, calls, cells, execute, grade, hasCallback)
      invariant failure.None?
    {
      var model := modelsToTest[mi];
      results, calls, failure := RunModel(task, config, model, runsPerCombo, execute, grade, hasCallback,
                                          results, calls, cells);
      ModelCellsSnoc(before, task, config, modelsToTest, mi, runsPerCombo);
      cells := cells + RunCells(task, config, model, runsPerCombo);
      if failure.Some? {
        StoppedInModels(results, calls, before, task, config, modelsToTest, mi + 1, runsPerCombo, failure.value, execute, grade, hasCallback);
        return;
      }
    }
    assert modelsToTest[..|modelsToTest|] == modelsToTest;
  }

  /** The run loop of `run_matrix` for one task, configuration and model. */
  method RunModel(task: Task, config: Config, model: string, runsPerCombo: nat,
                  execute: Execute, grade: Grade, hasCallback: bool,
                  results0: seq<EvalResult>, calls0: seq<CallbackCall>, ghost before: seq<Cell>)
    returns (results: seq<EvalResult>, calls: seq<CallbackCall>, failure: Option<SingleOutcome>)
    requires Tally(results0, calls0, before, execute, grade, hasCallback)
    ensures failure.None? ==>
      Tally(results, calls, before + RunCells(task, config, model, runsPerCombo), execute, grade, hasCallback)
    ensures failure.Some? ==>
      Stopped(results, calls, before + RunCells(task, config, model, runsPerCombo), failure.value, execute, grade, hasCallback)
  {
    results, calls, failure := results0, calls0, None;
    ghost var cells := before;
    for runIdx := 0 to runsPerCombo
      invariant cells == before + RunCells(task, config, model, runIdx)
      invariant Tally(results, calls, cells, execute, grade, hasCallback)
      invariant failure.None?
    {
      var cell := Cell(task, config, model, runIdx);
      var outcome := RunCell(cell, execute, grade);
      RunCellsSnoc(before, task, config, model, runIdx);
      if !outcome.Ran? {
        failure := Some(outcome);
        StoppedAt(results, calls, cells, cell, outcome, execute, grade, hasCallback);
        StoppedInRuns(results, calls, before, task, config, model, runIdx + 1, runsPerCombo, outcome, execute, grade, hasCallback);
        return;
      }
      results, calls := Record(results, calls, cell, outcome.result, execute, grade, hasCallback, cells);
      cells := cells + [cell];
    }
  }

  /** The body of the run loop: `run_single` on a copy of the configuration with the cell's model. */
  method RunCell(cell: Cell, execute: Execute, grade: Grade) returns (outcome: SingleOutcome)
    ensures outcome == Outcome(cell, execute, grade)
  {
    var configWithModel := cell.config.(model := cell.model);
    var (trace, changes) := execute(cell.task, configWithModel, cell.run);
    outcome := RunSingle(cell.task, configWithModel, cell.run, trace, changes, grade);
  }

  /** A combination that raises right after those tallied stops the loop there. */
  lemma StoppedAt(results: seq<EvalResult>, calls: seq<CallbackCall>, cells: seq<Cell>, cell: Cell, failure: SingleOutcome,
                  execute: Execute, grade: Grade, hasCallback: bool)
    requires Tally(results, calls, cells, execute, grade, hasCallback)
    requires failure == Outcome(cell, execute, grade) && !failure.Ran?
    ensures Stopped(results, calls, cells + [cell], failure, execute, grade, hasCallback)
  {
    assert (cells + [cell])[..|results|] == cells;
  }

  // The combinations of a loop's first passes open those of all its passes,
  // and one more pass appends its own.

  lemma {:induction false} MatrixCellsPrefix(tasks: seq<Task>, n: nat, configs: seq<Config>, models: Option<seq<string>>, runs: nat)
    requires n <= |tasks|
    ensures MatrixCells(tasks[..n], configs, models, runs) <= MatrixCells(tasks, configs, models, runs)
  {
    if n < |tasks| {
      MatrixCellsPrefix(tasks[..|tasks| - 1], n, configs, models, runs);
      assert tasks[..|tasks| - 1][..n] == tasks[..n];
    } else {
      assert tasks[..n] == tasks;
    }
  }

  lemma {:induction false} ConfigCellsPrefix(task: Task, configs: seq<Config>, n: nat, models: Option<seq<string>>, runs: nat)
    requires n <= |configs|
    ensures ConfigCells(task, configs[..n], models, runs) <= ConfigCells(task, configs, models, runs)
  {
    if n < |configs| {
      ConfigCellsPrefix(task, configs[..|configs| - 1], n, models, runs);
      assert configs[..|configs| - 1][..n] == configs[..n];
    } else {
      assert configs[..n] == configs;
    }
  }

  lemma {:induction false} ModelCellsPrefix(task: Task, config: Config, models: seq<string>, n: nat, runs: nat)
    requires n <= |models|
    ensures ModelCells(task, config, models[..n], runs) <= ModelCells(task, config, models, runs)
  {
    if n < |models| {
      ModelCellsPrefix(task, config, models[..|models| - 1], n, runs);
      assert models[..|models| - 1][..n] == models[..n];
    } else {
      assert models[..n] == models;
    }
  }

  lemma {:induction false} RunCellsPrefix(task: Task, config: Config, model: string, n: nat, runs: nat)
    requires n <= runs
    ensures RunCells(task, config, model, n) <= RunCells(task, config, model, runs)
  {
    if n < runs {
      RunCellsPrefix(task, config, model, n, runs - 1);
    }
  }

  lemma MatrixCellsSnoc(tasks: seq<Task>, ti: nat, configs: seq<Config>, models: Option<seq<string>>, runs: nat)
    requires ti < |tasks|
    ensures MatrixCells(tasks[..ti + 1], configs, models, runs)
      == MatrixCells(tasks[..ti], configs, models, runs) + ConfigCells(tasks[ti], configs, models, runs)
  {
    assert tasks[..ti + 1][..ti] == tasks[..ti];
  }

  lemma ConfigCellsSnoc(before: seq<Cell>, task: Task, configs: seq<Config>, ci: nat, models: Option<seq<string>>, runs: nat)
    requires ci < |configs|
    ensures before + ConfigCells(task, configs[..ci + 1], models, runs)
      == before + ConfigCells(task, configs[..ci], models, runs) + ModelCells(task, configs[ci], ModelsFor(configs[ci], models), runs)
  {
    assert configs[..ci + 1][..ci] == configs[..ci];
  }

  lemma ModelCellsSnoc(before: seq<Cell>, task: Task, config: Config, models: seq<string>, mi: nat, runs: nat)
    requires mi < |models|
    ensures before + ModelCells(task, config, models[..mi + 1], runs)
      == before + ModelCells(task, config, models[..mi], runs) + RunCells(task, config, models[mi], runs)
  {
    assert models[..mi + 1][..mi] == models[..mi];
  }

  lemma RunCellsSnoc(before: seq<Cell>, task: Task, config: Config, model: string, n: nat)
    ensures before + RunCells(task, config, model, n + 1) == before + RunCells(task, config, model, n) + [Cell(task, config, model, n)]
  {
  }

  // A stop within a loop's first passes is a stop of the whole loop.

  lemma StoppedWithin(results: seq<EvalResult>, calls: seq<CallbackCall>, before: seq<Cell>, done: seq<Cell>, whole: seq<Cell>,
                      failure: SingleOutcome, execute: Execute, grade: Grade, hasCallback: bool)
    requires done <= whole
    requires Stopped(results, calls, before + done, failure, execute, grade, hasCallback)
    ensures Stopped(results, calls, before + whole, failure, execute, grade, hasCallback)
  {
    var n := |results|;
    assert (before + whole)[..|before + done|] == before + done;
    assert (before + whole)[..n] == (before + done)[..n];
    assert (before + whole)[n] == (before + done)[n];
  }

  lemma StoppedInMatrix(results: seq<EvalResult>, calls: seq<CallbackCall>, tasks: seq<Task>, n: nat, configs: seq<Config>,
                        models: Option<seq<string>>, runs: nat, failure: SingleOutcome, execute: Execute, grade: Grade, hasCallback: bool)
    requires n <= |tasks|
    requires Stopped(results, calls, MatrixCells(tasks[..n], configs, models, runs), failure, execute, grade, hasCallback)
    ensures Stopped(results, calls, MatrixCells(tasks, configs, models, runs), failure, execute, grade, hasCallback)
  {
    MatrixCellsPrefix(tasks, n, configs, models, runs);
    var done, whole := MatrixCells(tasks[..n], configs, models, runs), MatrixCells(tasks, configs, models, runs);
    assert [] + done == done && [] + whole == whole;
    StoppedWithin(results, calls, [], done, whole, failure, execute, grade, hasCallback);
  }

  lemma StoppedInConfigs(results: seq<EvalResult>, calls: seq<CallbackCall>, before: seq<Cell>, task: Task, configs: seq<Config>,
                         n: nat, models: Option<seq<string>>, runs: nat, failure: SingleOutcome,
                         execute: Execute, grade: Grade, hasCallback: bool)
    requires n <= |configs|
    requires Stopped(results, calls, before + ConfigCells(task, configs[..n], models, runs), failure, execute, grade, hasCallback)
    ensures Stopped(results, calls, before + ConfigCells(task, configs, models, runs), failure, execute, grade, hasCallback)
  {
    ConfigCellsPrefix(task, configs, n, models, runs);
    StoppedWithin(results, calls, before, ConfigCells(task, configs[..n], models, runs), ConfigCells(task, configs, models, runs),
                  failure, execute, grade, hasCallback);
  }

  lemma StoppedInModels(results: seq<EvalResult>, calls: seq<CallbackCall>, before: seq<Cell>, task: Task, config: Config,
                        models: seq<string>, n: nat, runs: nat, failure: SingleOutcome,
                        execute: Execute, grade: Grade, hasCallback: bool)
    requires n <= |models|
    requires Stopped(results, calls, before + ModelCells(task, config, models[..n], runs), failure, execute, grade, hasCallback)
    ensures Stopped(results, calls, before + ModelCells(task, config, models, runs), failure, execute, grade, hasCallback)
  {
    ModelCellsPrefix(task, config, models, n, runs);
    StoppedWithin(results, calls, before, ModelCells(task, config, models[..n], runs), ModelCells(task, config, models, runs),
                  failure, execute, grade, hasCallback);
  }

  lemma StoppedInRuns(results: seq<EvalResult>, calls: seq<CallbackCall>, before: seq<Cell>, task: Task, config: Config,
                      model: string, n: nat, runs: nat, failure: SingleOutcome,
                      execute: Execute, grade: Grade, hasCallback: bool)
    requires n <= runs
    requires Stopped(results, calls, before + RunCells(task, config, model, n), failure, execute, grade, hasCallback)
    ensures Stopped(results, calls, before + RunCells(task, config, model, runs), failure, execute, grade, hasCallback)
  {
    RunCellsPrefix(task, config, model, n, runs);
    StoppedWithin(results, calls, before, RunCells(task, config, model, n), RunCells(task, config, model, runs),
                  failure, execute, grade, hasCallback);
  }

  /** One step of the inner loop: append the result, then report it when there is a callback. */
  method Record(results: seq<EvalResult>, calls: seq<CallbackCall>, cell: Cell, result: EvalResult,
                execute: Execute, grade: Grade, hasCallback: bool, ghost cells: seq<Cell>)
    returns (results': seq<EvalResult>, calls': seq<CallbackCall>)
    requires Tally(results, calls, cells, execute, grade, hasCallback)
    requires Outcome(cell, execute, grade) == Ran(result)
    ensures Tally(results', calls', cells + [cell], execute, grade, hasCallback)
    ensures results' == results + [result]
    ensures calls' == if hasCallback then calls + [CallbackCall(cell.task, cell.config, cell.model, cell.run, result, |results'|)] else calls
  {
    results' := results + [result];
    calls' := calls;
    if hasCallback {
      calls' := calls + [CallbackCall(cell.task, cell.config, cell.model, cell.run, result, |results'|)];
    }
  }

  /**
   * How the matrix ends: with a full tally when nothing raised, or stopped at the
   * first combination that raised.
   */
  lemma MatrixEnds(results: seq<EvalResult>, calls: seq<CallbackCall>, failure: Option<SingleOutcome>, cells: seq<Cell>,
                   execute: Execute, grade: Grade, hasCallback: bool)
    requires failure.None? ==> Tally(results, calls, cells, execute, grade, hasCallback)
    requires failure.Some? ==> Stopped(results, calls, cells, failure.value, execute, grade, hasCallback)
    ensures failure.None? <==> AllRan(cells, execute, grade)
    ensures failure.None? ==> |results| == |cells|
    ensures failure.Some? ==> |results| < |cells| && !failure.value.Ran? && failure.value == Outcome(cells[|results|], execute, grade)
    ensures forall i :: 0 <= i < |results| ==> Outcome(cells[i], execute, grade) == Ran(results[i])
    ensures |calls| == (if hasCallback then |results| else 0)
    ensures forall i :: 0 <= i < |calls| ==>
      calls[i] == CallbackCall(cells[i].task, cells[i].config, cells[i].model, cells[i].run, results[i], i + 1)
  {
    if failure.Some? {
      var n := |results|;
      var prefix := cells[..n];
      assert forall i :: 0 <= i < n ==> prefix[i] == cells[i];
      assert !Outcome(cells[n], execute, grade).Ran?;
    }
  }

  // ---------------------------------------------------------------------
  // Where each combination lands
  // ---------------------------------------------------------------------

  /** `a·b` by repeated addition, so that the index reasoning below stays linear. */
  function Mul(a: nat, b: nat): nat
  {
    if a == 0 then 0 else Mul(a - 1, b) + b
  }

  lemma {:induction false} MulIsProduct(a: nat, b: nat)
    ensures Mul(a, b) == a * b
  {
    if a > 0 {
      MulIsProduct(a - 1, b);
      assert (a - 1) * b + b == a * b;
    }
  }

  lemma {:induction false} RunCellsLength(task: Task, config: Config, model: string, runs: nat)
    ensures |RunCells(task, config, model, runs)| == runs
  {
    if runs > 0 {
      RunCellsLength(task, config, model, runs - 1);
    }
  }

  lemma {:induction false} ModelCellsLength(task: Task, config: Config, models: seq<string>, runs: nat)
    ensures |ModelCells(task, config, models, runs)| == Mul(|models|, runs)
  {
    if models != [] {
      ModelCellsLength(task, config, models[..|models| - 1], runs);
      RunCellsLength(task, config, models[|models| - 1], runs);
    }
  }

  lemma {:induction false} ConfigCellsLength(task: Task, configs: seq<Config>, models: Option<seq<string>>, runs: nat)
    ensures |ConfigCells(task, configs, models, runs)| == Mul(|configs|, Mul(ModelCount(models), runs))
  {
    if configs != [] {
      var config := configs[|configs| - 1];
      ConfigCellsLength(task, configs[..|configs| - 1], models, runs);
      ModelCellsLength(task, config, ModelsFor(config, models), runs);
    }
  }

  lemma {:induction false} MatrixCellsLength(tasks: seq<Task>, configs: seq<Config>, models: Option<seq<string>>, runs: nat)
    ensures |MatrixCells(tasks, configs, models, runs)| == Mul(|tasks|, Mul(|configs|, Mul(ModelCount(models), runs)))
  {
    if tasks != [] {
      MatrixCellsLength(tasks[..|tasks| - 1], configs, models, runs);
      ConfigCellsLength(tasks[|tasks| - 1], configs, models, runs);
    }
  }

  /**
   * `run_matrix` visits |tasks|·|configs|·|models|·runs combinations, with one model per
   * configuration when no models are given; when none raises, it returns that many results
   * (`MatrixEnds`).
   */
  lemma MatrixSize(tasks: seq<Task>, configs: seq<Config>, models: Option<seq<string>>, runs: nat)
    ensures |MatrixCells(tasks, configs, models, runs)| == |tasks| * (|configs| * (ModelCount(models) * runs))
  {
    MatrixCellsLength(tasks, configs, models, runs);
    MulIsProduct(ModelCount(models), runs);
    MulIsProduct(|configs|, ModelCount(models) * runs);
    MulIsProduct(|tasks|, |configs| * (ModelCount(models) * runs));
  }

  lemma {:induction false} RunCellsMembers(task: Task, config: Config, model: string, runs: nat, cell: Cell)
    ensures cell in RunCells(task, config, model, runs)
      <==> cell.task == task && cell.config == config && cell.model == model && cell.run < runs
  {
    if runs > 0 {
      RunCellsMembers(task, config, model, runs - 1, cell);
    }
  }

  lemma {:induction false} ModelCellsMembers(task: Task, config: Config, models: seq<string>, runs: nat, cell: Cell)
    ensures cell in ModelCells(task, config, models, runs)
      <==> cell.task == task && cell.config == config && cell.model in models && cell.run < runs
  {
    if models != [] {
      var init := models[..|models| - 1];
      ModelCellsMembers(task, config, init, runs, cell);
      RunCellsMembers(task, config, models[|models| - 1], runs, cell);
      assert models == init + [models[|models| - 1]];
    }
  }

  lemma {:induction false} ConfigCellsMembers(task: Task, configs: seq<Config>, models: Option<seq<string>>, runs: nat, cell: Cell)
    ensures cell in ConfigCells(task, configs, models, runs)
      <==> cell.task == task && cell.config in configs && cell.model in ModelsFor(cell.config, models) && cell.run < runs
  {
    if configs != [] {
      var init := configs[..|configs| - 1];
      var config := configs[|configs| - 1];
      ConfigCellsMembers(task, init, models, runs, cell);
      ModelCellsMembers(task, config, ModelsFor(config, models), runs, cell);
      assert configs == init + [config];
    }
  }

  /**
   * A combination is visited exactly when its task and configuration are
   * among those given, its model is among those the configuration runs
   * with, and its run index is below the number of runs.
   */
  lemma {:induction false} MatrixCellsMembers(tasks: seq<Task>, configs: seq<Config>, models: Option<seq<string>>, runs: nat, cell: Cell)
    ensures cell in MatrixCells(tasks, configs, models, runs)
      <==> cell.task in tasks && cell.config in configs && cell.model in ModelsFor(cell.config, models) && cell.run < runs
  {
    if tasks != [] {
      var init := tasks[..|tasks| - 1];
      var task := tasks[|tasks| - 1];
      MatrixCellsMembers(init, configs, models, runs, cell);
      ConfigCellsMembers(task, configs, models, runs, cell);
      assert tasks == init + [task];
    }
  }

  /** Every result the matrix returns carries the run index, task, configuration and model of its combination. */
  lemma ResultsCarryTheirCell(cell: Cell, execute: Execute, grade: Grade)
    ensures var o := Outcome(cell, execute, grade);
      o.Ran? ==> o.result.runIndex == cell.run && o.result.taskId == cell.task.id && o.result.model == cell.model
                 && o.result.configName == cell.config.name
  {
  }

  // ---------------------------------------------------------------------
  // Execution summary
  // ---------------------------------------------------------------------

  datatype ExecutionSummary = ExecutionSummary(
    totalResults: nat,
    totalPassed: nat,
    totalFailed: nat,
    totalFilesChanged: nat,
    totalToolCalls: nat,
    hitTurnLimitCount: nat,
    uniqueTasks: nat,
    uniqueConfigs: nat)

  function CountPassed(results: seq<EvalResult>): nat
  {
    if results == [] then 0 else CountPassed(results[..|results| - 1]) + (if results[|results| - 1].passed then 1 else 0)
  }

  function CountFailed(results: seq<EvalResult>): nat
  {
    if results == [] then 0 else CountFailed(results[..|results| - 1]) + (if !results[|results| - 1].passed then 1 else 0)
  }

  function CountHitTurnLimit(results: seq<EvalResult>): nat
  {
    if results == [] then 0 else CountHitTurnLimit(results[..|results| - 1]) + (if results[|results| - 1].trace.hitTurnLimit then 1 else 0)
  }

  function FilesChanged(results: seq<EvalResult>): nat
  {
    if results == [] then 0 else FilesChanged(results[..|results| - 1]) + |results[|results| - 1].trace.fileChanges|
  }

  function ToolCalls(results: seq<EvalResult>): nat
  {
    if results == [] then 0 else ToolCalls(results[..|results| - 1]) + |results[|results| - 1].trace.toolCalls|
  }

  function TaskIds(results: seq<EvalResult>): (ids: seq<string>)
    ensures |ids| == |results| && forall i :: 0 <= i < |results| ==> ids[i] == results[i].taskId
  {
    seq(|results|, i requires 0 <= i < |results| => results[i].taskId)
  }

  function ConfigNames(results: seq<EvalResult>): (names: seq<string>)
    ensures |names| == |results| && forall i :: 0 <= i < |results| ==> names[i] == results[i].configName
  {
    seq(|results|, i requires 0 <= i < |results| => results[i].configName)
  }

  /** `_build_execution_summary`. */
  function ExecutionSummaryOf(results: seq<EvalResult>): ExecutionSummary
  {
    ExecutionSummary(
      |results|,
      CountPassed(results),
      CountFailed(results),
      FilesChanged(results),
      ToolCalls(results),
      CountHitTurnLimit(results),
      |Elements(TaskIds(results))|,
      |Elements(ConfigNames(results))|)
  }

  lemma {:induction false} PassedPlusFailed(results: seq<EvalResult>)
    ensures CountPassed(results) + CountFailed(results) == |results|
  {
    if results != [] { PassedPlusFailed(results[..|results| - 1]); }
  }

  lemma {:induction false} HitTurnLimitBound(results: seq<EvalResult>)
    ensures CountHitTurnLimit(results) <= |results|
  {
    if results != [] { HitTurnLimitBound(results[..|results| - 1]); }
  }

  /** A sequence without repeats has as many distinct elements as entries. */
  lemma {:induction false} DistinctCount(s: seq<string>)
    requires forall i, j :: 0 <= i < j < |s| ==> s[i] != s[j]
    ensures |Elements(s)| == |s|
  {
    if s != [] {
      var init := s[..|s| - 1];
      DistinctCount(init);
      assert Elements(s) == Elements(init) + {s[|s| - 1]};
      assert s[|s| - 1] !in Elements(init);
    }
  }

  /** A sequence has at most as many distinct elements as entries, and at least one when it is not empty. */
  lemma {:induction false} ElementsCountBounds(s: seq<string>)
    ensures |Elements(s)| <= |s|
    ensures s != [] ==> |Elements(s)| >= 1
  {
    if s != [] {
      var init := s[..|s| - 1];
      ElementsCountBounds(init);
      assert Elements(s) == Elements(init) + {s[|s| - 1]};
    }
  }

  /** The number of distinct ids is the length of the sorted list of ids without duplicates. */
  lemma DistinctIdsBySorting(ids: seq<string>)
    ensures |Elements(ids)| == |SortUnique(ids, StrLess)|
  {
    StrLessIsStrictTotalOrder();
    SortUniqueCorrect(ids, StrLess);
    var sorted := SortUnique(ids, StrLess);
    forall i, j | 0 <= i < j < |sorted| ensures sorted[i] != sorted[j] {
      StrictlySortedDistinct(sorted, StrLess, i, j);
    }
    DistinctCount(sorted);
  }

  /**
   * The summary's passed and failed counts add up to the number of results;
   * no count of runs exceeds it; the distinct task and configuration counts
   * are `len(set(...))` of the ids, the length of their sorted distinct list
   * here, and between one and the number of results when there are any.
   */
  lemma ExecutionSummaryConsistent(results: seq<EvalResult>)
    ensures var s := ExecutionSummaryOf(results);
      && s.totalPassed + s.totalFailed == s.totalResults == |results|
      && s.hitTurnLimitCount <= s.totalResults
      && s.uniqueTasks == |SortUnique(TaskIds(results), StrLess)|
      && s.uniqueConfigs == |SortUnique(ConfigNames(results), StrLess)|
      && s.uniqueTasks <= s.totalResults && s.uniqueConfigs <= s.totalResults
      && (results != [] ==> s.uniqueTasks >= 1 && s.uniqueConfigs >= 1)
  {
    PassedPlusFailed(results);
    HitTurnLimitBound(results);
    DistinctIdsBySorting(TaskIds(results));
    DistinctIdsBySorting(ConfigNames(results));
    ElementsCountBounds(TaskIds(results));
    ElementsCountBounds(ConfigNames(results));
  }
}
