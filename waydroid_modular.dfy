/**
 * The `waydroid-modular` command line: one command per process, run on a freshly made
 * modular manager, mapped to an exit status.
 */
module ModularCli {
  import opened Strings
  import opened Host
  import opened ModularManager

  datatype Command = RunStep(id: StepId) | RunAll | ShowStatus | ShowDiagnosis | ResetResults

  /** The parsed command line; `--verbose` only changes the log level and is not kept. */
  datatype CommandLine = CommandLine(command: Command, config: string, skipHardware: bool)

  const DefaultConfig := "/etc/waydroid/waydroid.conf"

  /** What the command prints on standard output. */
  datatype Report =
    | Nothing
    | StatusLines(results: seq<Entry>) // "Waydroid Container Status:" and one line per step
    | NoSteps                          // "No steps have been executed yet"
    | FailedSteps(steps: seq<StepId>)  // "Diagnosis complete. Failed steps: ..."
    | AllSucceeded                     // "All steps completed successfully"
    | WasReset                         // "Step results have been reset"

  /** What one invocation issues, its exit status and what it prints. */
  datatype Invocation = Invocation(trace: seq<Op>, exit: int, report: Report)

  /** `status`: the recorded results, or the note that there are none. */
  function StatusReport(results: seq<Entry>): (r: Report)
    ensures r == NoSteps <==> results == []
  {
    if results == [] then NoSteps else StatusLines(results)
  }

  /** `diagnose`: the failed steps and status 1, or the all-clear and status 0. */
  function DiagnosisExit(failed: seq<StepId>): (r: (int, Report))
    ensures r.0 == 0 <==> failed == []
  {
    if failed != [] then (1, FailedSteps(failed)) else (0, AllSucceeded)
  }

  /** A command run on a manager with the given results and the loaded configuration. */
  function CommandRun(cmd: Command, skipHardware: bool, m: seq<Entry>, sys: System, faults: set<Op>): Invocation
  {
    match cmd
    case RunStep(id) =>
      var s := Requested(id, {id}, None, sys, faults);
      Invocation(s.trace, if s.ok then 0 else 1, Nothing)
    case RunAll =>
      var p := if skipHardware then SkipHardware(m, None, sys, faults) else ModularManager.RunAll(m, None, sys, faults);
      Invocation(p.trace, if p.ok then 0 else 1, Nothing)
    case ShowStatus => Invocation([], 0, StatusReport(m))
    case ShowDiagnosis =>
      var d := DiagnosisExit(Diagnose(m));
      Invocation([], d.0, d.1)
    case ResetResults => Invocation([], 0, WasReset)
  }

  /**
   * `main`: a missing configuration file exits with status 1 before anything runs, a
   * configuration that fails to load is an unexpected error (status 1); otherwise the
   * command runs on a new manager, which has recorded nothing.
   */
  function Main(cl: CommandLine, configExists: bool, sys: System, faults: set<Op>): Invocation
  {
    if !configExists then Invocation([], 1, Nothing)
    else if LoadConfigFile(cl.config) in faults then Invocation([LoadConfigFile(cl.config)], 1, Nothing)
    else
      var r := CommandRun(cl.command, cl.skipHardware, [], sys, faults);
      Invocation([LoadConfigFile(cl.config)] + r.trace, r.exit, r.report)
  }

  /** One invocation of `waydroid-modular`, issuing its calls through `journal`. */
  method RunMain(journal: Journal, engine: Engine, cl: CommandLine, configExists: bool, sys: System, faults: set<Op>)
    returns (exit: int, report: Report)
    modifies journal
    ensures var r := Main(cl, configExists, sys, faults);
      journal.log == old(journal.log) + r.trace && exit == r.exit && report == r.report
  {
    report := Nothing;
    if !configExists {
      return 1, Nothing;
    }
    var raised := journal.Exec(LoadConfigFile(cl.config), faults);
    if raised {
      return 1, Nothing;
    }
    var args := new Args(journal, engine);
    var manager := new Manager(args);
    ghost var log1 := journal.log;
    exit, report := RunCommand(manager, cl.command, cl.skipHardware, sys, faults);
    AppendTraces(old(journal.log), [LoadConfigFile(cl.config)], log1,
                 CommandRun(cl.command, cl.skipHardware, [], sys, faults).trace, journal.log);
  }

  /** The command part of `main`, on `manager` (new in `main`, so holding no session). */
  method RunCommand(manager: Manager, cmd: Command, skipHardware: bool, sys: System, faults: set<Op>)
    returns (exit: int, report: Report)
    requires manager.args.session == None && manager.Valid()
    modifies manager, manager.args, manager.args.journal
    ensures var r := CommandRun(cmd, skipHardware, old(manager.results), sys, faults);
      manager.args.journal.log == old(manager.args.journal.log) + r.trace && exit == r.exit && report == r.report
  {
    report := Nothing;
    match cmd
    case RunStep(id) =>
      var ok := RunRequested(manager, id, {id}, sys, faults);
      exit := if ok then 0 else 1;
    case RunAll =>
      var ok := RunAllCommand(manager, skipHardware, sys, faults);
      exit := if ok then 0 else 1;
    case ShowStatus =>
      var results := manager.GetStatus();
      exit, report := 0, StatusReport(results);
    case ShowDiagnosis =>
      var failed := manager.DiagnoseFailures();
      exit, report := if failed != [] then 1 else 0, if failed != [] then FailedSteps(failed) else AllSucceeded;
    case ResetResults =>
      manager.Reset();
      exit, report := 0, WasReset;
  }

  /** `all`, with or without `--skip-hardware`. */
  method RunAllCommand(manager: Manager, skipHardware: bool, sys: System, faults: set<Op>) returns (ok: bool)
    requires manager.args.session == None && manager.Valid()
    modifies manager, manager.args, manager.args.journal
    ensures var p := if skipHardware then SkipHardware(old(manager.results), None, sys, faults)
                     else ModularManager.RunAll(old(manager.results), None, sys, faults);
      manager.args.journal.log == old(manager.args.journal.log) + p.trace && ok == p.ok &&
      manager.results == p.results && manager.Valid()
  {
    if skipHardware {
      ok := manager.RunFirstThree(sys, faults);
      if ok {
        PutSpec(manager.results, Step4, Skipped);
        manager.results := Put(manager.results, Step4, Skipped);
      }
    } else {
      ok := manager.RunAllSteps(sys, faults);
    }
  }

  /**
   * `stepN` exits with status 0 exactly when the configuration loads and the step
   * returns True; with a missing configuration nothing at all is issued.
   */
  lemma StepExit(cl: CommandLine, configExists: bool, sys: System, faults: set<Op>)
    requires cl.command.RunStep?
    ensures var r := Main(cl, configExists, sys, faults);
      (r.exit == 0 <==>
        configExists && LoadConfigFile(cl.config) !in faults &&
        Requested(cl.command.id, {cl.command.id}, None, sys, faults).ok) &&
      (!configExists ==> r.trace == [])
  {
  }

  /**
   * `all` exits with the same status with or without `--skip-hardware`: both return
   * whether steps 1 to 3 succeeded; only without it is the hardware manager started,
   * and only after the first three succeeded.
   */
  lemma SkipHardwareSameExit(config: string, configExists: bool, sys: System, faults: set<Op>)
    ensures var skip := Main(CommandLine(RunAll, config, true), configExists, sys, faults);
      var full := Main(CommandLine(RunAll, config, false), configExists, sys, faults);
      skip.exit == full.exit &&
      HardwareStart !in skip.trace &&
      (HardwareStart in full.trace <==>
        configExists && LoadConfigFile(config) !in faults && FirstThree([], None, sys, faults).ok)
  {
    FirstThreeNoHardware([], None, sys, faults);
    var p := FirstThree([], None, sys, faults);
    if configExists && LoadConfigFile(config) !in faults && p.ok {
      var full := Main(CommandLine(RunAll, config, false), configExists, sys, faults);
      assert full.trace == [LoadConfigFile(config)] + p.trace + Step4Spec(faults).trace;
      assert HardwareStart in Step4Spec(faults).trace;
    }
  }

  /**
   * Each invocation makes a new manager, so `status` always reports that no step has
   * run and `diagnose` always reports success, whatever earlier invocations did.
   */
  lemma FreshManagerReportsNothing(config: string, sys: System, faults: set<Op>)
    requires LoadConfigFile(config) !in faults
    ensures Main(CommandLine(ShowStatus, config, false), true, sys, faults) ==
      Invocation([LoadConfigFile(config)], 0, NoSteps)
    ensures Main(CommandLine(ShowDiagnosis, config, false), true, sys, faults) ==
      Invocation([LoadConfigFile(config)], 0, AllSucceeded)
  {
  }
}
