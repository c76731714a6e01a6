/**
 * `main` of the `waydroid` command: it derives the work, configuration and log paths,
 * sets up logging, refuses to act before initialisation unless told to wait for it,
 * dispatches the action (root-only actions refuse non-root users) and turns any error
 * into status 1 with a hint about the log.
 */
module ToolsMain {
  import opened Strings
  import opened ToolsArgs
  import ToolsLogging

  const TempLog := "/tmp/tools.log"
  const RootActions: set<string> := {"init", "upgrade", "container", "shell", "logcat"}
  /** The actions that run before initialisation. */
  const UngatedActions: set<string> := {"init", "first-launch", "log"}
  const LogHint := "Run 'waydroid log' for details."
  const DetailsFlag := "--details-to-stdout"
  const DetailsHint :=
    " Alternatively you can use '" + DetailsFlag + "' to get more output, e.g. 'waydroid " + DetailsFlag + " init'."

  /** The collaborators `main` calls. */
  datatype Call =
    | MakeWorkDir(path: string)
    | ClaimBusName   // "id.waydro.Container" on the system bus, without queueing
    | WaitForInit
    | Init | Upgrade
    | SessionStart | SessionStop
    | ContainerStart | ContainerStop | ContainerRestart | ContainerFreeze | ContainerUnfreeze
    | AppInstall | AppRemove | AppLaunch | AppIntent | AppList
    | PropGet | PropSet
    | Shell | Logcat
    | ShowFullUI | RemoteInitClient | PrintStatus
    | AdbConnect | AdbDisconnect
    | TruncateLog(path: string)
    | TailLog(lines: string, path: string)

  /**
   * What `main` finds around it: the effective uid, the configured work directory, the
   * paths that exist, whether opening the log file fails, the two initialisation checks
   * (before dispatch and after the remote init client), whether another process holds
   * the bus name, and the calls that raise.
   */
  datatype MainEnv = MainEnv(
    euid: int, work: string, paths: set<string>, logOpenFails: bool,
    initialized: bool, initializedAfterClient: bool, nameHeld: bool, raises: set<Call>)

  /** What `main` returns: nothing when it runs to the end, or a status. */
  datatype Returned = NothingReturned | Code(n: int)

  /** The status the process exits with: `sys.exit(None)` is status 0. */
  function ExitStatus(r: Returned): (n: int)
    ensures n != 0 ==> r.Code?
  {
    if r.Code? then r.n else 0
  }

  /* ---------------------------------------------------------------- stages */

  datatype End = Done | Returns(code: int) | Raised
  /** The calls a stretch of `main` makes and how it ends. */
  datatype Stage = Stage(calls: seq<Call>, end: End)

  /** Calls made one after the other; the first that raises ends the stretch. */
  function Issue(cs: seq<Call>, raises: set<Call>): (s: Stage)
    ensures s.end == Done || s.end == Raised
    ensures s.end == Done <==> forall k :: 0 <= k < |cs| ==> cs[k] !in raises
    ensures s.end == Done ==> s.calls == cs
    ensures s.end == Raised ==>
      (0 < |s.calls| <= |cs| && s.calls == cs[..|s.calls|] &&
       s.calls[|s.calls| - 1] in raises &&
       forall k :: 0 <= k < |s.calls| - 1 ==> s.calls[k] !in raises)
  {
    if cs == [] then Stage([], Done)
    else if cs[0] in raises then Stage([cs[0]], Raised)
    else
      var t := Issue(cs[1..], raises);
      Stage([cs[0]] + t.calls, t.end)
  }

  /** `b` runs only when `a` ran to its end. */
  function Then(a: Stage, b: Stage): Stage
  {
    if a.end == Done then Stage(a.calls + b.calls, b.end) else a
  }

  /* ---------------------------------------------------------------- paths */

  const ConfigName := "waydroid.cfg"
  const LogName := "waydroid.log"

  function ConfigPath(work: string): string { work + "/" + ConfigName }
  function DefaultLog(work: string): string { work + "/" + LogName }

  /** The log path: the one under the work directory, unless a non-root run finds it missing. */
  function LogPath(euid: int, work: string, paths: set<string>): string
  {
    if euid != 0 && DefaultLog(work) !in paths then TempLog else DefaultLog(work)
  }

  /** A root run makes the work directory when it does not exist. */
  function MakesWorkDir(env: MainEnv): bool
  {
    env.euid == 0 && env.work !in env.paths
  }

  /** The paths that exist after the work directory is (possibly) made. */
  function PathsAfterMkdir(env: MainEnv): set<string>
  {
    if MakesWorkDir(env) then env.paths + {env.work} else env.paths
  }

  /** The log descriptor logging chooses. */
  function MainLogFd(cl: CommandLine, env: MainEnv): Sink
  {
    ToolsLogging.LogFd(cl.detailsToStdout, LogPath(env.euid, env.work, env.paths), PathsAfterMkdir(env))
  }

  /** The work directory and logging set-up. */
  function SetupRun(cl: CommandLine, env: MainEnv): (s: Stage)
    ensures s.end != Returns(0) && s.end != Returns(1)
  {
    var mk := Issue(if MakesWorkDir(env) then [MakeWorkDir(env.work)] else [], env.raises);
    if mk.end == Done && MainLogFd(cl, env).LogFile? && env.logOpenFails then Stage(mk.calls, Raised)
    else mk
  }

  /**
   * Whether the log file exists when an error is reported: it existed, or logging
   * opened it (which creates it).
   */
  function LogExistsAtError(cl: CommandLine, env: MainEnv): bool
  {
    var log := LogPath(env.euid, env.work, env.paths);
    log in PathsAfterMkdir(env) || (SetupRun(cl, env).end == Done && MainLogFd(cl, env) == LogFile(log))
  }

  /* ---------------------------------------------------------------- gate */

  /** Not initialised, and an action that needs initialisation. */
  predicate Gated(cl: CommandLine, env: MainEnv)
  {
    !env.initialized && cl.action != "" && cl.action !in UngatedActions
  }

  /** The initialisation gate: wait for it under a claimed bus name, or stop with 0. */
  function GateRun(cl: CommandLine, env: MainEnv): Stage
  {
    if !Gated(cl, env) then Stage([], Done)
    else if !cl.waitForInit then Stage([], Returns(0))
    else if env.nameHeld then Stage([ClaimBusName], Returns(1))
    else Issue([ClaimBusName, WaitForInit], env.raises)
  }

  /* ---------------------------------------------------------------- dispatch */

  /** The call an action makes, for every action other than container start, first-launch and log. */
  function ActionCalls(action: string, sub: string): seq<Call>
  {
    if action == "init" then [Init]
    else if action == "upgrade" then [Upgrade]
    else if action == "session" then
      (if sub == "start" then [SessionStart] else if sub == "stop" then [SessionStop] else [])
    else if action == "container" then
      (if sub == "stop" then [ContainerStop] else if sub == "restart" then [ContainerRestart]
       else if sub == "freeze" then [ContainerFreeze] else if sub == "unfreeze" then [ContainerUnfreeze]
       else [])
    else if action == "app" then
      (if sub == "install" then [AppInstall] else if sub == "remove" then [AppRemove]
       else if sub == "launch" then [AppLaunch] else if sub == "intent" then [AppIntent]
       else if sub == "list" then [AppList] else [])
    else if action == "prop" then
      (if sub == "get" then [PropGet] else if sub == "set" then [PropSet] else [])
    else if action == "shell" then [Shell]
    else if action == "logcat" then [Logcat]
    else if action == "show-full-ui" then [ShowFullUI]
    else if action == "status" then [PrintStatus]
    else if action == "adb" then
      (if sub == "connect" then [AdbConnect] else if sub == "disconnect" then [AdbDisconnect] else [])
    else []
  }

  /** An action's own calls: none of the bus name, the wait or the set-up. */
  predicate ActionCall(c: Call)
  {
    !c.MakeWorkDir? && c != ClaimBusName && c != WaitForInit
  }

  /** `container start`: claim the bus name unless already held by this process, then start. */
  function ContainerStartRun(claimed: bool, env: MainEnv): Stage
  {
    if claimed then Issue([ContainerStart], env.raises)
    else if env.nameHeld then Stage([ClaimBusName], Returns(1))
    else Issue([ClaimBusName, ContainerStart], env.raises)
  }

  /** The dispatch on the action, with `claimed` telling whether the bus name is held. */
  function DispatchRun(cl: CommandLine, env: MainEnv, claimed: bool, log: string): Stage
  {
    var a := cl.action;
    if a in RootActions && env.euid != 0 then Stage([], Raised)
    else if a == "container" && cl.subaction == "start" then ContainerStartRun(claimed, env)
    else if a == "first-launch" then
      Then(Issue([RemoteInitClient], env.raises),
           Issue(if env.initializedAfterClient then [ShowFullUI] else [], env.raises))
    else if a == "log" then
      Issue((if cl.clearLog then [TruncateLog(log)] else []) + [TailLog(cl.lines, log)], env.raises)
    else Issue(ActionCalls(a, cl.subaction), env.raises)
  }

  /* ---------------------------------------------------------------- main */

  /** The hint printed after an error. */
  function Hint(argsSet: bool, logExists: bool): string
  {
    LogHint + (if !argsSet || !logExists then DetailsHint else "")
  }

  /** The calls `main` makes, what it returns and the hint it prints after an error. */
  datatype Outcome = Outcome(calls: seq<Call>, returned: Returned, hint: Option<string>)

  function Finish(s: Stage, logExists: bool): Outcome
  {
    match s.end
    case Done => Outcome(s.calls, NothingReturned, None)
    case Returns(c) => Outcome(s.calls, Code(c), None)
    case Raised => Outcome(s.calls, Code(1), Some(Hint(true, logExists)))
  }

  /** Set-up, gate and dispatch, ending at the first stretch that does not run to its end. */
  function StagesRun(cl: CommandLine, env: MainEnv): Stage
  {
    Then(Then(SetupRun(cl, env), GateRun(cl, env)),
         DispatchRun(cl, env, Gated(cl, env) && cl.waitForInit, LogPath(env.euid, env.work, env.paths)))
  }

  /** `main`; `cli` is None when `arguments()` raised an exception (a usage error's `SystemExit(2)` is not modelled). */
  function MainRun(cli: Option<CommandLine>, env: MainEnv): Outcome
  {
    if cli.None? then Outcome([], Code(1), Some(Hint(false, false)))
    else Finish(StagesRun(cli.value, env), LogExistsAtError(cli.value, env))
  }

  /**
   * `main`, making the arguments object and setting up logging on `root` and `registry`.
   * The arguments carry the derived paths; once set-up succeeded the log descriptor is
   * the one logging chose and the root logger holds exactly one handler, for them.
   */
  method MainCommand(cli: Option<CommandLine>, env: MainEnv, root: ToolsLogging.RootLogger,
                     registry: ToolsLogging.Registry)
    returns (returned: Returned, hint: Option<string>, calls: seq<Call>, args: Args?)
    modifies root, registry
    ensures var o := MainRun(cli, env); returned == o.returned && hint == o.hint && calls == o.calls
    ensures args == null <==> cli.None?
    ensures args != null ==>
      (fresh(args) && args.cli == cli.value && args.work == env.work &&
       args.config == ConfigPath(env.work) && args.log == LogPath(env.euid, env.work, env.paths) &&
       args.sudoTimer && args.timeout == 1800)
    ensures args != null && SetupRun(cli.value, env).end == Done ==>
      args.logfd == MainLogFd(cli.value, env) && root.handlers == [ToolsLogging.LogHandler(args)]
  {
    if cli.None? {
      return Code(1), Some(Hint(false, false)), [], null;
    }
    var cl := cli.value;
    var setup, logExists;
    args, setup, logExists := SetUp(cl, env, root, registry);
    var o := Finish(setup, logExists);
    if setup.end != Done {
      return o.returned, o.hint, o.calls, args;
    }
    var gate, claimed := Gate(cl, env);
    o := Finish(Then(setup, gate), logExists);
    if gate.end != Done {
      return o.returned, o.hint, o.calls, args;
    }
    var d := Dispatch(cl, env, claimed, args.log);
    o := Finish(Then(Then(setup, gate), d), logExists);
    returned, hint, calls := o.returned, o.hint, o.calls;
  }

  /**
   * The paths, the work directory and logging: a fresh arguments object with the work,
   * configuration and log paths, and the logging state when set-up ran to its end.
   */
  method SetUp(cl: CommandLine, env: MainEnv, root: ToolsLogging.RootLogger, registry: ToolsLogging.Registry)
    returns (args: Args, s: Stage, logExists: bool)
    modifies root, registry
    ensures s == SetupRun(cl, env) && logExists == LogExistsAtError(cl, env)
    ensures fresh(args) && args.cli == cl && args.work == env.work &&
      args.config == ConfigPath(env.work) && args.log == LogPath(env.euid, env.work, env.paths) &&
      args.sudoTimer && args.timeout == 1800
    ensures s.end == Done ==> args.logfd == MainLogFd(cl, env) && root.handlers == [ToolsLogging.LogHandler(args)]
  {
    args := new Args(cl);
    var mk, existing := DerivePaths(args, env);
    if mk.end != Done {
      return args, mk, args.log in existing;
    }
    var raised, warned := ToolsLogging.Init(args, root, registry, existing, env.logOpenFails);
    s := Stage(mk.calls, if raised then Raised else Done);
    logExists := args.log in existing || (!raised && args.logfd == LogFile(args.log));
  }

  /**
   * The path fields, and the work directory a root run makes when it is missing; a
   * failure to make it leaves the paths as they were.
   */
  method DerivePaths(args: Args, env: MainEnv) returns (mk: Stage, existing: set<string>)
    modifies args
    ensures mk == Issue(if MakesWorkDir(env) then [MakeWorkDir(env.work)] else [], env.raises)
    ensures existing == if mk.end == Done then PathsAfterMkdir(env) else env.paths
    ensures args.work == env.work && args.config == ConfigPath(env.work) &&
      args.log == LogPath(env.euid, env.work, env.paths) && args.sudoTimer && args.timeout == 1800
    ensures args.logfd == old(args.logfd)
  {
    args.work := env.work;
    args.config := args.work + "/" + ConfigName;
    args.log := args.work + "/" + LogName;
    args.sudoTimer := true;
    args.timeout := 1800;
    mk, existing := Stage([], Done), env.paths;
    if env.euid == 0 {
      if args.work !in existing {
        mk := Stage([MakeWorkDir(args.work)], if MakeWorkDir(args.work) in env.raises then Raised else Done);
        if mk.end == Raised {
          return;
        }
        existing := existing + {args.work};
      }
    } else if args.log !in existing {
      args.log := TempLog;
    }
  }

  /** The initialisation gate, and whether the bus name is now held by this process. */
  method Gate(cl: CommandLine, env: MainEnv) returns (s: Stage, claimed: bool)
    ensures s == GateRun(cl, env)
    ensures claimed <==> Gated(cl, env) && cl.waitForInit && !env.nameHeld && ClaimBusName !in env.raises
  {
    s, claimed := Stage([], Done), false;
    if !env.initialized && cl.action != "" && cl.action !in UngatedActions {
      if !cl.waitForInit {
        return Stage([], Returns(0)), false;
      }
      if env.nameHeld {
        return Stage([ClaimBusName], Returns(1)), false;
      }
      if ClaimBusName in env.raises {
        return Stage([ClaimBusName], Raised), false;
      }
      claimed := true;
      s := Stage([ClaimBusName, WaitForInit], if WaitForInit in env.raises then Raised else Done);
      assert [ClaimBusName, WaitForInit][1..] == [WaitForInit];
      assert Issue([WaitForInit], env.raises) == Stage([WaitForInit], s.end);
    }
  }

  /** The dispatch on the action, with the bus name already held or not. */
  method Dispatch(cl: CommandLine, env: MainEnv, claimed: bool, log: string) returns (s: Stage)
    ensures s == DispatchRun(cl, env, claimed, log)
  {
    var a := cl.action;
    if a in RootActions && env.euid != 0 {
      return Stage([], Raised);
    }
    if a == "container" && cl.subaction == "start" {
      var calls: seq<Call> := [];
      if !claimed {
        calls := [ClaimBusName];
        if env.nameHeld {
          return Stage(calls, Returns(1));
        }
        if ClaimBusName in env.raises {
          return Stage(calls, Raised);
        }
      }
      calls := calls + [ContainerStart];
      s := Stage(calls, if ContainerStart in env.raises then Raised else Done);
      assert Issue([ContainerStart], env.raises) == Stage([ContainerStart], s.end);
      assert !claimed ==> Issue([ClaimBusName, ContainerStart], env.raises) == s by {
        if !claimed {
          assert [ClaimBusName, ContainerStart][1..] == [ContainerStart];
        }
      }
    } else if a == "first-launch" {
      s := Stage([RemoteInitClient], Done);
      if RemoteInitClient in env.raises {
        return Stage([RemoteInitClient], Raised);
      }
      assert Issue([RemoteInitClient], env.raises) == s;
      if env.initializedAfterClient {
        s := Stage([RemoteInitClient, ShowFullUI], if ShowFullUI in env.raises then Raised else Done);
        assert Issue([ShowFullUI], env.raises) == Stage([ShowFullUI], s.end);
      } else {
        assert [RemoteInitClient] + [] == [RemoteInitClient];
      }
    } else if a == "log" {
      var calls: seq<Call> := [];
      if cl.clearLog {
        calls := [TruncateLog(log)];
        if TruncateLog(log) in env.raises {
          return Stage(calls, Raised);
        }
      }
      calls := calls + [TailLog(cl.lines, log)];
      s := Stage(calls, if TailLog(cl.lines, log) in env.raises then Raised else Done);
      assert Issue([TailLog(cl.lines, log)], env.raises) == Stage([TailLog(cl.lines, log)], s.end);
      assert cl.clearLog ==> Issue([TruncateLog(log), TailLog(cl.lines, log)], env.raises) == s by {
        if cl.clearLog {
          assert [TruncateLog(log), TailLog(cl.lines, log)][1..] == [TailLog(cl.lines, log)];
        }
      }
      assert !cl.clearLog ==> [] + [TailLog(cl.lines, log)] == [TailLog(cl.lines, log)];
    } else {
      s := Issue(ActionCalls(a, cl.subaction), env.raises);
    }
  }

  /* ---------------------------------------------------------------- properties */

  /**
   * The error hint mentions `--details-to-stdout` exactly when the arguments were never
   * parsed or the log file does not exist.
   */
  lemma HintMentionsDetails(argsSet: bool, logExists: bool)
    ensures Contains(Hint(argsSet, logExists), DetailsFlag) <==> !argsSet || !logExists
  {
    if !argsSet || !logExists {
      var before := " Alternatively you can use '";
      assert DetailsHint[|before|..|before| + |DetailsFlag|] == DetailsFlag;
      assert OccursAt(DetailsHint, DetailsFlag, |before|);
      ContainsIffOccurs(DetailsHint, DetailsFlag);
      ContainsAppended(LogHint, DetailsHint, DetailsFlag);
    } else {
      assert '-' !in LogHint;
      assert Hint(argsSet, logExists) == LogHint;
      MissingCharNotContained(LogHint, DetailsFlag, 0);
    }
  }

  /**
   * Every error ends `main` with status 1 and the hint; status 0 or no status at all
   * comes only from a run that raised nothing.
   */
  lemma ErrorsExitOne(cli: Option<CommandLine>, env: MainEnv)
    ensures var o := MainRun(cli, env);
      (o.hint.Some? ==> o.returned == Code(1)) &&
      (o.hint.Some? <==> cli.None? || StagesRun(cli.value, env).end == Raised) &&
      (cli.None? ==> Contains(o.hint.value, DetailsFlag))
  {
    if cli.None? {
      HintMentionsDetails(false, false);
    }
  }

  /**
   * The configuration sits in the work directory, and so does the log unless a non-root
   * run finds no log there, which then logs to /tmp/tools.log.
   */
  lemma PathsFromWork(env: MainEnv)
    requires env.work != [] && env.work[|env.work| - 1] != '/'
    ensures ToolsLogging.Dirname(ConfigPath(env.work)) == env.work
    ensures var log := LogPath(env.euid, env.work, env.paths);
      (env.euid != 0 && DefaultLog(env.work) !in env.paths ==> log == TempLog) &&
      (env.euid == 0 || DefaultLog(env.work) in env.paths ==> ToolsLogging.Dirname(log) == env.work)
  {
    ToolsLogging.DirnameJoin(env.work, ConfigName);
    ToolsLogging.DirnameJoin(env.work, LogName);
  }

  /**
   * init, upgrade, container, shell and logcat do nothing of their own for a non-root
   * user: `main` ends with status 1, except that the initialisation gate may already
   * have ended it with status 0.
   */
  lemma RootActionsNeedRoot(cl: CommandLine, env: MainEnv)
    requires cl.action in RootActions && env.euid != 0
    ensures var o := MainRun(Some(cl), env);
      (forall k :: 0 <= k < |o.calls| ==> !ActionCall(o.calls[k])) &&
      o.returned == (if Gated(cl, env) && !cl.waitForInit && SetupRun(cl, env).end == Done
                     then Code(0) else Code(1))
  {
    var setup, gate := SetupRun(cl, env), GateRun(cl, env);
    assert setup.calls == [];
    assert forall k :: 0 <= k < |gate.calls| ==> !ActionCall(gate.calls[k]) by {
      if Gated(cl, env) && cl.waitForInit && !env.nameHeld {
        assert gate.calls <= [ClaimBusName, WaitForInit];
      }
    }
  }

  /**
   * Before initialisation an action other than init, first-launch and log stops after
   * set-up: with status 0 without `--wait-for-init`, and with status 1 when another
   * process holds the bus name it would claim to wait under. The exempt actions and an
   * empty action go straight to the dispatch.
   */
  lemma InitGate(cl: CommandLine, env: MainEnv)
    requires SetupRun(cl, env).end == Done
    ensures var o := MainRun(Some(cl), env);
      var setup := SetupRun(cl, env).calls;
      (Gated(cl, env) && !cl.waitForInit ==> o == Outcome(setup, Code(0), None)) &&
      (Gated(cl, env) && cl.waitForInit && env.nameHeld ==>
        o == Outcome(setup + [ClaimBusName], Code(1), None)) &&
      (cl.action == "" || cl.action in UngatedActions ==>
        StagesRun(cl, env) == Then(SetupRun(cl, env),
                                   DispatchRun(cl, env, false, LogPath(env.euid, env.work, env.paths))))
  {
  }

  lemma SetupClaimsNothing(cl: CommandLine, env: MainEnv)
    ensures multiset(SetupRun(cl, env).calls)[ClaimBusName] == 0
    ensures ContainerStart !in SetupRun(cl, env).calls
  {
    var mk := if MakesWorkDir(env) then [MakeWorkDir(env.work)] else [];
    assert SetupRun(cl, env).calls <= mk;
  }

  lemma GateClaimsOnce(cl: CommandLine, env: MainEnv)
    ensures var g := GateRun(cl, env);
      multiset(g.calls)[ClaimBusName] <= 1 &&
      (g.end == Done && Gated(cl, env) ==> cl.waitForInit && multiset(g.calls)[ClaimBusName] == 1) &&
      (!Gated(cl, env) ==> g == Stage([], Done)) &&
      ContainerStart !in g.calls
  {
    if Gated(cl, env) && cl.waitForInit && !env.nameHeld {
      var g := GateRun(cl, env);
      assert g.calls <= [ClaimBusName, WaitForInit];
      assert g.calls == [ClaimBusName] || g.calls == [ClaimBusName, WaitForInit];
    }
  }

  lemma DispatchClaims(cl: CommandLine, env: MainEnv, claimed: bool, log: string)
    requires cl.action == "container" && cl.subaction == "start"
    ensures var d := DispatchRun(cl, env, claimed, log);
      multiset(d.calls)[ClaimBusName] <= (if claimed then 0 else 1) &&
      (env.nameHeld && !claimed ==> ContainerStart !in d.calls && d.end != Done)
  {
    var d := DispatchRun(cl, env, claimed, log);
    if env.euid == 0 {
      if claimed {
        assert d.calls <= [ContainerStart];
      } else if !env.nameHeld {
        assert d.calls <= [ClaimBusName, ContainerStart];
        assert d.calls == [ClaimBusName] || d.calls == [ClaimBusName, ContainerStart];
      }
    }
  }

  /** Counting the claims and finding the container start across three consecutive stretches. */
  lemma ThreeStretches(a: Stage, b: Stage, c: Stage)
    requires multiset(a.calls)[ClaimBusName] == 0 && multiset(b.calls)[ClaimBusName] <= 1
    requires b.end == Done ==> multiset(b.calls)[ClaimBusName] + multiset(c.calls)[ClaimBusName] <= 1
    ensures var t := Then(Then(a, b), c);
      multiset(t.calls)[ClaimBusName] <= 1 &&
      (ContainerStart in t.calls ==> ContainerStart in a.calls + b.calls + c.calls) &&
      (t.end == Done ==> a.end == Done && b.end == Done && c.end == Done)
  {
    if a.end == Done && b.end == Done {
      assert Then(Then(a, b), c).calls == a.calls + b.calls + c.calls;
      assert multiset(a.calls + b.calls + c.calls) == multiset(a.calls) + multiset(b.calls) + multiset(c.calls);
    } else if a.end == Done {
      assert multiset(a.calls + b.calls) == multiset(a.calls) + multiset(b.calls);
    }
  }

  /** `container start` claims the bus name at most once in a run. */
  lemma ContainerStartClaimsOnce(cl: CommandLine, env: MainEnv)
    requires cl.action == "container" && cl.subaction == "start"
    ensures multiset(MainRun(Some(cl), env).calls)[ClaimBusName] <= 1
  {
    StagesClaimOnce(cl, env);
    assert MainRun(Some(cl), env).calls == StagesRun(cl, env).calls;
  }

  lemma StagesClaimOnce(cl: CommandLine, env: MainEnv)
    requires cl.action == "container" && cl.subaction == "start"
    ensures multiset(StagesRun(cl, env).calls)[ClaimBusName] <= 1
  {
    var log := LogPath(env.euid, env.work, env.paths);
    SetupClaimsNothing(cl, env);
    GateClaimsOnce(cl, env);
    GateThenDispatchClaims(cl, env, log);
    ThreeStretches(SetupRun(cl, env), GateRun(cl, env), DispatchRun(cl, env, Gated(cl, env) && cl.waitForInit, log));
  }

  lemma GateThenDispatchClaims(cl: CommandLine, env: MainEnv, log: string)
    requires cl.action == "container" && cl.subaction == "start"
    ensures var g := GateRun(cl, env);
      g.end == Done ==>
        multiset(g.calls)[ClaimBusName] +
        multiset(DispatchRun(cl, env, Gated(cl, env) && cl.waitForInit, log).calls)[ClaimBusName] <= 1
  {
    GateClaimsOnce(cl, env);
    DispatchClaims(cl, env, Gated(cl, env) && cl.waitForInit, log);
  }

  /**
   * When another process holds the bus name, `container start` never starts the
   * container manager and `main` returns a status.
   */
  lemma ContainerStartBlocked(cl: CommandLine, env: MainEnv)
    requires cl.action == "container" && cl.subaction == "start" && env.nameHeld
    ensures var o := MainRun(Some(cl), env);
      ContainerStart !in o.calls && o.returned.Code?
  {
    var setup, gate := SetupRun(cl, env), GateRun(cl, env);
    var claimed := Gated(cl, env) && cl.waitForInit;
    var d := DispatchRun(cl, env, claimed, LogPath(env.euid, env.work, env.paths));
    SetupClaimsNothing(cl, env);
    GateClaimsOnce(cl, env);
    DispatchClaims(cl, env, claimed, LogPath(env.euid, env.work, env.paths));
    ThreeStretches(setup, gate, d);
  }

  /**
   * For a root user past the gate, a bus name held by another process makes
   * `container start` return 1, with no hint, right after the failed claim.
   */
  lemma ContainerStartConflict(cl: CommandLine, env: MainEnv)
    requires cl.action == "container" && cl.subaction == "start"
    requires env.nameHeld && env.euid == 0 && SetupRun(cl, env).end == Done && !Gated(cl, env)
    ensures var o := MainRun(Some(cl), env);
      o.returned == Code(1) && o.hint == None && o.calls == SetupRun(cl, env).calls + [ClaimBusName]
  {
    assert GateRun(cl, env) == Stage([], Done);
    assert SetupRun(cl, env).calls + [] == SetupRun(cl, env).calls;
  }

  /**
   * A root run with its logging on a file logs to the work directory's log, and an
   * error after set-up then gives the hint without the `--details-to-stdout` sentence.
   */
  lemma RootLogsToWorkDir(cl: CommandLine, env: MainEnv)
    requires env.euid == 0 && !cl.detailsToStdout && !env.logOpenFails
    requires env.work != [] && env.work[|env.work| - 1] != '/'
    requires MakeWorkDir(env.work) !in env.raises
    ensures MainLogFd(cl, env) == LogFile(DefaultLog(env.work))
    ensures var o := MainRun(Some(cl), env);
      o.hint.Some? ==> !Contains(o.hint.value, DetailsFlag)
  {
    ToolsLogging.DirnameJoin(env.work, LogName);
    assert env.work in PathsAfterMkdir(env);
    assert SetupRun(cl, env).end == Done;
    assert LogExistsAtError(cl, env);
    HintMentionsDetails(true, true);
    HintAfterParsing(cl, env);
  }

  /** Once the arguments are parsed, an error's hint depends only on whether the log exists. */
  lemma HintAfterParsing(cl: CommandLine, env: MainEnv)
    ensures var o := MainRun(Some(cl), env);
      o.hint.Some? ==> o.hint.value == Hint(true, LogExistsAtError(cl, env))
  {
  }
}
