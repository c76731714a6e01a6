/**
 * The simplified container manager: the same session guard without a hardware manager,
 * NFC or sensor steps, a networking failure that is only warned about, and a stop whose
 * network cleanup and data unmount are each caught on their own.
 *
 * `set_permissions`, `restart_simplified`, `freeze_simplified` and `unfreeze_simplified`
 * are line-for-line the full variant's and are modelled by the same members there.
 */
module SimplifiedManager {
  import opened Strings
  import opened Host
  import opened ContainerManager

  // ---------------------------------------------------------------------------------
  // do_start_simplified

  /** The network script, whose failure is caught, then the default permissions. */
  function SimplePrepRun(sys: System, faults: set<Op>): Run
  {
    Then(Run([NetStart], false), Attempt(ChmodOps(DefaultPermList(sys), DefaultMode, sys.paths), faults))
  }

  /** ... then the session config and the data bind mount. */
  function SimpleConfigRun(session: Session, sys: System, faults: set<Op>): Run
  {
    Then(SimplePrepRun(sys, faults), SessionConfigRun(session, sys, faults))
  }

  /** Mount the rootfs, set the AIDL version and start the engine; no hardware manager. */
  function SimpleLaunchRun(session: Session, faults: set<Op>): Run
  {
    Then(Then(Then(Step(LoadConfig, faults), Step(MountRootfs(session), faults)),
              Step(SetAidlVersion, faults)),
         Step(Lxc(EngineCall.Start), faults))
  }

  /** The calls `do_start_simplified` issues once the session guard has passed. */
  function SimpleStartRun(session: Session, sys: System, faults: set<Op>): Run
  {
    Then(SimpleConfigRun(session, sys, faults), SimpleLaunchRun(session, faults))
  }

  method SimplePrepare(args: Args, sys: System, faults: set<Op>) returns (raised: bool)
    modifies args.journal
    ensures args.journal.log == old(args.journal.log) + SimplePrepRun(sys, faults).trace
    ensures raised == SimplePrepRun(sys, faults).raised
  {
    ghost var log0 := args.journal.log;
    var warned := args.journal.Exec(NetStart, faults);
    ghost var log1 := args.journal.log;
    raised := SetPermissions(args, None, DefaultMode, sys, faults);
    Chain(log0, Run([NetStart], false), log1, Attempt(ChmodOps(PermTargets(None, sys), DefaultMode, sys.paths), faults),
          args.journal.log);
  }

  method SimpleConfigure(args: Args, session: Session, sys: System, faults: set<Op>) returns (r: Outcome)
    modifies args.journal
    ensures args.journal.log == old(args.journal.log) + SimpleConfigRun(session, sys, faults).trace
    ensures r.Fail? == SimpleConfigRun(session, sys, faults).raised
  {
    ghost var log0 := args.journal.log;
    var raised := SimplePrepare(args, sys, faults);
    if raised { return Fail(Raised); }
    ghost var log1 := args.journal.log;
    r := WriteSessionConfig(args, session, sys, faults);
    Chain(log0, SimplePrepRun(sys, faults), log1, SessionConfigRun(session, sys, faults), args.journal.log);
  }

  method SimpleLaunch(args: Args, session: Session, faults: set<Op>) returns (raised: bool)
    modifies args.journal
    ensures args.journal.log == old(args.journal.log) + SimpleLaunchRun(session, faults).trace
    ensures raised == SimpleLaunchRun(session, faults).raised
  {
    raised := args.journal.Exec(LoadConfig, faults);
    if raised { return; }
    raised := args.journal.Exec(MountRootfs(session), faults);
    if raised { return; }
    raised := args.journal.Exec(SetAidlVersion, faults);
    if raised { return; }
    raised := args.journal.Exec(Lxc(EngineCall.Start), faults);
  }

  /** `do_start_simplified`: the guard, the steps, and the session assigned last. */
  method SimpleDoStart(args: Args, session: Session, sys: System, faults: set<Op>) returns (r: Outcome)
    modifies args, args.journal
    ensures StartedAs(old(args.session), args.session, old(args.journal.log), args.journal.log, r, session,
                      SimpleStartRun(session, sys, faults))
  {
    if args.session.Some? {
      return Fail(AlreadyTracking);
    }
    ghost var log0 := args.journal.log;
    r := SimpleConfigure(args, session, sys, faults);
    if r.Fail? {
      return;
    }
    ghost var log1 := args.journal.log;
    var raised := SimpleLaunch(args, session, faults);
    Chain(log0, SimpleConfigRun(session, sys, faults), log1, SimpleLaunchRun(session, faults), args.journal.log);
    if raised {
      return Fail(Raised);
    }
    args.session := Some(session);
  }

  /**
   * A networking failure is only warned about: whether the network script raises changes
   * neither the calls issued nor the outcome.
   */
  lemma SimpleStartIgnoresNetworking(session: Session, sys: System, faults: set<Op>)
    ensures SimpleStartRun(session, sys, faults + {NetStart}) == SimpleStartRun(session, sys, faults - {NetStart})
  {
    var ops := ChmodOps(DefaultPermList(sys), DefaultMode, sys.paths);
    ChmodOpsOnlyChmod(DefaultPermList(sys), DefaultMode, sys.paths);
    AttemptSameFaults(ops, faults + {NetStart}, faults - {NetStart});
    assert SessionConfigRun(session, sys, faults + {NetStart}) == SessionConfigRun(session, sys, faults - {NetStart});
  }

  /** ... while in the full variant the same failure ends `do_start` at once. */
  lemma NetworkingFailureDiffers(session: Session, sys: System)
    requires sys.configHasSession || "waydroid_data" in session
    ensures DoStartRun(session, sys, {NetStart}).raised
    ensures !SimpleStartRun(session, sys, {NetStart}).raised
  {
    var none: set<Op> := {};
    SimpleStartIgnoresNetworking(session, sys, none);
    assert none + {NetStart} == {NetStart} && none - {NetStart} == none;
    AttemptStopsAtFirstFault(ChmodOps(DefaultPermList(sys), DefaultMode, sys.paths), none);
    assert !SimplePrepRun(sys, none).raised;
    assert !SessionConfigRun(session, sys, none).raised;
    assert !SimpleLaunchRun(session, none).raised;
  }

  /** A completed start ends with the engine start; the session is assigned after it. */
  lemma SimpleStartEndsWithEngineStart(session: Session, sys: System, faults: set<Op>)
    requires !SimpleStartRun(session, sys, faults).raised
    ensures var t := SimpleStartRun(session, sys, faults).trace;
      |t| > 0 && t[|t| - 1] == Lxc(EngineCall.Start) && HardwareStart !in t
  {
    var c, l := SimpleConfigRun(session, sys, faults), SimpleLaunchRun(session, faults);
    assert l.trace == [LoadConfig, MountRootfs(session), SetAidlVersion, Lxc(EngineCall.Start)];
    ChmodOpsOnlyChmod(DefaultPermList(sys), DefaultMode, sys.paths);
    var ops := ChmodOps(DefaultPermList(sys), DefaultMode, sys.paths);
    AttemptStopsAtFirstFault(ops, faults);
    assert HardwareStart !in ops;
    assert HardwareStart !in SessionConfigRun(session, sys, faults).trace;
  }

  // ---------------------------------------------------------------------------------
  // stop_simplified

  /**
   * The steps whose exceptions reach the outer handler: the engine stop (unless already
   * STOPPED), the network cleanup whose own failure is caught, and the rootfs unmount.
   */
  function SimpleTeardownRun(faults: set<Op>, running: bool): Run
  {
    Then(Then(When(running, Step(Lxc(EngineCall.Stop), faults)), Run([NetStop], false)),
         Step(UmountRootfs, faults))
  }

  /** Everything `stop_simplified` issues. */
  function SimpleStopTrace(before: Option<Session>, quit: bool, faults: set<Op>, running: bool): seq<Op>
  {
    var t := SimpleTeardownRun(faults, running);
    if t.raised then t.trace else t.trace + ReleaseTrace(before, quit)
  }

  /** The tracked session after `stop_simplified`. */
  function SimpleStopSession(before: Option<Session>, faults: set<Op>, running: bool): Option<Session>
  {
    if SimpleTeardownRun(faults, running).raised then before else None
  }

  /** The status check, the engine stop and the wait for STOPPED. */
  method SimpleHalt(args: Args, faults: set<Op>) returns (raised: bool)
    requires Lxc(EngineCall.Stop) !in faults && args.engine.Answer(args.engine.polls) != Stopped ==>
      args.engine.Reports(Stopped, args.engine.polls + 1)
    modifies args.journal, args.engine
    ensures var running := old(args.engine.Answer(args.engine.polls)) != Stopped;
      args.journal.log == old(args.journal.log) + When(running, Step(Lxc(EngineCall.Stop), faults)).trace &&
      raised == When(running, Step(Lxc(EngineCall.Stop), faults)).raised
    ensures !raised ==> old(args.engine.polls) < args.engine.polls && args.engine.Answer(args.engine.polls - 1) == Stopped
  {
    var status := args.engine.QueryStatus();
    raised := false;
    if status != Stopped {
      raised := args.journal.Exec(Lxc(EngineCall.Stop), faults);
      if raised { return; }
      args.engine.AwaitStatus(Stopped);
    }
  }

  method SimpleTeardown(args: Args, faults: set<Op>) returns (raised: bool)
    requires Lxc(EngineCall.Stop) !in faults && args.engine.Answer(args.engine.polls) != Stopped ==>
      args.engine.Reports(Stopped, args.engine.polls + 1)
    modifies args.journal, args.engine
    ensures var running := old(args.engine.Answer(args.engine.polls)) != Stopped;
      args.journal.log == old(args.journal.log) + SimpleTeardownRun(faults, running).trace &&
      raised == SimpleTeardownRun(faults, running).raised
    ensures var running := old(args.engine.Answer(args.engine.polls)) != Stopped;
      !(running && Lxc(EngineCall.Stop) in faults) ==>
        old(args.engine.polls) < args.engine.polls && args.engine.Answer(args.engine.polls - 1) == Stopped
  {
    ghost var running := args.engine.Answer(args.engine.polls) != Stopped;
    raised := SimpleHalt(args, faults);
    if raised { return; }
    var warned := args.journal.Exec(NetStop, faults);
    raised := args.journal.Exec(UmountRootfs, faults);
  }

  /** `stop_simplified`: never raises; the session goes only after a completed teardown. */
  method SimpleStop(args: Args, quit: bool, faults: set<Op>)
    requires Lxc(EngineCall.Stop) !in faults && args.engine.Answer(args.engine.polls) != Stopped ==>
      args.engine.Reports(Stopped, args.engine.polls + 1)
    modifies args, args.journal, args.engine
    ensures var running := old(args.engine.Answer(args.engine.polls)) != Stopped;
      args.journal.log == old(args.journal.log) + SimpleStopTrace(old(args.session), quit, faults, running) &&
      args.session == SimpleStopSession(old(args.session), faults, running)
    ensures var running := old(args.engine.Answer(args.engine.polls)) != Stopped;
      !(running && Lxc(EngineCall.Stop) in faults) ==>
        old(args.engine.polls) < args.engine.polls && args.engine.Answer(args.engine.polls - 1) == Stopped
  {
    var raised := SimpleTeardown(args, faults);
    if raised { return; }
    Release(args, quit, faults);
  }

  /**
   * The session is deleted exactly when the engine stop (if made) and the rootfs unmount
   * returned; a failed network cleanup, data unmount or kill never keeps it.
   */
  lemma SimpleStopDeletesSession(before: Option<Session>, faults: set<Op>, running: bool)
    ensures SimpleStopSession(before, faults, running) == None <==>
      before.None? || (UmountRootfs !in faults && !(running && Lxc(EngineCall.Stop) in faults))
    ensures SimpleStopSession(before, faults, running) in {None, before}
  {
  }

  /** Failures of the network cleanup, the data unmount and the kill change nothing. */
  lemma SimpleStopIgnoresCaughtFailures(before: Option<Session>, quit: bool, faults: set<Op>, running: bool, s: Session)
    ensures var more := faults + {NetStop, UmountAllData, SignalOwner(s)};
      SimpleStopTrace(before, quit, more, running) == SimpleStopTrace(before, quit, faults, running) &&
      SimpleStopSession(before, more, running) == SimpleStopSession(before, faults, running)
  {
  }

  /**
   * The signal goes to the owner only with `quit_session`, a tracked session and a
   * completed teardown; the only engine call is the stop, made exactly when not STOPPED.
   */
  lemma SimpleStopCalls(before: Option<Session>, quit: bool, faults: set<Op>, running: bool, s: Session, c: EngineCall)
    ensures SignalOwner(s) in SimpleStopTrace(before, quit, faults, running) <==>
      quit && before == Some(s) && !SimpleTeardownRun(faults, running).raised
    ensures Lxc(c) in SimpleStopTrace(before, quit, faults, running) <==> c == EngineCall.Stop && running
  {
  }
}
