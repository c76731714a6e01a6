/**
 * The full container manager: the D-Bus caller check, device-node permissions, the
 * service entry, `do_start`, `stop` and the restart/freeze/unfreeze guards.
 */
module ContainerManager {
  import opened Strings
  import opened Host

  /** The mode `set_permissions` uses by default. */
  const DefaultMode := "777"

  // ---------------------------------------------------------------------------------
  // D-Bus Start: who may start a session

  /**
   * The check made before `do_start`. The list `["0", session["user_id"]]` is built
   * before it is searched, so a session without "user_id" fails even for root; the pid
   * key is only read for a non-root caller.
   */
  function AuthorizeStart(session: Session, uid: nat, pid: nat): (r: Outcome)
    ensures r == Pass <==>
      "user_id" in session &&
      (uid == 0 || (session["user_id"] == DecimalString(uid) &&
                    "pid" in session && session["pid"] == DecimalString(pid)))
    ensures "user_id" !in session ==> r == Fail(MissingKey("user_id"))
    ensures r.Fail? ==> r.error in {MissingKey("user_id"), OtherUser, MissingKey("pid"), InvalidPid}
  {
    DecimalZero(uid);
    var u := DecimalString(uid);
    if "user_id" !in session then Fail(MissingKey("user_id"))
    else if u != "0" && u != session["user_id"] then Fail(OtherUser)
    else if u != "0" && "pid" !in session then Fail(MissingKey("pid"))
    else if u != "0" && DecimalString(pid) != session["pid"] then Fail(InvalidPid)
    else Pass
  }

  /** The `Start` D-Bus method: the caller check, then `do_start`. */
  method DbusStart(args: Args, session: Session, uid: nat, pid: nat, sys: System, faults: set<Op>)
    returns (r: Outcome)
    modifies args, args.journal
    ensures AuthorizeStart(session, uid, pid).Fail? ==>
      r == AuthorizeStart(session, uid, pid) &&
      args.session == old(args.session) && args.journal.log == old(args.journal.log)
    ensures AuthorizeStart(session, uid, pid) == Pass ==>
      StartedAs(old(args.session), args.session, old(args.journal.log), args.journal.log, r, session, DoStartRun(session, sys, faults))
  {
    r := AuthorizeStart(session, uid, pid);
    if r.Fail? {
      return;
    }
    r := DoStart(args, session, sys, faults);
  }

  /** The `GetSession` D-Bus method: the tracked session, stamped with the engine state. */
  method GetSession(args: Args) returns (r: Session)
    modifies args, args.engine
    ensures old(args.session).None? ==>
      r == map[] && args.session == None && args.engine.polls == old(args.engine.polls)
    ensures old(args.session).Some? ==>
      args.engine.polls == old(args.engine.polls) + 1 &&
      r == old(args.session).value["state" := StatusName(args.engine.Answer(old(args.engine.polls)))] &&
      args.session == Some(r)
  {
    if args.session.None? {
      return map[];
    }
    var status := args.engine.QueryStatus();
    r := args.session.value["state" := StatusName(status)];
    args.session := Some(r);
  }

  // ---------------------------------------------------------------------------------
  // The ActiveState check of a systemd unit inside `service`

  /** `s.split(c)[0]`: the text before the first `c`. */
  function Before(s: string, c: char): (r: string)
    ensures |r| <= |s| && r == s[..|r|] && c !in r
    ensures |r| < |s| ==> s[|r|] == c
  {
    if s == [] || s[0] == c then [] else [s[0]] + Before(s[1..], c)
  }

  /** The text after the first `c`. */
  function After(s: string, c: char): (r: string)
    requires c in s
    ensures s == Before(s, c) + [c] + r
  {
    s[|Before(s, c)| + 1..]
  }

  /** `stdout.strip().split('=')[1]` when the stripped output has a '=' at all. */
  function UnitState(stdout: string): (r: Option<string>)
    ensures r.None? <==> '=' !in Strip(stdout)
    ensures r.Some? ==> '=' !in r.value
  {
    var t := Strip(stdout);
    if '=' in t then Some(Before(After(t, '='), '=')) else None
  }

  /** The states in which the unit counts as already running. */
  predicate RunningState(v: string)
  {
    v == "active" || v == "activating" || v == "starting"
  }

  /**
   * Whether `systemctl start <unit>` is issued after reading the unit's ActiveState;
   * output with no '=' at all always leads to a start attempt.
   */
  function UnitStartAttempted(stdout: string): (r: bool)
    ensures '=' !in Strip(stdout) ==> r
  {
    match UnitState(stdout)
    case None => true
    case Some(v) => !RunningState(v)
  }

  /**
   * For a well-formed answer `<key>=<v>` (such as `ActiveState=active`) the value alone
   * decides: a start is issued exactly when the unit is not active, activating or
   * starting.
   */
  lemma ActiveStateDecides(key: string, v: string)
    requires key != [] && !IsSpace(key[0]) && '=' !in key
    requires '=' !in v && (v == [] || !IsSpace(v[|v| - 1]))
    ensures UnitState(key + ['='] + v) == Some(v)
    ensures UnitStartAttempted(key + ['='] + v) <==> !RunningState(v)
  {
    var t := key + ['='] + v;
    BeforeConcat(key, v, '=');
    BeforeAbsent(v, '=');
    assert t[0] == key[0];
    assert t[|t| - 1] == if v == [] then '=' else v[|v| - 1];
    StripClean(t);
  }

  lemma {:induction false} BeforeAbsent(s: string, c: char)
    requires c !in s
    ensures Before(s, c) == s
  {
    if s != [] {
      BeforeAbsent(s[1..], c);
    }
  }

  lemma {:induction false} BeforeConcat(a: string, b: string, c: char)
    requires c !in a
    ensures Before(a + [c] + b, c) == a
  {
    var s := a + [c] + b;
    if a == [] {
      assert s[0] == c;
    } else {
      assert s[0] == a[0];
      assert s[1..] == a[1..] + [c] + b;
      BeforeConcat(a[1..], b, c);
      assert Before(s, c) == [a[0]] + Before(s[1..], c);
    }
  }

  // ---------------------------------------------------------------------------------
  // Device-node permissions

  const FixedNodes: seq<string> := [
    "/dev/ashmem",
    "/dev/sw_sync", "/sys/kernel/debug/sync/sw_sync",
    "/dev/Vcodec", "/dev/MTK_SMI", "/dev/mdp_sync", "/dev/mtk_cmdq",
    "/dev/graphics", "/dev/pvr_sync", "/dev/ion"]

  /** The node list used when none is given. */
  function DefaultPermList(sys: System): seq<string>
  {
    FixedNodes + sys.renderNodes + sys.fbNodes
      + sys.videoNodes + sys.dmaHeapNodes
  }

  /** `if not perm_list`: both None and the empty list select the default list. */
  function PermTargets(permList: Option<seq<string>>, sys: System): seq<string>
  {
    if permList.None? || permList.value == [] then DefaultPermList(sys) else permList.value
  }

  /** One `chmod <mode> -R <path>` per listed path that exists, in list order. */
  function ChmodOps(paths: seq<string>, mode: string, existing: set<string>): (r: seq<Op>)
    ensures |r| <= |paths|
  {
    if paths == [] then []
    else
      var head := if paths[0] in existing then [Chmod(paths[0], mode)] else [];
      head + ChmodOps(paths[1..], mode, existing)
  }

  lemma {:induction false} ChmodOpsConcat(a: seq<string>, b: seq<string>, mode: string, existing: set<string>)
    ensures ChmodOps(a + b, mode, existing) == ChmodOps(a, mode, existing) + ChmodOps(b, mode, existing)
  {
    if a == [] {
      assert a + b == b;
    } else {
      var ab := a + b;
      assert ab[0] == a[0];
      assert ab[1..] == a[1..] + b;
      ChmodOpsConcat(a[1..], b, mode, existing);
      var head := if a[0] in existing then [Chmod(a[0], mode)] else [];
      assert ChmodOps(ab, mode, existing) == head + ChmodOps(ab[1..], mode, existing);
      assert ChmodOps(a, mode, existing) == head + ChmodOps(a[1..], mode, existing);
    }
  }

  /** `set_permissions` issues nothing but chmods. */
  lemma {:induction false} ChmodOpsOnlyChmod(paths: seq<string>, mode: string, existing: set<string>)
    ensures forall k :: 0 <= k < |ChmodOps(paths, mode, existing)| ==> ChmodOps(paths, mode, existing)[k].Chmod?
  {
    if paths != [] {
      ChmodOpsOnlyChmod(paths[1..], mode, existing);
      var head := if paths[0] in existing then [Chmod(paths[0], mode)] else [];
      var r := head + ChmodOps(paths[1..], mode, existing);
      assert forall k :: |head| <= k < |r| ==> r[k] == ChmodOps(paths[1..], mode, existing)[k - |head|];
    }
  }

  /** A path is chmodded exactly when it is listed and exists; the mode is always `mode`. */
  lemma {:induction false} ChmodOpsMembers(paths: seq<string>, mode: string, existing: set<string>, p: string, m: string)
    ensures Chmod(p, m) in ChmodOps(paths, mode, existing) <==> p in paths && p in existing && m == mode
  {
    if paths != [] {
      ChmodOpsMembers(paths[1..], mode, existing, p, m);
      assert p in paths <==> p == paths[0] || p in paths[1..];
    }
  }

  /**
   * The default list is the ten fixed nodes followed by the render, framebuffer, video
   * and DMA-heap matches, so their chmods come in that order.
   */
  lemma DefaultChmodOrder(sys: System, mode: string)
    ensures ChmodOps(DefaultPermList(sys), mode, sys.paths) ==
      ChmodOps(FixedNodes, mode, sys.paths) + ChmodOps(sys.renderNodes, mode, sys.paths)
      + ChmodOps(sys.fbNodes, mode, sys.paths) + ChmodOps(sys.videoNodes, mode, sys.paths)
      + ChmodOps(sys.dmaHeapNodes, mode, sys.paths)
  {
    var g1, g2, g3, g4 := sys.renderNodes, sys.fbNodes,
      sys.videoNodes, sys.dmaHeapNodes;
    ChmodOpsConcat(FixedNodes + g1 + g2 + g3, g4, mode, sys.paths);
    ChmodOpsConcat(FixedNodes + g1 + g2, g3, mode, sys.paths);
    ChmodOpsConcat(FixedNodes + g1, g2, mode, sys.paths);
    ChmodOpsConcat(FixedNodes, g1, mode, sys.paths);
  }

  /** `set_permissions`: chmod every existing target, in order. */
  method SetPermissions(args: Args, permList: Option<seq<string>>, mode: string, sys: System, faults: set<Op>)
    returns (raised: bool)
    modifies args.journal
    ensures args.journal.log == old(args.journal.log) + Attempt(ChmodOps(PermTargets(permList, sys), mode, sys.paths), faults).trace
    ensures raised == Attempt(ChmodOps(PermTargets(permList, sys), mode, sys.paths), faults).raised
  {
    var targets := if permList.None? || permList.value == [] then DefaultPermList(sys) else permList.value;
    raised := ChmodEach(args, targets, mode, sys.paths, faults);
  }

  /** `for path in perm_list: chmod(path, mode)`, where chmod skips a missing path. */
  method ChmodEach(args: Args, targets: seq<string>, mode: string, existing: set<string>, faults: set<Op>)
    returns (raised: bool)
    modifies args.journal
    ensures args.journal.log == old(args.journal.log) + Attempt(ChmodOps(targets, mode, existing), faults).trace
    ensures raised == Attempt(ChmodOps(targets, mode, existing), faults).raised
  {
    var host := args.journal;
    var i := 0;
    while i < |targets|
      invariant 0 <= i <= |targets|
      invariant host.log == old(host.log) + ChmodOps(targets[..i], mode, existing)
      invariant !Attempt(ChmodOps(targets[..i], mode, existing), faults).raised
    {
      ChmodStep(targets, i, mode, existing, faults);
      if targets[i] in existing {
        raised := host.Exec(Chmod(targets[i], mode), faults);
        if raised {
          return;
        }
      }
      i := i + 1;
    }
    assert targets[..i] == targets;
    raised := false;
  }

  /** One more target: its chmod is appended, and a raising chmod ends the whole run. */
  lemma ChmodStep(targets: seq<string>, i: nat, mode: string, existing: set<string>, faults: set<Op>)
    requires i < |targets| && !Attempt(ChmodOps(targets[..i], mode, existing), faults).raised
    ensures ChmodOps(targets[..i + 1], mode, existing) ==
      ChmodOps(targets[..i], mode, existing) + (if targets[i] in existing then [Chmod(targets[i], mode)] else [])
    ensures targets[i] in existing && Chmod(targets[i], mode) in faults ==>
      Attempt(ChmodOps(targets, mode, existing), faults) ==
        Run(ChmodOps(targets[..i], mode, existing) + [Chmod(targets[i], mode)], true)
    ensures !(targets[i] in existing && Chmod(targets[i], mode) in faults) ==>
      !Attempt(ChmodOps(targets[..i + 1], mode, existing), faults).raised
  {
    var a, b := ChmodOps(targets[..i], mode, existing), ChmodOps([targets[i]], mode, existing);
    ChmodOpsConcat(targets[..i], [targets[i]], mode, existing);
    assert targets[..i + 1] == targets[..i] + [targets[i]];
    AttemptConcat(a, b, faults);
    assert targets == targets[..i + 1] + targets[i + 1..];
    ChmodOpsConcat(targets[..i + 1], targets[i + 1..], mode, existing);
    AttemptConcat(a + b, ChmodOps(targets[i + 1..], mode, existing), faults);
  }

  // ---------------------------------------------------------------------------------
  // The schedtune probe inside `do_start`

  /** Making probe0 fails when it is a fault or the directory already exists. */
  predicate Mkdir0Fails(sys: System, faults: set<Op>)
  {
    MkdirProbe0 in faults || sys.probe0Exists
  }

  predicate Mkdir1Fails(sys: System, faults: set<Op>)
  {
    !Mkdir0Fails(sys, faults) && (MkdirProbe1 in faults || sys.probe1Exists)
  }

  /** Which probe directories exist once the `try` clause is over. */
  predicate Made1(sys: System, faults: set<Op>)
  {
    sys.probe1Exists || (!Mkdir0Fails(sys, faults) && !Mkdir1Fails(sys, faults))
  }

  predicate Made0(sys: System, faults: set<Op>)
  {
    sys.probe0Exists || !Mkdir0Fails(sys, faults)
  }

  /**
   * The `except` clause ran its lazy unmount, the call went through and it detached the
   * cgroup: nothing exists under the schedtune path any more.
   */
  predicate Detached(sys: System, faults: set<Op>)
  {
    (Mkdir0Fails(sys, faults) || Mkdir1Fails(sys, faults)) && LazyUmountSchedtune !in faults && sys.umountDetaches
  }

  /** Which probe directories exist when the `finally` clause checks for them. */
  predicate Has1(sys: System, faults: set<Op>)
  {
    Made1(sys, faults) && !Detached(sys, faults)
  }

  predicate Has0(sys: System, faults: set<Op>)
  {
    Made0(sys, faults) && !Detached(sys, faults)
  }

  /** The `try` clause: mkdir probe0 and, if that worked, probe1. */
  function ProbeTried(sys: System, faults: set<Op>): seq<Op>
  {
    if Mkdir0Fails(sys, faults) then [MkdirProbe0] else [MkdirProbe0, MkdirProbe1]
  }

  /** The `except` clause: a lazy unmount when either mkdir failed. */
  function ProbeHandler(sys: System, faults: set<Op>): Run
  {
    When(Mkdir0Fails(sys, faults) || Mkdir1Fails(sys, faults), Step(LazyUmountSchedtune, faults))
  }

  /** The `finally` clause: remove probe1, then probe0, where present. */
  function ProbeCleanup(sys: System, faults: set<Op>): Run
  {
    Then(When(Has1(sys, faults), Step(RmdirProbe1, faults)),
         When(Has0(sys, faults), Step(RmdirProbe0, faults)))
  }

  /** A raise in `finally` replaces the pending one; otherwise the pending one escapes. */
  function ProbeRun(sys: System, faults: set<Op>): Run
  {
    var handler, cleanup := ProbeHandler(sys, faults), ProbeCleanup(sys, faults);
    Run(ProbeTried(sys, faults) + handler.trace + cleanup.trace, handler.raised || cleanup.raised)
  }

  /**
   * A failed mkdir (and only that) leads to the lazy unmount; mkdir failures never escape
   * the block; the directories still present after the unmount are removed, probe1
   * before probe0.
   */
  lemma ProbeUnmountsOnFailure(sys: System, faults: set<Op>)
    ensures LazyUmountSchedtune in ProbeRun(sys, faults).trace <==> Mkdir0Fails(sys, faults) || Mkdir1Fails(sys, faults)
  {
    if !(Mkdir0Fails(sys, faults) || Mkdir1Fails(sys, faults)) {
      assert LazyUmountSchedtune !in ProbeTried(sys, faults);
      assert LazyUmountSchedtune !in ProbeCleanup(sys, faults).trace;
    }
  }

  lemma ProbeRaisesOnlyFromHandlers(sys: System, faults: set<Op>)
    ensures ProbeRun(sys, faults).raised ==>
      LazyUmountSchedtune in faults || RmdirProbe1 in faults || RmdirProbe0 in faults
  {
  }

  /**
   * A probe directory is removed exactly when it exists at the `finally` clause; after an
   * unmount that detached the cgroup none is removed, and when the block never failed
   * both directories it made are removed.
   */
  lemma ProbeRemovesPresent(sys: System, faults: set<Op>)
    ensures Detached(sys, faults) ==>
      RmdirProbe1 !in ProbeRun(sys, faults).trace && RmdirProbe0 !in ProbeRun(sys, faults).trace
    ensures !(Mkdir0Fails(sys, faults) || Mkdir1Fails(sys, faults)) ==>
      ProbeRun(sys, faults).trace == [MkdirProbe0, MkdirProbe1] + Attempt([RmdirProbe1, RmdirProbe0], faults).trace
    ensures Has1(sys, faults) <==> RmdirProbe1 in ProbeRun(sys, faults).trace
    ensures Has0(sys, faults) && !(Has1(sys, faults) && RmdirProbe1 in faults) <==>
      RmdirProbe0 in ProbeRun(sys, faults).trace
  {
    var t := ProbeTried(sys, faults) + ProbeHandler(sys, faults).trace;
    assert RmdirProbe1 !in t && RmdirProbe0 !in t;
    assert ProbeRun(sys, faults).trace == t + ProbeCleanup(sys, faults).trace;
  }

  lemma ProbeRemovesInOrder(sys: System, faults: set<Op>)
    ensures var t := ProbeRun(sys, faults).trace;
      forall i, j :: 0 <= i < |t| && 0 <= j < |t| && t[i] == RmdirProbe1 && t[j] == RmdirProbe0 ==> i < j
  {
    var t := ProbeRun(sys, faults).trace;
    var pre := ProbeTried(sys, faults) + ProbeHandler(sys, faults).trace;
    var c := ProbeCleanup(sys, faults).trace;
    assert t == pre + c;
    assert forall i :: 0 <= i < |pre| ==> pre[i] != RmdirProbe1 && pre[i] != RmdirProbe0;
    assert forall i :: 0 <= i < |c| && c[i] == RmdirProbe0 ==> i == |c| - 1;
  }

  /** The `try` clause; reports whether it failed and which directories it made. */
  method MakeProbes(args: Args, sys: System, faults: set<Op>) returns (failed: bool, made1: bool, made0: bool)
    modifies args.journal
    ensures args.journal.log == old(args.journal.log) + ProbeTried(sys, faults)
    ensures failed == (Mkdir0Fails(sys, faults) || Mkdir1Fails(sys, faults))
    ensures (sys.probe1Exists || made1) == Made1(sys, faults) && (sys.probe0Exists || made0) == Made0(sys, faults)
  {
    failed, made0, made1 := false, false, false;
    var r := args.journal.Exec(MkdirProbe0, faults);
    if r || sys.probe0Exists {
      failed := true;
    } else {
      made0 := true;
      r := args.journal.Exec(MkdirProbe1, faults);
      if r || sys.probe1Exists {
        failed := true;
      } else {
        made1 := true;
      }
    }
  }

  /** The probe block as a whole: `try`, `except`, `finally`. */
  method ProbeSchedtune(args: Args, sys: System, faults: set<Op>) returns (raised: bool)
    modifies args.journal
    ensures args.journal.log == old(args.journal.log) + ProbeRun(sys, faults).trace
    ensures raised == ProbeRun(sys, faults).raised
  {
    var failed, made1, made0 := MakeProbes(args, sys, faults);
    ghost var log1 := args.journal.log;
    var pending, detached := false, false;
    if failed {
      pending := args.journal.Exec(LazyUmountSchedtune, faults);
      detached := !pending && sys.umountDetaches;
    }
    assert args.journal.log == log1 + ProbeHandler(sys, faults).trace;
    assert pending == ProbeHandler(sys, faults).raised;
    raised := RemoveProbes(args, (sys.probe1Exists || made1) && !detached, (sys.probe0Exists || made0) && !detached, faults);
    raised := raised || pending;
  }

  /** The `finally` clause on its own. */
  method RemoveProbes(args: Args, has1: bool, has0: bool, faults: set<Op>) returns (raised: bool)
    modifies args.journal
    ensures var cleanup := Then(When(has1, Step(RmdirProbe1, faults)), When(has0, Step(RmdirProbe0, faults)));
      args.journal.log == old(args.journal.log) + cleanup.trace && raised == cleanup.raised
  {
    raised := false;
    if has1 {
      raised := args.journal.Exec(RmdirProbe1, faults);
      if raised {
        return;
      }
    }
    if has0 {
      raised := args.journal.Exec(RmdirProbe0, faults);
    }
  }

  // ---------------------------------------------------------------------------------
  // do_start

  /** The NFC workaround at start: upstart's `stop nfcd`, else systemd if nfcd is active. */
  function NfcStopRun(sys: System, faults: set<Op>): Run
  {
    if UpstartStop in sys.tools then Step(StopNfcd, faults)
    else if Systemctl in sys.tools then
      Then(Step(QueryNfcdActive, faults), When(sys.nfcdActive, Step(SystemctlStopNfcd, faults)))
    else Skip
  }

  /** The data bind mount for configurations without a session config. */
  function BindRun(session: Session, sys: System): Run
  {
    if sys.configHasSession then Skip
    else if "waydroid_data" in session then Run([BindData(session["waydroid_data"])], false)
    else Run([], true)
  }

  /** The bind mount, which may also raise as a call. */
  function BindStep(session: Session, sys: System, faults: set<Op>): Run
  {
    var b := BindRun(session, sys);
    if b.trace == [] then b else Step(b.trace[0], faults)
  }

  /** Networking, the sensor daemon and the cgroup workaround. */
  function PrepareRun(sys: System, faults: set<Op>): Run
  {
    Then(Then(Step(NetStart, faults),
              When(Sensord in sys.tools, Step(LaunchSensord(sys.hwbinder), faults))),
         When(UpstartStart in sys.tools, Step(StartCgroupLite, faults)))
  }

  /** ... then the schedtune probe. */
  function ProbedRun(sys: System, faults: set<Op>): Run
  {
    Then(PrepareRun(sys, faults), When(sys.schedtuneMounted, ProbeRun(sys, faults)))
  }

  /** ... then the NFC workaround and the default permissions. */
  function HostSetupRun(sys: System, faults: set<Op>): Run
  {
    Then(Then(ProbedRun(sys, faults), NfcStopRun(sys, faults)),
         Attempt(ChmodOps(DefaultPermList(sys), DefaultMode, sys.paths), faults))
  }

  /** The session config, the LXC config read and the data bind mount. */
  function SessionConfigRun(session: Session, sys: System, faults: set<Op>): Run
  {
    Then(Then(Step(GenerateSessionConfig(session), faults), Step(ReadLxcConfig, faults)),
         BindStep(session, sys, faults))
  }

  /** Host setup, then the session config. */
  function ConfigRun(session: Session, sys: System, faults: set<Op>): Run
  {
    Then(HostSetupRun(sys, faults), SessionConfigRun(session, sys, faults))
  }

  /** Mount the rootfs, start the engine and the hardware manager, in that order. */
  function LaunchRun(session: Session, faults: set<Op>): Run
  {
    Then(Then(Then(Then(Step(LoadConfig, faults), Step(MountRootfs(session), faults)),
                   Step(SetAidlVersion, faults)),
              Step(Lxc(EngineCall.Start), faults)),
         Step(HardwareStart, faults))
  }

  /** The calls `do_start` issues once the session guard has passed. */
  function DoStartRun(session: Session, sys: System, faults: set<Op>): Run
  {
    Then(ConfigRun(session, sys, faults), LaunchRun(session, faults))
  }

  /** Networking (its failure propagates), the sensor daemon, the cgroup workaround. */
  method Prepare(args: Args, sys: System, faults: set<Op>) returns (raised: bool)
    modifies args.journal
    ensures args.journal.log == old(args.journal.log) + PrepareRun(sys, faults).trace
    ensures raised == PrepareRun(sys, faults).raised
  {
    var host := args.journal;
    raised := host.Exec(NetStart, faults);
    if raised { return; }
    if Sensord in sys.tools {
      raised := host.Exec(LaunchSensord(sys.hwbinder), faults);
      if raised { return; }
    }
    if UpstartStart in sys.tools {
      raised := host.Exec(StartCgroupLite, faults);
    }
  }

  /** The NFC workaround at start. */
  method StopNfc(args: Args, sys: System, faults: set<Op>) returns (raised: bool)
    modifies args.journal
    ensures args.journal.log == old(args.journal.log) + NfcStopRun(sys, faults).trace
    ensures raised == NfcStopRun(sys, faults).raised
  {
    var host := args.journal;
    raised := false;
    if UpstartStop in sys.tools {
      raised := host.Exec(StopNfcd, faults);
    } else if Systemctl in sys.tools {
      raised := host.Exec(QueryNfcdActive, faults);
      if raised { return; }
      if sys.nfcdActive {
        raised := host.Exec(SystemctlStopNfcd, faults);
      }
    }
  }

  /** Networking and friends, then the schedtune probe when the cgroup is mounted. */
  method PrepareAndProbe(args: Args, sys: System, faults: set<Op>) returns (raised: bool)
    modifies args.journal
    ensures args.journal.log == old(args.journal.log) + ProbedRun(sys, faults).trace
    ensures raised == ProbedRun(sys, faults).raised
  {
    ghost var log0 := args.journal.log;
    raised := Prepare(args, sys, faults);
    if raised { return; }
    ghost var log1 := args.journal.log;
    if sys.schedtuneMounted {
      raised := ProbeSchedtune(args, sys, faults);
    }
    Chain(log0, PrepareRun(sys, faults), log1, When(sys.schedtuneMounted, ProbeRun(sys, faults)), args.journal.log);
  }

  /** ... then the NFC workaround and the default permissions. */
  method SetupHost(args: Args, sys: System, faults: set<Op>) returns (raised: bool)
    modifies args.journal
    ensures args.journal.log == old(args.journal.log) + HostSetupRun(sys, faults).trace
    ensures raised == HostSetupRun(sys, faults).raised
  {
    ghost var log0 := args.journal.log;
    raised := PrepareAndProbe(args, sys, faults);
    if raised { return; }
    ghost var log1 := args.journal.log;
    raised := StopNfc(args, sys, faults);
    if raised { return; }
    Chain(log0, ProbedRun(sys, faults), log1, NfcStopRun(sys, faults), args.journal.log);
    ghost var log2 := args.journal.log;
    raised := SetPermissions(args, None, DefaultMode, sys, faults);
    Chain(log0, Then(ProbedRun(sys, faults), NfcStopRun(sys, faults)), log2,
          Attempt(ChmodOps(DefaultPermList(sys), DefaultMode, sys.paths), faults), args.journal.log);
  }

  /** The session config and the data bind mount; a missing data key raises. */
  method WriteSessionConfig(args: Args, session: Session, sys: System, faults: set<Op>) returns (r: Outcome)
    modifies args.journal
    ensures args.journal.log == old(args.journal.log) + SessionConfigRun(session, sys, faults).trace
    ensures r.Fail? == SessionConfigRun(session, sys, faults).raised
    ensures r.Fail? ==> r.error == Raised || r.error == MissingKey("waydroid_data")
    ensures r == Fail(MissingKey("waydroid_data")) ==> !sys.configHasSession && "waydroid_data" !in session
  {
    var host := args.journal;
    var raised := host.Exec(GenerateSessionConfig(session), faults);
    if raised { return Fail(Raised); }
    raised := host.Exec(ReadLxcConfig, faults);
    if raised { return Fail(Raised); }
    if !sys.configHasSession {
      if "waydroid_data" !in session {
        return Fail(MissingKey("waydroid_data"));
      }
      raised := host.Exec(BindData(session["waydroid_data"]), faults);
      if raised { return Fail(Raised); }
    }
    r := Pass;
  }

  /** Host setup, then the session config. */
  method Configure(args: Args, session: Session, sys: System, faults: set<Op>) returns (r: Outcome)
    modifies args.journal
    ensures args.journal.log == old(args.journal.log) + ConfigRun(session, sys, faults).trace
    ensures r.Fail? == ConfigRun(session, sys, faults).raised
  {
    ghost var log0 := args.journal.log;
    var raised := SetupHost(args, sys, faults);
    if raised { return Fail(Raised); }
    ghost var log1 := args.journal.log;
    r := WriteSessionConfig(args, session, sys, faults);
    Chain(log0, HostSetupRun(sys, faults), log1, SessionConfigRun(session, sys, faults), args.journal.log);
  }

  /** Mount the rootfs, set the AIDL version, start the engine and the hardware manager. */
  method Launch(args: Args, session: Session, faults: set<Op>) returns (raised: bool)
    modifies args.journal
    ensures args.journal.log == old(args.journal.log) + LaunchRun(session, faults).trace
    ensures raised == LaunchRun(session, faults).raised
  {
    var host := args.journal;
    raised := host.Exec(LoadConfig, faults);
    if raised { return; }
    raised := host.Exec(MountRootfs(session), faults);
    if raised { return; }
    raised := host.Exec(SetAidlVersion, faults);
    if raised { return; }
    raised := host.Exec(Lxc(EngineCall.Start), faults);
    if raised { return; }
    raised := host.Exec(HardwareStart, faults);
  }

  method DoStart(args: Args, session: Session, sys: System, faults: set<Op>) returns (r: Outcome)
    modifies args, args.journal
    ensures StartedAs(old(args.session), args.session, old(args.journal.log), args.journal.log, r, session, DoStartRun(session, sys, faults))
  {
    if args.session.Some? {
      return Fail(AlreadyTracking);
    }
    ghost var log0 := args.journal.log;
    r := Configure(args, session, sys, faults);
    if r.Fail? {
      return;
    }
    ghost var log1 := args.journal.log;
    var raised := Launch(args, session, faults);
    Chain(log0, ConfigRun(session, sys, faults), log1, LaunchRun(session, faults), args.journal.log);
    if raised {
      return Fail(Raised);
    }
    args.session := Some(session);
  }

  // ---------------------------------------------------------------------------------
  // What do_start promises

  /** The networking failure propagates: nothing after the network script is issued. */
  lemma DoStartNetworkingFatal(session: Session, sys: System, faults: set<Op>)
    requires NetStart in faults
    ensures DoStartRun(session, sys, faults) == Run([NetStart], true)
  {
  }

  /**
   * With no call raising, `do_start` completes exactly when the data bind mount is not
   * needed or the session names the data directory.
   */
  lemma DoStartWithoutFaults(session: Session, sys: System)
    ensures !DoStartRun(session, sys, {}).raised <==> sys.configHasSession || "waydroid_data" in session
  {
    AttemptStopsAtFirstFault(ChmodOps(DefaultPermList(sys), DefaultMode, sys.paths), {});
    assert !PrepareRun(sys, {}).raised;
    assert !ProbeRun(sys, {}).raised;
    assert !NfcStopRun(sys, {}).raised;
    assert !HostSetupRun(sys, {}).raised;
  }

  /**
   * A completed `do_start` ends with the rootfs mount, the AIDL version, the engine start
   * and the hardware manager, in that order; the session is assigned after all of them.
   */
  lemma DoStartEndsWithLaunch(session: Session, sys: System, faults: set<Op>)
    requires !DoStartRun(session, sys, faults).raised
    ensures var t := DoStartRun(session, sys, faults).trace;
      |t| >= 5 &&
      t[|t| - 5..] == [LoadConfig, MountRootfs(session), SetAidlVersion, Lxc(EngineCall.Start), HardwareStart]
  {
    var c, l := ConfigRun(session, sys, faults), LaunchRun(session, faults);
    assert !c.raised && !l.raised;
    assert l.trace == [LoadConfig, MountRootfs(session), SetAidlVersion, Lxc(EngineCall.Start), HardwareStart];
    var t := c.trace + l.trace;
    assert t[|t| - 5..] == l.trace;
  }

  // ---------------------------------------------------------------------------------
  // stop

  /** The NFC workaround at stop: upstart's `start nfcd`, else systemd if nfcd is enabled. */
  function NfcStartRun(sys: System, faults: set<Op>): Run
  {
    if UpstartStart in sys.tools then Step(StartNfcd, faults)
    else if Systemctl in sys.tools then
      Then(Step(QueryNfcdEnabled, faults), When(sys.nfcdEnabled, Step(SystemctlStartNfcd, faults)))
    else Skip
  }

  /** Kill the sensor daemon when `pidof` names one (its output is stripped first). */
  function SensordKillRun(sys: System, faults: set<Op>): Run
  {
    if Sensord in sys.tools then
      var pid := Strip(sys.pidofSensord);
      Then(Step(PidofSensord, faults), When(pid != "", Step(KillSensord(pid), faults)))
    else Skip
  }

  /** The hardware manager, then the engine stop unless the engine was already stopped. */
  function HaltRun(running: bool, faults: set<Op>): Run
  {
    Then(Step(HardwareStop, faults), When(running, Step(Lxc(EngineCall.Stop), faults)))
  }

  /** Networking, the NFC workaround and the sensor daemon. */
  function ServicesStopRun(sys: System, faults: set<Op>): Run
  {
    Then(Then(Step(NetStop, faults), NfcStartRun(sys, faults)), SensordKillRun(sys, faults))
  }

  /** ... then the rootfs unmount. */
  function AfterHaltRun(sys: System, faults: set<Op>): Run
  {
    Then(ServicesStopRun(sys, faults), Step(UmountRootfs, faults))
  }

  /**
   * The steps of `stop` whose exceptions reach the blanket handler; `running` is whether
   * the status query after the hardware stop reported anything but STOPPED.
   */
  function TeardownRun(sys: System, faults: set<Op>, running: bool): Run
  {
    Then(HaltRun(running, faults), AfterHaltRun(sys, faults))
  }

  /** The data unmount, then the owner signal for a tracked session when quitting. */
  function ReleaseTrace(before: Option<Session>, quit: bool): seq<Op>
  {
    [UmountAllData] + (if before.Some? && quit then [SignalOwner(before.value)] else [])
  }

  /**
   * Everything `stop` issues: the teardown and, only if it completed, the data unmount
   * (whose failure is caught) and the owner signal for a quitting tracked session.
   */
  function StopTrace(before: Option<Session>, quit: bool, sys: System, faults: set<Op>, running: bool): seq<Op>
  {
    var t := TeardownRun(sys, faults, running);
    if t.raised then t.trace else t.trace + ReleaseTrace(before, quit)
  }

  /** The tracked session after `stop`: deleted only when the teardown completed. */
  function StopSession(before: Option<Session>, sys: System, faults: set<Op>, running: bool): Option<Session>
  {
    if TeardownRun(sys, faults, running).raised then before else None
  }

  /** The hardware stop, the status check and, if needed, the engine stop and the wait. */
  method Halt(args: Args, faults: set<Op>) returns (raised: bool)
    requires HardwareStop !in faults && Lxc(EngineCall.Stop) !in faults && args.engine.Answer(args.engine.polls) != Stopped ==>
      args.engine.Reports(Stopped, args.engine.polls + 1)
    modifies args.journal, args.engine
    ensures var running := old(args.engine.Answer(args.engine.polls)) != Stopped;
      args.journal.log == old(args.journal.log) + HaltRun(running, faults).trace &&
      raised == HaltRun(running, faults).raised
    ensures HardwareStop in faults ==> args.engine.polls == old(args.engine.polls)
    ensures !raised ==> old(args.engine.polls) < args.engine.polls && args.engine.Answer(args.engine.polls - 1) == Stopped
  {
    raised := args.journal.Exec(HardwareStop, faults);
    if raised { return; }
    var status := args.engine.QueryStatus();
    if status != Stopped {
      raised := args.journal.Exec(Lxc(EngineCall.Stop), faults);
      if raised { return; }
      args.engine.AwaitStatus(Stopped);
    }
  }

  /** The NFC workaround at stop. */
  method StartNfc(args: Args, sys: System, faults: set<Op>) returns (raised: bool)
    modifies args.journal
    ensures args.journal.log == old(args.journal.log) + NfcStartRun(sys, faults).trace
    ensures raised == NfcStartRun(sys, faults).raised
  {
    raised := false;
    if UpstartStart in sys.tools {
      raised := args.journal.Exec(StartNfcd, faults);
    } else if Systemctl in sys.tools {
      raised := args.journal.Exec(QueryNfcdEnabled, faults);
      if raised { return; }
      if sys.nfcdEnabled {
        raised := args.journal.Exec(SystemctlStartNfcd, faults);
      }
    }
  }

  /** The sensor daemon cleanup. */
  method StopSensord(args: Args, sys: System, faults: set<Op>) returns (raised: bool)
    modifies args.journal
    ensures args.journal.log == old(args.journal.log) + SensordKillRun(sys, faults).trace
    ensures raised == SensordKillRun(sys, faults).raised
  {
    raised := false;
    if Sensord in sys.tools {
      raised := args.journal.Exec(PidofSensord, faults);
      if raised { return; }
      var pid := Strip(sys.pidofSensord);
      if pid != "" {
        raised := args.journal.Exec(KillSensord(pid), faults);
      }
    }
  }

  /** Networking, NFC and sensors, in that order. */
  method StopServices(args: Args, sys: System, faults: set<Op>) returns (raised: bool)
    modifies args.journal
    ensures args.journal.log == old(args.journal.log) + ServicesStopRun(sys, faults).trace
    ensures raised == ServicesStopRun(sys, faults).raised
  {
    ghost var log0 := args.journal.log;
    raised := args.journal.Exec(NetStop, faults);
    if raised { return; }
    ghost var log1 := args.journal.log;
    raised := StartNfc(args, sys, faults);
    if raised { return; }
    Chain(log0, Step(NetStop, faults), log1, NfcStartRun(sys, faults), args.journal.log);
    ghost var log2 := args.journal.log;
    raised := StopSensord(args, sys, faults);
    Chain(log0, Then(Step(NetStop, faults), NfcStartRun(sys, faults)), log2, SensordKillRun(sys, faults), args.journal.log);
  }

  /** Networking, NFC, sensors and the rootfs unmount. */
  method StopAfterHalt(args: Args, sys: System, faults: set<Op>) returns (raised: bool)
    modifies args.journal
    ensures args.journal.log == old(args.journal.log) + AfterHaltRun(sys, faults).trace
    ensures raised == AfterHaltRun(sys, faults).raised
  {
    ghost var log0 := args.journal.log;
    raised := StopServices(args, sys, faults);
    if raised { return; }
    ghost var log1 := args.journal.log;
    raised := args.journal.Exec(UmountRootfs, faults);
    Chain(log0, ServicesStopRun(sys, faults), log1, Step(UmountRootfs, faults), args.journal.log);
  }

  /** The part of `stop` whose exceptions abandon the rest. */
  method Teardown(args: Args, sys: System, faults: set<Op>) returns (raised: bool)
    requires HardwareStop !in faults && Lxc(EngineCall.Stop) !in faults && args.engine.Answer(args.engine.polls) != Stopped ==>
      args.engine.Reports(Stopped, args.engine.polls + 1)
    modifies args.journal, args.engine
    ensures var running := old(args.engine.Answer(args.engine.polls)) != Stopped;
      args.journal.log == old(args.journal.log) + TeardownRun(sys, faults, running).trace &&
      raised == TeardownRun(sys, faults, running).raised
    ensures var running := old(args.engine.Answer(args.engine.polls)) != Stopped;
      !HaltRun(running, faults).raised ==>
        old(args.engine.polls) < args.engine.polls && args.engine.Answer(args.engine.polls - 1) == Stopped
  {
    ghost var running := args.engine.Answer(args.engine.polls) != Stopped;
    ghost var log0 := args.journal.log;
    raised := Halt(args, faults);
    if raised { return; }
    ghost var log1 := args.journal.log;
    raised := StopAfterHalt(args, sys, faults);
    Chain(log0, HaltRun(running, faults), log1, AfterHaltRun(sys, faults), args.journal.log);
  }

  /** The data unmount and the owner signal, whose failures are caught; then the deletion. */
  method Release(args: Args, quit: bool, faults: set<Op>)
    modifies args, args.journal
    ensures args.journal.log == old(args.journal.log) + ReleaseTrace(old(args.session), quit)
    ensures args.session == None
  {
    var ignored := args.journal.Exec(UmountAllData, faults);
    if args.session.Some? {
      if quit {
        ignored := args.journal.Exec(SignalOwner(args.session.value), faults);
      }
      args.session := None;
    }
  }

  /**
   * `stop`: never raises. The data unmount and the owner signal run only when the
   * teardown completed, and their own failures are ignored; so is the deletion of the
   * tracked session.
   */
  method Stop(args: Args, quit: bool, sys: System, faults: set<Op>)
    requires HardwareStop !in faults && Lxc(EngineCall.Stop) !in faults && args.engine.Answer(args.engine.polls) != Stopped ==>
      args.engine.Reports(Stopped, args.engine.polls + 1)
    modifies args, args.journal, args.engine
    ensures var running := old(args.engine.Answer(args.engine.polls)) != Stopped;
      args.journal.log == old(args.journal.log) + StopTrace(old(args.session), quit, sys, faults, running) &&
      args.session == StopSession(old(args.session), sys, faults, running)
    ensures var running := old(args.engine.Answer(args.engine.polls)) != Stopped;
      !HaltRun(running, faults).raised ==>
        old(args.engine.polls) < args.engine.polls && args.engine.Answer(args.engine.polls - 1) == Stopped
  {
    var raised := Teardown(args, sys, faults);
    if raised { return; }
    Release(args, quit, faults);
  }

  // ---------------------------------------------------------------------------------
  // What stop promises

  lemma NfcStartRaisesOnFault(sys: System, faults: set<Op>)
    ensures RaisesOnFault(NfcStartRun(sys, faults), faults)
  {
    if UpstartStart in sys.tools {
      StepRaisesOnFault(StartNfcd, faults);
    } else if Systemctl in sys.tools {
      StepRaisesOnFault(QueryNfcdEnabled, faults);
      StepRaisesOnFault(SystemctlStartNfcd, faults);
      WhenRaisesOnFault(sys.nfcdEnabled, Step(SystemctlStartNfcd, faults), faults);
      ThenRaisesOnFault(Step(QueryNfcdEnabled, faults), When(sys.nfcdEnabled, Step(SystemctlStartNfcd, faults)), faults);
    }
  }

  lemma SensordKillRaisesOnFault(sys: System, faults: set<Op>)
    ensures RaisesOnFault(SensordKillRun(sys, faults), faults)
  {
    if Sensord in sys.tools {
      var pid := Strip(sys.pidofSensord);
      var kill := Step(KillSensord(pid), faults);
      StepRaisesOnFault(PidofSensord, faults);
      StepRaisesOnFault(KillSensord(pid), faults);
      WhenRaisesOnFault(pid != "", kill, faults);
      ThenRaisesOnFault(Step(PidofSensord, faults), When(pid != "", kill), faults);
    }
  }

  /** Every teardown step is fatal: the teardown raises exactly when an issued call raised. */
  lemma TeardownRaisesOnFault(sys: System, faults: set<Op>, running: bool)
    ensures RaisesOnFault(TeardownRun(sys, faults, running), faults)
  {
    var halt, net, nfc, sensord, umount :=
      Step(HardwareStop, faults), Step(NetStop, faults), NfcStartRun(sys, faults),
      SensordKillRun(sys, faults), Step(UmountRootfs, faults);
    StepRaisesOnFault(HardwareStop, faults);
    StepRaisesOnFault(Lxc(EngineCall.Stop), faults);
    WhenRaisesOnFault(running, Step(Lxc(EngineCall.Stop), faults), faults);
    ThenRaisesOnFault(halt, When(running, Step(Lxc(EngineCall.Stop), faults)), faults);
    StepRaisesOnFault(NetStop, faults);
    NfcStartRaisesOnFault(sys, faults);
    SensordKillRaisesOnFault(sys, faults);
    StepRaisesOnFault(UmountRootfs, faults);
    ThenRaisesOnFault(net, nfc, faults);
    ThenRaisesOnFault(Then(net, nfc), sensord, faults);
    ThenRaisesOnFault(ServicesStopRun(sys, faults), umount, faults);
    ThenRaisesOnFault(HaltRun(running, faults), AfterHaltRun(sys, faults), faults);
  }

  /**
   * The tracked session survives `stop` exactly when some teardown call raised: it is
   * deleted iff every issued teardown call returned normally.
   */
  lemma StopDeletesSessionIffTeardownCompletes(before: Option<Session>, sys: System, faults: set<Op>, running: bool)
    ensures var t := TeardownRun(sys, faults, running).trace;
      StopSession(before, sys, faults, running) == None <==>
        before.None? || forall k :: 0 <= k < |t| ==> t[k] !in faults
    ensures StopSession(before, sys, faults, running) in {None, before}
  {
    TeardownRaisesOnFault(sys, faults, running);
  }

  /** The calls the teardown may issue after the engine is stopped. */
  predicate AfterHaltOp(op: Op)
  {
    || op in {NetStop, StartNfcd, QueryNfcdEnabled, SystemctlStartNfcd, PidofSensord, UmountRootfs}
    || op.KillSensord?
  }

  /** The calls the teardown may issue. */
  predicate TeardownOp(op: Op)
  {
    op in {HardwareStop, Lxc(EngineCall.Stop)} || AfterHaltOp(op)
  }

  lemma AfterHaltAvoids(sys: System, faults: set<Op>, x: Op)
    requires !AfterHaltOp(x)
    ensures x !in AfterHaltRun(sys, faults).trace
  {
    var net, nfc, sensord := Step(NetStop, faults), NfcStartRun(sys, faults), SensordKillRun(sys, faults);
    assert x !in nfc.trace;
    assert x !in sensord.trace;
    ThenAvoids(net, nfc, x);
    ThenAvoids(Then(net, nfc), sensord, x);
    ThenAvoids(ServicesStopRun(sys, faults), Step(UmountRootfs, faults), x);
  }

  /** The teardown issues nothing but teardown calls. */
  lemma TeardownAvoids(sys: System, faults: set<Op>, running: bool, x: Op)
    requires !TeardownOp(x)
    ensures x !in TeardownRun(sys, faults, running).trace
  {
    AfterHaltAvoids(sys, faults, x);
    ThenAvoids(HaltRun(running, faults), AfterHaltRun(sys, faults), x);
  }

  /**
   * SIGUSR1 goes to a session's owner exactly when `quit_session` is set, that session is
   * tracked and the teardown completed; the data unmount follows every completed teardown.
   */
  lemma StopSignalsOwner(before: Option<Session>, quit: bool, sys: System, faults: set<Op>, running: bool, s: Session)
    ensures SignalOwner(s) in StopTrace(before, quit, sys, faults, running) <==>
      quit && before == Some(s) && !TeardownRun(sys, faults, running).raised
    ensures UmountAllData in StopTrace(before, quit, sys, faults, running) <==> !TeardownRun(sys, faults, running).raised
  {
    TeardownAvoids(sys, faults, running, SignalOwner(s));
    TeardownAvoids(sys, faults, running, UmountAllData);
  }

  /**
   * The only engine call `stop` makes is the stop itself, made exactly when the hardware
   * stop returned and the engine was not already STOPPED.
   */
  lemma StopEngineCalls(before: Option<Session>, quit: bool, sys: System, faults: set<Op>, running: bool, c: EngineCall)
    ensures Lxc(c) in StopTrace(before, quit, sys, faults, running) <==>
      c == EngineCall.Stop && running && HardwareStop !in faults
  {
    AfterHaltAvoids(sys, faults, Lxc(EngineCall.Stop));
    if c != EngineCall.Stop {
      TeardownAvoids(sys, faults, running, Lxc(c));
    }
  }

  lemma NfcStartSameFaults(sys: System, faults: set<Op>, more: set<Op>)
    requires forall op :: op in more - faults ==> !TeardownOp(op)
    requires faults <= more
    ensures NfcStartRun(sys, more) == NfcStartRun(sys, faults)
  {
    assert TeardownOp(StartNfcd) && TeardownOp(QueryNfcdEnabled) && TeardownOp(SystemctlStartNfcd);
  }

  lemma SensordKillSameFaults(sys: System, faults: set<Op>, more: set<Op>)
    requires forall op :: op in more - faults ==> !TeardownOp(op)
    requires faults <= more
    ensures SensordKillRun(sys, more) == SensordKillRun(sys, faults)
  {
    if Sensord in sys.tools {
      var pid := Strip(sys.pidofSensord);
      assert TeardownOp(PidofSensord) && TeardownOp(KillSensord(pid));
    }
  }

  /** Faults of calls the teardown never issues do not change it. */
  lemma TeardownSameFaults(sys: System, faults: set<Op>, more: set<Op>, running: bool)
    requires forall op :: op in more - faults ==> !TeardownOp(op)
    requires faults <= more
    ensures TeardownRun(sys, more, running) == TeardownRun(sys, faults, running)
  {
    NfcStartSameFaults(sys, faults, more);
    SensordKillSameFaults(sys, faults, more);
    assert TeardownOp(HardwareStop) && TeardownOp(Lxc(EngineCall.Stop)) && TeardownOp(NetStop) && TeardownOp(UmountRootfs);
  }

  /**
   * Failures of the data unmount and of the kill do not keep the session: adding them to
   * the faults changes neither the calls `stop` issues nor the session it leaves.
   */
  lemma StopIgnoresReleaseFailures(before: Option<Session>, quit: bool, sys: System, faults: set<Op>, running: bool, s: Session)
    ensures var more := faults + {UmountAllData, SignalOwner(s)};
      StopTrace(before, quit, sys, more, running) == StopTrace(before, quit, sys, faults, running) &&
      StopSession(before, sys, more, running) == StopSession(before, sys, faults, running)
  {
    TeardownSameFaults(sys, faults, faults + {UmountAllData, SignalOwner(s)}, running);
  }

  // ---------------------------------------------------------------------------------
  // restart, freeze, unfreeze

  /** `restart`: from RUNNING the engine is stopped and started again; otherwise nothing. */
  function RestartRun(status: Status, faults: set<Op>): Run
  {
    When(status == Running, Then(Step(Lxc(EngineCall.Stop), faults), Step(Lxc(EngineCall.Start), faults)))
  }

  method Restart(args: Args, faults: set<Op>) returns (raised: bool)
    modifies args.journal, args.engine
    ensures args.engine.polls == old(args.engine.polls) + 1
    ensures var status := old(args.engine.Answer(args.engine.polls));
      args.journal.log == old(args.journal.log) + RestartRun(status, faults).trace &&
      raised == RestartRun(status, faults).raised
  {
    var status := args.engine.QueryStatus();
    raised := false;
    if status == Running {
      raised := args.journal.Exec(Lxc(EngineCall.Stop), faults);
      if raised { return; }
      raised := args.journal.Exec(Lxc(EngineCall.Start), faults);
    }
  }

  /** `freeze`: from RUNNING the engine is frozen; otherwise nothing. */
  function FreezeRun(status: Status, faults: set<Op>): Run
  {
    When(status == Running, Step(Lxc(EngineCall.Freeze), faults))
  }

  /** ... and the call returns once a status other than RUNNING has been observed. */
  method Freeze(args: Args, faults: set<Op>) returns (raised: bool)
    requires args.engine.Answer(args.engine.polls) == Running && Lxc(EngineCall.Freeze) !in faults ==>
      args.engine.Leaves(Running, args.engine.polls + 1)
    modifies args.journal, args.engine
    ensures var status := old(args.engine.Answer(args.engine.polls));
      args.journal.log == old(args.journal.log) + FreezeRun(status, faults).trace &&
      raised == FreezeRun(status, faults).raised
    ensures old(args.engine.Answer(args.engine.polls)) != Running || raised ==>
      args.engine.polls == old(args.engine.polls) + 1
    ensures old(args.engine.Answer(args.engine.polls)) == Running && !raised ==>
      old(args.engine.polls) + 1 < args.engine.polls &&
      args.engine.Answer(args.engine.polls - 1) != Running &&
      forall j :: old(args.engine.polls) < j < args.engine.polls - 1 ==> args.engine.Answer(j) == Running
  {
    var status := args.engine.QueryStatus();
    raised := false;
    if status == Running {
      raised := args.journal.Exec(Lxc(EngineCall.Freeze), faults);
      if raised { return; }
      args.engine.AwaitChange(Running);
    }
  }

  /** `unfreeze`: from FROZEN the engine is unfrozen; otherwise nothing. */
  function UnfreezeRun(status: Status, faults: set<Op>): Run
  {
    When(status == Frozen, Step(Lxc(EngineCall.Unfreeze), faults))
  }

  /** ... and the call returns once a status other than FROZEN has been observed. */
  method Unfreeze(args: Args, faults: set<Op>) returns (raised: bool)
    requires args.engine.Answer(args.engine.polls) == Frozen && Lxc(EngineCall.Unfreeze) !in faults ==>
      args.engine.Leaves(Frozen, args.engine.polls + 1)
    modifies args.journal, args.engine
    ensures var status := old(args.engine.Answer(args.engine.polls));
      args.journal.log == old(args.journal.log) + UnfreezeRun(status, faults).trace &&
      raised == UnfreezeRun(status, faults).raised
    ensures old(args.engine.Answer(args.engine.polls)) != Frozen || raised ==>
      args.engine.polls == old(args.engine.polls) + 1
    ensures old(args.engine.Answer(args.engine.polls)) == Frozen && !raised ==>
      old(args.engine.polls) + 1 < args.engine.polls &&
      args.engine.Answer(args.engine.polls - 1) != Frozen &&
      forall j :: old(args.engine.polls) < j < args.engine.polls - 1 ==> args.engine.Answer(j) == Frozen
  {
    var status := args.engine.QueryStatus();
    raised := false;
    if status == Frozen {
      raised := args.journal.Exec(Lxc(EngineCall.Unfreeze), faults);
      if raised { return; }
      args.engine.AwaitChange(Frozen);
    }
  }

  /**
   * The guards: each of restart, freeze and unfreeze calls the engine only from its
   * source status, and then exactly the calls of its transition, in order.
   */
  lemma GuardedEngineCalls(status: Status, faults: set<Op>)
    ensures EngineCalls(RestartRun(status, faults).trace) ==
      if status != Running then []
      else if Lxc(EngineCall.Stop) in faults then [EngineCall.Stop]
      else [EngineCall.Stop, EngineCall.Start]
    ensures EngineCalls(FreezeRun(status, faults).trace) == if status == Running then [EngineCall.Freeze] else []
    ensures EngineCalls(UnfreezeRun(status, faults).trace) == if status == Frozen then [EngineCall.Unfreeze] else []
  {
    if status == Running {
      var stop, start := [Lxc(EngineCall.Stop)], [Lxc(EngineCall.Start)];
      EngineCallsConcat(stop, start);
      assert EngineCalls(stop) == [EngineCall.Stop] + EngineCalls([]);
      assert EngineCalls(start) == [EngineCall.Start] + EngineCalls([]);
      assert EngineCalls([Lxc(EngineCall.Freeze)]) == [EngineCall.Freeze] + EngineCalls([]);
    }
    if status == Frozen {
      assert EngineCalls([Lxc(EngineCall.Unfreeze)]) == [EngineCall.Unfreeze] + EngineCalls([]);
    }
  }

  // ---------------------------------------------------------------------------------
  // start: the service entry

  /** The binder, vndbinder and hwbinder nodes under /dev. */
  function BinderNodes(sys: System): (r: seq<string>)
    ensures |r| == 3
  {
    ["/dev/" + sys.binder, "/dev/" + sys.vndbinder, "/dev/" + sys.hwbinder]
  }

  /** The mode of the binder nodes. */
  const BinderMode := "666"

  /** Load the configuration and, for a MAINLINE vendor, probe binder and ashmem. */
  function DriverRun(sys: System, faults: set<Op>): Run
  {
    Then(Step(LoadConfig, faults),
         When(sys.vendorType == "MAINLINE", Then(Step(ProbeBinder, faults), Step(ProbeAshmem, faults))))
  }

  /** The session `service` starts the container with before entering its main loop. */
  function TestSession(sys: System): Session
  {
    map["user_id" := "0", "pid" := DecimalString(sys.ownPid)]
  }

  /**
   * The self-test inside `service`: `do_start` on the test session, whose every error is
   * caught and logged. It issues nothing when a session is already tracked.
   */
  function SelfTestTrace(tracked: Option<Session>, sys: System, faults: set<Op>): seq<Op>
  {
    if tracked.Some? then [] else DoStartRun(TestSession(sys), sys, faults).trace
  }

  /**
   * `service` once the binder nodes are set: the service object, the self-test, the main
   * loop. An error of the main loop is logged and raised again.
   */
  function ServiceRun(tracked: Option<Session>, sys: System, faults: set<Op>): Run
  {
    Then(Step(EnterService, faults), Run(SelfTestTrace(tracked, sys, faults) + [MainLoop], MainLoop in faults))
  }

  /** The binder node permissions, then `service`. */
  function ServeRun(tracked: Option<Session>, sys: System, faults: set<Op>): Run
  {
    Then(Attempt(ChmodOps(BinderNodes(sys), BinderMode, sys.paths), faults), ServiceRun(tracked, sys, faults))
  }

  /**
   * The tracked session once `service` has reached its main loop (whether or not the loop
   * then raised): the test session when the self-test started the container.
   */
  function ServedSession(tracked: Option<Session>, sys: System, faults: set<Op>): Option<Session>
  {
    if tracked.Some? || Attempt(ChmodOps(BinderNodes(sys), BinderMode, sys.paths), faults).raised ||
       EnterService in faults || DoStartRun(TestSession(sys), sys, faults).raised
    then tracked
    else Some(TestSession(sys))
  }

  /** ... then the binder nodes and the service. */
  function ServiceStartRun(tracked: Option<Session>, sys: System, faults: set<Op>): Run
  {
    Then(Then(DriverRun(sys, faults), Step(LoadBinderNodes, faults)), ServeRun(tracked, sys, faults))
  }

  /**
   * Once the service object exists and no session is tracked, `service` issues the whole
   * start of the test session before its main loop and never raises from it; the test
   * session is tracked afterwards exactly when that start completed (and `DoStart` then
   * refuses every later start with `AlreadyTracking`).
   */
  lemma ServiceSelfStarts(sys: System, faults: set<Op>)
    requires !Attempt(ChmodOps(BinderNodes(sys), BinderMode, sys.paths), faults).raised && EnterService !in faults
    ensures ServeRun(None, sys, faults).trace ==
      Attempt(ChmodOps(BinderNodes(sys), BinderMode, sys.paths), faults).trace + [EnterService] +
      DoStartRun(TestSession(sys), sys, faults).trace + [MainLoop]
    ensures ServeRun(None, sys, faults).raised == (MainLoop in faults)
    ensures ServedSession(None, sys, faults) == Some(TestSession(sys)) <==> !DoStartRun(TestSession(sys), sys, faults).raised
    ensures ServedSession(None, sys, faults).Some? <==> !DoStartRun(TestSession(sys), sys, faults).raised
  {
    ServeShape(Attempt(ChmodOps(BinderNodes(sys), BinderMode, sys.paths), faults), DoStartRun(TestSession(sys), sys, faults).trace, faults);
  }

  /** The shape of `service` after permissions that did not fail, whatever the self-test issued. */
  lemma ServeShape(chmods: Run, selfTest: seq<Op>, faults: set<Op>)
    requires !chmods.raised && EnterService !in faults
    ensures Then(chmods, Then(Step(EnterService, faults), Run(selfTest + [MainLoop], MainLoop in faults))) ==
      Run(chmods.trace + [EnterService] + selfTest + [MainLoop], MainLoop in faults)
  {
    assert chmods.trace + [EnterService] + selfTest + [MainLoop] == chmods.trace + ([EnterService] + (selfTest + [MainLoop]));
  }

  /**
   * Without faults the self-test starts the container only when the configuration has a
   * session section: the test session names no data directory, so otherwise `do_start`
   * stops at the KeyError after the host set-up.
   */
  lemma SelfStartWithoutFaults(sys: System)
    ensures ServedSession(None, sys, {}) == if sys.configHasSession then Some(TestSession(sys)) else None
  {
    assert "waydroid_data" !in TestSession(sys);
    DoStartWithoutFaults(TestSession(sys), sys);
    AttemptStopsAtFirstFault(ChmodOps(BinderNodes(sys), BinderMode, sys.paths), {});
  }

  /** The drivers; a failed binder probe is only reported. */
  method LoadDrivers(args: Args, sys: System, faults: set<Op>) returns (raised: bool)
    modifies args.journal
    ensures args.journal.log == old(args.journal.log) + Then(DriverRun(sys, faults), Step(LoadBinderNodes, faults)).trace
    ensures raised == Then(DriverRun(sys, faults), Step(LoadBinderNodes, faults)).raised
  {
    raised := args.journal.Exec(LoadConfig, faults);
    if raised { return; }
    if sys.vendorType == "MAINLINE" {
      raised := args.journal.Exec(ProbeBinder, faults);
      if raised { return; }
      raised := args.journal.Exec(ProbeAshmem, faults);
      if raised { return; }
    }
    raised := args.journal.Exec(LoadBinderNodes, faults);
  }

  /**
   * The binder node permissions, then `service`: the service object, the self-test start
   * on the test session (errors only logged) and the main loop.
   */
  method Serve(args: Args, sys: System, faults: set<Op>) returns (raised: bool)
    modifies args, args.journal
    ensures var r := ServeRun(old(args.session), sys, faults);
      args.journal.log == old(args.journal.log) + r.trace && raised == r.raised
    ensures args.session == ServedSession(old(args.session), sys, faults)
  {
    ghost var log0, tracked := args.journal.log, args.session;
    ghost var c := Attempt(ChmodOps(BinderNodes(sys), BinderMode, sys.paths), faults);
    raised := SetPermissions(args, Some(BinderNodes(sys)), BinderMode, sys, faults);
    if raised {
      ServeStops(tracked, sys, faults);
      return;
    }
    ghost var log1 := args.journal.log;
    raised := RunService(args, sys, faults);
    ServeThen(tracked, sys, faults);
    Chain(log0, c, log1, ServiceRun(tracked, sys, faults), args.journal.log);
  }

  /** Past the binder permissions, the session is the one `service` leaves. */
  lemma ServeThen(tracked: Option<Session>, sys: System, faults: set<Op>)
    ensures !Attempt(ChmodOps(BinderNodes(sys), BinderMode, sys.paths), faults).raised ==>
      ServedSession(tracked, sys, faults) == (if EnterService in faults then tracked else SelfTestSession(tracked, sys, faults))
  {
  }

  /** `service` itself, after the binder permissions. */
  method RunService(args: Args, sys: System, faults: set<Op>) returns (raised: bool)
    modifies args, args.journal
    ensures var r := ServiceRun(old(args.session), sys, faults);
      args.journal.log == old(args.journal.log) + r.trace && raised == r.raised
    ensures args.session == if EnterService in faults then old(args.session) else SelfTestSession(old(args.session), sys, faults)
  {
    raised := args.journal.Exec(EnterService, faults);
    if raised {
      return;
    }
    ghost var log1 := args.journal.log;
    ghost var selfTest := SelfTestTrace(args.session, sys, faults);
    SelfTest(args, sys, faults);
    ServiceShape(selfTest, faults);
    raised := LoopAfter(args, log1, selfTest, faults);
  }

  /** `looper.run()`: its error is logged and raised again out of `service`. */
  method LoopAfter(args: Args, ghost log1: seq<Op>, ghost selfTest: seq<Op>, faults: set<Op>) returns (raised: bool)
    requires args.journal.log == log1 + selfTest
    modifies args.journal
    ensures args.journal.log == log1 + (selfTest + [MainLoop])
    ensures raised == (MainLoop in faults)
  {
    raised := args.journal.Exec(MainLoop, faults);
  }

  /** The shape of `service` once the service object exists, whatever the self-test issued. */
  lemma ServiceShape(selfTest: seq<Op>, faults: set<Op>)
    requires EnterService !in faults
    ensures Then(Step(EnterService, faults), Run(selfTest + [MainLoop], MainLoop in faults)) ==
      Run([EnterService] + (selfTest + [MainLoop]), MainLoop in faults)
  {
  }

  /** The tracked session after the self-test. */
  function SelfTestSession(tracked: Option<Session>, sys: System, faults: set<Op>): Option<Session>
  {
    if tracked.Some? then tracked
    else if DoStartRun(TestSession(sys), sys, faults).raised then None
    else Some(TestSession(sys))
  }

  /** `do_start` on the test session, with every error caught. */
  method SelfTest(args: Args, sys: System, faults: set<Op>)
    modifies args, args.journal
    ensures args.journal.log == old(args.journal.log) + SelfTestTrace(old(args.session), sys, faults)
    ensures args.session == SelfTestSession(old(args.session), sys, faults)
  {
    var outcome := DoStart(args, TestSession(sys), sys, faults);
  }

  /** The binder chmods or the service object raised: `service` ends there. */
  lemma ServeStops(tracked: Option<Session>, sys: System, faults: set<Op>)
    requires Attempt(ChmodOps(BinderNodes(sys), BinderMode, sys.paths), faults).raised || EnterService in faults
    ensures var c := Attempt(ChmodOps(BinderNodes(sys), BinderMode, sys.paths), faults);
      ServeRun(tracked, sys, faults) == (if c.raised then c else Run(c.trace + [EnterService], true)) &&
      ServedSession(tracked, sys, faults) == tracked
  {
  }

  /**
   * `start`: when another process holds the bus name nothing happens; otherwise the
   * status is read and, only from STOPPED, the drivers are loaded and the service entered,
   * which starts the container on the test session.
   */
  method StartService(args: Args, nameHeld: bool, sys: System, faults: set<Op>) returns (raised: bool)
    modifies args, args.journal, args.engine
    ensures nameHeld ==>
      !raised && args.journal.log == old(args.journal.log) && args.engine.polls == old(args.engine.polls)
    ensures !nameHeld ==> args.engine.polls == old(args.engine.polls) + 1
    ensures !nameHeld ==> var r := When(old(args.engine.Answer(args.engine.polls)) == Stopped, ServiceStartRun(old(args.session), sys, faults));
      args.journal.log == old(args.journal.log) + r.trace && raised == r.raised
    ensures args.session ==
      if !nameHeld && old(args.engine.Answer(args.engine.polls)) == Stopped &&
         !Then(DriverRun(sys, faults), Step(LoadBinderNodes, faults)).raised
      then ServedSession(old(args.session), sys, faults)
      else old(args.session)
  {
    raised := false;
    if nameHeld {
      return;
    }
    var status := args.engine.QueryStatus();
    if status != Stopped {
      return;
    }
    ghost var log0 := args.journal.log;
    raised := LoadDrivers(args, sys, faults);
    if raised { return; }
    ghost var log1 := args.journal.log;
    ghost var tracked := args.session;
    raised := Serve(args, sys, faults);
    Chain(log0, Then(DriverRun(sys, faults), Step(LoadBinderNodes, faults)), log1,
          ServeRun(tracked, sys, faults), args.journal.log);
  }
}
