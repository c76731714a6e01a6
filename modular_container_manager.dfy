/**
 * The modular container manager: four start steps that record their outcome in an
 * insertion-ordered `step_results` dictionary, their short-circuit composition, the
 * failure diagnosis and the reset.
 *
 * A step's recorded text is `SUCCESS`, `FAILED: <message>` or, written by the command
 * line, `SKIPPED: Hardware services disabled`; the model keeps which of these it is and,
 * for a failure, whether an exception or the readiness wait caused it.
 */
module ModularManager {
  import opened Strings
  import opened Host
  import opened ContainerManager

  datatype StepId = Step1 | Step2 | Step3 | Step4

  datatype Cause = Exception | NotReady

  datatype StepResult = Success | Failed(cause: Cause) | Skipped

  datatype Entry = Entry(key: StepId, result: StepResult)

  // ---------------------------------------------------------------------------------
  // The results dictionary: entries in insertion order

  function Keys(m: seq<Entry>): (r: seq<StepId>)
    ensures |r| == |m| && forall i :: 0 <= i < |m| ==> r[i] == m[i].key
  {
    if m == [] then [] else [m[0].key] + Keys(m[1..])
  }

  /** No key is stored twice. */
  predicate UniqueKeys(m: seq<Entry>)
  {
    forall i, j :: 0 <= i < j < |m| ==> m[i].key != m[j].key
  }

  function Lookup(m: seq<Entry>, k: StepId): Option<StepResult>
  {
    if m == [] then None
    else if m[0].key == k then Some(m[0].result)
    else Lookup(m[1..], k)
  }

  /** `m[k] = v`: an existing key keeps its place, a new key goes last. */
  function Put(m: seq<Entry>, k: StepId, v: StepResult): seq<Entry>
  {
    if m == [] then [Entry(k, v)]
    else if m[0].key == k then [Entry(k, v)] + m[1..]
    else [m[0]] + Put(m[1..], k, v)
  }

  lemma {:induction false} LookupFound(m: seq<Entry>, k: StepId)
    ensures Lookup(m, k).Some? <==> k in Keys(m)
  {
    if m != [] {
      LookupFound(m[1..], k);
      assert Keys(m) == [m[0].key] + Keys(m[1..]);
    }
  }

  lemma {:induction false} PutLookup(m: seq<Entry>, k: StepId, v: StepResult, j: StepId)
    ensures Lookup(Put(m, k, v), j) == if j == k then Some(v) else Lookup(m, j)
  {
    if m != [] && m[0].key != k {
      PutLookup(m[1..], k, v, j);
    }
  }

  lemma {:induction false} PutKeys(m: seq<Entry>, k: StepId, v: StepResult)
    ensures Keys(Put(m, k, v)) == if k in Keys(m) then Keys(m) else Keys(m) + [k]
  {
    if m != [] {
      assert Keys(m) == [m[0].key] + Keys(m[1..]);
      if m[0].key != k {
        PutKeys(m[1..], k, v);
        assert Keys(Put(m, k, v)) == [m[0].key] + Keys(Put(m[1..], k, v));
      }
    }
  }

  /**
   * After `m[k] = v`, `k` holds `v`, every other key keeps its value, and the key order
   * is the old one with `k` appended when it is new; distinct keys stay distinct.
   */
  lemma PutSpec(m: seq<Entry>, k: StepId, v: StepResult)
    requires UniqueKeys(m)
    ensures Lookup(Put(m, k, v), k) == Some(v)
    ensures forall j :: j != k ==> Lookup(Put(m, k, v), j) == Lookup(m, j)
    ensures Keys(Put(m, k, v)) == if k in Keys(m) then Keys(m) else Keys(m) + [k]
    ensures UniqueKeys(Put(m, k, v))
  {
    PutLookup(m, k, v, k);
    forall j | j != k
      ensures Lookup(Put(m, k, v), j) == Lookup(m, j)
    {
      PutLookup(m, k, v, j);
    }
    PutKeys(m, k, v);
    var r := Put(m, k, v);
    assert forall i :: 0 <= i < |r| ==> Keys(r)[i] == r[i].key;
    assert forall i :: 0 <= i < |m| ==> Keys(m)[i] == m[i].key;
  }

  /** `[step for step, result in items() if 'FAILED' in result]` */
  function Diagnose(m: seq<Entry>): seq<StepId>
  {
    if m == [] then []
    else (if m[0].result.Failed? then [m[0].key] else []) + Diagnose(m[1..])
  }

  /**
   * The diagnosis lists exactly the steps whose recorded result is a failure, in the
   * order the steps were first recorded.
   */
  lemma {:induction false} DiagnoseSpec(m: seq<Entry>, k: StepId)
    requires UniqueKeys(m)
    ensures k in Diagnose(m) <==> Lookup(m, k).Some? && Lookup(m, k).value.Failed?
    ensures SubSeq(Diagnose(m), Keys(m))
  {
    if m != [] {
      assert UniqueKeys(m[1..]);
      DiagnoseSpec(m[1..], k);
      LookupFound(m[1..], k);
      if m[0].key == k {
        assert k !in Keys(m[1..]);
        DiagnoseKeys(m[1..], k);
      }
      assert Keys(m) == [m[0].key] + Keys(m[1..]);
      var d := Diagnose(m);
      if m[0].result.Failed? {
        assert d[1..] == Diagnose(m[1..]);
      } else {
        assert d == Diagnose(m[1..]);
        SubSeqSkip(d, Keys(m));
      }
    }
  }

  lemma {:induction false} DiagnoseKeys(m: seq<Entry>, k: StepId)
    requires k !in Keys(m)
    ensures k !in Diagnose(m)
  {
    if m != [] {
      assert Keys(m) == [m[0].key] + Keys(m[1..]);
      DiagnoseKeys(m[1..], k);
    }
  }

  // ---------------------------------------------------------------------------------
  // What each step does

  /** What one step issues, what it records (if anything) and what it returns. */
  datatype StepSpec = StepSpec(trace: seq<Op>, record: Option<StepResult>, ok: bool)

  /** A step whose body is `run`: `SUCCESS` and True, or an exception, `FAILED` and False. */
  function FromRun(run: Run): StepSpec
  {
    StepSpec(run.trace, Some(if run.raised then Failed(Exception) else Success), !run.raised)
  }

  /** Record a step's result under its key, when it records one. */
  function Apply(m: seq<Entry>, k: StepId, s: StepSpec): seq<Entry>
  {
    if s.record.Some? then Put(m, k, s.record.value) else m
  }

  /** Step 1 up to the binder probe: the config and, for MAINLINE, the probe itself. */
  function Step1Head(sys: System, faults: set<Op>): Run
  {
    Then(Step(LoadConfig, faults), When(sys.vendorType == "MAINLINE", Step(ProbeBinder, faults)))
  }

  /** ... then ashmem (MAINLINE only), the binder nodes and their `666` permissions. */
  function Step1Tail(sys: System, faults: set<Op>): Run
  {
    Then(Then(When(sys.vendorType == "MAINLINE", Step(ProbeAshmem, faults)), Step(LoadBinderNodes, faults)),
         Attempt(ChmodOps(BinderNodes(sys), BinderMode, sys.paths), faults))
  }

  /** A non-zero binder probe returns False before anything is recorded. */
  predicate Step1Abandons(sys: System, faults: set<Op>)
  {
    !Step1Head(sys, faults).raised && sys.vendorType == "MAINLINE" && sys.binderProbe != 0
  }

  function Step1Spec(sys: System, faults: set<Op>): StepSpec
  {
    if Step1Abandons(sys, faults) then StepSpec(Step1Head(sys, faults).trace, None, false)
    else FromRun(Then(Step1Head(sys, faults), Step1Tail(sys, faults)))
  }

  /** The session `_create_session` makes: root, this process, the default data path. */
  function DefaultSession(ownPid: nat): Session
  {
    map["user_id" := "0", "pid" := DecimalString(ownPid), "waydroid_data" := "/var/lib/waydroid/data"]
  }

  /** The default session belongs to root and names this process by its decimal pid. */
  lemma DefaultSessionSpec(ownPid: nat)
    ensures var s := DefaultSession(ownPid);
      s.Keys == {"user_id", "pid", "waydroid_data"} &&
      s["user_id"] == "0" && ParseDecimal(s["pid"]) == ownPid
  {
    ParseDecimalRoundTrip(ownPid);
  }

  /** The session step 2 works with: the tracked one, else a new default one. */
  function Step2Session(tracked: Option<Session>, sys: System): Session
  {
    if tracked.Some? then tracked.value else DefaultSession(sys.ownPid)
  }

  /** The session's LXC config, then the configuration. */
  function SessionConfigPart(s: Session, faults: set<Op>): Run
  {
    Then(Step(GenerateSessionConfig(s), faults), Step(LoadConfig, faults))
  }

  /** The rootfs mount, then the AIDL version. */
  function MountPart(s: Session, faults: set<Op>): Run
  {
    Then(Step(MountRootfs(s), faults), Step(SetAidlVersion, faults))
  }

  /** The network script (failure only warned), the session config, the rootfs, AIDL. */
  function Step2Run(s: Session, faults: set<Op>): Run
  {
    Then(Run([NetStart], false), Then(SessionConfigPart(s, faults), MountPart(s, faults)))
  }

  function Step2Spec(tracked: Option<Session>, sys: System, faults: set<Op>): StepSpec
  {
    FromRun(Step2Run(Step2Session(tracked, sys), faults))
  }

  /** The engine start, then the readiness wait (an input here). */
  function Step3Spec(sys: System, faults: set<Op>): StepSpec
  {
    if Lxc(EngineCall.Start) in faults then StepSpec([Lxc(EngineCall.Start)], Some(Failed(Exception)), false)
    else StepSpec([Lxc(EngineCall.Start)], Some(if sys.containerReady then Success else Failed(NotReady)),
                  sys.containerReady)
  }

  function Step4Spec(faults: set<Op>): StepSpec
  {
    FromRun(Step(HardwareStart, faults))
  }

  /**
   * Every step returns True exactly when it records `SUCCESS`; otherwise it records a
   * failure, except step 1 after a non-zero binder probe, which records nothing; step 3
   * records "not ready" exactly when the engine started but the wait gave up.
   */
  lemma StepsRecordOutcome(tracked: Option<Session>, sys: System, faults: set<Op>)
    ensures var s := Step1Spec(sys, faults);
      (s.ok <==> s.record == Some(Success)) && (s.record.None? <==> Step1Abandons(sys, faults)) &&
      (!s.ok && s.record.Some? ==> s.record == Some(Failed(Exception)))
    ensures var s := Step2Spec(tracked, sys, faults);
      (s.ok <==> s.record == Some(Success)) && (!s.ok ==> s.record == Some(Failed(Exception)))
    ensures var s := Step3Spec(sys, faults);
      (s.ok <==> s.record == Some(Success)) &&
      (s.record == Some(Failed(NotReady)) <==> Lxc(EngineCall.Start) !in faults && !sys.containerReady)
    ensures var s := Step4Spec(faults);
      (s.ok <==> s.record == Some(Success)) && (!s.ok ==> s.record == Some(Failed(Exception)))
  {
  }

  // ---------------------------------------------------------------------------------
  // Compositions

  /** What a composition of steps issued, the results it left, and what it returned. */
  datatype Progress = Progress(trace: seq<Op>, results: seq<Entry>, ok: bool)

  /** Run step `s` after `p` unless an earlier step returned False. */
  function AndThen(p: Progress, key: StepId, s: StepSpec): Progress
  {
    if !p.ok then p else Progress(p.trace + s.trace, Apply(p.results, key, s), s.ok)
  }

  /** Logging `t1` and then `t2` logs `t1 + t2`. */
  lemma AppendTraces(log0: seq<Op>, t1: seq<Op>, log1: seq<Op>, t2: seq<Op>, log2: seq<Op>)
    requires log1 == log0 + t1 && log2 == log1 + t2
    ensures log2 == log0 + (t1 + t2)
  {
  }

  /** Logging `p` and then `s` logs `AndThen(p, key, s)` once `p` went through. */
  lemma AndThenLog(log0: seq<Op>, p: Progress, log1: seq<Op>, key: StepId, s: StepSpec, log2: seq<Op>)
    requires log1 == log0 + p.trace && p.ok && log2 == log1 + s.trace
    ensures log2 == log0 + AndThen(p, key, s).trace
  {
  }

  /** Steps 1 to 3, stopping at the first that returns False. */
  function FirstThree(m: seq<Entry>, tracked: Option<Session>, sys: System, faults: set<Op>): Progress
  {
    var p1 := AndThen(Progress([], m, true), Step1, Step1Spec(sys, faults));
    AndThen(AndThen(p1, Step2, Step2Spec(tracked, sys, faults)), Step3, Step3Spec(sys, faults))
  }

  /** `run_all_steps`: the first three with short-circuit, then step 4 whatever it does. */
  function RunAll(m: seq<Entry>, tracked: Option<Session>, sys: System, faults: set<Op>): Progress
  {
    var p := FirstThree(m, tracked, sys, faults);
    if !p.ok then p
    else
      var s4 := Step4Spec(faults);
      Progress(p.trace + s4.trace, Apply(p.results, Step4, s4), true)
  }

  /** The session tracked after step 2 has run (or not). */
  function SessionAfter(tracked: Option<Session>, sys: System, faults: set<Op>, ranStep2: bool): Option<Session>
  {
    if ranStep2 then Some(Step2Session(tracked, sys)) else tracked
  }

  /** A step as `start_step_by_step` runs it: not at all unless requested. */
  function Requested(id: StepId, steps: set<StepId>, tracked: Option<Session>, sys: System, faults: set<Op>): StepSpec
  {
    if id !in steps then StepSpec([], None, true)
    else match id
      case Step1 => Step1Spec(sys, faults)
      case Step2 => Step2Spec(tracked, sys, faults)
      case Step3 => Step3Spec(sys, faults)
      case Step4 => Step4Spec(faults)
  }

  /** `start_step_by_step`: the requested steps in the order 1, 2, 3, 4, none skipped. */
  function ByStep(steps: set<StepId>, tracked: Option<Session>, sys: System, faults: set<Op>): Progress
  {
    var s1 := Requested(Step1, steps, tracked, sys, faults);
    var s2 := Requested(Step2, steps, tracked, sys, faults);
    var s3 := Requested(Step3, steps, tracked, sys, faults);
    var s4 := Requested(Step4, steps, tracked, sys, faults);
    Progress(s1.trace + s2.trace + s3.trace + s4.trace,
             Apply(Apply(Apply(Apply([], Step1, s1), Step2, s2), Step3, s3), Step4, s4),
             true)
  }

  /** `run_all_steps` returns True exactly when steps 1 to 3 did, whatever step 4 does. */
  lemma RunAllIgnoresStep4(m: seq<Entry>, tracked: Option<Session>, sys: System, faults: set<Op>)
    ensures RunAll(m, tracked, sys, faults).ok <==>
      Step1Spec(sys, faults).ok && Step2Spec(tracked, sys, faults).ok && Step3Spec(sys, faults).ok
  {
  }

  // ---------------------------------------------------------------------------------
  // The manager object

  class Manager {
    const args: Args
    var results: seq<Entry>
    var session: Option<Session>

    /** The results behave as a dictionary: each step is recorded at most once. */
    ghost predicate Valid()
      reads this
    {
      UniqueKeys(results)
    }

    /** A new manager has recorded nothing and made no session. */
    constructor (args: Args)
      ensures this.args == args && results == [] && session == None && Valid()
    {
      this.args := args;
      results := [];
      session := None;
    }

    method SetupEnvironment(sys: System, faults: set<Op>) returns (ok: bool)
      requires Valid()
      modifies this, args.journal
      ensures Valid()
      ensures var s := Step1Spec(sys, faults);
        args.journal.log == old(args.journal.log) + s.trace && ok == s.ok &&
        results == Apply(old(results), Step1, s) && session == old(session)
    {
      var abandoned, raised := Step1Calls(args, sys, faults);
      if abandoned {
        return false;
      }
      ok := !raised;
      PutSpec(results, Step1, if raised then Failed(Exception) else Success);
      results := Put(results, Step1, if raised then Failed(Exception) else Success);
    }

    method PrepareContainer(sys: System, faults: set<Op>) returns (ok: bool)
      requires Valid()
      modifies this, args, args.journal
      ensures Valid()
      ensures var s := Step2Spec(old(args.session), sys, faults);
        args.journal.log == old(args.journal.log) + s.trace && ok == s.ok &&
        results == Apply(old(results), Step2, s)
      ensures args.session == Some(Step2Session(old(args.session), sys))
      ensures session == if old(args.session).None? then Some(DefaultSession(sys.ownPid)) else old(session)
    {
      if args.session.None? {
        session := Some(DefaultSession(sys.ownPid));
        args.session := session;
      }
      var raised := Step2Calls(args, args.session.value, faults);
      ok := !raised;
      PutSpec(results, Step2, if raised then Failed(Exception) else Success);
      results := Put(results, Step2, if raised then Failed(Exception) else Success);
    }

    method StartContainer(sys: System, faults: set<Op>) returns (ok: bool)
      requires Valid()
      modifies this, args.journal
      ensures Valid()
      ensures var s := Step3Spec(sys, faults);
        args.journal.log == old(args.journal.log) + s.trace && ok == s.ok &&
        results == Apply(old(results), Step3, s) && session == old(session)
    {
      var raised := args.journal.Exec(Lxc(EngineCall.Start), faults);
      if raised {
        PutSpec(results, Step3, Failed(Exception));
        results := Put(results, Step3, Failed(Exception));
        return false;
      }
      if sys.containerReady {
        PutSpec(results, Step3, Success);
        results := Put(results, Step3, Success);
        ok := true;
      } else {
        PutSpec(results, Step3, Failed(NotReady));
        results := Put(results, Step3, Failed(NotReady));
        ok := false;
      }
    }

    method HardwareServices(faults: set<Op>) returns (ok: bool)
      requires Valid()
      modifies this, args.journal
      ensures Valid()
      ensures var s := Step4Spec(faults);
        args.journal.log == old(args.journal.log) + s.trace && ok == s.ok &&
        results == Apply(old(results), Step4, s) && session == old(session)
    {
      var raised := args.journal.Exec(HardwareStart, faults);
      ok := !raised;
      PutSpec(results, Step4, if raised then Failed(Exception) else Success);
      results := Put(results, Step4, if raised then Failed(Exception) else Success);
    }

    /** Steps 1 to 3 with short-circuit, as `run_all_steps` and the command line run them. */
    method RunFirstThree(sys: System, faults: set<Op>) returns (ok: bool)
      requires Valid()
      modifies this, args, args.journal
      ensures Valid()
      ensures var p := FirstThree(old(results), old(args.session), sys, faults);
        args.journal.log == old(args.journal.log) + p.trace && ok == p.ok && results == p.results
      ensures args.session == SessionAfter(old(args.session), sys, faults, Step1Spec(sys, faults).ok)
    {
      ghost var log0, tracked := args.journal.log, args.session;
      ghost var p0 := Progress([], results, true);
      ghost var p1 := AndThen(p0, Step1, Step1Spec(sys, faults));
      ghost var p2 := AndThen(p1, Step2, Step2Spec(tracked, sys, faults));
      ok := SetupEnvironment(sys, faults);
      AppendTraces(log0, [], log0, Step1Spec(sys, faults).trace, args.journal.log);
      if !ok {
        assert p2 == p1;
        return;
      }
      ghost var log1 := args.journal.log;
      ok := PrepareContainer(sys, faults);
      AndThenLog(log0, p1, log1, Step2, Step2Spec(tracked, sys, faults), args.journal.log);
      if !ok { return; }
      ghost var log2 := args.journal.log;
      ok := StartContainer(sys, faults);
      AndThenLog(log0, p2, log2, Step3, Step3Spec(sys, faults), args.journal.log);
    }

    /** `run_all_steps`: step 4 runs after the first three succeed and cannot fail the run. */
    method RunAllSteps(sys: System, faults: set<Op>) returns (ok: bool)
      requires Valid()
      modifies this, args, args.journal
      ensures Valid()
      ensures var p := RunAll(old(results), old(args.session), sys, faults);
        args.journal.log == old(args.journal.log) + p.trace && ok == p.ok && results == p.results
      ensures args.session == SessionAfter(old(args.session), sys, faults, Step1Spec(sys, faults).ok)
    {
      ok := RunFirstThree(sys, faults);
      if !ok { return; }
      var ignored := HardwareServices(faults);
    }

    method GetStatus() returns (r: seq<Entry>)
      ensures r == results
    {
      r := results;
    }

    /** `diagnose`: the steps whose result is a failure, in recording order. */
    method DiagnoseFailures() returns (failed: seq<StepId>)
      requires Valid()
      ensures failed == Diagnose(results)
      ensures forall k :: k in failed <==> Lookup(results, k).Some? && Lookup(results, k).value.Failed?
    {
      failed := [];
      var i := 0;
      while i < |results|
        invariant 0 <= i <= |results|
        invariant failed == Diagnose(results[..i])
      {
        DiagnoseAppend(results[..i], results[i]);
        assert results[..i + 1] == results[..i] + [results[i]];
        if results[i].result.Failed? {
          failed := failed + [results[i].key];
        }
        i := i + 1;
      }
      assert results[..i] == results;
      forall k {
        DiagnoseSpec(results, k);
      }
    }

    /** `reset`: forget every recorded result. */
    method Reset()
      modifies this
      ensures results == [] && session == old(session) && Valid()
    {
      results := [];
    }
  }

  lemma {:induction false} DiagnoseAppend(m: seq<Entry>, e: Entry)
    ensures Diagnose(m + [e]) == Diagnose(m) + (if e.result.Failed? then [e.key] else [])
  {
    if m == [] {
      assert m + [e] == [e];
    } else {
      var me := m + [e];
      assert me[0] == m[0] && me[1..] == m[1..] + [e];
      DiagnoseAppend(m[1..], e);
      var head := if m[0].result.Failed? then [m[0].key] else [];
      assert Diagnose(me) == head + Diagnose(me[1..]);
      assert Diagnose(m) == head + Diagnose(m[1..]);
    }
  }

  /** The calls of step 1: whether it stopped at a non-zero binder probe, whether it raised. */
  method Step1Calls(args: Args, sys: System, faults: set<Op>) returns (abandoned: bool, raised: bool)
    modifies args.journal
    ensures abandoned == Step1Abandons(sys, faults)
    ensures abandoned ==> args.journal.log == old(args.journal.log) + Step1Head(sys, faults).trace
    ensures !abandoned ==>
      var r := Then(Step1Head(sys, faults), Step1Tail(sys, faults));
      args.journal.log == old(args.journal.log) + r.trace && raised == r.raised
  {
    abandoned := false;
    ghost var log0 := args.journal.log;
    raised := args.journal.Exec(LoadConfig, faults);
    if raised { return; }
    if sys.vendorType == "MAINLINE" {
      raised := args.journal.Exec(ProbeBinder, faults);
      if raised { return; }
      if sys.binderProbe != 0 {
        abandoned := true;
        return;
      }
    }
    ghost var log1 := args.journal.log;
    raised := Step1Rest(args, sys, faults);
    Chain(log0, Step1Head(sys, faults), log1, Step1Tail(sys, faults), args.journal.log);
  }

  method Step1Rest(args: Args, sys: System, faults: set<Op>) returns (raised: bool)
    modifies args.journal
    ensures args.journal.log == old(args.journal.log) + Step1Tail(sys, faults).trace
    ensures raised == Step1Tail(sys, faults).raised
  {
    raised := false;
    ghost var log0 := args.journal.log;
    if sys.vendorType == "MAINLINE" {
      raised := args.journal.Exec(ProbeAshmem, faults);
      if raised { return; }
    }
    raised := args.journal.Exec(LoadBinderNodes, faults);
    if raised { return; }
    ghost var log1 := args.journal.log;
    raised := ChmodEach(args, BinderNodes(sys), BinderMode, sys.paths, faults);
    Chain(log0, Then(When(sys.vendorType == "MAINLINE", Step(ProbeAshmem, faults)), Step(LoadBinderNodes, faults)),
          log1, Attempt(ChmodOps(BinderNodes(sys), BinderMode, sys.paths), faults), args.journal.log);
  }

  /** The calls of step 2 once the session is known. */
  method Step2Calls(args: Args, s: Session, faults: set<Op>) returns (raised: bool)
    modifies args.journal
    ensures args.journal.log == old(args.journal.log) + Step2Run(s, faults).trace
    ensures raised == Step2Run(s, faults).raised
  {
    ghost var log0 := args.journal.log;
    var warned := args.journal.Exec(NetStart, faults);
    ghost var log1 := args.journal.log;
    raised := args.journal.Exec(GenerateSessionConfig(s), faults);
    if !raised {
      raised := args.journal.Exec(LoadConfig, faults);
    }
    if !raised {
      ghost var log2 := args.journal.log;
      raised := args.journal.Exec(MountRootfs(s), faults);
      if !raised {
        raised := args.journal.Exec(SetAidlVersion, faults);
      }
      Chain(log1, SessionConfigPart(s, faults), log2, MountPart(s, faults), args.journal.log);
    }
    Chain(log0, Run([NetStart], false), log1, Then(SessionConfigPart(s, faults), MountPart(s, faults)),
          args.journal.log);
  }

  /** Run one step on `manager` if it is requested. */
  method RunRequested(manager: Manager, id: StepId, steps: set<StepId>, sys: System, faults: set<Op>)
    returns (ok: bool)
    requires manager.Valid()
    modifies manager, manager.args, manager.args.journal
    ensures manager.Valid()
    ensures var s := Requested(id, steps, old(manager.args.session), sys, faults);
      manager.args.journal.log == old(manager.args.journal.log) + s.trace && ok == s.ok &&
      manager.results == Apply(old(manager.results), id, s)
    ensures id != Step2 ==> manager.args.session == old(manager.args.session)
  {
    if id !in steps {
      return true;
    }
    match id
    case Step1 => ok := manager.SetupEnvironment(sys, faults);
    case Step2 => ok := manager.PrepareContainer(sys, faults);
    case Step3 => ok := manager.StartContainer(sys, faults);
    case Step4 => ok := manager.HardwareServices(faults);
  }

  /** `start_step_by_step`: a fresh manager runs every requested step, in order. */
  method StartStepByStep(args: Args, steps: set<StepId>, sys: System, faults: set<Op>) returns (r: seq<Entry>)
    modifies args, args.journal
    ensures var p := ByStep(steps, old(args.session), sys, faults);
      args.journal.log == old(args.journal.log) + p.trace && r == p.results
  {
    var manager := new Manager(args);
    ghost var tracked := args.session;
    ghost var s1 := Requested(Step1, steps, tracked, sys, faults);
    ghost var s2 := Requested(Step2, steps, tracked, sys, faults);
    ghost var s3 := Requested(Step3, steps, tracked, sys, faults);
    ghost var s4 := Requested(Step4, steps, tracked, sys, faults);
    ghost var log0 := args.journal.log;
    var ok := RunRequested(manager, Step1, steps, sys, faults);
    assert args.session == tracked;
    ok := RunRequested(manager, Step2, steps, sys, faults);
    assert Requested(Step3, steps, args.session, sys, faults) == s3;
    ok := RunRequested(manager, Step3, steps, sys, faults);
    assert Requested(Step4, steps, args.session, sys, faults) == s4;
    ok := RunRequested(manager, Step4, steps, sys, faults);
    Concat4(log0, s1.trace, s2.trace, s3.trace, s4.trace, args.journal.log);
    r := manager.GetStatus();
  }

  lemma Concat4(log0: seq<Op>, t1: seq<Op>, t2: seq<Op>, t3: seq<Op>, t4: seq<Op>, log4: seq<Op>)
    requires log4 == log0 + t1 + t2 + t3 + t4
    ensures log4 == log0 + (t1 + t2 + t3 + t4)
  {
  }

  /** The order `start_step_by_step` runs the steps in. */
  function Rank(id: StepId): nat
  {
    match id
    case Step1 => 1
    case Step2 => 2
    case Step3 => 3
    case Step4 => 4
  }

  /** The keys come in the order 1, 2, 3, 4 (so each at most once). */
  predicate Ascending(ks: seq<StepId>)
  {
    forall i, j :: 0 <= i < j < |ks| ==> Rank(ks[i]) < Rank(ks[j])
  }

  /**
   * Run step by step, the results hold a key exactly for each requested step that
   * recorded something (all but step 1 after a non-zero binder probe), in the order
   * 1, 2, 3, 4.
   */
  lemma ByStepKeys(steps: set<StepId>, tracked: Option<Session>, sys: System, faults: set<Op>, k: StepId)
    ensures var p := ByStep(steps, tracked, sys, faults);
      Ascending(Keys(p.results)) &&
      (Lookup(p.results, k).Some? <==> k in steps && !(k == Step1 && Step1Abandons(sys, faults)))
  {
    RecordsInOrder(Requested(Step1, steps, tracked, sys, faults), Requested(Step2, steps, tracked, sys, faults),
                   Requested(Step3, steps, tracked, sys, faults), Requested(Step4, steps, tracked, sys, faults), k);
    RequestedRecords(k, steps, tracked, sys, faults);
  }

  lemma RequestedRecords(id: StepId, steps: set<StepId>, tracked: Option<Session>, sys: System, faults: set<Op>)
    ensures Requested(id, steps, tracked, sys, faults).record.Some? <==>
      id in steps && !(id == Step1 && Step1Abandons(sys, faults))
  {
  }

  /** Recording four steps in the order 1, 2, 3, 4 on no results. */
  lemma RecordsInOrder(s1: StepSpec, s2: StepSpec, s3: StepSpec, s4: StepSpec, k: StepId)
    ensures var r := Apply(Apply(Apply(Apply([], Step1, s1), Step2, s2), Step3, s3), Step4, s4);
      Ascending(Keys(r)) &&
      (Lookup(r, k).Some? <==>
        match k
        case Step1 => s1.record.Some?
        case Step2 => s2.record.Some?
        case Step3 => s3.record.Some?
        case Step4 => s4.record.Some?)
  {
    var m1 := Apply([], Step1, s1);
    var m2 := Apply(m1, Step2, s2);
    var m3 := Apply(m2, Step3, s3);
    ApplyAscending([], Step1, s1, k);
    ApplyAscending(m1, Step2, s2, k);
    ApplyAscending(m2, Step3, s3, k);
    ApplyAscending(m3, Step4, s4, k);
  }

  /** Recording a step ranked after every recorded one keeps the order. */
  lemma ApplyAscending(m: seq<Entry>, key: StepId, s: StepSpec, k: StepId)
    requires Ascending(Keys(m)) && forall j :: j in Keys(m) ==> Rank(j) < Rank(key)
    ensures Ascending(Keys(Apply(m, key, s)))
    ensures forall j :: j in Keys(Apply(m, key, s)) ==> Rank(j) <= Rank(key)
    ensures Lookup(Apply(m, key, s), k).Some? <==> Lookup(m, k).Some? || (k == key && s.record.Some?)
  {
    if s.record.Some? {
      var v := s.record.value;
      PutKeys(m, key, v);
      PutLookup(m, key, v, k);
      assert key !in Keys(m);
      var ks := Keys(m) + [key];
      assert Keys(Apply(m, key, s)) == ks;
      forall i, j | 0 <= i < j < |ks|
        ensures Rank(ks[i]) < Rank(ks[j])
      {
        if j == |ks| - 1 {
          assert ks[i] == Keys(m)[i] && Keys(m)[i] in Keys(m);
        } else {
          assert ks[i] == Keys(m)[i] && ks[j] == Keys(m)[j];
        }
      }
    }
  }

  // ---------------------------------------------------------------------------------
  // What the command line composes

  /**
   * `all --skip-hardware`: steps 1 to 3 with short-circuit; step 4 never runs and is
   * recorded as skipped only when the first three succeeded.
   */
  function SkipHardware(m: seq<Entry>, tracked: Option<Session>, sys: System, faults: set<Op>): Progress
  {
    var p := FirstThree(m, tracked, sys, faults);
    Progress(p.trace, if p.ok then Put(p.results, Step4, Skipped) else p.results, p.ok)
  }

  /** The first three steps never start the hardware manager. */
  lemma FirstThreeNoHardware(m: seq<Entry>, tracked: Option<Session>, sys: System, faults: set<Op>)
    ensures HardwareStart !in FirstThree(m, tracked, sys, faults).trace
  {
    Step1NoHardware(sys, faults);
    Step2NoHardware(Step2Session(tracked, sys), faults);
    var p1 := AndThen(Progress([], m, true), Step1, Step1Spec(sys, faults));
    AndThenAvoids(Progress([], m, true), Step1, Step1Spec(sys, faults), HardwareStart);
    AndThenAvoids(p1, Step2, Step2Spec(tracked, sys, faults), HardwareStart);
    AndThenAvoids(AndThen(p1, Step2, Step2Spec(tracked, sys, faults)), Step3, Step3Spec(sys, faults), HardwareStart);
  }

  lemma AndThenAvoids(p: Progress, key: StepId, s: StepSpec, x: Op)
    requires x !in p.trace && x !in s.trace
    ensures x !in AndThen(p, key, s).trace
  {
  }

  lemma Step1NoHardware(sys: System, faults: set<Op>)
    ensures HardwareStart !in Step1Spec(sys, faults).trace
  {
    var ops := ChmodOps(BinderNodes(sys), BinderMode, sys.paths);
    ChmodOpsOnlyChmod(BinderNodes(sys), BinderMode, sys.paths);
    AttemptStopsAtFirstFault(ops, faults);
    var head := Step1Head(sys, faults);
    var a := Then(When(sys.vendorType == "MAINLINE", Step(ProbeAshmem, faults)), Step(LoadBinderNodes, faults));
    assert HardwareStart !in Attempt(ops, faults).trace;
    ThenAvoids(a, Attempt(ops, faults), HardwareStart);
    ThenAvoids(head, Step1Tail(sys, faults), HardwareStart);
  }

  lemma Step2NoHardware(s: Session, faults: set<Op>)
    ensures HardwareStart !in Step2Run(s, faults).trace
  {
    ThenAvoids(SessionConfigPart(s, faults), MountPart(s, faults), HardwareStart);
    ThenAvoids(Run([NetStart], false), Then(SessionConfigPart(s, faults), MountPart(s, faults)), HardwareStart);
  }

  lemma SkipHardwareSpec(m: seq<Entry>, tracked: Option<Session>, sys: System, faults: set<Op>)
    requires UniqueKeys(m)
    ensures var p := SkipHardware(m, tracked, sys, faults);
      HardwareStart !in p.trace &&
      (p.ok ==> Lookup(p.results, Step4) == Some(Skipped)) &&
      (!p.ok ==> Lookup(p.results, Step4) == Lookup(m, Step4))
  {
    FirstThreeNoHardware(m, tracked, sys, faults);
    var s1 := Step1Spec(sys, faults);
    var s2 := Step2Spec(tracked, sys, faults);
    var s3 := Step3Spec(sys, faults);
    var m1 := Apply(m, Step1, s1);
    var m2 := Apply(m1, Step2, s2);
    var m3 := Apply(m2, Step3, s3);
    ApplyOther(m, Step1, s1, Step4);
    ApplyOther(m1, Step2, s2, Step4);
    ApplyOther(m2, Step3, s3, Step4);
    PutSpec(m3, Step4, Skipped);
  }

  lemma ApplyOther(m: seq<Entry>, key: StepId, s: StepSpec, k: StepId)
    requires UniqueKeys(m) && k != key
    ensures UniqueKeys(Apply(m, key, s)) && Lookup(Apply(m, key, s), k) == Lookup(m, k)
  {
    if s.record.Some? {
      PutSpec(m, key, s.record.value);
    }
  }
}
