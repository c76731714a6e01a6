/**
 * The world the container manager acts on, reduced to what its decisions depend on.
 *
 * - The container engine (`helpers.lxc`) is a status oracle: the k-th status query of the
 *   process answers `Answer(k)`: a finite script of statuses, then one settled status
 *   for ever after. Engine calls (start, stop, freeze, unfreeze) and every
 *   other collaborator call (network script, mounts, chmod, hardware manager, ...) are
 *   `Op`s appended to one log in the order they are issued.
 * - Whether a collaborator call raises is an input: the `faults` set of the call that
 *   issues it. A raising call is still logged (it was issued).
 * - `Args` is the shared argument namespace whose `session` attribute the managers set
 *   and delete; it reaches the journal of issued calls and the engine.
 */
module Host {
  import opened Strings

  /**
   * What the engine reports; `Other` covers any state name besides the three used, and
   * never carries "STOPPED", "RUNNING" or "FROZEN" in a well-formed answer (`Canonical`).
   */
  datatype Status = Stopped | Running | Frozen | Other(name: string)

  /** The answer is named by its own constructor, as the source's string comparisons assume. */
  predicate Canonical(s: Status)
  {
    s.Other? ==> s.name != "STOPPED" && s.name != "RUNNING" && s.name != "FROZEN"
  }

  function StatusName(s: Status): (r: string)
    ensures s.Other? || r in {"STOPPED", "RUNNING", "FROZEN"}
  {
    match s
    case Stopped => "STOPPED"
    case Running => "RUNNING"
    case Frozen => "FROZEN"
    case Other(n) => n
  }

  /** On well-formed answers the name read back decides the status: no two of them share a name. */
  lemma StatusNameInjective(s: Status, t: Status)
    requires Canonical(s) && Canonical(t)
    ensures StatusName(s) == StatusName(t) <==> s == t
  {
  }

  datatype EngineCall = Start | Stop | Freeze | Unfreeze

  /** A session record as it travels over D-Bus: a dictionary of strings. */
  type Session = map<string, string>

  /** Collaborator calls, named after what they do on the host. */
  datatype Op =
    | Lxc(call: EngineCall)
    | NetStart | NetStop
    | LaunchSensord(hwbinder: string)
    | StartCgroupLite
    | MkdirProbe0 | MkdirProbe1 | LazyUmountSchedtune | RmdirProbe1 | RmdirProbe0
    | StopNfcd | QueryNfcdActive | SystemctlStopNfcd
    | StartNfcd | QueryNfcdEnabled | SystemctlStartNfcd
    | Chmod(path: string, mode: string)
    | GenerateSessionConfig(session: Session)
    | ReadLxcConfig
    | BindData(source: string)
    | LoadConfig
    | MountRootfs(session: Session)
    | SetAidlVersion
    | HardwareStart | HardwareStop
    | PidofSensord | KillSensord(pid: string)
    | UmountRootfs | UmountAllData
    | SignalOwner(session: Session)
    | ProbeBinder | ProbeAshmem | LoadBinderNodes
    | EnterService   // the bus connection and the D-Bus service object of `service`
    | MainLoop       // `looper.run()`, whose error `service` logs and raises again
    | StartUnit(unit: string)
    | LoadConfigFile(path: string)

  /** Why an operation did not complete. */
  datatype Error =
    | AlreadyTracking
    | OtherUser
    | InvalidPid
    | MissingKey(key: string)
    | Raised

  datatype Outcome = Pass | Fail(error: Error)

  /** The optional host commands the managers look up with `which` before using them. */
  datatype Tool =
    | Sensord      // waydroid-sensord
    | UpstartStart // start
    | UpstartStop  // stop
    | Systemctl    // systemctl

  /**
   * Answers of the host at the time of one call: which tools `which` finds, which device
   * nodes exist, the schedtune cgroup mount and its probe directories (and whether a lazy
   * unmount of the cgroup detaches it, so the probe paths no longer exist), what the render,
   * framebuffer, video and DMA-heap node globs expand to, and the outputs of the few
   * commands whose output is inspected.
   */
  datatype System = System(
    tools: set<Tool>,
    paths: set<string>,
    schedtuneMounted: bool,
    probe0Exists: bool,
    probe1Exists: bool,
    umountDetaches: bool,
    renderNodes: seq<string>,
    fbNodes: seq<string>,
    videoNodes: seq<string>,
    dmaHeapNodes: seq<string>,
    configHasSession: bool,
    nfcdActive: bool,
    nfcdEnabled: bool,
    pidofSensord: string,
    vendorType: string,
    binderProbe: int,
    binder: string,
    vndbinder: string,
    hwbinder: string,
    ownPid: nat,
    containerReady: bool)

  /** The ops issued by a sequence of calls and whether the last of them raised. */
  datatype Run = Run(trace: seq<Op>, raised: bool)

  /**
   * Issue `ops` in order; the first one in `faults` raises and nothing after it is issued.
   */
  function Attempt(ops: seq<Op>, faults: set<Op>): (r: Run)
    ensures |r.trace| <= |ops|
    ensures !r.raised ==> r.trace == ops
  {
    if ops == [] then Run([], false)
    else if ops[0] in faults then Run([ops[0]], true)
    else
      var rest := Attempt(ops[1..], faults);
      Run([ops[0]] + rest.trace, rest.raised)
  }

  /**
   * The issued calls are a prefix of the plan; the run raises exactly when some planned
   * call is a fault, and then it stops at the first one.
   */
  lemma {:induction false} AttemptStopsAtFirstFault(ops: seq<Op>, faults: set<Op>)
    ensures var r := Attempt(ops, faults);
      && r.trace == ops[..|r.trace|]
      && (!r.raised <==> forall k :: 0 <= k < |ops| ==> ops[k] !in faults)
      && (r.raised ==> |r.trace| > 0 && r.trace[|r.trace| - 1] in faults)
      && (forall k :: 0 <= k < |r.trace| - 1 ==> r.trace[k] !in faults)
  {
    if ops != [] && ops[0] !in faults {
      AttemptStopsAtFirstFault(ops[1..], faults);
      assert forall k :: 1 <= k < |ops| ==> ops[k] == ops[1..][k - 1];
    }
  }

  /** One call: issued, and raising iff it is a fault. */
  function Step(op: Op, faults: set<Op>): Run
  {
    Run([op], op in faults)
  }

  /** No call at all. */
  const Skip := Run([], false)

  /** `r` when `c` holds, nothing otherwise. */
  function When(c: bool, r: Run): Run
  {
    if c then r else Skip
  }

  /** Sequential composition: `b` runs only when `a` did not raise. */
  function Then(a: Run, b: Run): Run
  {
    if a.raised then a else Run(a.trace + b.trace, b.raised)
  }

  /** Logging `a` and then `b` logs their composition. */
  lemma Chain(log0: seq<Op>, a: Run, log1: seq<Op>, b: Run, log2: seq<Op>)
    requires log1 == log0 + a.trace && !a.raised && log2 == log1 + b.trace
    ensures log2 == log0 + Then(a, b).trace && Then(a, b).raised == b.raised
  {
  }

  /** A run raises exactly when one of the calls it issued is a fault. */
  ghost predicate RaisesOnFault(r: Run, faults: set<Op>)
  {
    r.raised <==> exists k :: 0 <= k < |r.trace| && r.trace[k] in faults
  }

  lemma StepRaisesOnFault(op: Op, faults: set<Op>)
    ensures RaisesOnFault(Step(op, faults), faults)
  {
    assert Step(op, faults).trace[0] == op;
  }

  lemma WhenRaisesOnFault(c: bool, r: Run, faults: set<Op>)
    requires RaisesOnFault(r, faults)
    ensures RaisesOnFault(When(c, r), faults)
  {
  }

  /** A call issued by a composition is issued by one of its parts. */
  lemma ThenAvoids(a: Run, b: Run, x: Op)
    requires x !in a.trace && x !in b.trace
    ensures x !in Then(a, b).trace
  {
  }

  /** Composition keeps "raises exactly on a fault". */
  lemma ThenRaisesOnFault(a: Run, b: Run, faults: set<Op>)
    requires RaisesOnFault(a, faults) && RaisesOnFault(b, faults)
    ensures RaisesOnFault(Then(a, b), faults)
  {
    if !a.raised {
      var t := a.trace + b.trace;
      if b.raised {
        var k :| 0 <= k < |b.trace| && b.trace[k] in faults;
        assert t[|a.trace| + k] == b.trace[k];
      } else {
        forall k | 0 <= k < |t|
          ensures t[k] !in faults
        {
          if k < |a.trace| {
            assert t[k] == a.trace[k];
          } else {
            assert t[k] == b.trace[k - |a.trace|];
          }
        }
      }
    }
  }

  /** Running two call sequences one after the other is running their concatenation. */
  lemma {:induction false} AttemptConcat(a: seq<Op>, b: seq<Op>, faults: set<Op>)
    ensures Attempt(a + b, faults) == Then(Attempt(a, faults), Attempt(b, faults))
  {
    if a == [] {
      assert a + b == b;
    } else {
      var ab := a + b;
      assert ab[0] == a[0];
      assert ab[1..] == a[1..] + b;
      AttemptConcat(a[1..], b, faults);
      if a[0] !in faults {
        assert Attempt(ab, faults) == Run([a[0]] + Attempt(ab[1..], faults).trace, Attempt(ab[1..], faults).raised);
        assert Attempt(a, faults) == Run([a[0]] + Attempt(a[1..], faults).trace, Attempt(a[1..], faults).raised);
      }
    }
  }

  /** Only the faults among the planned calls matter. */
  lemma {:induction false} AttemptSameFaults(ops: seq<Op>, f1: set<Op>, f2: set<Op>)
    requires forall k :: 0 <= k < |ops| ==> (ops[k] in f1 <==> ops[k] in f2)
    ensures Attempt(ops, f1) == Attempt(ops, f2)
  {
    if ops != [] {
      assert ops[0] in f1 <==> ops[0] in f2;
      assert forall k :: 0 <= k < |ops[1..]| ==> ops[1..][k] == ops[k + 1];
      AttemptSameFaults(ops[1..], f1, f2);
    }
  }

  /** The engine calls of a log, in order: the engine's own trace. */
  function EngineCalls(log: seq<Op>): (r: seq<EngineCall>)
    ensures |r| <= |log|
  {
    if log == [] then []
    else (if log[0].Lxc? then [log[0].call] else []) + EngineCalls(log[1..])
  }

  lemma {:induction false} EngineCallsConcat(a: seq<Op>, b: seq<Op>)
    ensures EngineCalls(a + b) == EngineCalls(a) + EngineCalls(b)
  {
    if a == [] {
      assert a + b == b;
    } else {
      var ab := a + b;
      assert ab[0] == a[0];
      assert ab[1..] == a[1..] + b;
      EngineCallsConcat(a[1..], b);
      var head := if a[0].Lxc? then [a[0].call] else [];
      assert EngineCalls(ab) == head + EngineCalls(ab[1..]);
      assert EngineCalls(a) == head + EngineCalls(a[1..]);
    }
  }

  /**
   * What a session start did, given the session it found: with a session tracked it
   * fails and changes nothing; otherwise it issues `run` and tracks `session` exactly
   * when `run` completed.
   */
  ghost predicate StartedAs(before: Option<Session>, after: Option<Session>, log0: seq<Op>, log1: seq<Op>,
                            r: Outcome, session: Session, run: Run)
  {
    && (before.Some? ==> r == Fail(AlreadyTracking) && after == before && log1 == log0)
    && (before.None? ==>
          && log1 == log0 + run.trace
          && (r == Pass <==> !run.raised)
          && after == (if run.raised then None else Some(session)))
  }

  /** The argument namespace shared by every action; `session` is set and deleted. */
  class Args {
    var session: Option<Session>
    const journal: Journal
    const engine: Engine

    constructor (journal: Journal, engine: Engine)
      ensures this.journal == journal && this.engine == engine && session == None
    {
      this.journal := journal;
      this.engine := engine;
      session := None;
    }
  }

  /** The calls issued to the host, in order. */
  class Journal {
    var log: seq<Op>

    constructor ()
      ensures log == []
    {
      log := [];
    }

    /** Issue one collaborator call. */
    method Exec(op: Op, faults: set<Op>) returns (raised: bool)
      modifies this
      ensures log == old(log) + [op] && raised == (op in faults)
    {
      log := log + [op];
      raised := op in faults;
    }
  }

  /**
   * The container engine as seen through its status queries: the k-th query answers the
   * k-th status of `script`, and `settled` once the script is exhausted.
   */
  class Engine {
    const script: seq<Status>
    const settled: Status
    var polls: nat

    constructor (script: seq<Status>, settled: Status)
      ensures this.script == script && this.settled == settled && polls == 0
    {
      this.script := script;
      this.settled := settled;
      polls := 0;
    }

    /** The answer of the k-th status query. */
    function Answer(k: nat): (s: Status)
      ensures k < |script| ==> s == script[k]
      ensures |script| <= k ==> s == settled
    {
      if k < |script| then script[k] else settled
    }

    /** Some status query from poll `from` on reports `target`. */
    ghost predicate Reports(target: Status, from: nat)
    {
      exists k: nat :: from <= k && Answer(k) == target
    }

    /** Some status query from poll `from` on reports something other than `current`. */
    ghost predicate Leaves(current: Status, from: nat)
    {
      exists k: nat :: from <= k && Answer(k) != current
    }

    /** Ask the engine for its status. */
    method QueryStatus() returns (s: Status)
      modifies this
      ensures s == Answer(old(polls)) && polls == old(polls) + 1
    {
      s := Answer(polls);
      polls := polls + 1;
    }

    /** `while status() != target: pass` */
    method AwaitStatus(target: Status)
      requires Reports(target, polls)
      modifies this
      ensures old(polls) < polls && Answer(polls - 1) == target
      ensures forall j :: old(polls) <= j < polls - 1 ==> Answer(j) != target
    {
      ghost var k: nat :| polls <= k && Answer(k) == target;
      var s := QueryStatus();
      while s != target
        invariant old(polls) < polls <= k + 1 && s == Answer(polls - 1)
        invariant forall j :: old(polls) <= j < polls - 1 ==> Answer(j) != target
        decreases k + 1 - polls
      {
        s := QueryStatus();
      }
    }

    /** `while status() == current: pass` */
    method AwaitChange(current: Status)
      requires Leaves(current, polls)
      modifies this
      ensures old(polls) < polls && Answer(polls - 1) != current
      ensures forall j :: old(polls) <= j < polls - 1 ==> Answer(j) == current
    {
      ghost var k: nat :| polls <= k && Answer(k) != current;
      var s := QueryStatus();
      while s == current
        invariant old(polls) < polls <= k + 1 && s == Answer(polls - 1)
        invariant forall j :: old(polls) <= j < polls - 1 ==> Answer(j) == current
        decreases k + 1 - polls
      {
        s := QueryStatus();
      }
    }
  }
}
