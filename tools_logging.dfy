/**
 * The `waydroid` logging set-up: the level table it registers, the routing of one record
 * between the handler's stream (standard error) and the log descriptor, and `init`, which picks the log
 * descriptor, the root level and installs the single handler.
 */
module ToolsLogging {
  import opened Strings
  import opened ToolsArgs

  // The standard library's levels and the four added ones.
  const Debug := 10
  const Info := 20
  const Spam := 5
  const Verbose := 15
  const Notice := 25
  const Success := 35
  const VerboseOld := 5

  /* ---------------------------------------------------------------- level names */

  /** The level registry: number to name and name to number. */
  datatype Names = Names(toName: map<int, string>, toLevel: map<string, int>)

  /** `addLevelName(level, name)`: both directions are overwritten. */
  function AddName(n: Names, level: int, name: string): (r: Names)
    ensures r.toName.Keys == n.toName.Keys + {level} && r.toName[level] == name
    ensures r.toLevel.Keys == n.toLevel.Keys + {name} && r.toLevel[name] == level
  {
    Names(n.toName[level := name], n.toLevel[name := level])
  }

  /** Registering `regs` in order. */
  function Register(n: Names, regs: seq<(int, string)>): Names
    decreases |regs|
  {
    if regs == [] then n else Register(AddName(n, regs[0].0, regs[0].1), regs[1..])
  }

  /** The registrations `add_maximum_log_levels` makes, in order. */
  const MaximumLevels: seq<(int, string)> :=
    [(Spam, "SPAM"), (Verbose, "VERBOSE"), (Notice, "NOTICE"), (Success, "SUCCESS"),
     (VerboseOld, "VERBOSE_OLD")]

  /** A level no registration names keeps the name it had. */
  lemma {:induction false} UnnamedLevelKept(n: Names, regs: seq<(int, string)>, level: int)
    requires forall j :: 0 <= j < |regs| ==> regs[j].0 != level
    ensures level in Register(n, regs).toName <==> level in n.toName
    ensures level in n.toName ==> Register(n, regs).toName[level] == n.toName[level]
    decreases |regs|
  {
    if regs != [] {
      UnnamedLevelKept(AddName(n, regs[0].0, regs[0].1), regs[1..], level);
    }
  }

  /** The last registration of a level decides its name. */
  lemma {:induction false} LastNameWins(n: Names, regs: seq<(int, string)>, k: nat)
    requires k < |regs|
    requires forall j :: k < j < |regs| ==> regs[j].0 != regs[k].0
    ensures regs[k].0 in Register(n, regs).toName
    ensures Register(n, regs).toName[regs[k].0] == regs[k].1
    decreases |regs|
  {
    var n1 := AddName(n, regs[0].0, regs[0].1);
    if k == 0 {
      UnnamedLevelKept(n1, regs[1..], regs[0].0);
    } else {
      LastNameWins(n1, regs[1..], k - 1);
    }
  }

  /** A name registered once keeps its level, whatever else is registered. */
  lemma {:induction false} NameKeepsLevel(n: Names, regs: seq<(int, string)>, k: nat)
    requires k < |regs|
    requires forall j :: 0 <= j < |regs| && j != k ==> regs[j].1 != regs[k].1
    ensures regs[k].1 in Register(n, regs).toLevel
    ensures Register(n, regs).toLevel[regs[k].1] == regs[k].0
    decreases |regs|
  {
    var n1 := AddName(n, regs[0].0, regs[0].1);
    if k == 0 {
      NameUnregisteredKept(n1, regs[1..], regs[0].1);
    } else {
      NameKeepsLevel(n1, regs[1..], k - 1);
    }
  }

  lemma {:induction false} NameUnregisteredKept(n: Names, regs: seq<(int, string)>, name: string)
    requires forall j :: 0 <= j < |regs| ==> regs[j].1 != name
    ensures name in Register(n, regs).toLevel <==> name in n.toLevel
    ensures name in n.toLevel ==> Register(n, regs).toLevel[name] == n.toLevel[name]
    decreases |regs|
  {
    if regs != [] {
      NameUnregisteredKept(AddName(n, regs[0].0, regs[0].1), regs[1..], name);
    }
  }

  /**
   * After the added levels are registered, 5 is called "VERBOSE_OLD" (registered after
   * "SPAM"), 15, 25 and 35 are "VERBOSE", "NOTICE" and "SUCCESS", both "SPAM" and
   * "VERBOSE_OLD" denote 5, and every other level keeps its name.
   */
  lemma MaximumLevelTable(n: Names, other: int)
    requires other !in {Spam, Verbose, Notice, Success}
    ensures var r := Register(n, MaximumLevels);
      {Spam, Verbose, Notice, Success} <= r.toName.Keys &&
      {"SPAM", "VERBOSE", "NOTICE", "SUCCESS", "VERBOSE_OLD"} <= r.toLevel.Keys &&
      r.toName[Spam] == "VERBOSE_OLD" && r.toName[Verbose] == "VERBOSE" &&
      r.toName[Notice] == "NOTICE" && r.toName[Success] == "SUCCESS" &&
      r.toLevel["SPAM"] == Spam && r.toLevel["VERBOSE_OLD"] == Spam &&
      r.toLevel["VERBOSE"] == Verbose && r.toLevel["NOTICE"] == Notice &&
      r.toLevel["SUCCESS"] == Success &&
      (other in r.toName <==> other in n.toName) &&
      (other in n.toName ==> r.toName[other] == n.toName[other])
  {
    var t := MaximumLevels;
    LastNameWins(n, t, 4);
    LastNameWins(n, t, 1);
    LastNameWins(n, t, 2);
    LastNameWins(n, t, 3);
    NameKeepsLevel(n, t, 0);
    NameKeepsLevel(n, t, 1);
    NameKeepsLevel(n, t, 2);
    NameKeepsLevel(n, t, 3);
    NameKeepsLevel(n, t, 4);
    UnnamedLevelKept(n, t, other);
  }

  lemma RegisterFive(n: Names, a: (int, string), b: (int, string), c: (int, string),
                     d: (int, string), e: (int, string))
    ensures Register(n, [a, b, c, d, e]) ==
      AddName(AddName(AddName(AddName(AddName(n, a.0, a.1), b.0, b.1), c.0, c.1), d.0, d.1), e.0, e.1)
  {
    var n1 := AddName(n, a.0, a.1);
    var n2 := AddName(n1, b.0, b.1);
    var n3 := AddName(n2, c.0, c.1);
    var n4 := AddName(n3, d.0, d.1);
    RegisterFirst(n, [a, b, c, d, e]);
    assert [a, b, c, d, e][1..] == [b, c, d, e];
    RegisterFirst(n1, [b, c, d, e]);
    assert [b, c, d, e][1..] == [c, d, e];
    RegisterFirst(n2, [c, d, e]);
    assert [c, d, e][1..] == [d, e];
    RegisterFirst(n3, [d, e]);
    assert [d, e][1..] == [e];
    RegisterFirst(n4, [e]);
    assert [e][1..] == [];
  }

  lemma RegisterFirst(n: Names, regs: seq<(int, string)>)
    requires regs != []
    ensures Register(n, regs) == Register(AddName(n, regs[0].0, regs[0].1), regs[1..])
  {
  }

  /** The logging library's process-wide level registry. */
  class Registry {
    var names: Names

    constructor (names: Names)
      ensures this.names == names
    {
      this.names := names;
    }

    method AddLevelName(level: int, name: string)
      modifies this
      ensures names == AddName(old(names), level, name)
    {
      names := AddName(names, level, name);
    }

    /** `add_maximum_log_levels`. */
    method AddMaximumLogLevels()
      modifies this
      ensures names == Register(old(names), MaximumLevels)
    {
      RegisterFive(names, (Spam, "SPAM"), (Verbose, "VERBOSE"), (Notice, "NOTICE"),
                   (Success, "SUCCESS"), (VerboseOld, "VERBOSE_OLD"));
      AddLevelName(Spam, "SPAM");
      AddLevelName(Verbose, "VERBOSE");
      AddLevelName(Notice, "NOTICE");
      AddLevelName(Success, "SUCCESS");
      AddLevelName(VerboseOld, "VERBOSE_OLD");
    }
  }

  /* ---------------------------------------------------------------- one record */

  /** A record with its level and the text the formatter made of it. */
  datatype Record = Record(levelno: int, formatted: string)

  datatype ErrorKind = KeyboardInterrupt | SystemExit | OtherError
  /** Where inside `emit` an error is raised. */
  datatype EmitPoint = AtFormat | AtStream | AtLogfd
  datatype Fault = Fault(kind: ErrorKind, at: EmitPoint)

  datatype EmitOutcome = Emitted | Propagated(kind: ErrorKind) | HandedToHandleError

  /** The chunks written to the handler's stream and to `logfd`, and how `emit` ended. */
  datatype EmitResult = EmitResult(toStream: seq<string>, toLogfd: seq<string>, outcome: EmitOutcome)

  /**
   * The record goes to the handler's stream, which is standard error (the handler is a
   * `StreamHandler` made without a stream): not quiet, no details on stdout, INFO or above.
   */
  predicate ToStream(detailsToStdout: bool, quiet: bool, levelno: int)
  {
    !detailsToStdout && !quiet && levelno >= Info
  }

  /** "(" + the pid padded with zeros to six digits + ") ". */
  function PidPrefix(pid: nat): (p: string)
    ensures |p| >= 9
  {
    "(" + ZFill(DecimalString(pid), 6) + ") "
  }

  /**
   * The prefix is the pid's decimal digits, zero-padded to at least six, in parentheses
   * and followed by a space; reading the digits back gives the pid.
   */
  lemma PidPrefixSpec(pid: nat)
    ensures var p := PidPrefix(pid);
      p[0] == '(' && p[|p| - 2..] == ") " && AllDigits(p[1..|p| - 2]) &&
      |p| - 3 == (if pid < 1000000 then 6 else |DecimalString(pid)|) &&
      ParseDecimal(p[1..|p| - 2]) == pid
  {
    var digits := ZFill(DecimalString(pid), 6);
    Parenthesised(digits);
    ZFillRoundTrip(pid, 6);
    ZFillDigits(DecimalString(pid), 6);
    assert Pow10(6) == 1000000;
    if pid < 1000000 {
      DecimalAtMost(pid, 6);
    } else {
      DecimalMoreThan(pid, 6);
    }
  }

  lemma Parenthesised(digits: string)
    ensures var p := "(" + digits + ") ";
      |p| == |digits| + 3 && p[0] == '(' && p[|p| - 2..] == ") " && p[1..|p| - 2] == digits
  {
    var p := "(" + digits + ") ";
    assert p[1..|p| - 2] == digits;
    assert p[|p| - 2..] == ") ";
  }

  /** How an error caught in `emit` ends it. */
  function Caught(kind: ErrorKind): (o: EmitOutcome)
    ensures o.Propagated? <==> kind != OtherError
  {
    if kind == OtherError then HandedToHandleError else Propagated(kind)
  }

  /** `log_handler.emit` for one record, with an optional error at a given point. */
  function EmitRun(detailsToStdout: bool, quiet: bool, rec: Record, pid: nat, fault: Option<Fault>): EmitResult
  {
    var routed := ToStream(detailsToStdout, quiet, rec.levelno);
    var stream := if routed then [rec.formatted, "\n"] else [];
    if fault.Some? && fault.value.at == AtFormat then EmitResult([], [], Caught(fault.value.kind))
    else if fault.Some? && fault.value.at == AtStream && routed then EmitResult([], [], Caught(fault.value.kind))
    else if fault.Some? && fault.value.at == AtLogfd then EmitResult(stream, [], Caught(fault.value.kind))
    else EmitResult(stream, [PidPrefix(pid) + rec.formatted + "\n"], Emitted)
  }

  /**
   * Without an error, a record reaches the handler's stream (standard error) exactly when it is INFO or above
   * and neither quiet nor details-to-stdout is set, and it always reaches `logfd` once,
   * behind the pid prefix.
   */
  lemma EmitRouting(detailsToStdout: bool, quiet: bool, rec: Record, pid: nat)
    ensures var r := EmitRun(detailsToStdout, quiet, rec, pid, None);
      r.outcome == Emitted &&
      (r.toStream != [] <==> !detailsToStdout && !quiet && rec.levelno >= Info) &&
      (r.toStream != [] ==> r.toStream == [rec.formatted, "\n"]) &&
      |r.toLogfd| == 1 && r.toLogfd[0][..|PidPrefix(pid)|] == PidPrefix(pid) &&
      r.toLogfd[0][|PidPrefix(pid)|..] == rec.formatted + "\n"
  {
  }

  /**
   * SPAM and VERBOSE records never reach the handler's stream; NOTICE and SUCCESS records do
   * whenever neither quiet nor details-to-stdout is set.
   */
  lemma AddedLevelRouting(detailsToStdout: bool, quiet: bool, text: string, pid: nat)
    ensures EmitRun(detailsToStdout, quiet, Record(Spam, text), pid, None).toStream == []
    ensures EmitRun(detailsToStdout, quiet, Record(Verbose, text), pid, None).toStream == []
    ensures !detailsToStdout && !quiet ==>
      EmitRun(detailsToStdout, quiet, Record(Notice, text), pid, None).toStream != [] &&
      EmitRun(detailsToStdout, quiet, Record(Success, text), pid, None).toStream != []
  {
  }

  /**
   * KeyboardInterrupt and SystemExit leave `emit`; any other error goes to `handleError`.
   * An error while formatting writes nothing, and one on the log descriptor leaves the
   * standard-output chunks already written.
   */
  lemma EmitErrors(detailsToStdout: bool, quiet: bool, rec: Record, pid: nat, f: Fault)
    ensures f.at == AtStream && !ToStream(detailsToStdout, quiet, rec.levelno) ==>
      EmitRun(detailsToStdout, quiet, rec, pid, Some(f)) == EmitRun(detailsToStdout, quiet, rec, pid, None)
    ensures f.at != AtStream || ToStream(detailsToStdout, quiet, rec.levelno) ==>
      var r := EmitRun(detailsToStdout, quiet, rec, pid, Some(f));
      (r.outcome.Propagated? <==> f.kind == KeyboardInterrupt || f.kind == SystemExit) &&
      (r.outcome == HandedToHandleError <==> f.kind == OtherError) &&
      r.toLogfd == [] &&
      (f.at == AtFormat ==> r.toStream == []) &&
      (f.at == AtLogfd ==> r == EmitResult(EmitRun(detailsToStdout, quiet, rec, pid, None).toStream, [], Caught(f.kind)))
  {
  }

  /**
   * The process's standard error (the handler's stream), its standard output and the opened
   * log file, as the chunks written.
   */
  class Streams {
    var stderr: seq<string>
    var stdout: seq<string>
    var logFile: seq<string>

    constructor ()
      ensures stderr == [] && stdout == [] && logFile == []
    {
      stderr, stdout, logFile := [], [], [];
    }

    /** One write to `sink`; the null device discards it. */
    method Write(sink: Sink, chunks: seq<string>)
      modifies this
      ensures stdout == old(stdout) + (if sink == Stdout then chunks else [])
      ensures logFile == old(logFile) + (if sink.LogFile? then chunks else [])
      ensures stderr == old(stderr)
    {
      if sink == Stdout {
        stdout := stdout + chunks;
      } else if sink.LogFile? {
        logFile := logFile + chunks;
      }
    }

    /** `log_handler.emit` with the handler's arguments `args`. */
    method Emit(args: Args, rec: Record, pid: nat, fault: Option<Fault>) returns (outcome: EmitOutcome)
      modifies this
      ensures var r := EmitRun(args.cli.detailsToStdout, args.cli.quiet, rec, pid, fault);
        outcome == r.outcome &&
        stderr == old(stderr) + r.toStream &&
        stdout == old(stdout) + (if args.logfd == Stdout then r.toLogfd else []) &&
        logFile == old(logFile) + (if args.logfd.LogFile? then r.toLogfd else [])
    {
      if fault.Some? && fault.value.at == AtFormat {
        return Caught(fault.value.kind);
      }
      var msg := rec.formatted;
      if !args.cli.detailsToStdout && !args.cli.quiet && rec.levelno >= Info {
        if fault.Some? && fault.value.at == AtStream {
          return Caught(fault.value.kind);
        }
        stderr := stderr + [msg, "\n"];
      }
      if fault.Some? && fault.value.at == AtLogfd {
        return Caught(fault.value.kind);
      }
      msg := PidPrefix(pid) + msg;
      Write(args.logfd, [msg + "\n"]);
      outcome := Emitted;
    }
  }

  /* ---------------------------------------------------------------- init */

  /** The directory part of a path, as `os.path.dirname` computes it. */
  function SlashEnd(p: string): (i: nat)
    ensures i <= |p| && (i > 0 ==> p[i - 1] == '/')
    ensures forall k :: i <= k < |p| ==> p[k] != '/'
  {
    if p == [] then 0 else if p[|p| - 1] == '/' then |p| else SlashEnd(p[..|p| - 1])
  }

  function TrimSlashes(h: string): (r: string)
    ensures r <= h && (r != [] ==> r[|r| - 1] != '/')
  {
    if h != [] && h[|h| - 1] == '/' then TrimSlashes(h[..|h| - 1]) else h
  }

  function Dirname(p: string): string
  {
    var head := p[..SlashEnd(p)];
    if head != [] && forall k :: 0 <= k < |head| ==> head[k] == '/' then head else TrimSlashes(head)
  }

  lemma {:induction false} SlashEndJoin(d: string, name: string)
    requires '/' !in name
    ensures SlashEnd(d + "/" + name) == |d| + 1
    decreases |name|
  {
    if name != [] {
      var p := d + "/" + name;
      assert p[..|p| - 1] == d + "/" + name[..|name| - 1];
      SlashEndJoin(d, name[..|name| - 1]);
    }
  }

  /** The directory of `d/name` is `d` when `d` does not end in a slash. */
  lemma DirnameJoin(d: string, name: string)
    requires '/' !in name && d != [] && d[|d| - 1] != '/'
    ensures Dirname(d + "/" + name) == d
  {
    var p := d + "/" + name;
    SlashEndJoin(d, name);
    assert p[..|d| + 1] == d + "/";
    var head := d + "/";
    assert head[..|d|] == d;
    assert head[|d| - 1] != '/';
    assert TrimSlashes(head) == TrimSlashes(d);
  }

  /** The log descriptor `init` sets: stdout, the log file if its directory exists, or the null device. */
  function LogFd(detailsToStdout: bool, log: string, existing: set<string>): (s: Sink)
    ensures s == Stdout <==> detailsToStdout
    ensures s.LogFile? ==> s.path == log && Dirname(log) in existing
  {
    if detailsToStdout then Stdout
    else if Dirname(log) in existing then LogFile(log)
    else DevNull
  }

  /** The root level `init` sets. */
  function SelectLevel(verbose: bool, ultraVerbose: bool): (level: int)
    ensures level == Spam <==> ultraVerbose
  {
    if ultraVerbose then Spam else if verbose then Verbose else Debug
  }

  /**
   * `--verbose` sets the root level to VERBOSE (15), which is above DEBUG (10): DEBUG
   * records that the default level lets through are dropped in verbose mode, while
   * `--ultra-verbose` lets every level from SPAM up through.
   */
  lemma VerboseDropsDebug(verbose: bool, ultraVerbose: bool)
    ensures Debug >= SelectLevel(false, false)
    ensures verbose && !ultraVerbose ==> Debug < SelectLevel(verbose, ultraVerbose)
    ensures SelectLevel(verbose, true) == Spam < Verbose < Notice < Success
  {
  }

  /** The handler `init` installs; it reads the arguments it was given. */
  datatype Handler = LogHandler(args: Args)

  /** The root logger's handler list and level. */
  class RootLogger {
    var handlers: seq<Handler>
    var level: int

    constructor (handlers: seq<Handler>, level: int)
      ensures this.handlers == handlers && this.level == level
    {
      this.handlers, this.level := handlers, level;
    }
  }

  /**
   * `init`: opening the log file fails only when the file is chosen and `openFails`;
   * then nothing else has changed. Otherwise `logfd` is chosen, the added levels are
   * registered, the root level is selected and the root logger holds exactly the one
   * new handler; a warning is printed for the null device unless the action is "init".
   */
  method Init(args: Args, root: RootLogger, registry: Registry, existing: set<string>, openFails: bool)
    returns (raised: bool, warned: bool)
    modifies args, root, registry
    ensures var fd := LogFd(args.cli.detailsToStdout, args.log, existing);
      (raised <==> fd.LogFile? && openFails) &&
      (raised ==> !warned && args.logfd == old(args.logfd) && root.handlers == old(root.handlers) &&
                  root.level == old(root.level) && registry.names == old(registry.names)) &&
      (!raised ==> args.logfd == fd && root.handlers == [LogHandler(args)] &&
                   root.level == SelectLevel(args.cli.verbose, args.cli.ultraVerbose) &&
                   registry.names == Register(old(registry.names), MaximumLevels) &&
                   (warned <==> fd == DevNull && args.cli.action != "init"))
    ensures args.log == old(args.log) && args.work == old(args.work)
    ensures args.config == old(args.config) && args.sudoTimer == old(args.sudoTimer)
    ensures args.timeout == old(args.timeout)
  {
    warned := false;
    if args.cli.detailsToStdout {
      args.logfd := Stdout;
    } else {
      var dir := Dirname(args.log);
      if dir in existing {
        if openFails {
          return true, false;
        }
        args.logfd := LogFile(args.log);
      } else {
        args.logfd := DevNull;
        warned := args.cli.action != "init";
      }
    }
    root.handlers := [];
    registry.AddMaximumLogLevels();
    if args.cli.ultraVerbose {
      root.level := Spam;
    } else if args.cli.verbose {
      root.level := Verbose;
    } else {
      root.level := Debug;
    }
    root.handlers := root.handlers + [LogHandler(args)];
    raised := false;
  }
}
