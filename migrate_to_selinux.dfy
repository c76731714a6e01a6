/**
 * The AppArmor-to-SELinux migration tool: the AppArmor probe, the SELinux mode rewrite,
 * the policy build, the two configuration updates, the verification listing and the
 * order in which `main` runs them.
 *
 * The machine holds the three configuration files it edits (with their backups), the
 * working directory, and the log of the actions it took. Which executables and
 * directories exist, the user id, and which commands raise or exit non-zero are inputs
 * (`MigrationEnv`).
 */
module MigrateSelinux {
  import opened Strings
  import LxcSelinux

  const SelinuxConfigPath := "/etc/selinux/config"
  const WaydroidConfigPath := "/etc/waydroid/waydroid.cfg"
  const LxcConfigPath := "/var/lib/waydroid/lxc/waydroid/config"
  const SelinuxFs := "/sys/fs/selinux"

  // ---------------------------------------------------------------------------------
  // The text rewrites

  const Disabled := "SELINUX=disabled"
  const Enforcing := "SELINUX=enforcing"
  const Permissive := "SELINUX=permissive"

  /** `enable_selinux`'s rewrite: both other modes become permissive. */
  function PermissiveConfig(content: string): string
  {
    Replace(Replace(content, Disabled, Permissive), Enforcing, Permissive)
  }

  /** The permissive setting cannot be turned into either of the two others by the rewrite. */
  lemma PermissiveCannotCreate()
    ensures CannotCreate(Permissive, Disabled) && CannotCreate(Permissive, Enforcing)
  {
    assert Permissive[..|Disabled|][8] != Disabled[8];
    assert Permissive[..|Enforcing|][8] != Enforcing[8];
  }

  /**
   * After the rewrite neither "SELINUX=disabled" nor "SELINUX=enforcing" occurs; a file
   * holding neither is left exactly as it was, so a second rewrite changes nothing.
   */
  lemma {:induction false} PermissiveConfigSpec(content: string)
    ensures !Contains(PermissiveConfig(content), Disabled) && !Contains(PermissiveConfig(content), Enforcing)
    ensures !Contains(content, Disabled) && !Contains(content, Enforcing) ==> PermissiveConfig(content) == content
    ensures PermissiveConfig(PermissiveConfig(content)) == PermissiveConfig(content)
  {
    PermissiveCannotCreate();
    var once := Replace(content, Disabled, Permissive);
    ReplaceAvoids(content, Disabled, Permissive, Disabled);
    ReplaceAvoids(once, Enforcing, Permissive, Disabled);
    ReplaceAvoids(once, Enforcing, Permissive, Enforcing);
    var r := PermissiveConfig(content);
    ContainsIffOccurs(r, Disabled);
    ContainsIffOccurs(r, Enforcing);
    if !Contains(content, Disabled) && !Contains(content, Enforcing) {
      ContainsIffOccurs(content, Disabled);
      ContainsIffOccurs(content, Enforcing);
      ReplaceAbsent(content, Disabled, Permissive);
      ReplaceAbsent(content, Enforcing, Permissive);
    }
    ReplaceAbsent(r, Disabled, Permissive);
    ReplaceAbsent(r, Enforcing, Permissive);
  }

  const SecurityMarker := "security = selinux"
  const SecurityHeading := "\n# SELinux Configuration\n"
  const SecurityPolicy := "\nselinux_policy = /etc/selinux/targeted/policy/waydroid.pp\n"
  /** The three lines appended, after a blank line: comment, marker, policy path. */
  const SecurityBlock := SecurityHeading + SecurityMarker + SecurityPolicy

  /** `update_waydroid_config`'s edit: the block is appended unless the marker is there. */
  function WithSecurity(content: string): string
  {
    if Contains(content, SecurityMarker) then content else content + SecurityBlock
  }

  /**
   * The old content is kept as a prefix, the marker is always present afterwards, and so
   * a second update leaves the content unchanged.
   */
  lemma WithSecuritySpec(content: string)
    ensures var r := WithSecurity(content);
      |content| <= |r| && r[..|content|] == content && Contains(r, SecurityMarker)
    ensures WithSecurity(WithSecurity(content)) == WithSecurity(content)
    ensures Contains(content, SecurityMarker) <==> WithSecurity(content) == content
  {
    var head := SecurityHeading;
    assert SecurityBlock[|head|..|head| + |SecurityMarker|] == SecurityMarker;
    assert OccursAt(SecurityBlock, SecurityMarker, |head|);
    ContainsIffOccurs(SecurityBlock, SecurityMarker);
    if !Contains(content, SecurityMarker) {
      ContainsAppended(content, SecurityBlock, SecurityMarker);
      assert (content + SecurityBlock)[..|content|] == content;
    }
  }

  /** `update_lxc_config`'s edit: the AppArmor lines go, the SELinux block is appended. */
  function LxcSelinuxConfig(lines: seq<string>): seq<string>
  {
    LxcSelinux.RemoveApparmor(lines) + LxcSelinux.SelinuxBlock
  }

  /** A pattern character (not a wildcard) missing from the line rules out a match. */
  lemma MissingCharNoMatch(line: string, pat: string, k: nat)
    requires k < |pat| && pat[k] != '.' && pat[k] !in line
    ensures !LxcSelinux.Matches(line, pat)
  {
    LxcSelinux.MatchesIff(line, pat);
  }

  /** No line of the SELinux block looks like an AppArmor profile line. */
  lemma BlockHasNoApparmor()
    ensures forall l :: l in LxcSelinux.SelinuxBlock ==>
      !LxcSelinux.Matches(l, LxcSelinux.AaProfile) && !LxcSelinux.Matches(l, LxcSelinux.ApparmorProfile)
  {
    forall k | 0 <= k < |LxcSelinux.SelinuxBlock|
      ensures !LxcSelinux.Matches(LxcSelinux.SelinuxBlock[k], LxcSelinux.AaProfile)
      ensures !LxcSelinux.Matches(LxcSelinux.SelinuxBlock[k], LxcSelinux.ApparmorProfile)
    {
      BlockLineHasNoApparmor(k);
    }
  }

  lemma BlockLineHasNoApparmor(k: nat)
    requires k < |LxcSelinux.SelinuxBlock|
    ensures !LxcSelinux.Matches(LxcSelinux.SelinuxBlock[k], LxcSelinux.AaProfile)
    ensures !LxcSelinux.Matches(LxcSelinux.SelinuxBlock[k], LxcSelinux.ApparmorProfile)
  {
    var line := LxcSelinux.SelinuxBlock[k];
    if k == 0 {
      assert line == "";
    } else if k == 1 {
      assert LxcSelinux.AaProfile[6] == '_' && LxcSelinux.ApparmorProfile[5] == 'p';
      CommentLineChars();
      MissingCharNoMatch(line, LxcSelinux.AaProfile, 6);
      MissingCharNoMatch(line, LxcSelinux.ApparmorProfile, 5);
    } else {
      assert LxcSelinux.AaProfile[7] == 'p' && LxcSelinux.ApparmorProfile[5] == 'p';
      SettingLinesChars(k);
      MissingCharNoMatch(line, LxcSelinux.AaProfile, 7);
      MissingCharNoMatch(line, LxcSelinux.ApparmorProfile, 5);
    }
  }

  lemma CommentLineChars()
    ensures '_' !in LxcSelinux.SelinuxBlock[1] && 'p' !in LxcSelinux.SelinuxBlock[1]
  {
  }

  lemma SettingLinesChars(k: nat)
    requires 2 <= k < |LxcSelinux.SelinuxBlock|
    ensures 'p' !in LxcSelinux.SelinuxBlock[k]
  {
    if k == 2 {
      assert 'p' !in LxcSelinux.SelinuxBlock[2];
    } else {
      assert 'p' !in LxcSelinux.SelinuxBlock[3];
    }
  }

  lemma {:induction false} RemoveMatchingConcat(a: seq<string>, b: seq<string>, pat: string)
    ensures LxcSelinux.RemoveMatching(a + b, pat) == LxcSelinux.RemoveMatching(a, pat) + LxcSelinux.RemoveMatching(b, pat)
  {
    if a != [] {
      assert (a + b)[1..] == a[1..] + b;
      RemoveMatchingConcat(a[1..], b, pat);
    } else {
      assert a + b == b;
    }
  }

  lemma {:induction false} RemoveMatchingNone(lines: seq<string>, pat: string)
    requires forall l :: l in lines ==> !LxcSelinux.Matches(l, pat)
    ensures LxcSelinux.RemoveMatching(lines, pat) == lines
  {
    if lines != [] {
      RemoveMatchingNone(lines[1..], pat);
      assert lines == [lines[0]] + lines[1..];
    }
  }

  /**
   * No AppArmor profile line is left, and the block is appended unconditionally: every
   * call adds one more SELinux block.
   */
  lemma LxcSelinuxConfigSpec(lines: seq<string>)
    ensures forall l :: l in LxcSelinuxConfig(lines) ==> !LxcSelinux.Matches(l, LxcSelinux.AaProfile) && !LxcSelinux.Matches(l, LxcSelinux.ApparmorProfile)
    ensures LxcSelinuxConfig(LxcSelinuxConfig(lines)) == LxcSelinuxConfig(lines) + LxcSelinux.SelinuxBlock
  {
    BlockHasNoApparmor();
    LxcSelinux.RemoveApparmorSpec(lines);
    var once := LxcSelinuxConfig(lines);
    RemoveMatchingConcat(LxcSelinux.RemoveApparmor(lines), LxcSelinux.SelinuxBlock, LxcSelinux.AaProfile);
    RemoveMatchingNone(LxcSelinux.RemoveApparmor(lines), LxcSelinux.AaProfile);
    RemoveMatchingNone(LxcSelinux.SelinuxBlock, LxcSelinux.AaProfile);
    RemoveMatchingConcat(LxcSelinux.RemoveApparmor(lines), LxcSelinux.SelinuxBlock, LxcSelinux.ApparmorProfile);
    RemoveMatchingNone(LxcSelinux.RemoveApparmor(lines), LxcSelinux.ApparmorProfile);
    RemoveMatchingNone(LxcSelinux.SelinuxBlock, LxcSelinux.ApparmorProfile);
  }

  const DisplayLimit := 200

  /** `verify_selinux_setup`'s display of a listing: cut to 200 characters, marked "...". */
  function Display(out: string): string
  {
    if |out| > DisplayLimit then out[..DisplayLimit] + "..." else out
  }

  lemma DisplaySpec(out: string)
    ensures |Display(out)| <= DisplayLimit + 3
    ensures |out| <= DisplayLimit ==> Display(out) == out
    ensures |out| > DisplayLimit ==> |Display(out)| == DisplayLimit + 3
    ensures |out| > DisplayLimit ==>
      Display(out)[..DisplayLimit] == out[..DisplayLimit] && Display(out)[DisplayLimit..] == "..."
  {
  }

  // ---------------------------------------------------------------------------------
  // The machine

  /** What the tool does to the machine, in the order it does it. */
  datatype Action =
    | AaStatus | SystemctlIsActive                  // the AppArmor probes
    | SystemctlStop | SystemctlDisable | AaTeardown // stopping AppArmor
    | Sestatus | SetenforcePermissive
    | Backup(path: string)                          // `shutil.copy2(path, path + ".backup")`
    | Rewrite(path: string)                         // the file written back with new content
    | SedDelete(pattern: string, path: string)
    | AppendBlock(path: string)
    | MakeClean | Make | MakeInstall
    | SemoduleList | ListContexts(dir: string)

  /** The actions that change the system; the others only read it. */
  predicate Mutates(a: Action)
  {
    !(a.AaStatus? || a.SystemctlIsActive? || a.Sestatus? || a.SemoduleList? || a.ListContexts?)
  }

  /** The inputs: user id, executables on the path, existing directories, command outcomes. */
  datatype MigrationEnv = MigrationEnv(
    euid: int,
    tools: set<string>,
    dirs: set<string>,
    raises: set<Action>,       // the command cannot be run or the copy fails (an OSError)
    nonzero: set<Action>,      // the command runs and exits non-zero (a CalledProcessError under `check=True`)
    listings: map<string, string>,
    policyDir: string)

  /** The edited files: `None` when absent. */
  datatype Files = Files(
    selinux: Option<string>, selinuxBackup: Option<string>,
    waydroid: Option<string>, waydroidBackup: Option<string>,
    lxc: Option<seq<string>>, lxcBackup: Option<seq<string>>)

  class Machine {
    var files: Files
    var cwd: string
    var log: seq<Action>

    constructor (files: Files, cwd: string)
      ensures this.files == files && this.cwd == cwd && log == []
    {
      this.files := files;
      this.cwd := cwd;
      log := [];
    }

    /** Run `a`: whether it raised and, if not, whether it exited with status 0. */
    method Run(a: Action, env: MigrationEnv) returns (raised: bool, exitedZero: bool)
      modifies this
      ensures log == old(log) + [a] && files == old(files) && cwd == old(cwd)
      ensures raised == (a in env.raises) && exitedZero == (a !in env.nonzero)
    {
      log := log + [a];
      raised := a in env.raises;
      exitedZero := a !in env.nonzero;
    }

    // -------------------------------------------------------------------------------
    // check_apparmor_status

    method CheckApparmorStatus(env: MigrationEnv) returns (active: bool)
      modifies this
      ensures var p := ApparmorProbe(env);
        log == old(log) + p.0 && active == p.1 && files == old(files) && cwd == old(cwd)
    {
      if "aa-status" in env.tools {
        var raised, zero := Run(AaStatus, env);
        if !raised {
          return zero;
        }
      }
      active := false;
      if "systemctl" in env.tools {
        var raised, zero := Run(SystemctlIsActive, env);
        active := !raised && zero;
      }
    }

    // -------------------------------------------------------------------------------
    // stop_apparmor

    /**
     * Only a non-zero exit (`CalledProcessError`) is caught here; an error that keeps a
     * command from running escapes, and `escaped` reports it.
     */
    method StopApparmor(env: MigrationEnv) returns (escaped: bool)
      modifies this
      ensures log == old(log) + StopTrace(env) && files == old(files) && cwd == old(cwd)
      ensures escaped == StopEscapes(env)
    {
      escaped := false;
      if "systemctl" in env.tools {
        var raised, zero := Run(SystemctlStop, env);
        if raised {
          return true;
        }
        if zero {
          raised, zero := Run(SystemctlDisable, env);
          if raised {
            return true;
          }
        }
      }
      if "aa-teardown" in env.tools {
        var raised, zero := Run(AaTeardown, env);
        escaped := raised;
      }
    }

    // -------------------------------------------------------------------------------
    // enable_selinux

    /** A `setenforce` that cannot be run escapes (only `CalledProcessError` is caught). */
    method EnableSelinux(env: MigrationEnv) returns (escaped: bool)
      modifies this
      ensures log == old(log) + EnableTrace(env, old(files)) && files == EnableFiles(env, old(files))
      ensures escaped == EnableEscapes(env)
      ensures cwd == old(cwd)
    {
      var raised, zero := Run(Sestatus, env);
      raised, zero := Run(SetenforcePermissive, env);
      if raised {
        return true;
      }
      escaped := false;
      if files.selinux.Some? {
        raised, zero := Run(Backup(SelinuxConfigPath), env);
        if !raised {
          var content := files.selinux.value;
          files := files.(selinuxBackup := files.selinux);
          log := log + [Rewrite(SelinuxConfigPath)];
          files := files.(selinux := Some(PermissiveConfig(content)));
        }
      }
    }

    // -------------------------------------------------------------------------------
    // build_selinux_policy

    method BuildSelinuxPolicy(env: MigrationEnv) returns (ok: bool)
      modifies this
      ensures ok == PolicyBuilt(env)
      ensures log == old(log) + BuildTrace(env) && files == old(files) && cwd == old(cwd)
    {
      if env.policyDir !in env.dirs {
        return false;
      }
      var originalDir := cwd;
      cwd := env.policyDir;
      ok := false;
      if "make" in env.tools && "checkpolicy" in env.tools && "semodule_package" in env.tools {
        var raised, zero := Run(MakeClean, env);
        if !raised && zero {
          raised, zero := Run(Make, env);
          if !raised && zero {
            raised, zero := Run(MakeInstall, env);
            ok := !raised && zero;
          }
        }
      }
      cwd := originalDir;
    }

    // -------------------------------------------------------------------------------
    // update_waydroid_config

    method UpdateWaydroidConfig(env: MigrationEnv)
      modifies this
      ensures log == old(log) + WaydroidTrace(env, old(files)) && files == WaydroidFiles(env, old(files))
      ensures cwd == old(cwd)
    {
      if files.waydroid.Some? {
        var raised, zero := Run(Backup(WaydroidConfigPath), env);
        if !raised {
          var content := files.waydroid.value;
          files := files.(waydroidBackup := files.waydroid);
          if !Contains(content, SecurityMarker) {
            log := log + [Rewrite(WaydroidConfigPath)];
            files := files.(waydroid := Some(content + SecurityBlock));
          }
        }
      }
    }

    // -------------------------------------------------------------------------------
    // update_lxc_config

    method UpdateLxcConfig(env: MigrationEnv)
      modifies this
      ensures log == old(log) + LxcTrace(env, old(files)) && files == LxcFiles(env, old(files))
      ensures cwd == old(cwd)
    {
      if files.lxc.Some? {
        var raised, zero := Run(Backup(LxcConfigPath), env);
        if raised {
          return;
        }
        files := files.(lxcBackup := files.lxc);
        raised, zero := Run(SedDelete(LxcSelinux.AaProfile, LxcConfigPath), env);
        if raised {
          return;
        }
        files := files.(lxc := Some(SedResult(env, LxcSelinux.AaProfile, files.lxc.value)));
        raised, zero := Run(SedDelete(LxcSelinux.ApparmorProfile, LxcConfigPath), env);
        if raised {
          return;
        }
        files := files.(lxc := Some(SedResult(env, LxcSelinux.ApparmorProfile, files.lxc.value)));
        log := log + [AppendBlock(LxcConfigPath)];
        files := files.(lxc := Some(files.lxc.value + LxcSelinux.SelinuxBlock));
      }
    }

    // -------------------------------------------------------------------------------
    // verify_selinux_setup

    /** The status and module probes, then the context listing of each directory. */
    method VerifySelinuxSetup(env: MigrationEnv) returns (shown: seq<string>)
      modifies this
      ensures log == old(log) + [Sestatus, SemoduleList] + DirsTrace(WaydroidDirs, env)
      ensures shown == Shown(WaydroidDirs, env)
      ensures files == old(files) && cwd == old(cwd)
    {
      var raised, zero := Run(Sestatus, env);
      raised, zero := Run(SemoduleList, env);
      shown := [];
      for i := 0 to |WaydroidDirs|
        invariant log == old(log) + [Sestatus, SemoduleList] + DirsTrace(WaydroidDirs[..i], env)
        invariant shown == Shown(WaydroidDirs[..i], env)
        invariant files == old(files) && cwd == old(cwd)
      {
        assert WaydroidDirs[..i + 1][..i] == WaydroidDirs[..i];
        var directory := WaydroidDirs[i];
        if directory in env.dirs {
          raised, zero := Run(ListContexts(directory), env);
          if !raised && zero {
            shown := shown + [Display(Listing(env, directory))];
          }
        }
      }
      assert WaydroidDirs[..|WaydroidDirs|] == WaydroidDirs;
    }

    // -------------------------------------------------------------------------------
    // main

    /** `main`: the exit status; `SystemExit(1)` and an error caught by `main` both give 1. */
    method Migrate(env: MigrationEnv, dryRun: bool, force: bool) returns (exit: int)
      modifies this
      ensures var r := Migration(env, dryRun, force, old(files));
        log == old(log) + r.trace && files == r.files && exit == r.exit
      ensures cwd == old(cwd)
    {
      if !force && !Prerequisites(env) {
        return 1;
      }
      var active := CheckApparmorStatus(env);
      if dryRun {
        return 0;
      }
      ghost var log0, files0 := old(log), old(files);
      ghost var log1 := log;
      exit := MigrateSteps(env, active);
      MigrationSplit(log0, ApparmorProbe(env).0, log1, StepsRun(env, active, files0).trace, log);
    }

    /** The steps of `main` that only run without `--dry-run`. */
    method MigrateSteps(env: MigrationEnv, active: bool) returns (exit: int)
      modifies this
      ensures var r := StepsRun(env, active, old(files));
        log == old(log) + r.trace && files == r.files && exit == r.exit
      ensures cwd == old(cwd)
    {
      ghost var f0, log0 := files, log;
      if active {
        var escaped := StopApparmor(env);
        if escaped {
          return 1;
        }
      }
      ghost var log1 := log;
      var escaped := EnableSelinux(env);
      ghost var log2 := log;
      MigrationSplit(log0, if active then StopTrace(env) else [], log1, EnableTrace(env, f0), log2);
      if escaped {
        return 1;
      }
      ghost var f2 := files;
      var built := BuildSelinuxPolicy(env);
      MigrationSplit(log0, PrepareTrace(env, active, f0), log2, BuildTrace(env), log);
      if !built {
        return 1;
      }
      ghost var log3 := log;
      UpdateWaydroidConfig(env);
      ghost var log4 := log;
      ghost var f3 := files;
      UpdateLxcConfig(env);
      MigrationSplit(log3, WaydroidTrace(env, f2), log4, LxcTrace(env, f3), log);
      ghost var log5 := log;
      var shown := VerifySelinuxSetup(env);
      MigrationSplit(log3, UpdateTrace(env, f2), log5, VerifyTrace(env), log);
      MigrationSplit(log0, PrepareTrace(env, active, f0) + BuildTrace(env), log3,
                     UpdateTrace(env, f2) + VerifyTrace(env), log);
      exit := 0;
    }
  }

  /** Two consecutive segments of the log make one. */
  lemma MigrationSplit(log0: seq<Action>, a: seq<Action>, log1: seq<Action>, b: seq<Action>, log2: seq<Action>)
    requires log1 == log0 + a && log2 == log1 + b
    ensures log2 == log0 + (a + b)
  {
  }

  // ---------------------------------------------------------------------------------
  // What each step does

  /** `check_apparmor_status`: the probes it runs and whether AppArmor counts as active. */
  function ApparmorProbe(env: MigrationEnv): (seq<Action>, bool)
  {
    if "aa-status" in env.tools && AaStatus !in env.raises then ([AaStatus], AaStatus !in env.nonzero)
    else
      var first := if "aa-status" in env.tools then [AaStatus] else [];
      if "systemctl" in env.tools then
        (first + [SystemctlIsActive], SystemctlIsActive !in env.raises && SystemctlIsActive !in env.nonzero)
      else (first, false)
  }

  /**
   * When `aa-status` exists and runs, its exit status alone decides; `systemctl` is asked
   * exactly when `aa-status` is missing or raised and `systemctl` exists; with neither,
   * AppArmor counts as inactive. The probe only reads the system.
   */
  lemma ApparmorProbeSpec(env: MigrationEnv)
    ensures var p := ApparmorProbe(env);
      ("aa-status" in env.tools && AaStatus !in env.raises ==> p.1 == (AaStatus !in env.nonzero)) &&
      (SystemctlIsActive in p.0 <==>
        "systemctl" in env.tools && ("aa-status" !in env.tools || AaStatus in env.raises)) &&
      (p.1 ==> ("aa-status" in env.tools && AaStatus !in env.raises) || "systemctl" in env.tools) &&
      (forall a :: a in p.0 ==> !Mutates(a))
  {
  }

  /** A command run with `check=True` whose failure is caught: it raised or exited non-zero. */
  predicate Fails(env: MigrationEnv, a: Action)
  {
    a in env.raises || a in env.nonzero
  }

  /** An error in the `systemctl` stop or disable that `stop_apparmor` does not catch. */
  predicate SystemctlEscapes(env: MigrationEnv)
  {
    "systemctl" in env.tools &&
    (SystemctlStop in env.raises || (SystemctlStop !in env.nonzero && SystemctlDisable in env.raises))
  }

  /** `stop_apparmor` lets an error escape to `main`. */
  predicate StopEscapes(env: MigrationEnv)
  {
    SystemctlEscapes(env) || (!SystemctlEscapes(env) && "aa-teardown" in env.tools && AaTeardown in env.raises)
  }

  /**
   * `stop_apparmor`: a failed stop skips the disable; the teardown is tried after either,
   * unless an error escaped first.
   */
  function StopTrace(env: MigrationEnv): seq<Action>
  {
    (if "systemctl" !in env.tools then []
     else if Fails(env, SystemctlStop) then [SystemctlStop]
     else [SystemctlStop, SystemctlDisable]) +
    (if "aa-teardown" in env.tools && !SystemctlEscapes(env) then [AaTeardown] else [])
  }

  /** `enable_selinux` lets an error escape to `main`: `setenforce` could not be run. */
  predicate EnableEscapes(env: MigrationEnv)
  {
    SetenforcePermissive in env.raises
  }

  function EnableTrace(env: MigrationEnv, f: Files): seq<Action>
  {
    [Sestatus, SetenforcePermissive] +
    if EnableEscapes(env) || f.selinux.None? then []
    else if Backup(SelinuxConfigPath) in env.raises then [Backup(SelinuxConfigPath)]
    else [Backup(SelinuxConfigPath), Rewrite(SelinuxConfigPath)]
  }

  function EnableFiles(env: MigrationEnv, f: Files): Files
  {
    if EnableEscapes(env) || f.selinux.None? || Backup(SelinuxConfigPath) in env.raises then f
    else f.(selinuxBackup := f.selinux, selinux := Some(PermissiveConfig(f.selinux.value)))
  }

  /**
   * The SELinux config is rewritten only after its backup was taken, the backup holds the
   * old content, and only the SELinux config and its backup change.
   */
  lemma EnableSpec(env: MigrationEnv, f: Files)
    ensures var t := EnableTrace(env, f);
      Rewrite(SelinuxConfigPath) in t ==> t[|t| - 2] == Backup(SelinuxConfigPath) && t[|t| - 1] == Rewrite(SelinuxConfigPath)
    ensures var g := EnableFiles(env, f);
      g.waydroid == f.waydroid && g.waydroidBackup == f.waydroidBackup && g.lxc == f.lxc && g.lxcBackup == f.lxcBackup &&
      (g != f ==> g.selinuxBackup == f.selinux && g.selinux.Some? && f.selinux.Some? &&
                  g.selinux.value == PermissiveConfig(f.selinux.value))
  {
  }

  /** `build_selinux_policy` returns True exactly when this holds. */
  predicate PolicyBuilt(env: MigrationEnv)
  {
    env.policyDir in env.dirs && BuildToolsPresent(env) &&
    !Fails(env, MakeClean) && !Fails(env, Make) && !Fails(env, MakeInstall)
  }

  predicate BuildToolsPresent(env: MigrationEnv)
  {
    "make" in env.tools && "checkpolicy" in env.tools && "semodule_package" in env.tools
  }

  function BuildTrace(env: MigrationEnv): seq<Action>
  {
    if env.policyDir !in env.dirs || !BuildToolsPresent(env) then []
    else if Fails(env, MakeClean) then [MakeClean]
    else if Fails(env, Make) then [MakeClean, Make]
    else [MakeClean, Make, MakeInstall]
  }

  /**
   * The policy is built only in order: clean, build, install; it counts as built exactly
   * when all three were issued, which needs the directory and all three tools.
   */
  lemma BuildSpec(env: MigrationEnv)
    ensures PolicyBuilt(env) ==> BuildTrace(env) == [MakeClean, Make, MakeInstall]
    ensures BuildTrace(env) != [] ==> env.policyDir in env.dirs && BuildToolsPresent(env) && BuildTrace(env)[0] == MakeClean
    ensures MakeInstall in BuildTrace(env) ==> BuildTrace(env) == [MakeClean, Make, MakeInstall]
  {
  }

  function WaydroidTrace(env: MigrationEnv, f: Files): seq<Action>
  {
    if f.waydroid.None? then []
    else if Backup(WaydroidConfigPath) in env.raises then [Backup(WaydroidConfigPath)]
    else if Contains(f.waydroid.value, SecurityMarker) then [Backup(WaydroidConfigPath)]
    else [Backup(WaydroidConfigPath), Rewrite(WaydroidConfigPath)]
  }

  function WaydroidFiles(env: MigrationEnv, f: Files): Files
  {
    if f.waydroid.None? || Backup(WaydroidConfigPath) in env.raises then f
    else f.(waydroidBackup := f.waydroid, waydroid := Some(WithSecurity(f.waydroid.value)))
  }

  /** Updating twice leaves the Waydroid configuration as updating once did. */
  lemma WaydroidUpdateIdempotent(env: MigrationEnv, f: Files)
    requires Backup(WaydroidConfigPath) !in env.raises
    ensures WaydroidFiles(env, WaydroidFiles(env, f)).waydroid == WaydroidFiles(env, f).waydroid
    ensures var g := WaydroidFiles(env, f);
      g.waydroid.Some? ==> Rewrite(WaydroidConfigPath) !in WaydroidTrace(env, g)
  {
    if f.waydroid.Some? {
      WithSecuritySpec(f.waydroid.value);
    }
  }

  function LxcTrace(env: MigrationEnv, f: Files): seq<Action>
  {
    var backup := Backup(LxcConfigPath);
    var sed1 := SedDelete(LxcSelinux.AaProfile, LxcConfigPath);
    var sed2 := SedDelete(LxcSelinux.ApparmorProfile, LxcConfigPath);
    if f.lxc.None? then []
    else if backup in env.raises then [backup]
    else if sed1 in env.raises then [backup, sed1]
    else if sed2 in env.raises then [backup, sed1, sed2]
    else [backup, sed1, sed2, AppendBlock(LxcConfigPath)]
  }

  function LxcFiles(env: MigrationEnv, f: Files): Files
  {
    if f.lxc.None? || Backup(LxcConfigPath) in env.raises then f
    else if SedDelete(LxcSelinux.AaProfile, LxcConfigPath) in env.raises then f.(lxcBackup := f.lxc)
    else if SedDelete(LxcSelinux.ApparmorProfile, LxcConfigPath) in env.raises then
      f.(lxcBackup := f.lxc, lxc := Some(SedResult(env, LxcSelinux.AaProfile, f.lxc.value)))
    else
      var stripped := SedResult(env, LxcSelinux.ApparmorProfile, SedResult(env, LxcSelinux.AaProfile, f.lxc.value));
      f.(lxcBackup := f.lxc, lxc := Some(stripped + LxcSelinux.SelinuxBlock))
  }

  /** `sed -i /pat/d` on the LXC config: a run that exits non-zero leaves the file as it was. */
  function SedResult(env: MigrationEnv, pat: string, lines: seq<string>): seq<string>
  {
    if SedDelete(pat, LxcConfigPath) in env.nonzero then lines else LxcSelinux.RemoveMatching(lines, pat)
  }

  /** When every step succeeds, each update of the LXC configuration adds one more SELinux block. */
  lemma LxcUpdateRepeats(env: MigrationEnv, f: Files)
    requires f.lxc.Some?
    requires Backup(LxcConfigPath) !in env.raises
    requires SedDelete(LxcSelinux.AaProfile, LxcConfigPath) !in env.raises && SedDelete(LxcSelinux.ApparmorProfile, LxcConfigPath) !in env.raises
    requires SedDelete(LxcSelinux.AaProfile, LxcConfigPath) !in env.nonzero && SedDelete(LxcSelinux.ApparmorProfile, LxcConfigPath) !in env.nonzero
    ensures var once := LxcFiles(env, f);
      LxcFiles(env, once).lxc == Some(once.lxc.value + LxcSelinux.SelinuxBlock) && LxcFiles(env, once).lxcBackup == once.lxc
  {
    LxcSelinuxConfigSpec(f.lxc.value);
  }

  const WaydroidDirs := ["/var/lib/waydroid", "/data/waydroid"]

  function Listing(env: MigrationEnv, dir: string): string
  {
    if dir in env.listings then env.listings[dir] else ""
  }

  /** The context listings of the existing directories among `dirs`, in order. */
  function DirsTrace(dirs: seq<string>, env: MigrationEnv): seq<Action>
  {
    if dirs == [] then []
    else
      var last := dirs[|dirs| - 1];
      DirsTrace(dirs[..|dirs| - 1], env) + if last in env.dirs then [ListContexts(last)] else []
  }

  /** What the listings display: each successful listing, cut to 200 characters. */
  function Shown(dirs: seq<string>, env: MigrationEnv): (r: seq<string>)
    ensures forall k :: 0 <= k < |r| ==> |r[k]| <= DisplayLimit + 3
    ensures |r| <= |dirs|
  {
    if dirs == [] then []
    else
      var last := dirs[|dirs| - 1];
      var a := ListContexts(last);
      DisplaySpec(Listing(env, last));
      Shown(dirs[..|dirs| - 1], env) +
      if last in env.dirs && a !in env.raises && a !in env.nonzero then [Display(Listing(env, last))] else []
  }

  function VerifyTrace(env: MigrationEnv): seq<Action>
  {
    [Sestatus, SemoduleList] + DirsTrace(WaydroidDirs, env)
  }

  /** Which listings are issued depends only on which directories exist. */
  lemma {:induction false} DirsTraceReadsDirs(dirs: seq<string>, env: MigrationEnv, env': MigrationEnv)
    requires env.dirs == env'.dirs
    ensures DirsTrace(dirs, env) == DirsTrace(dirs, env')
  {
    if dirs != [] {
      DirsTraceReadsDirs(dirs[..|dirs| - 1], env, env');
    }
  }

  /** The verification only reads the system. */
  lemma {:induction false} DirsTraceReadOnly(dirs: seq<string>, env: MigrationEnv)
    ensures forall a :: a in DirsTrace(dirs, env) ==> !Mutates(a)
  {
    if dirs != [] {
      DirsTraceReadOnly(dirs[..|dirs| - 1], env);
    }
  }

  // ---------------------------------------------------------------------------------
  // main

  /** What one run of the tool issued, the files it left and its exit status. */
  datatype Outcome = Outcome(trace: seq<Action>, files: Files, exit: int)

  /** `check_root` and `check_selinux_available`. */
  predicate Prerequisites(env: MigrationEnv)
  {
    env.euid == 0 && SelinuxFs in env.dirs && "sestatus" in env.tools
  }

  function PrepareTrace(env: MigrationEnv, active: bool, f: Files): seq<Action>
  {
    (if active then StopTrace(env) else []) + EnableTrace(env, f)
  }

  function UpdateTrace(env: MigrationEnv, f: Files): seq<Action>
  {
    WaydroidTrace(env, f) + LxcTrace(env, WaydroidFiles(env, f))
  }

  /** An error escapes `stop_apparmor` (run only when AppArmor is active) or `enable_selinux`. */
  predicate Escapes(env: MigrationEnv, active: bool)
  {
    (active && StopEscapes(env)) || EnableEscapes(env)
  }

  /**
   * Everything after the AppArmor probe, without `--dry-run`. An escaping error ends the
   * steps where it occurs; `main`'s handler then exits with status 1.
   */
  function StepsRun(env: MigrationEnv, active: bool, f: Files): Outcome
  {
    if active && StopEscapes(env) then Outcome(StopTrace(env), f, 1)
    else if EnableEscapes(env) then Outcome(PrepareTrace(env, active, f), f, 1)
    else
    var f2 := EnableFiles(env, f);
    var prepared := PrepareTrace(env, active, f) + BuildTrace(env);
    if !PolicyBuilt(env) then Outcome(prepared, f2, 1)
    else Outcome(prepared + (UpdateTrace(env, f2) + VerifyTrace(env)), LxcFiles(env, WaydroidFiles(env, f2)), 0)
  }

  function Migration(env: MigrationEnv, dryRun: bool, force: bool, f: Files): Outcome
  {
    if !force && !Prerequisites(env) then Outcome([], f, 1)
    else if dryRun then Outcome(ApparmorProbe(env).0, f, 0)
    else
      var r := StepsRun(env, ApparmorProbe(env).1, f);
      Outcome(ApparmorProbe(env).0 + r.trace, r.files, r.exit)
  }

  /**
   * With `--dry-run` nothing that changes the system is done and no file changes: only
   * the AppArmor probe runs, and the exit status is 0 unless a prerequisite failed.
   */
  lemma DryRunChangesNothing(env: MigrationEnv, force: bool, f: Files)
    ensures var r := Migration(env, true, force, f);
      r.files == f && (forall a :: a in r.trace ==> !Mutates(a)) &&
      (r.exit == 0 <==> force || Prerequisites(env))
  {
    ApparmorProbeSpec(env);
  }

  /**
   * Without `--force`, a user other than root, a missing `/sys/fs/selinux` or a missing
   * `sestatus` ends the run with status 1 before anything is issued.
   */
  lemma PrerequisitesGate(env: MigrationEnv, dryRun: bool, f: Files)
    requires env.euid != 0 || SelinuxFs !in env.dirs || "sestatus" !in env.tools
    ensures Migration(env, dryRun, false, f) == Outcome([], f, 1)
  {
  }

  /**
   * A failed policy build ends the run with status 1, after the SELinux mode rewrite but
   * with neither the Waydroid nor the LXC configuration (nor their backups) touched and
   * nothing verified.
   */
  lemma FailedBuildKeepsConfigs(env: MigrationEnv, force: bool, f: Files)
    requires force || Prerequisites(env)
    requires !PolicyBuilt(env)
    ensures var r := Migration(env, false, force, f);
      r.exit == 1 &&
      r.files.waydroid == f.waydroid && r.files.waydroidBackup == f.waydroidBackup &&
      r.files.lxc == f.lxc && r.files.lxcBackup == f.lxcBackup &&
      Rewrite(WaydroidConfigPath) !in r.trace && AppendBlock(LxcConfigPath) !in r.trace && SemoduleList !in r.trace
  {
    var active := ApparmorProbe(env).1;
    if Escapes(env, active) {
      EscapeExitsOne(env, force, f);
    } else {
      EnableSpec(env, f);
      PreparedTouchesNoConfig(env, active, f);
      assert Migration(env, false, force, f) ==
        Outcome(ApparmorProbe(env).0 + (PrepareTrace(env, active, f) + BuildTrace(env)), EnableFiles(env, f), 1);
    }
  }

  /** An error that escapes to `main` while AppArmor is stopped or SELinux enabled. */
  predicate MigrationEscapes(env: MigrationEnv)
  {
    Escapes(env, ApparmorProbe(env).1)
  }

  /**
   * An error that escapes `stop_apparmor` or `enable_selinux` ends the run with status 1:
   * no file has changed, no policy build was started and nothing was written or verified.
   */
  lemma EscapeExitsOne(env: MigrationEnv, force: bool, f: Files)
    requires force || Prerequisites(env)
    requires MigrationEscapes(env)
    ensures var r := Migration(env, false, force, f);
      r.exit == 1 && r.files == f && MakeClean !in r.trace && forall a :: a in r.trace ==> KeepsConfigs(a)
  {
    var active := ApparmorProbe(env).1;
    var r := Migration(env, false, force, f);
    ProbeKeepsConfigs(env);
    StopKeepsConfigs(env);
    if active && StopEscapes(env) {
      assert r.trace == ApparmorProbe(env).0 + StopTrace(env);
    } else {
      assert EnableTrace(env, f) == [Sestatus, SetenforcePermissive];
      assert r.trace == ApparmorProbe(env).0 + ((if active then StopTrace(env) else []) + EnableTrace(env, f));
    }
  }

  /**
   * `setenforce 0` exiting non-zero is caught and reported: the run goes on exactly as if
   * the command had succeeded.
   */
  lemma SetenforceRefusalCaught(env: MigrationEnv, force: bool, f: Files)
    requires SetenforcePermissive !in env.raises
    ensures var env' := env.(nonzero := env.nonzero + {SetenforcePermissive});
      Migration(env', false, force, f) == Migration(env, false, force, f)
  {
    var env' := env.(nonzero := env.nonzero + {SetenforcePermissive});
    assert ApparmorProbe(env') == ApparmorProbe(env);
    assert StopTrace(env') == StopTrace(env) && StopEscapes(env') == StopEscapes(env);
    assert PolicyBuilt(env') == PolicyBuilt(env) && BuildTrace(env') == BuildTrace(env);
    var f2 := EnableFiles(env, f);
    assert WaydroidTrace(env', f2) == WaydroidTrace(env, f2) && WaydroidFiles(env', f2) == WaydroidFiles(env, f2);
    var f3 := WaydroidFiles(env, f2);
    assert LxcTrace(env', f3) == LxcTrace(env, f3) && LxcFiles(env', f3) == LxcFiles(env, f3);
    DirsTraceReadsDirs(WaydroidDirs, env, env');
  }

  /** Neither configuration is written and no module is listed by `a`. */
  predicate KeepsConfigs(a: Action)
  {
    a != Rewrite(WaydroidConfigPath) && a != AppendBlock(LxcConfigPath) && a != SemoduleList
  }

  /** Up to the policy build nothing writes the two configurations or lists modules. */
  lemma PreparedTouchesNoConfig(env: MigrationEnv, active: bool, f: Files)
    ensures var t := ApparmorProbe(env).0 + (PrepareTrace(env, active, f) + BuildTrace(env));
      Rewrite(WaydroidConfigPath) !in t && AppendBlock(LxcConfigPath) !in t && SemoduleList !in t
  {
    var t1, t2, t3, t4 := ApparmorProbe(env).0, (if active then StopTrace(env) else []), EnableTrace(env, f), BuildTrace(env);
    ProbeKeepsConfigs(env);
    StopKeepsConfigs(env);
    EnableKeepsConfigs(env, f);
    BuildKeepsConfigs(env);
    assert PrepareTrace(env, active, f) == t2 + t3;
    forall a | a in t1 + (t2 + t3 + t4)
      ensures KeepsConfigs(a)
    {
    }
  }

  lemma ProbeKeepsConfigs(env: MigrationEnv)
    ensures forall a :: a in ApparmorProbe(env).0 ==> KeepsConfigs(a)
  {
  }

  lemma StopKeepsConfigs(env: MigrationEnv)
    ensures forall a :: a in StopTrace(env) ==> KeepsConfigs(a)
  {
  }

  lemma EnableKeepsConfigs(env: MigrationEnv, f: Files)
    ensures forall a :: a in EnableTrace(env, f) ==> KeepsConfigs(a)
  {
    assert |SelinuxConfigPath| != |WaydroidConfigPath|;
  }

  lemma BuildKeepsConfigs(env: MigrationEnv)
    ensures forall a :: a in BuildTrace(env) ==> KeepsConfigs(a)
  {
  }

  /**
   * A run that gets past the prerequisites without `--dry-run` exits 0 exactly when the
   * policy was built and no error escaped to `main`, and then the policy install comes
   * before either configuration is written.
   */
  lemma SuccessfulRun(env: MigrationEnv, force: bool, f: Files)
    requires force || Prerequisites(env)
    ensures var r := Migration(env, false, force, f);
      (r.exit == 0 <==> PolicyBuilt(env) && !MigrationEscapes(env)) &&
      (r.exit == 0 ==> exists i :: 0 <= i < |r.trace| && r.trace[i] == MakeInstall &&
                         Rewrite(WaydroidConfigPath) !in r.trace[..i] && AppendBlock(LxcConfigPath) !in r.trace[..i])
  {
    var r := Migration(env, false, force, f);
    var active := ApparmorProbe(env).1;
    if MigrationEscapes(env) {
      EscapeExitsOne(env, force, f);
    } else if PolicyBuilt(env) {
      var pre := ApparmorProbe(env).0 + (PrepareTrace(env, active, f) + BuildTrace(env));
      var post := UpdateTrace(env, EnableFiles(env, f)) + VerifyTrace(env);
      BuiltTrace(env, force, f);
      BuildSpec(env);
      PreparedTouchesNoConfig(env, active, f);
      InstallFirst(pre, post);
    }
  }

  /** With the policy built, the run is the preparation and build, then the updates. */
  lemma BuiltTrace(env: MigrationEnv, force: bool, f: Files)
    requires force || Prerequisites(env)
    requires PolicyBuilt(env) && !MigrationEscapes(env)
    ensures var active := ApparmorProbe(env).1;
      Migration(env, false, force, f).trace ==
        ApparmorProbe(env).0 + (PrepareTrace(env, active, f) + BuildTrace(env)) +
        (UpdateTrace(env, EnableFiles(env, f)) + VerifyTrace(env))
  {
    var active := ApparmorProbe(env).1;
    var a, b, c := ApparmorProbe(env).0, PrepareTrace(env, active, f) + BuildTrace(env),
                   UpdateTrace(env, EnableFiles(env, f)) + VerifyTrace(env);
    assert StepsRun(env, active, f).trace == b + c;
    assert a + (b + c) == a + b + c;
  }

  lemma InstallFirst(pre: seq<Action>, post: seq<Action>)
    requires pre != [] && pre[|pre| - 1] == MakeInstall
    requires Rewrite(WaydroidConfigPath) !in pre && AppendBlock(LxcConfigPath) !in pre
    ensures var t := pre + post;
      exists i :: 0 <= i < |t| && t[i] == MakeInstall &&
        Rewrite(WaydroidConfigPath) !in t[..i] && AppendBlock(LxcConfigPath) !in t[..i]
  {
    var t := pre + post;
    var i := |pre| - 1;
    assert t[..i] == pre[..i];
    assert t[i] == MakeInstall;
  }
}
