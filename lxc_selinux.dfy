/**
 * The SELinux variant of the LXC configuration helper: the SELinux status and mode
 * read from `sestatus` and the kernel's enforce file, the version-gated choice of
 * configuration snippets, the text the container's `config` file is assembled from,
 * the AppArmor line removal, the policy build and the choice between the SELinux and
 * the AppArmor configuration.
 *
 * Files are sequences of lines (each line without its newline, every file ending in a
 * newline). Shell commands are `Cmd` values recorded in `LxcHost.log`; whether one
 * raises is decided by the `faults` set, and which ones exit non-zero without raising by
 * the `nonzero` set.
 */
module LxcSelinux {
  import opened Strings

  const SelinuxContext := "system_u:system_r:waydroid_t:s0"
  const SelinuxNesting := "1"

  // ---------------------------------------------------------------------------------
  // Status and mode

  /**
   * What `get_selinux_status` looks at: whether `sestatus` is on the path, its exit
   * status, and the contents of `/sys/fs/selinux/enforce` (`None` when it cannot be read).
   */
  datatype SelinuxProbe = SelinuxProbe(sestatusFound: bool, sestatusExit: int, enforce: Option<string>)

  /** The values the enforce file holds when SELinux is on: permissive or enforcing. */
  predicate EnforceValue(s: string)
  {
    s == "0" || s == "1"
  }

  /** `get_selinux_status`. */
  predicate SelinuxStatus(p: SelinuxProbe)
  {
    p.sestatusFound && p.sestatusExit == 0 && p.enforce.Some? && EnforceValue(Strip(p.enforce.value))
  }

  datatype Mode = Disabled | Enforcing | Permissive | Unknown

  function ModeName(m: Mode): string
  {
    match m
    case Disabled => "disabled"
    case Enforcing => "enforcing"
    case Permissive => "permissive"
    case Unknown => "unknown"
  }

  /**
   * `get_selinux_mode`: the status check, then a second read of the enforce file
   * (`reread`, `None` when that read fails).
   */
  function SelinuxMode(p: SelinuxProbe, reread: Option<string>): Mode
  {
    if !SelinuxStatus(p) then Disabled
    else if reread.None? then Unknown
    else if Strip(reread.value) == "1" then Enforcing
    else if Strip(reread.value) == "0" then Permissive
    else Unknown
  }

  /**
   * The mode is "disabled" exactly when the status is false; with the status true it is
   * "enforcing" or "permissive" as the second read says. When the file reads the same
   * both times the mode is never "unknown": the status check already demanded 0 or 1.
   */
  lemma ModeFollowsStatus(p: SelinuxProbe, reread: Option<string>)
    ensures SelinuxMode(p, reread) == Disabled <==> !SelinuxStatus(p)
    ensures SelinuxStatus(p) ==>
      (SelinuxMode(p, reread) == Enforcing <==> reread.Some? && Strip(reread.value) == "1") &&
      (SelinuxMode(p, reread) == Permissive <==> reread.Some? && Strip(reread.value) == "0")
    ensures reread == p.enforce ==> SelinuxMode(p, reread) != Unknown
    ensures SelinuxStatus(p) ==> p.sestatusFound && p.sestatusExit == 0
  {
  }

  // ---------------------------------------------------------------------------------
  // Snippet selection

  function Snippet(toolsSrc: string, name: string): string
  {
    toolsSrc + "/data/configs/config_" + name
  }

  /** The snippets `set_lxc_config_selinux` concatenates for LXC version `lxcVer`. */
  function Snippets(lxcVer: int, toolsSrc: string, existing: set<string>): seq<string>
  {
    [Snippet(toolsSrc, "base")] +
    if lxcVer <= 2 then [Snippet(toolsSrc, "1")]
    else VersionSnippet(3, lxcVer, toolsSrc, existing) + VersionSnippet(4, lxcVer, toolsSrc, existing)
  }

  /** Snippet `ver`, when the LXC version reaches it and the file exists. */
  function VersionSnippet(ver: nat, lxcVer: int, toolsSrc: string, existing: set<string>): seq<string>
  {
    var s := Snippet(toolsSrc, DecimalString(ver));
    if lxcVer >= ver && s in existing then [s] else []
  }

  /** The snippet list, built by appending as the source does. */
  method SelectSnippets(lxcVer: int, toolsSrc: string, existing: set<string>) returns (snippets: seq<string>)
    ensures snippets == Snippets(lxcVer, toolsSrc, existing)
  {
    snippets := [Snippet(toolsSrc, "base")];
    if lxcVer <= 2 {
      snippets := snippets + [Snippet(toolsSrc, "1")];
    } else {
      for ver := 3 to 5
        invariant snippets == [Snippet(toolsSrc, "base")] +
          (if ver > 3 then VersionSnippet(3, lxcVer, toolsSrc, existing) else []) +
          (if ver > 4 then VersionSnippet(4, lxcVer, toolsSrc, existing) else [])
      {
        var snippet := Snippet(toolsSrc, DecimalString(ver));
        if lxcVer >= ver && snippet in existing {
          snippets := snippets + [snippet];
        }
      }
    }
  }

  /**
   * The list starts with the base snippet. Up to version 2 it adds snippet 1 only;
   * above, it adds snippet 3 and then 4, each only when the version reaches it and the
   * file exists, so never more than three entries and never a snippet numbered above 4.
   */
  lemma SnippetsSpec(lxcVer: int, toolsSrc: string, existing: set<string>, v: nat)
    ensures var r := Snippets(lxcVer, toolsSrc, existing);
      |r| >= 2 || lxcVer > 2
    ensures var r := Snippets(lxcVer, toolsSrc, existing);
      r[0] == Snippet(toolsSrc, "base") && 1 <= |r| <= 3 &&
      (lxcVer <= 2 ==> r == [Snippet(toolsSrc, "base"), Snippet(toolsSrc, "1")]) &&
      (lxcVer > 2 ==>
        (Snippet(toolsSrc, DecimalString(v)) in r[1..] <==>
          3 <= v <= 4 && v <= lxcVer && Snippet(toolsSrc, DecimalString(v)) in existing))
    ensures lxcVer >= 4 && Snippet(toolsSrc, "3") in existing && Snippet(toolsSrc, "4") in existing ==>
      Snippets(lxcVer, toolsSrc, existing) ==
        [Snippet(toolsSrc, "base"), Snippet(toolsSrc, "3"), Snippet(toolsSrc, "4")]
  {
    assert DecimalString(3) == "3" && DecimalString(4) == "4";
    if lxcVer > 2 {
      var r := Snippets(lxcVer, toolsSrc, existing);
      var s := Snippet(toolsSrc, DecimalString(v));
      if s in r[1..] {
        var w: nat :| (w == 3 || w == 4) && s == Snippet(toolsSrc, DecimalString(w)) && w <= lxcVer && s in existing;
        SnippetInjective(toolsSrc, DecimalString(v), DecimalString(w));
        ParseDecimalRoundTrip(v);
        ParseDecimalRoundTrip(w);
      }
    }
  }

  /** Different snippet names give different paths. */
  lemma SnippetInjective(toolsSrc: string, a: string, b: string)
    requires Snippet(toolsSrc, a) == Snippet(toolsSrc, b)
    ensures a == b
  {
    var n := |toolsSrc + "/data/configs/config_"|;
    assert a == Snippet(toolsSrc, a)[n..];
    assert b == Snippet(toolsSrc, b)[n..];
  }

  // ---------------------------------------------------------------------------------
  // Text assembly

  /** The lines of `path`, or none when it is not there. */
  function FileLines(files: map<string, seq<string>>, path: string): seq<string>
  {
    if path in files then files[path] else []
  }

  /** `cat p1 p2 ...`: the files one after another. */
  function ConcatFiles(paths: seq<string>, files: map<string, seq<string>>): (r: seq<string>)
    ensures paths == [] ==> r == []
  {
    if paths == [] then [] else FileLines(files, paths[0]) + ConcatFiles(paths[1..], files)
  }

  const Placeholder := "LXCARCH"

  /** `sed -i "s/LXCARCH/<arch>/"`: the first placeholder on each line (there is no `g` flag). */
  function ReplaceArch(lines: seq<string>, arch: string): (r: seq<string>)
    ensures |r| == |lines|
  {
    if lines == [] then [] else [ReplaceFirst(lines[0], Placeholder, arch)] + ReplaceArch(lines[1..], arch)
  }

  /**
   * Each line keeps its place. A line without the placeholder is unchanged; in any other
   * line the leftmost placeholder becomes the architecture name and the rest of the line,
   * later placeholders included, is kept as it was.
   */
  lemma {:induction false} ReplaceArchSpec(lines: seq<string>, arch: string, i: nat)
    requires i < |lines|
    ensures IndexOf(lines[i], Placeholder).None? ==> ReplaceArch(lines, arch)[i] == lines[i]
    ensures IndexOf(lines[i], Placeholder).Some? ==>
      var k := IndexOf(lines[i], Placeholder).value;
      ReplaceArch(lines, arch)[i] == lines[i][..k] + arch + lines[i][k + |Placeholder|..]
  {
    if i > 0 {
      ReplaceArchSpec(lines[1..], arch, i - 1);
    } else {
      var line := lines[0];
      var r := ReplaceFirst(line, Placeholder, arch);
      if IndexOf(line, Placeholder).Some? {
        var k := IndexOf(line, Placeholder).value;
        assert r == r[..k] + r[k..k + |arch|] + r[k + |arch|..];
      }
    }
  }

  /** A line holding the placeholder twice keeps the second one. */
  lemma SecondPlaceholderKept(arch: string)
    ensures ReplaceArch([Placeholder + Placeholder], arch) == [arch + Placeholder]
  {
    var line := Placeholder + Placeholder;
    assert line[..|Placeholder|] == Placeholder;
    assert IndexOf(line, Placeholder) == Some(0);
    assert line[|Placeholder|..] == Placeholder;
  }

  /** What `add_selinux_config` appends: a blank line, a comment, the context, the nesting. */
  const SelinuxBlock: seq<string> := ["", "# SELinux Configuration",
    "lxc.selinux.context = " + SelinuxContext, "lxc.selinux.allow_nesting = " + SelinuxNesting]

  // ---------------------------------------------------------------------------------
  // AppArmor line removal: `sed -i /<regex>/d`

  const AaProfile := "lxc.aa_profile"
  const ApparmorProfile := "lxc.apparmor.profile"

  /** The regex `pat` (literal characters and `.`, which matches any character) matches at `i`. */
  predicate PatternAt(line: string, pat: string, i: nat)
  {
    i + |pat| <= |line| && forall k :: 0 <= k < |pat| ==> pat[k] == '.' || line[i + k] == pat[k]
  }

  /** The regex `pat` matches somewhere in `line`. */
  predicate Matches(line: string, pat: string)
    decreases |line|
  {
    |line| >= |pat| && (PatternAt(line, pat, 0) || Matches(line[1..], pat))
  }

  lemma {:induction false} MatchesIff(line: string, pat: string)
    ensures Matches(line, pat) <==> exists i: nat :: PatternAt(line, pat, i)
  {
    if |line| >= |pat| && !PatternAt(line, pat, 0) {
      MatchesIff(line[1..], pat);
      if i: nat :| PatternAt(line, pat, i) {
        assert i > 0 && PatternAt(line[1..], pat, i - 1);
      }
      if i: nat :| PatternAt(line[1..], pat, i) {
        assert PatternAt(line, pat, i + 1);
      }
    } else if |line| < |pat| {
      if i: nat :| PatternAt(line, pat, i) {
        assert false;
      }
    }
  }

  /** The dots are wildcards: `lxc-aa_profile` is deleted along with `lxc.aa_profile`. */
  lemma DotMatchesAnyChar(c: char)
    ensures Matches("lxc" + [c] + "aa_profile", AaProfile)
  {
    assert PatternAt("lxc" + [c] + "aa_profile", AaProfile, 0);
  }

  /** A line that holds the pattern text itself matches it. */
  lemma OccurrenceMatches(line: string, pat: string, i: nat)
    requires OccursAt(line, pat, i)
    ensures Matches(line, pat)
  {
    forall k | 0 <= k < |pat|
      ensures line[i + k] == pat[k]
    {
      assert line[i..i + |pat|][k] == line[i + k];
    }
    assert PatternAt(line, pat, i);
    MatchesIff(line, pat);
  }

  /** `sed -i /pat/d`: drop every line the regex matches. */
  function RemoveMatching(lines: seq<string>, pat: string): seq<string>
  {
    if lines == [] then []
    else (if Matches(lines[0], pat) then [] else [lines[0]]) + RemoveMatching(lines[1..], pat)
  }

  /** The kept lines are exactly the non-matching ones, in their order. */
  lemma {:induction false} RemoveMatchingSpec(lines: seq<string>, pat: string)
    ensures forall l :: l in RemoveMatching(lines, pat) <==> l in lines && !Matches(l, pat)
    ensures SubSeq(RemoveMatching(lines, pat), lines)
  {
    if lines != [] {
      RemoveMatchingSpec(lines[1..], pat);
      var rest := RemoveMatching(lines[1..], pat);
      assert lines == [lines[0]] + lines[1..];
      if Matches(lines[0], pat) {
        assert RemoveMatching(lines, pat) == rest;
        SubSeqSkip(rest, lines);
      } else {
        assert RemoveMatching(lines, pat) == [lines[0]] + rest;
        assert ([lines[0]] + rest)[1..] == rest;
      }
    }
  }

  /** `remove_apparmor_config`: both AppArmor profile patterns, one after the other. */
  function RemoveApparmor(lines: seq<string>): seq<string>
  {
    RemoveMatching(RemoveMatching(lines, AaProfile), ApparmorProfile)
  }

  /** No AppArmor profile line survives, every other line does, and the order is kept. */
  lemma RemoveApparmorSpec(lines: seq<string>)
    ensures forall l :: l in RemoveApparmor(lines) <==>
      l in lines && !Matches(l, AaProfile) && !Matches(l, ApparmorProfile)
    ensures SubSeq(RemoveApparmor(lines), lines)
  {
    RemoveMatchingSpec(lines, AaProfile);
    RemoveMatchingSpec(RemoveMatching(lines, AaProfile), ApparmorProfile);
    SubSeqTrans(RemoveApparmor(lines), RemoveMatching(lines, AaProfile), lines);
  }

  lemma {:induction false} SubSeqTrans<T>(a: seq<T>, b: seq<T>, c: seq<T>)
    requires SubSeq(a, b) && SubSeq(b, c)
    ensures SubSeq(a, c)
    decreases |c|
  {
    if a != [] {
      assert b != [] && c != [];
      if b[0] == c[0] && SubSeq(b[1..], c[1..]) {
        if a[0] == b[0] && SubSeq(a[1..], b[1..]) {
          SubSeqTrans(a[1..], b[1..], c[1..]);
        } else {
          SubSeqTrans(a, b[1..], c[1..]);
        }
      } else {
        SubSeqTrans(a, b, c[1..]);
      }
    }
  }

  // ---------------------------------------------------------------------------------
  // Commands and the host they run on

  datatype Cmd =
    | MkdirLxc(path: string)
    | CatSnippets(snippets: seq<string>, config: string)
    | SedArch(arch: string, config: string)
    | CopySeccomp(target: string)
    | AppendSelinuxBlock(config: string)
    | WriteNodes(path: string, nodes: seq<string>)
    | AppendNodes(path: string, nodes: seq<string>, config: string, redirects: bool)
    | RemoveNodesFile(path: string)
    | SedDelete(pattern: string, config: string)
    | MakeClean | Make | MakeInstall
    | ApparmorLxcConfig

  /** What a command does to the container's config lines when it goes through. */
  function Effect(c: Cmd, config: seq<string>, files: map<string, seq<string>>): seq<string>
  {
    match c
    case CatSnippets(paths, _) => ConcatFiles(paths, files)
    case SedArch(arch, _) => ReplaceArch(config, arch)
    case AppendSelinuxBlock(_) => config + SelinuxBlock
    case AppendNodes(_, nodes, _, redirects) => if redirects then config + nodes else config
    case SedDelete(pat, _) => RemoveMatching(config, pat)
    case _ => config
  }

  /**
   * What a command that fails leaves in the config. `sh -c "cat ... > config"` truncates the
   * config before `cat` runs, and `cat` copies every snippet it can read even when another
   * is missing; every other command leaves the config as it was.
   */
  function FailedEffect(c: Cmd, config: seq<string>, files: map<string, seq<string>>): seq<string>
  {
    match c
    case CatSnippets(paths, _) => ConcatFiles(paths, files)
    case _ => config
  }

  /** Commands issued so far, whether one raised, and the config lines they left. */
  datatype Ran = Ran(trace: seq<Cmd>, failed: bool, config: seq<string>)

  /** Issue `c` after `r`, unless something already raised. */
  function Issue(r: Ran, c: Cmd, fails: set<Cmd>, files: map<string, seq<string>>): Ran
  {
    if r.failed then r
    else if c in fails then Ran(r.trace + [c], true, FailedEffect(c, r.config, files))
    else Ran(r.trace + [c], false, Effect(c, r.config, files))
  }

  /** The machine the helper works on: the container's config, the commands, the cwd. */
  class LxcHost {
    var config: seq<string>
    var log: seq<Cmd>
    var cwd: string

    constructor (config: seq<string>, cwd: string)
      ensures this.config == config && log == [] && this.cwd == cwd
    {
      this.config := config;
      log := [];
      this.cwd := cwd;
    }

    /** Run `c`: it raises when it is in `fails`, leaving what a failure leaves; otherwise it takes its effect. */
    method Run(c: Cmd, fails: set<Cmd>, files: map<string, seq<string>>) returns (raised: bool)
      modifies this
      ensures log == old(log) + [c] && raised == (c in fails) && cwd == old(cwd)
      ensures config == if raised then FailedEffect(c, old(config), files) else Effect(c, old(config), files)
    {
      log := log + [c];
      raised := c in fails;
      if raised {
        config := FailedEffect(c, config, files);
      } else {
        config := Effect(c, config, files);
      }
    }
  }

  /** Issue `c` on `host` unless an earlier command raised, keeping `host` in step with `r`. */
  method Advance(host: LxcHost, c: Cmd, fails: set<Cmd>, files: map<string, seq<string>>,
                 raised: bool, ghost log0: seq<Cmd>, ghost r: Ran) returns (raised': bool)
    requires host.log == log0 + r.trace && host.config == r.config && raised == r.failed
    modifies host
    ensures var r' := Issue(r, c, fails, files);
      host.log == log0 + r'.trace && host.config == r'.config && raised' == r'.failed
    ensures host.cwd == old(host.cwd)
  {
    raised' := raised;
    if !raised {
      raised' := host.Run(c, fails, files);
      assert host.log == log0 + (r.trace + [c]);
    }
  }

  // ---------------------------------------------------------------------------------
  // set_lxc_config_selinux

  /** The inputs `set_lxc_config_selinux` depends on. */
  datatype LxcEnv = LxcEnv(
    lxcRoot: string,                    // tools.config.defaults["lxc"]
    toolsSrc: string,                   // tools.config.tools_src
    lxcVer: int,                        // get_lxc_version
    files: map<string, seq<string>>,    // the snippet files that exist, with their lines
    arch: string,                       // platform.machine()
    status: bool,                       // get_selinux_status
    nodes: seq<string>,                 // generate_nodes_lxc_config
    work: string,                       // args.work
    redirects: bool)                    // whether the command runner lets `>>` redirect

  function LxcDir(env: LxcEnv): string
  {
    env.lxcRoot + "/waydroid"
  }

  function ConfigFile(env: LxcEnv): string
  {
    LxcDir(env) + "/config"
  }

  function NodesFile(env: LxcEnv): string
  {
    env.work + "/config_nodes"
  }

  /**
   * `cat <nodes file> >> <config>`, handed to the command runner as an argument list:
   * whether `>>` redirects depends on that runner, so it is the input `redirects`.
   */
  function NodesAppend(env: LxcEnv): Cmd
  {
    AppendNodes(NodesFile(env), env.nodes, ConfigFile(env), env.redirects)
  }

  function EnvSnippets(env: LxcEnv): seq<string>
  {
    Snippets(env.lxcVer, env.toolsSrc, env.files.Keys)
  }

  /** `cat` fails when one of the snippets is missing. */
  function Fails(env: LxcEnv, faults: set<Cmd>): set<Cmd>
  {
    var cat := CatSnippets(EnvSnippets(env), ConfigFile(env));
    if forall p :: p in EnvSnippets(env) ==> p in env.files then faults else faults + {cat}
  }

  /** The base config: directory, snippets, architecture, seccomp profile. */
  function BaseConfigRun(env: LxcEnv, fails: set<Cmd>, config: seq<string>): Ran
  {
    var r1 := Issue(Ran([], false, config), MkdirLxc(LxcDir(env)), fails, env.files);
    var r2 := Issue(r1, CatSnippets(EnvSnippets(env), ConfigFile(env)), fails, env.files);
    var r3 := Issue(r2, SedArch(env.arch, ConfigFile(env)), fails, env.files);
    Issue(r3, CopySeccomp(LxcDir(env) + "/waydroid.seccomp"), fails, env.files)
  }

  /** The SELinux block (when the status is true), then the device nodes. */
  function NodesRun(r: Ran, env: LxcEnv, fails: set<Cmd>): Ran
  {
    var r5 := if env.status then Issue(r, AppendSelinuxBlock(ConfigFile(env)), fails, env.files) else r;
    var r6 := Issue(r5, WriteNodes(NodesFile(env), env.nodes), fails, env.files);
    var r7 := Issue(r6, NodesAppend(env), fails, env.files);
    Issue(r7, RemoveNodesFile(NodesFile(env)), fails, env.files)
  }

  function SelinuxConfigRun(env: LxcEnv, faults: set<Cmd>, config: seq<string>): Ran
  {
    var fails := Fails(env, faults);
    NodesRun(BaseConfigRun(env, fails, config), env, fails)
  }

  /** Every command `set_lxc_config_selinux` issues when none raises, in order. */
  function ConfigCommands(env: LxcEnv): seq<Cmd>
  {
    BaseCommands(env) + NodeCommands(env)
  }

  function BaseCommands(env: LxcEnv): seq<Cmd>
  {
    [MkdirLxc(LxcDir(env)), CatSnippets(EnvSnippets(env), ConfigFile(env)), SedArch(env.arch, ConfigFile(env)),
     CopySeccomp(LxcDir(env) + "/waydroid.seccomp")]
  }

  function NodeCommands(env: LxcEnv): seq<Cmd>
  {
    (if env.status then [AppendSelinuxBlock(ConfigFile(env))] else []) +
    [WriteNodes(NodesFile(env), env.nodes), NodesAppend(env), RemoveNodesFile(NodesFile(env))]
  }

  datatype ConfigOutcome = Configured | NotInstalled | CommandRaised

  method SetLxcConfigSelinux(host: LxcHost, env: LxcEnv, faults: set<Cmd>) returns (r: ConfigOutcome)
    modifies host
    ensures env.lxcVer == 0 ==> r == NotInstalled && host.log == old(host.log) && host.config == old(host.config)
    ensures env.lxcVer != 0 ==>
      var run := SelinuxConfigRun(env, faults, old(host.config));
      host.log == old(host.log) + run.trace && host.config == run.config &&
      (r == Configured <==> !run.failed) && r != NotInstalled
    ensures host.cwd == old(host.cwd)
  {
    if env.lxcVer == 0 {
      return NotInstalled;
    }
    var snippets := SelectSnippets(env.lxcVer, env.toolsSrc, env.files.Keys);
    var raised := BaseConfig(host, env, snippets, faults);
    ghost var base := BaseConfigRun(env, Fails(env, faults), old(host.config));
    raised := AddNodes(host, env, faults, raised, old(host.log), base);
    r := if raised then CommandRaised else Configured;
  }

  method BaseConfig(host: LxcHost, env: LxcEnv, snippets: seq<string>, faults: set<Cmd>) returns (raised: bool)
    requires snippets == EnvSnippets(env)
    modifies host
    ensures var run := BaseConfigRun(env, Fails(env, faults), old(host.config));
      host.log == old(host.log) + run.trace && host.config == run.config && raised == run.failed
    ensures host.cwd == old(host.cwd)
  {
    var fails := Fails(env, faults);
    var lxcPath := env.lxcRoot + "/waydroid";
    var configPath := lxcPath + "/config";
    ghost var log0 := host.log;
    ghost var r0 := Ran([], false, host.config);
    raised := Advance(host, MkdirLxc(lxcPath), fails, env.files, false, log0, r0);
    ghost var r1 := Issue(r0, MkdirLxc(lxcPath), fails, env.files);
    raised := Advance(host, CatSnippets(snippets, configPath), fails, env.files, raised, log0, r1);
    ghost var r2 := Issue(r1, CatSnippets(snippets, configPath), fails, env.files);
    raised := Advance(host, SedArch(env.arch, configPath), fails, env.files, raised, log0, r2);
    ghost var r3 := Issue(r2, SedArch(env.arch, configPath), fails, env.files);
    raised := Advance(host, CopySeccomp(lxcPath + "/waydroid.seccomp"), fails, env.files, raised, log0, r3);
  }

  method AddNodes(host: LxcHost, env: LxcEnv, faults: set<Cmd>, raised: bool, ghost log0: seq<Cmd>, ghost r: Ran)
    returns (raised': bool)
    requires host.log == log0 + r.trace && host.config == r.config && raised == r.failed
    modifies host
    ensures var run := NodesRun(r, env, Fails(env, faults));
      host.log == log0 + run.trace && host.config == run.config && raised' == run.failed
    ensures host.cwd == old(host.cwd)
  {
    var fails := Fails(env, faults);
    var configPath := env.lxcRoot + "/waydroid" + "/config";
    raised' := raised;
    ghost var r5 := r;
    if env.status {
      raised' := Advance(host, AppendSelinuxBlock(configPath), fails, env.files, raised', log0, r);
      r5 := Issue(r, AppendSelinuxBlock(configPath), fails, env.files);
    }
    var nodesPath := env.work + "/config_nodes";
    raised' := Advance(host, WriteNodes(nodesPath, env.nodes), fails, env.files, raised', log0, r5);
    ghost var r6 := Issue(r5, WriteNodes(nodesPath, env.nodes), fails, env.files);
    var append := AppendNodes(nodesPath, env.nodes, configPath, env.redirects);
    raised' := Advance(host, append, fails, env.files, raised', log0, r6);
    ghost var r7 := Issue(r6, append, fails, env.files);
    raised' := Advance(host, RemoveNodesFile(nodesPath), fails, env.files, raised', log0, r7);
  }

  /**
   * When no command raises, every command is issued in order (the SELinux block, when the
   * status is true, before the device nodes), and the config holds the snippets one after
   * another with the architecture filled in, then the SELinux block exactly when the
   * status is true, then the device node entries when the runner redirects. The block is
   * never written when the status is false.
   */
  lemma SelinuxConfigOnSuccess(env: LxcEnv, faults: set<Cmd>, config: seq<string>)
    ensures var run := SelinuxConfigRun(env, faults, config);
      !run.failed ==>
        run.trace == ConfigCommands(env) &&
        run.config == ReplaceArch(ConcatFiles(EnvSnippets(env), env.files), env.arch) +
                      (if env.status then SelinuxBlock else []) + (if env.redirects then env.nodes else [])
    ensures !env.status ==> AppendSelinuxBlock(ConfigFile(env)) !in SelinuxConfigRun(env, faults, config).trace
  {
    var base := BaseConfigRun(env, Fails(env, faults), config);
    BaseConfigShape(env, Fails(env, faults), config);
    NodesShape(base, env, Fails(env, faults));
  }

  lemma BaseConfigShape(env: LxcEnv, fails: set<Cmd>, config: seq<string>)
    ensures var run := BaseConfigRun(env, fails, config);
      !run.failed ==>
        run.trace == BaseCommands(env) &&
        run.config == ReplaceArch(ConcatFiles(EnvSnippets(env), env.files), env.arch)
    ensures AppendSelinuxBlock(ConfigFile(env)) !in BaseConfigRun(env, fails, config).trace
  {
    var cs := BaseCommands(env);
    IssueThree(Issue(Ran([], false, config), cs[0], fails, env.files), cs[1], cs[2], cs[3], fails, env.files);
  }

  /** Three commands in a row: when the last went through, all did, in order. */
  lemma IssueThree(r: Ran, c1: Cmd, c2: Cmd, c3: Cmd, fails: set<Cmd>, files: map<string, seq<string>>)
    ensures var run := Issue(Issue(Issue(r, c1, fails, files), c2, fails, files), c3, fails, files);
      (!run.failed ==>
        !r.failed && run.trace == r.trace + [c1, c2, c3] &&
        run.config == Effect(c3, Effect(c2, Effect(c1, r.config, files), files), files)) &&
      (forall c :: c in run.trace ==> c in r.trace || c == c1 || c == c2 || c == c3)
  {
  }

  lemma NodesShape(r: Ran, env: LxcEnv, fails: set<Cmd>)
    ensures var run := NodesRun(r, env, fails);
      !run.failed ==>
        !r.failed &&
        run.trace == r.trace + NodeCommands(env) &&
        run.config == r.config + (if env.status then SelinuxBlock else []) + (if env.redirects then env.nodes else [])
    ensures !env.status && AppendSelinuxBlock(ConfigFile(env)) !in r.trace ==>
      AppendSelinuxBlock(ConfigFile(env)) !in NodesRun(r, env, fails).trace
  {
    var r5 := if env.status then Issue(r, AppendSelinuxBlock(ConfigFile(env)), fails, env.files) else r;
    IssueThree(r5, WriteNodes(NodesFile(env), env.nodes), NodesAppend(env), RemoveNodesFile(NodesFile(env)), fails, env.files);
    assert !r5.failed ==> r5.config == r.config + (if env.status then SelinuxBlock else []);
    assert Effect(WriteNodes(NodesFile(env), env.nodes), r5.config, env.files) == r5.config;
    var c := Effect(NodesAppend(env), r5.config, env.files);
    assert Effect(RemoveNodesFile(NodesFile(env)), c, env.files) == c;
  }

  /**
   * A missing snippet stops the helper at the `cat`, after the directory was made. The
   * shell has already truncated the config, so it ends up holding the snippets that do
   * exist, one after another, with the placeholder not yet replaced.
   */
  lemma MissingSnippetStops(env: LxcEnv, faults: set<Cmd>, config: seq<string>)
    requires MkdirLxc(LxcDir(env)) !in faults
    requires exists p :: p in EnvSnippets(env) && p !in env.files
    ensures var run := SelinuxConfigRun(env, faults, config);
      run.failed && run.config == ConcatFiles(EnvSnippets(env), env.files) &&
      run.trace == [MkdirLxc(LxcDir(env)), CatSnippets(EnvSnippets(env), ConfigFile(env))]
  {
    var base := BaseConfigRun(env, Fails(env, faults), config);
    assert base.failed && base.config == ConcatFiles(EnvSnippets(env), env.files);
  }

  // ---------------------------------------------------------------------------------
  // remove_apparmor_config

  method RemoveApparmorConfig(host: LxcHost, lxcPath: string, faults: set<Cmd>) returns (raised: bool)
    modifies host
    ensures var fails := faults;
      var r1 := Issue(Ran([], false, old(host.config)), SedDelete(AaProfile, lxcPath + "/config"), fails, map[]);
      var r2 := Issue(r1, SedDelete(ApparmorProfile, lxcPath + "/config"), fails, map[]);
      host.log == old(host.log) + r2.trace && host.config == r2.config && raised == r2.failed
    ensures host.cwd == old(host.cwd)
  {
    var configFile := lxcPath + "/config";
    ghost var r0 := Ran([], false, host.config);
    raised := Advance(host, SedDelete(AaProfile, configFile), faults, map[], false, host.log, r0);
    ghost var r1 := Issue(r0, SedDelete(AaProfile, configFile), faults, map[]);
    raised := Advance(host, SedDelete(ApparmorProfile, configFile), faults, map[], raised, old(host.log), r1);
  }

  /** When both deletions go through, the config is exactly `RemoveApparmor` of the old one. */
  lemma RemoveApparmorRun(config: seq<string>, configFile: string, faults: set<Cmd>)
    requires SedDelete(AaProfile, configFile) !in faults && SedDelete(ApparmorProfile, configFile) !in faults
    ensures var r1 := Issue(Ran([], false, config), SedDelete(AaProfile, configFile), faults, map[]);
      var r2 := Issue(r1, SedDelete(ApparmorProfile, configFile), faults, map[]);
      !r2.failed && r2.config == RemoveApparmor(config) &&
      r2.trace == [SedDelete(AaProfile, configFile), SedDelete(ApparmorProfile, configFile)]
  {
  }

  // ---------------------------------------------------------------------------------
  // The policy

  /**
   * What `check_selinux_policy` sees: the exit status of `semodule -l` and the listing of
   * the second run (`None` where a run raised).
   */
  datatype PolicyProbe = PolicyProbe(listExit: Option<int>, listing: Option<string>)

  /** `check_selinux_policy`. */
  predicate PolicyLoaded(status: bool, q: PolicyProbe)
  {
    status && q.listExit == Some(0) && q.listing.Some? && Contains(q.listing.value, "waydroid")
  }

  /** `make clean`'s exit status is not looked at; `make` and `make install` must exit 0. */
  predicate BuildSucceeds(faults: set<Cmd>, nonzero: set<Cmd>)
  {
    MakeClean !in faults && Make !in faults && Make !in nonzero && MakeInstall !in faults && MakeInstall !in nonzero
  }

  /** The build commands `setup_selinux_policy` issues. */
  function PolicyTrace(status: bool, q: PolicyProbe, dirExists: bool, faults: set<Cmd>, nonzero: set<Cmd>): seq<Cmd>
  {
    if !status || PolicyLoaded(status, q) || !dirExists then []
    else if MakeClean in faults then [MakeClean]
    else if Make in faults || Make in nonzero then [MakeClean, Make]
    else [MakeClean, Make, MakeInstall]
  }

  /**
   * `setup_selinux_policy`: False when SELinux is off, True without building when the
   * policy is loaded, otherwise True exactly when the build and the install exit 0; the
   * working directory is the old one afterwards, whatever happened.
   */
  method SetupSelinuxPolicy(host: LxcHost, status: bool, q: PolicyProbe, policyDir: string, dirExists: bool,
                            faults: set<Cmd>, nonzero: set<Cmd>) returns (ok: bool)
    modifies host
    ensures ok <==> status && (PolicyLoaded(status, q) || (dirExists && BuildSucceeds(faults, nonzero)))
    ensures host.log == old(host.log) + PolicyTrace(status, q, dirExists, faults, nonzero)
    ensures host.cwd == old(host.cwd) && host.config == old(host.config)
  {
    if !status {
      return false;
    }
    if PolicyLoaded(status, q) {
      return true;
    }
    if !dirExists {
      return false;
    }
    var originalDir := host.cwd;
    host.cwd := policyDir;
    ok := false;
    var raised := host.Run(MakeClean, faults, map[]);
    if !raised {
      raised := host.Run(Make, faults, map[]);
      if !raised && Make !in nonzero {
        raised := host.Run(MakeInstall, faults, map[]);
        if !raised && MakeInstall !in nonzero {
          host.cwd := originalDir;
          ok := true;
        }
      }
    }
    host.cwd := originalDir;
  }

  /**
   * `set_lxc_config`: with SELinux on, the SELinux configuration and then, if the policy
   * is not loaded, the policy setup; otherwise the AppArmor configuration.
   */
  method SetLxcConfig(host: LxcHost, env: LxcEnv, q: PolicyProbe, policyDir: string, dirExists: bool,
                      faults: set<Cmd>, nonzero: set<Cmd>) returns (r: ConfigOutcome)
    modifies host
    ensures !env.status ==>
      host.log == old(host.log) + [ApparmorLxcConfig] && host.config == old(host.config) &&
      (r == Configured <==> ApparmorLxcConfig !in faults)
    ensures env.status && env.lxcVer == 0 ==> r == NotInstalled && host.log == old(host.log)
    ensures env.status && env.lxcVer != 0 ==>
      var run := SelinuxConfigRun(env, faults, old(host.config));
      host.config == run.config && (r == Configured <==> !run.failed) &&
      host.log == old(host.log) + run.trace +
        (if !run.failed && !PolicyLoaded(true, q) then PolicyTrace(true, q, dirExists, faults, nonzero) else [])
    ensures host.cwd == old(host.cwd)
  {
    if env.status {
      r := SetLxcConfigSelinux(host, env, faults);
      if r != Configured {
        return;
      }
      if !PolicyLoaded(env.status, q) {
        var ok := SetupSelinuxPolicy(host, env.status, q, policyDir, dirExists, faults, nonzero);
      }
    } else {
      var raised := host.Run(ApparmorLxcConfig, faults, map[]);
      r := if raised then CommandRaised else Configured;
    }
  }

  /**
   * Through `set_lxc_config` the SELinux configuration always carries the SELinux block:
   * that path is only taken when the status is true, and when it completes the config
   * ends with the block; the AppArmor fallback is taken exactly when the status is false.
   */
  lemma SetLxcConfigChoosesBlock(env: LxcEnv, faults: set<Cmd>, config: seq<string>)
    requires env.status
    ensures var run := SelinuxConfigRun(env, faults, config);
      var n := |run.config| - |if env.redirects then env.nodes else []|;
      !run.failed ==> n >= |SelinuxBlock| && run.config[n - |SelinuxBlock|..n] == SelinuxBlock
  {
    SelinuxConfigOnSuccess(env, faults, config);
    var run := SelinuxConfigRun(env, faults, config);
    if !run.failed {
      var base := ReplaceArch(ConcatFiles(EnvSnippets(env), env.files), env.arch);
      assert run.config == base + SelinuxBlock + (if env.redirects then env.nodes else []);
      assert run.config[|base|..|base| + |SelinuxBlock|] == SelinuxBlock;
    }
  }
}
