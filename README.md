# Waydroid container manager, SELinux helpers and CLI gating in Dafny

This project models the core of Waydroid's host side:

- The **container manager** is the root D-Bus service `id.waydro.ContainerManager`. It decides who may start an Android session. It starts the LXC container step by step and stops it again, best-effort. It freezes, unfreezes and restarts the container. The model covers three versions of it: the full manager, the simplified one and the modular one with its step-results dictionary.
- **waydroid-modular**: the command line that drives the modular manager one step at a time or all at once.
- The **LXC/SELinux helpers** write the LXC configuration. They pick the snippet files for the LXC version, substitute the architecture, append the SELinux block and strip AppArmor lines. The migration script moves a host from AppArmor to SELinux.
- **CLI gating** in `tools/__init__.py`: work-directory and log-path set-up, the "already initialized" and root gates, the bus-name claim before `container start`, and the exit code and hint printed on error.
- **Log routing** in `tools/helpers/logging.py`: which records reach the handler's stream (standard error), the pid-prefixed log-file line, the added level names, and the choice of log sink and root level.

Modelling conventions:

- **Engine.** The LXC engine is a `Host.Engine`. Its answers to successive status polls are a script followed by a settled status. The loops that wait for STOPPED or for a state change are real `while` loops. Each is proved to return exactly when the engine first reports the awaited answer.
- **Calls and failures.** Every call into code outside the model (systemd, lxc-*, mount, chmod, rmdir, sed, make, semodule…) is an `Op` appended to a `Host.Journal`. Whether a given call raises is a parameter: a set of failing calls.
- **Reference functions.** Each method that issues calls is proved equal to a pure "Run" function: the trace it issues plus whether an exception escaped. Lemmas state the source's promises about those functions: which calls happen, in what order, what raises, and when the session is cleared.
- **State.** The session is a `map<string, string>`, like the Python `a{ss}` dictionary; missing keys raise `KeyError` as in the code. Configuration files are sequences of lines.
- **Integers.** They are unbounded: nothing in the core depends on a machine width.

Two behaviours of the code are worth stating plainly:

- **`stop` does not always clear the session.** The full manager's `stop` (`tools/actions/container_manager.py:538-626`) has one `try` around the whole teardown, so the first failing step skips every later step. `del args.session` runs only when every step before it returned normally. `ContainerManager.StopDeletesSessionIffTeardownCompletes` states what the code does. The simplified `stop` behaves the same way for the steps it does not catch one by one (`SimplifiedManager.SimpleStopDeletesSession`).
- **A networking failure stops the full start.** In the full `do_start` it is fatal (`container_manager.py:424-428`). In the simplified version it is only logged. `SimplifiedManager.NetworkingFailureDiffers` states the difference.

## Model

| member | source | states |
|---|---|---|
| ContainerManager.AuthorizeStart | tools/actions/container_manager.py:30-37 | The caller may start a session iff the session has `user_id` and either the caller is root, or `user_id` is the caller's uid and `pid` is the caller's pid. A session without `user_id` is refused with KeyError even for root. The only errors are the two missing keys, another user and an invalid pid. |
| ContainerManager.DbusStart | tools/actions/container_manager.py:30-38 | A refused caller gets the authorization error and changes neither the tracked session nor the call log. An accepted caller behaves exactly like `do_start` on the given session. |
| ContainerManager.GetSession | tools/actions/container_manager.py:56-66 | No tracked session: returns an empty dictionary without querying the engine. Otherwise: one status query, and the tracked session gains `state` set to the reported status name and is returned. |
| ContainerManager.Before | tools/actions/container_manager.py:87 | The text before the first separator is a prefix of the input that does not contain the separator. |
| ContainerManager.UnitState | tools/actions/container_manager.py:82-91 | Parsing of `systemctl show -p ActiveState`: no value iff the stripped output has no `=`. A parsed value never contains `=`. |
| ContainerManager.ActiveStateDecides | tools/actions/container_manager.py:86-96 | For output `ActiveState=v` the parsed value is `v`. A start of the unit is attempted iff `v` is not active, activating or starting. |
| ContainerManager.UnitStartAttempted | tools/actions/container_manager.py:97-102 | Output that cannot be parsed always leads to a start attempt. |
| ContainerManager.ChmodOps | tools/actions/container_manager.py:248-259 | At most one chmod per listed path. |
| ContainerManager.ChmodOpsOnlyChmod | tools/actions/container_manager.py:253-255 | Setting permissions issues nothing but chmod calls. |
| ContainerManager.ChmodOpsMembers | tools/actions/container_manager.py:250-255 | `chmod m p` is issued iff `p` is in the list, `p` exists and `m` is the requested mode. |
| ContainerManager.DefaultChmodOrder | tools/actions/container_manager.py:262-309 | The default list is visited in order: the fixed nodes, then render, framebuffer, video and dma-heap nodes. |
| ContainerManager.SetPermissions | tools/actions/container_manager.py:244-314 | A missing or empty list selects the default list. The chmods of the existing targets are issued in order and stop only at a call that raises. |
| ContainerManager.ChmodEach | tools/actions/container_manager.py:312-313 | The loop extends the log by exactly the chmods of the existing targets, in order. It reports a failure iff one of them raised. |
| ContainerManager.ProbeUnmountsOnFailure | tools/actions/container_manager.py:457-465 | The lazy unmount of the schedtune cgroup is issued iff creating a probe directory failed. |
| ContainerManager.ProbeRaisesOnlyFromHandlers | tools/actions/container_manager.py:457-472 | The probe block raises only when the unmount handler or a directory removal raises. A failing mkdir never escapes. |
| ContainerManager.ProbeRemovesPresent | tools/actions/container_manager.py:467-472 | A probe directory is checked for after the `except` clause: after a lazy unmount that detached the cgroup (an input) neither is removed. Probe 1 is removed iff it exists then. Probe 0 is removed iff it exists and removing probe 1 did not raise. When both mkdirs succeeded, both are removed, probe 1 first. |
| ContainerManager.ProbeRemovesInOrder | tools/actions/container_manager.py:467-472 | Probe 1 is always removed before probe 0. |
| ContainerManager.MakeProbes | tools/actions/container_manager.py:457-460 | Creates the probes. Reports failure iff a mkdir failed, and reports which probe directories now exist. |
| ContainerManager.ProbeSchedtune | tools/actions/container_manager.py:455-475 | Issues exactly the probe trace and raises exactly as the probe specification says, with the directories' presence at the `finally` clause taking a detaching unmount into account. |
| ContainerManager.RemoveProbes | tools/actions/container_manager.py:467-472 | Removes probe 1 and then probe 0, each only if present at the `finally` clause, stopping at the first failure. |
| ContainerManager.Prepare | tools/actions/container_manager.py:422-451 | Networking, sensor daemon and cgroup set-up, in source order. A networking failure propagates. |
| ContainerManager.StopNfc | tools/actions/container_manager.py:477-492 | Stops the NFC service only when it is active. |
| ContainerManager.PrepareAndProbe | tools/actions/container_manager.py:422-475 | Preparation followed by the schedtune probe, skipped when preparation raised. |
| ContainerManager.SetupHost | tools/actions/container_manager.py:422-497 | Host set-up up to the NFC stop, in source order. |
| ContainerManager.WriteSessionConfig | tools/actions/container_manager.py:499-513 | Session configuration and data bind mount. A missing `waydroid_data` fails with KeyError only when the config has no session section. |
| ContainerManager.Configure | tools/actions/container_manager.py:422-513 | Host set-up, then session configuration. It fails iff a call raised or a key was missing. |
| ContainerManager.Launch | tools/actions/container_manager.py:515-532 | Loads the config, mounts the rootfs, sets the AIDL version, starts the engine and then the hardware service. |
| ContainerManager.DoStart | tools/actions/container_manager.py:414-536 | With a session already tracked: fails and issues nothing. Otherwise it issues the start trace, and the session becomes tracked iff nothing raised. |
| ContainerManager.DoStartNetworkingFatal | tools/actions/container_manager.py:424-428 | A failing networking start is the only call, and the start fails. |
| ContainerManager.DoStartWithoutFaults | tools/actions/container_manager.py:506-513 | With no failing call, the start completes iff the config has a session section or the session supplies `waydroid_data`. |
| ContainerManager.DoStartEndsWithLaunch | tools/actions/container_manager.py:517-534 | A completed start ends with: load config, mount rootfs, set AIDL version, engine start, hardware start. |
| ContainerManager.Halt | tools/actions/container_manager.py:540-556 | Stops the hardware service, then the engine unless it already reports STOPPED. It waits until the engine reports STOPPED. |
| ContainerManager.StartNfc | tools/actions/container_manager.py:566-581 | Restarts the NFC service only when it was stopped for the session. |
| ContainerManager.StopSensord | tools/actions/container_manager.py:583-597 | Kills a stale sensor daemon only when one is running. |
| ContainerManager.StopServices | tools/actions/container_manager.py:558-597 | Stops networking, restores NFC and kills the sensor daemon, in order. |
| ContainerManager.StopAfterHalt | tools/actions/container_manager.py:558-602 | The service stops followed by the rootfs unmount. |
| ContainerManager.Teardown | tools/actions/container_manager.py:540-602 | The whole teardown in source order. It stops at the first failure. |
| ContainerManager.Release | tools/actions/container_manager.py:604-623 | Unmounts data and signals the session owner when quitting, each failure caught. The tracked session is then cleared. |
| ContainerManager.Stop | tools/actions/container_manager.py:538-626 | `stop` never raises. Its trace and the new session are the stop specification's. It returns only after the engine reported STOPPED, unless the halt itself failed. |
| ContainerManager.TeardownRaisesOnFault | tools/actions/container_manager.py:540-602 | The teardown raises iff one of the calls it issued raised, and then that call is the last one issued. |
| ContainerManager.StopDeletesSessionIffTeardownCompletes | tools/actions/container_manager.py:612-626 | The session is cleared iff there was none or every teardown call returned normally. Otherwise it is left unchanged. |
| ContainerManager.TeardownAvoids | tools/actions/container_manager.py:540-602 | The teardown issues only teardown calls: never a start, chmod or session call. |
| ContainerManager.StopSignalsOwner | tools/actions/container_manager.py:612-621 | The owner is signalled iff quitting, that session is tracked and the teardown completed. Data is unmounted iff the teardown completed. |
| ContainerManager.StopEngineCalls | tools/actions/container_manager.py:545-556 | The only engine call `stop` makes is the engine stop. It is made iff the engine was not STOPPED and the hardware stop did not raise. |
| ContainerManager.StopIgnoresReleaseFailures | tools/actions/container_manager.py:604-621 | A failing data unmount or owner signal changes neither the trace nor the resulting session. |
| ContainerManager.Restart | tools/actions/container_manager.py:628-640 | One status query. A running container is stopped and then started again. |
| ContainerManager.Freeze | tools/actions/container_manager.py:642-655 | Freezes only a RUNNING container, then waits until the status is no longer RUNNING. |
| ContainerManager.Unfreeze | tools/actions/container_manager.py:657-670 | Unfreezes only a FROZEN container, then waits until the status is no longer FROZEN. |
| ContainerManager.GuardedEngineCalls | tools/actions/container_manager.py:628-670 | Engine calls for each status: restart stops and starts only a RUNNING container, freeze acts only on RUNNING, unfreeze only on FROZEN. |
| ContainerManager.LoadDrivers | tools/actions/container_manager.py:361-388 | Driver loading followed by the binder node set-up. |
| ContainerManager.Serve | tools/actions/container_manager.py:391-410 | chmods the three binder nodes that exist, then runs `service`: the service object, a self-test `do_start` on the root test session whose errors are only logged, then the main loop, whose error is raised again. The tracked session afterwards is the test session exactly when that start completed. |
| ContainerManager.RunService | tools/actions/container_manager.py:180-242 | `service` past the binder permissions: the service object and the main loop, whose errors propagate, with the self-test start between them. Once the service object exists, the session is the one the self-test leaves, even when the main loop then raises. |
| ContainerManager.LoopAfter | tools/actions/container_manager.py:208-242 | `looper.run()` is issued after the self-test, and `service` raises exactly when the main loop fails. |
| ContainerManager.SelfTest | tools/actions/container_manager.py:192-206 | `do_start` on the test session with every error caught: its trace is the start's (nothing when a session is already tracked), and the test session is tracked iff the start completed. |
| ContainerManager.ServiceSelfStarts | tools/actions/container_manager.py:192-207 | With no session tracked and the service object made, the whole start of the test session is issued before the main loop, and only a main-loop error escapes. The test session is tracked afterwards iff that start completed, so a later D-Bus `Start` is refused. |
| ContainerManager.SelfStartWithoutFaults | tools/actions/container_manager.py:192-207 | Without faults, the self-test starts the container iff the configuration has a session section. The test session names no data directory, so otherwise the start stops at the KeyError after the host set-up. |
| ContainerManager.StartService | tools/actions/container_manager.py:316-412 | If the bus name is already held, nothing is issued and nothing is queried. Otherwise there is one status query, and drivers are loaded and the service entered only when the container is STOPPED. Entering the service self-starts the container on the test session, and the tracked session is the one it leaves. |
| Host.Engine.QueryStatus | tools/actions/container_manager.py:545 | Returns the engine's answer to the current poll and consumes one poll. |
| Host.Engine.AwaitStatus | tools/actions/container_manager.py:552-553 | Returns after the poll that first reports the target status. No earlier poll in the wait reported it. |
| Host.Engine.AwaitChange | tools/actions/container_manager.py:651-652 | Returns after the first poll that reports a status other than the current one. Every earlier poll reported the current one. |
| SimplifiedManager.SimplePrepare | tools/actions/simplified_container_manager.py:88-95 | A networking failure is caught. Default permissions are set. |
| SimplifiedManager.SimpleConfigure | tools/actions/simplified_container_manager.py:88-104 | Preparation followed by session configuration and data mount. |
| SimplifiedManager.SimpleLaunch | tools/actions/simplified_container_manager.py:106-113 | Loads the config, mounts the rootfs and starts the engine. No hardware service is started. |
| SimplifiedManager.SimpleDoStart | tools/actions/simplified_container_manager.py:82-115 | Like the full start: refused when a session is tracked, and tracks the session iff nothing raised. |
| SimplifiedManager.SimpleStartIgnoresNetworking | tools/actions/simplified_container_manager.py:88-92 | Whether networking fails does not change the simplified start at all. |
| SimplifiedManager.NetworkingFailureDiffers | tools/actions/simplified_container_manager.py:88-92 | With a usable session, a networking failure makes the full start fail but not the simplified one. |
| SimplifiedManager.SimpleStartEndsWithEngineStart | tools/actions/simplified_container_manager.py:113-115 | A completed simplified start ends with the engine start and never starts the hardware service. |
| SimplifiedManager.SimpleHalt | tools/actions/simplified_container_manager.py:120-124 | Stops the engine unless it is STOPPED, then waits for STOPPED. |
| SimplifiedManager.SimpleTeardown | tools/actions/simplified_container_manager.py:119-134 | Halt, caught networking stop, rootfs unmount. |
| SimplifiedManager.SimpleStop | tools/actions/simplified_container_manager.py:117-150 | Never raises. Its trace and the new session are those of the simplified stop specification. |
| SimplifiedManager.SimpleStopDeletesSession | tools/actions/simplified_container_manager.py:134-148 | The session is cleared iff there was none, or neither the engine stop nor the rootfs unmount raised. |
| SimplifiedManager.SimpleStopIgnoresCaughtFailures | tools/actions/simplified_container_manager.py:127-147 | Failures of the networking stop, data unmount and owner signal change nothing. |
| SimplifiedManager.SimpleStopCalls | tools/actions/simplified_container_manager.py:120-148 | The owner is signalled iff quitting with that session and the teardown completed. The engine is only ever stopped, and only when it was running. |
| ModularManager.PutSpec | tools/actions/modular_container_manager.py:38-43 | Storing a step result: lookup of that step gives the new result and other steps are unchanged. A new step is appended to the key order. Keys stay unique. |
| ModularManager.DiagnoseSpec | tools/actions/modular_container_manager.py:146-155 | A step is reported as failed iff its recorded result is a failure. Reported steps keep the recording order. |
| ModularManager.DefaultSessionSpec | tools/actions/modular_container_manager.py:187-196 | The default session has exactly `user_id` = "0", the manager's own `pid` and `waydroid_data`. |
| ModularManager.StepsRecordOutcome | tools/actions/modular_container_manager.py:20-117 | Each step succeeds iff it records success, and records a failure otherwise. Step 1 records nothing exactly when it abandons on the binder probe. Step 3 records "not ready" iff the engine started but the container never became ready. |
| ModularManager.RunAllIgnoresStep4 | tools/actions/modular_container_manager.py:119-140 | `run_all_steps` succeeds iff the first three steps succeed, whatever step 4 does. |
| ModularManager.Manager.constructor | tools/actions/modular_container_manager.py:15-18 | A new manager has no results and no session, and satisfies the invariant that each step is recorded at most once, which every step method, `reset` and the run-all methods keep. |
| ModularManager.Manager.SetupEnvironment | tools/actions/modular_container_manager.py:20-45 | Issues step 1's calls and records its outcome under step 1. |
| ModularManager.Manager.PrepareContainer | tools/actions/modular_container_manager.py:47-77 | Issues step 2's calls and records its outcome. Creates the default session when none is tracked. |
| ModularManager.Manager.StartContainer | tools/actions/modular_container_manager.py:79-100 | Issues step 3's calls and records its outcome. |
| ModularManager.Manager.HardwareServices | tools/actions/modular_container_manager.py:102-117 | Issues step 4's calls and records its outcome. |
| ModularManager.Manager.RunFirstThree | tools/actions/modular_container_manager.py:123-130 | Runs steps 1-3 and stops at the first that fails. |
| ModularManager.Manager.RunAllSteps | tools/actions/modular_container_manager.py:119-140 | Steps 1-3, then step 4 when they all succeeded. The log, results and session are as the specification says. |
| ModularManager.Manager.GetStatus | tools/actions/modular_container_manager.py:142-144 | Returns the recorded results. |
| ModularManager.Manager.DiagnoseFailures | tools/actions/modular_container_manager.py:146-155 | The loop returns exactly the failed steps, in recording order: a step is listed iff its recorded result is a failure. |
| ModularManager.Manager.Reset | tools/actions/modular_container_manager.py:157-160 | Clears the results and keeps the session. |
| ModularManager.Step1Calls | tools/actions/modular_container_manager.py:26-33 | Abandons iff the binder probe reports a non-zero status. Otherwise it goes on with the rest of step 1. |
| ModularManager.Step1Rest | tools/actions/modular_container_manager.py:31-36 | Rest of step 1: on MAINLINE probes ashmem, then loads the binder nodes and sets their permissions. |
| ModularManager.Step2Calls | tools/actions/modular_container_manager.py:58-68 | Step 2's session configuration and mounts. |
| ModularManager.RunRequested | tools/actions/modular_container_manager.py:221-228 | A step runs and is recorded only when it was requested. |
| ModularManager.StartStepByStep | tools/actions/modular_container_manager.py:217-230 | Runs the requested steps in order and returns the resulting results. |
| ModularManager.ByStepKeys | tools/actions/modular_container_manager.py:217-230 | Results appear in step order. A step has a result iff it was requested, except when step 1 abandoned. |
| ModularManager.FirstThreeNoHardware | tools/actions/modular_container_manager.py:123-130 | The first three steps never start the hardware service. |
| ModularManager.SkipHardwareSpec | waydroid-modular.py:106-113 | With `--skip-hardware` the hardware service is never started. Step 4 is recorded as skipped iff the first three steps succeeded. |
| ModularCli.StatusReport | waydroid-modular.py:118-126 | "No steps" is reported iff no results are recorded. |
| ModularCli.DiagnosisExit | waydroid-modular.py:128-135 | `diagnose` exits 0 iff no step failed. |
| ModularCli.RunMain | waydroid-modular.py:71-150 | One invocation: its log, exit code and report are those of the command specification. |
| ModularCli.RunCommand | waydroid-modular.py:83-140 | Dispatches a command to a fresh manager, as the specification says. |
| ModularCli.RunAllCommand | waydroid-modular.py:104-116 | The `all` command, with or without `--skip-hardware`. |
| ModularCli.StepExit | waydroid-modular.py:73-102 | A single step exits 0 iff the config exists and loads and the step succeeds. Without a config nothing is issued. |
| ModularCli.SkipHardwareSameExit | waydroid-modular.py:104-116 | Skipping hardware gives the same exit code and never starts the hardware service. The full run starts it iff the first three steps succeed. |
| ModularCli.FreshManagerReportsNothing | waydroid-modular.py:118-135 | `status` and `diagnose` on a fresh manager report nothing and exit 0. |
| LxcSelinux.ModeFollowsStatus | tools/helpers/lxc_selinux.py:15-51 | The mode is disabled iff SELinux status is off. Otherwise it is enforcing or permissive iff `enforce` reads 1 or 0. |
| LxcSelinux.SelectSnippets | tools/helpers/lxc_selinux.py:85-94 | The loop picks the snippet files for the LXC version. |
| LxcSelinux.SnippetsSpec | tools/helpers/lxc_selinux.py:74-94 | The base snippet comes first. LXC 1-2 adds only snippet 1. LXC 3 and above adds snippets 3 and 4 when they exist and the version reaches them. |
| LxcSelinux.ReplaceArchSpec | tools/helpers/lxc_selinux.py:101 | Each line has its first `LXCARCH` replaced by the architecture. Lines without it are unchanged. |
| LxcSelinux.SecondPlaceholderKept | tools/helpers/lxc_selinux.py:101 | sed without `g` leaves a second placeholder on a line untouched. |
| LxcSelinux.DotMatchesAnyChar | tools/helpers/lxc_selinux.py:149 | The unescaped dot in the AppArmor pattern matches any character. |
| LxcSelinux.OccurrenceMatches | tools/helpers/lxc_selinux.py:149-153 | A line containing the pattern literally is matched. |
| LxcSelinux.RemoveMatchingSpec | tools/helpers/lxc_selinux.py:149-153 | `sed /pat/d` keeps exactly the non-matching lines, in order. |
| LxcSelinux.RemoveApparmorSpec | tools/helpers/lxc_selinux.py:144-153 | Both AppArmor deletions keep exactly the lines matching neither pattern, in order. |
| LxcSelinux.SetLxcConfigSelinux | tools/helpers/lxc_selinux.py:69-126 | No LXC installed: nothing is done. Otherwise the commands and the new config are the specification's, and success iff no command failed. |
| LxcSelinux.BaseConfig | tools/helpers/lxc_selinux.py:77-106 | Creates the directory, concatenates the snippets and substitutes the architecture. |
| LxcSelinux.AddNodes | tools/helpers/lxc_selinux.py:108-126 | Appends the SELinux block when SELinux is on, then the nodes file. |
| LxcSelinux.SelinuxConfigOnSuccess | tools/helpers/lxc_selinux.py:69-126 | On success the config is the architecture-substituted snippets, then the SELinux block iff SELinux is on, then the nodes. Without SELinux no block is appended. |
| LxcSelinux.BaseConfigShape | tools/helpers/lxc_selinux.py:81-106 | On success the base config is the substituted concatenation. The SELinux block is never appended here. |
| LxcSelinux.NodesShape | tools/helpers/lxc_selinux.py:109-123 | On success, the block and the nodes are appended after the base config. |
| LxcSelinux.MissingSnippetStops | tools/helpers/lxc_selinux.py:74-98 | A missing snippet file makes `cat` fail after the directory was made. The shell has truncated the config, which ends up as the present snippets one after another; nothing further is issued. |
| LxcSelinux.RemoveApparmorConfig | tools/helpers/lxc_selinux.py:144-155 | Issues the two sed deletions, stopping at a failure. |
| LxcSelinux.RemoveApparmorRun | tools/helpers/lxc_selinux.py:144-153 | When both seds succeed, the config loses exactly the AppArmor lines. |
| LxcSelinux.SetupSelinuxPolicy | tools/helpers/lxc_selinux.py:157-206 | Succeeds iff SELinux is on and the policy is loaded, or the policy directory exists and the build succeeds. The config is untouched. |
| LxcSelinux.SetLxcConfig | tools/helpers/lxc_selinux.py:237-250 | Without SELinux the AppArmor configuration is written. With SELinux the SELinux configuration is written, and the policy is set up when it is not loaded. |
| LxcSelinux.SetLxcConfigChoosesBlock | tools/helpers/lxc_selinux.py:237-250 | With SELinux on, a successful configuration holds the SELinux block just before the nodes. |
| MigrateSelinux.PermissiveCannotCreate | tools/helpers/migrate_to_selinux.py:101-103 | Replacing with `SELINUX=permissive` cannot create a `disabled` or `enforcing` setting. |
| MigrateSelinux.PermissiveConfigSpec | tools/helpers/migrate_to_selinux.py:101-103 | The rewritten config contains no disabled or enforcing setting. The rewrite leaves such text unchanged when it has none, and it is idempotent. |
| MigrateSelinux.WithSecuritySpec | tools/helpers/migrate_to_selinux.py:183-186 | The security section is appended only when missing. The old text is kept as a prefix, and the rewrite is idempotent. |
| MigrateSelinux.BlockHasNoApparmor | tools/helpers/migrate_to_selinux.py:213-220 | No line of the SELinux block matches an AppArmor pattern. |
| MigrateSelinux.LxcSelinuxConfigSpec | tools/helpers/migrate_to_selinux.py:212-220 | The updated LXC config has no AppArmor line. A second update appends the block once more. |
| MigrateSelinux.DisplaySpec | tools/helpers/migrate_to_selinux.py:259 | Output up to the limit is shown whole. Longer output is cut to the limit plus "...". |
| MigrateSelinux.Machine.CheckApparmorStatus | tools/helpers/migrate_to_selinux.py:29-45 | The trace and verdict are the AppArmor probe's. The files are unchanged. |
| MigrateSelinux.Machine.StopApparmor | tools/helpers/migrate_to_selinux.py:47-66 | Issues the stop/disable trace and then `aa-teardown`. A non-zero exit is caught; a command that cannot be run escapes, which it reports, and then nothing further is issued. Files are unchanged. |
| MigrateSelinux.Machine.EnableSelinux | tools/helpers/migrate_to_selinux.py:68-110 | The trace and files are those of the enable specification. A refused `setenforce` is caught; one that cannot be run escapes, which it reports, before the config is touched. |
| MigrateSelinux.Machine.BuildSelinuxPolicy | tools/helpers/migrate_to_selinux.py:112-163 | Returns whether the policy was built and issues the build trace. A `make` step that raises or exits non-zero stops the build. |
| MigrateSelinux.Machine.UpdateWaydroidConfig | tools/helpers/migrate_to_selinux.py:165-197 | The trace and files are those of the Waydroid config update. |
| MigrateSelinux.Machine.UpdateLxcConfig | tools/helpers/migrate_to_selinux.py:199-226 | The trace and files are those of the LXC config update. A `sed` that exits non-zero leaves the file as it was; one that cannot be run ends the update. |
| MigrateSelinux.Machine.VerifySelinuxSetup | tools/helpers/migrate_to_selinux.py:228-261 | Runs `sestatus`, lists modules and lists each directory. It returns the shown listings and changes no file. |
| MigrateSelinux.Machine.Migrate | tools/helpers/migrate_to_selinux.py:263-329 | The trace, files and exit code are the migration specification's, including exit 1 with the trace so far when an error escapes to `main`. |
| MigrateSelinux.Machine.MigrateSteps | tools/helpers/migrate_to_selinux.py:286-317 | The migration steps after the prerequisite check: exit 1 on an escaping error or a failed build, 0 otherwise. |
| MigrateSelinux.ApparmorProbeSpec | tools/helpers/migrate_to_selinux.py:29-45 | `aa-status` decides when present and not raising. `systemctl is-active` is used exactly as the fallback. The probe mutates nothing. |
| MigrateSelinux.EnableSpec | tools/helpers/migrate_to_selinux.py:88-110 | The rewrite of the SELinux config is preceded by its backup. Only that config changes: it becomes the permissive text, with the old text as backup. |
| MigrateSelinux.BuildSpec | tools/helpers/migrate_to_selinux.py:112-163 | Building needs the policy directory and the tools. A successful build is `make clean`, `make`, `make install`. Install happens only after both succeeded. |
| MigrateSelinux.WaydroidUpdateIdempotent | tools/helpers/migrate_to_selinux.py:165-197 | Updating the Waydroid config twice equals updating it once. The second update does not rewrite. |
| MigrateSelinux.LxcUpdateRepeats | tools/helpers/migrate_to_selinux.py:199-226 | When every step succeeds, a second LXC config update appends the SELinux block again and backs up the first result. |
| MigrateSelinux.Shown | tools/helpers/migrate_to_selinux.py:252-261 | At most one listing per directory, each at most the display limit plus three characters. |
| MigrateSelinux.DirsTraceReadOnly | tools/helpers/migrate_to_selinux.py:252-261 | Listing the directories mutates nothing. |
| MigrateSelinux.DryRunChangesNothing | tools/helpers/migrate_to_selinux.py:274-317 | A dry run changes no file and issues no mutating command. It exits 0 iff forced or the prerequisites hold. |
| MigrateSelinux.PrerequisitesGate | tools/helpers/migrate_to_selinux.py:279-284 | Without `--force`, a non-root user, missing selinuxfs or missing `sestatus` exits 1 having done nothing. |
| MigrateSelinux.FailedBuildKeepsConfigs | tools/helpers/migrate_to_selinux.py:302-308 | When the policy build fails the run exits 1. The Waydroid and LXC configs and their backups are untouched, and verification is not reached. |
| MigrateSelinux.EscapeExitsOne | tools/helpers/migrate_to_selinux.py:47-86 | An error escaping `stop_apparmor` or `setenforce` ends the run with exit 1 and no file changed, before any `make` and without writing or verifying anything. |
| MigrateSelinux.SetenforceRefusalCaught | tools/helpers/migrate_to_selinux.py:81-86 | `setenforce 0` exiting non-zero leaves the run exactly as if it had succeeded. |
| MigrateSelinux.DirsTraceReadsDirs | tools/helpers/migrate_to_selinux.py:252-261 | Which directories are listed depends only on which exist. |
| MigrateSelinux.SuccessfulRun | tools/helpers/migrate_to_selinux.py:286-319 | A real run exits 0 iff the policy builds and no error escapes to `main`. The policy is installed before either config is rewritten. |
| ToolsArgs.Args.constructor | tools/__init__.py:31-39 | Stands for the freshly parsed namespace. Its paths, sudo timer, timeout and log sink are placeholders (empty, off, 0, the null device) that `main` overwrites before anything reads them. |
| ToolsLogging.AddName | tools/helpers/logging.py:47 | Registering a level name maps the level to the name and the name to the level, keeping all other entries. |
| ToolsLogging.UnnamedLevelKept | tools/helpers/logging.py:38-79 | A level that is not registered keeps its previous name, or stays unnamed. |
| ToolsLogging.LastNameWins | tools/helpers/logging.py:78-79 | The last registration of a level decides its name. |
| ToolsLogging.NameKeepsLevel | tools/helpers/logging.py:45-75 | A name registered once maps to its level. |
| ToolsLogging.MaximumLevelTable | tools/helpers/logging.py:38-79 | After the added levels, level 5 is named VERBOSE_OLD, while SPAM and VERBOSE_OLD both map to 5. VERBOSE, NOTICE and SUCCESS map both ways to 15, 25 and 35. Other levels are unchanged. |
| ToolsLogging.Registry.AddLevelName | tools/helpers/logging.py:47 | The registry gains one level name. |
| ToolsLogging.Registry.AddMaximumLogLevels | tools/helpers/logging.py:38-79 | The registry gains the five registrations in order. |
| ToolsLogging.PidPrefix | tools/helpers/logging.py:28 | The prefix is at least nine characters. |
| ToolsLogging.PidPrefixSpec | tools/helpers/logging.py:28 | The prefix is "(", the pid zero-padded to six digits, ") ". The digits parse back to the pid. |
| ToolsLogging.Caught | tools/helpers/logging.py:32-35 | KeyboardInterrupt and SystemExit propagate. Every other error goes to handleError. |
| ToolsLogging.EmitRouting | tools/helpers/logging.py:14-30 | A record reaches the handler's stream, standard error, iff details go to the log, not quiet and level ≥ INFO; there it is the message and a newline. Every record is written once to the log sink as prefix, message and newline. |
| ToolsLogging.AddedLevelRouting | tools/helpers/logging.py:19-25 | SPAM and VERBOSE never reach the handler's stream. NOTICE and SUCCESS do, unless quiet or details go to stdout. |
| ToolsLogging.EmitErrors | tools/helpers/logging.py:14-35 | A failure while formatting or writing stops the emit, and nothing reaches the log sink. KeyboardInterrupt and SystemExit propagate. Other errors go to handleError. |
| ToolsLogging.Streams.Emit | tools/helpers/logging.py:14-35 | Standard error receives the handler's stream output. Standard output or the log file receives the `logfd` line, depending on the log sink. Both follow the routing specification. |
| ToolsLogging.DirnameJoin | tools/helpers/logging.py:94 | The directory of `d/name` is `d`. |
| ToolsLogging.LogFd | tools/helpers/logging.py:88-105 | The sink is stdout iff details go to stdout. A log file is used only when its directory exists. |
| ToolsLogging.SelectLevel | tools/helpers/logging.py:119-127 | The root level is SPAM iff ultra-verbose. |
| ToolsLogging.VerboseDropsDebug | tools/helpers/logging.py:119-127 | The default level shows DEBUG. `--verbose` alone sets level 15, which hides DEBUG records. |
| ToolsLogging.Init | tools/helpers/logging.py:82-133 | Opening the log file fails only for a file sink, and then nothing else changes. Otherwise it sets the sink, one handler, the root level and the level names. It warns iff the sink is null and the action is not `init`. |
| ToolsMain.ExitStatus | tools/__init__.py:228-232 | A non-zero exit status comes only from an explicit return code. |
| ToolsMain.SetupRun | tools/__init__.py:31-59 | Set-up never ends by returning an exit code. |
| ToolsMain.MainCommand | tools/__init__.py:18-228 | `main` returns, hints and issues the calls of the main specification. Arguments exist iff `arguments()` did not raise an exception, with paths derived from the work directory. |
| ToolsMain.SetUp | tools/__init__.py:31-59 | Derives the paths, creates the work directory when needed and initialises logging. |
| ToolsMain.DerivePaths | tools/__init__.py:34-56 | Config and log paths come from the work directory. The sudo timer is on and the timeout is 1800. |
| ToolsMain.Gate | tools/__init__.py:66-90 | The "already initialized" gate. The bus name is claimed iff gated, waiting for init, free, and the claim does not raise. |
| ToolsMain.Dispatch | tools/__init__.py:97-208 | Dispatches the action as the specification says. |
| ToolsMain.HintMentionsDetails | tools/__init__.py:222-227 | The error hint mentions `--details-to-stdout` iff arguments are missing or the log file does not exist. |
| ToolsMain.ErrorsExitOne | tools/__init__.py:212-228 | A hint is printed iff `arguments()` raised an exception or a stage raised, and then `main` returns 1. |
| ToolsMain.PathsFromWork | tools/__init__.py:35-54 | The config lives in the work directory. A non-root run without the log file logs to the temporary path, and otherwise logs in the work directory. |
| ToolsMain.RootActionsNeedRoot | tools/__init__.py:99-182 | For a non-root user, root-only actions never run their action and exit 1, unless the init gate ends the run first. |
| ToolsMain.InitGate | tools/__init__.py:72-90 | Already initialized without waiting: exit 0 after set-up. Waiting while the name is held: exit 1 after one claim. Ungated actions go straight to dispatch. |
| ToolsMain.GateClaimsOnce | tools/__init__.py:79 | The gate claims the bus name at most once, and never starts the container. |
| ToolsMain.DispatchClaims | tools/__init__.py:125-133 | `container start` claims the name only when the gate did not. A held name stops it before the start. |
| ToolsMain.ContainerStartClaimsOnce | tools/__init__.py:79-133 | `container start` claims the bus name at most once over the whole run. |
| ToolsMain.ContainerStartBlocked | tools/__init__.py:123-135 | With the bus name held, `container start` never starts the container manager. |
| ToolsMain.ContainerStartConflict | tools/__init__.py:125-133 | As root, ungated, with the name held: one claim, exit 1, no hint. |
| ToolsMain.RootLogsToWorkDir | tools/__init__.py:37-49 | Root logs to the work directory's log file, and its error hint never asks for `--details-to-stdout`. |
| Strings.ZFillRoundTrip | tools/helpers/logging.py:28 | Zero-padding a decimal keeps its value when parsed back. |

## Left out

- D-Bus and GLib transport: the service object, the main loop, signal handlers and the watchdog timer. Holding the bus name is a boolean input. Creating the service object is the single call `EnterService`; the main loop is the call `MainLoop`, whose error `service` logs and raises again.
- ToolsMain.MainCommand / ToolsMain.ErrorsExitOne: a command-line usage error makes argparse raise `SystemExit(2)` inside `arguments()` (`tools/__init__.py:31`). `SystemExit` is not an `Exception`, so it leaves `main` with status 2, with no hint and no `return 1`; the model's `cli == None` stands only for `arguments()` raising an ordinary exception.
- LxcSelinux.SetLxcConfig / LxcSelinux.SetLxcConfigChoosesBlock: the source asks `get_selinux_status` afresh at `tools/helpers/lxc_selinux.py:239`, `:109`, `:55` and `:159`, re-running `sestatus` and re-reading the enforce file each time. The model reads one status, `LxcEnv.status`, for all of them, so it assumes the status does not change during one configuration run; this also covers the two reads in `LxcSelinux.SetupSelinuxPolicy`.
- Caller identity: sender uid and pid are inputs. The uid lookup on the bus is not modelled.
- The Weston/compositor wait and the service's own bus set-up. Of the unit check, only the `ActiveState` parse and the resulting start decision are modelled.
- The engine's internals: `lxc-info` and friends are reduced to the scripted status answers of `Host.Engine`.
- Faults are a per-call input. A chmod run with `check=False` is still allowed to raise (a non-exit failure), so the model is more permissive than a run that only returns a status.
- `_wait_for_container_ready` in the modular manager is the input `containerReady`.
- The `except` branch of `run_all_steps` that cannot be reached is not modelled. KeyboardInterrupt while tailing the log is out of scope.
- Whether the nodes file is appended depends on a command runner this model does not see. It is the input `redirects`.
- `migrate_from_apparmor` is not part of this model.
- The answers of `sestatus`, `semodule -l`, `aa-status` and `systemctl` are inputs. Files are line sequences ending in a newline. In the LXC helper a failing command leaves the configuration as it was, except the `cat` of the snippets, whose shell redirection has already replaced it with the snippets that exist. In the migration, a command that cannot be run is the only error that escapes; a non-zero exit is caught wherever the code catches `CalledProcessError`.
- The `os.chdir` into the policy directory (`tools/helpers/migrate_to_selinux.py:126`) is assumed to succeed.
- LxcSelinux.SetupSelinuxPolicy: the `os.chdir` into the policy directory (`tools/helpers/lxc_selinux.py:176`) is assumed to succeed; the model does not raise there.
- sed special characters inside the architecture name are not modelled. File I/O errors are modelled only at the backup and raise points the code has.
- Printed and logged text, apart from the emit routing; `handleError` itself; the formatter; the `logging.success` call at the end of `init`.
- `logging.verbose` is assumed to be defined when `main` uses it before logging is set up.
- `is_initialized` and the configured work directory are inputs.
- `os.path.dirname` is modelled only for the path shapes the code builds.
- `start_simplified` in `tools/actions/simplified_container_manager.py` refers to `dbus` without importing it, so it fails at its first line. Its body is not modelled. `ContainerManager.StartService` covers the full manager's start.
- The SIGUSR1 handler in `tools/actions/container_manager.py` uses `sys` without importing it. It is not modelled.
- `waydroid-simplified.py`, the logging patch and test scripts, `custom_logging.py` and `waydroid_logger.py` are not part of this model.
- ContainerManager.Halt: the wait for STOPPED is proved under the precondition that the engine eventually reports it. The source loops forever otherwise.
- Teardown (`ContainerManager.Teardown`): it halts the container, so it carries the same precondition that the engine eventually reports STOPPED. The source loops forever otherwise.
- Stop (`ContainerManager.Stop`): same precondition, through `Teardown`. The source loops forever otherwise.
- SimpleHalt (`SimplifiedManager.SimpleHalt`): the wait for STOPPED is proved under the precondition that the engine eventually reports it. The source loops forever otherwise.
- SimpleTeardown (`SimplifiedManager.SimpleTeardown`): same precondition, through `SimpleHalt`. The source loops forever otherwise.
- SimpleStop (`SimplifiedManager.SimpleStop`): same precondition, through `SimpleTeardown`. The source loops forever otherwise.
- ContainerManager.Freeze: the wait is proved under the precondition that the status eventually leaves RUNNING. The source has no timeout.
- ContainerManager.Unfreeze: the wait is proved under the precondition that the status eventually leaves FROZEN. The source has no timeout.
