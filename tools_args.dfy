/**
 * The arguments object of the `waydroid` command: what the command-line parser yields,
 * plus the fields `main` and the logging set-up attach to it as they run.
 */
module ToolsArgs {
  /** The parsed command line, as far as the core reads it. */
  datatype CommandLine = CommandLine(
    action: string,        // "" when no action was given
    subaction: string,
    waitForInit: bool,     // --wait-for-init
    clearLog: bool,        // log --clear
    lines: string,         // log --lines
    detailsToStdout: bool, // --details-to-stdout
    quiet: bool,
    verbose: bool,
    ultraVerbose: bool)

  /** Where log records are written after the logging set-up. */
  datatype Sink = Stdout | LogFile(path: string) | DevNull

  class Args {
    const cli: CommandLine
    var work: string
    var config: string
    var log: string
    var sudoTimer: bool
    var timeout: int
    var logfd: Sink

    /** A freshly parsed object; the path fields and `logfd` are set later. */
    constructor (cli: CommandLine)
      ensures this.cli == cli && work == "" && config == "" && log == ""
      ensures !sudoTimer && timeout == 0 && logfd == DevNull
    {
      this.cli := cli;
      work, config, log := "", "", "";
      sudoTimer, timeout := false, 0;
      logfd := DevNull;
    }
  }
}
