/**
 * `SetupLogging` of logger/logger.go: the one-shot configuration of the
 * process-wide logging state. The file system is an input (the outcomes of
 * `os.Stat`, `os.Create` and `os.OpenFile`); the `wlog` level, the standard
 * logger's flags and output, the file-system calls made and the diagnostics
 * printed are state.
 */
module Setup {
  import opened Wrappers

  /** The `wlog` levels, from most to least verbose. */
  datatype Level = Debug | Info | Warn | Error

  /** How a log file was opened: `os.Create`, or `os.OpenFile` with `O_APPEND|O_WRONLY`. */
  datatype OpenMode = Created | Appending

  /** Where log lines finally go. */
  datatype Destination = Stderr | File(path: string, mode: OpenMode)

  /**
   * The standard logger's output: a destination written to directly, or the
   * `telegrafLog` writer around `wlog.NewWriter(dest)`.
   */
  datatype Sink = Plain(dest: Destination) | Telegraf(dest: Destination)

  /** The outcome of `os.Stat(path)`: success, or an error that `os.IsNotExist` may recognise. */
  datatype StatResult = StatOk | StatFailed(err: string, notExist: bool) {
    predicate IsNotExist() {
      StatFailed? && notExist
    }
  }

  /** The outcome of `os.Create` or `os.OpenFile`. */
  datatype OpenResult = Opened | OpenFailed(err: string)

  /** A call into the file system. */
  datatype FsCall = Stat(path: string) | Create(path: string) | OpenAppend(path: string)

  /** A line printed by the standard logger: the output and flags in force, and the text. */
  datatype Diagnostic = Diagnostic(via: Sink, flags: int, text: string)

  /**
   * The diagnostic printed when the log file cannot be opened: `action` is
   * "create" for `os.Create` and "append to" for `os.OpenFile`.
   */
  function Unable(action: string, path: string, err: string): (m: string)
    ensures |m| > 18 && m[..3] == "E! " && m[|m| - 15..] == "), using stderr"
  {
    "E! Unable to " + action + " " + path + " (" + err + "), using stderr"
  }

  /**
   * The level after `SetupLogging`: `debug` sets DEBUG, then `quiet` sets
   * ERROR, so quiet wins when both are set; neither leaves the level alone.
   */
  function LevelAfter(prior: Level, debug: bool, quiet: bool): (l: Level)
    ensures quiet ==> l == Error
    ensures debug && !quiet ==> l == Debug
    ensures !debug && !quiet ==> l == prior
  {
    var afterDebug := if debug then Debug else prior;
    if quiet then Error else afterDebug
  }

  /** The log file was requested but the open attempt for it failed. */
  predicate FellBack(logfile: string, stat: StatResult, create: OpenResult, open: OpenResult) {
    logfile != "" && (if stat.IsNotExist() then create.OpenFailed? else open.OpenFailed?)
  }

  /** The destination chosen, the file-system calls made, and the diagnostic printed. */
  datatype Resolution = Resolution(dest: Destination, calls: seq<FsCall>, message: Option<string>)

  /**
   * The destination decision: empty path gives stderr; a path `os.Stat`
   * reports as not existing is created; any other path (including one whose
   * `Stat` failed otherwise) is opened for append. A failed open falls back
   * to stderr with exactly one diagnostic.
   */
  function Resolve(logfile: string, stat: StatResult, create: OpenResult, open: OpenResult): (r: Resolution)
    ensures r.dest == Stderr <==> logfile == "" || FellBack(logfile, stat, create, open)
    ensures r.message.Some? <==> FellBack(logfile, stat, create, open)
    ensures r.dest.File? ==> r.dest.path == logfile
    ensures r.dest.File? ==> (r.dest.mode == Appending <==> !stat.IsNotExist())
    ensures logfile == "" ==> r.calls == []
    ensures logfile != "" ==> r.calls == [Stat(logfile), if stat.IsNotExist() then Create(logfile) else OpenAppend(logfile)]
    ensures FellBack(logfile, stat, create, open) && stat.IsNotExist() ==> r.message == Some(Unable("create", logfile, create.err))
    ensures FellBack(logfile, stat, create, open) && !stat.IsNotExist() ==> r.message == Some(Unable("append to", logfile, open.err))
  {
    if logfile == "" then
      Resolution(Stderr, [], None)
    else if stat.IsNotExist() then
      var calls := [Stat(logfile), Create(logfile)];
      match create
      case Opened => Resolution(File(logfile, Created), calls, None)
      case OpenFailed(err) => Resolution(Stderr, calls, Some(Unable("create", logfile, err)))
    else
      var calls := [Stat(logfile), OpenAppend(logfile)];
      match open
      case Opened => Resolution(File(logfile, Appending), calls, None)
      case OpenFailed(err) => Resolution(Stderr, calls, Some(Unable("append to", logfile, err)))
  }

  /** The process-wide logging state that `SetupLogging` changes. */
  class Logging {
    var level: Level             // `wlog`'s level
    var flags: int               // the standard logger's flags
    var output: Sink             // the standard logger's output
    var fsCalls: seq<FsCall>     // the file-system calls made so far
    var diagnostics: seq<Diagnostic>  // the lines the standard logger printed

    constructor (level: Level, flags: int, output: Sink)
      ensures this.level == level && this.flags == flags && this.output == output
      ensures fsCalls == [] && diagnostics == []
    {
      this.level := level;
      this.flags := flags;
      this.output := output;
      fsCalls := [];
      diagnostics := [];
    }

    /** Prints `text` through the standard logger as it is configured now. */
    method Printf(text: string)
      modifies this`diagnostics
      ensures diagnostics == old(diagnostics) + [Diagnostic(output, flags, text)]
    {
      diagnostics := diagnostics + [Diagnostic(output, flags, text)];
    }

    /**
     * `SetupLogging(debug, quiet, logfile)`, the file system answering with
     * `stat`, `create` and `open`. It always ends with flags 0 and the
     * `telegrafLog` writer installed around the resolved destination; a
     * diagnostic goes through the output in force before, with flags 0.
     */
    method SetupLogging(debug: bool, quiet: bool, logfile: string,
                        stat: StatResult, create: OpenResult, open: OpenResult)
      modifies this
      ensures level == LevelAfter(old(level), debug, quiet)
      ensures flags == 0
      ensures output == Telegraf(Resolve(logfile, stat, create, open).dest)
      ensures fsCalls == old(fsCalls) + Resolve(logfile, stat, create, open).calls
      ensures diagnostics == old(diagnostics) +
        match Resolve(logfile, stat, create, open).message
        case None => []
        case Some(m) => [Diagnostic(old(output), 0, m)]
    {
      flags := 0;
      if debug {
        level := Debug;
      }
      if quiet {
        level := Error;
      }

      var oFile: Destination;
      if logfile != "" {
        fsCalls := fsCalls + [Stat(logfile)];
        if stat.IsNotExist() {
          fsCalls := fsCalls + [Create(logfile)];
          if create.OpenFailed? {
            Printf(Unable("create", logfile, create.err));
            oFile := Stderr;
          } else {
            oFile := File(logfile, Created);
          }
        } else {
          fsCalls := fsCalls + [OpenAppend(logfile)];
          if open.OpenFailed? {
            Printf(Unable("append to", logfile, open.err));
            oFile := Stderr;
          } else {
            oFile := File(logfile, Appending);
          }
        }
      } else {
        oFile := Stderr;
      }

      output := Telegraf(oFile);
    }
  }

  /** With both `debug` and `quiet` set the level is ERROR, and a setup with neither keeps it. */
  lemma QuietWinsOverDebug(prior: Level)
    ensures LevelAfter(prior, true, true) == Error
    ensures LevelAfter(prior, true, false) == Debug
    ensures LevelAfter(prior, false, true) == Error
    ensures LevelAfter(prior, false, false) == prior
  {
  }

  /** A setup prints a diagnostic exactly when a file was requested and the destination is stderr. */
  lemma DiagnosticExactlyOnFallback(logfile: string, stat: StatResult, create: OpenResult, open: OpenResult)
    ensures var r := Resolve(logfile, stat, create, open);
      r.message.Some? <==> logfile != "" && r.dest == Stderr
  {
  }
}
