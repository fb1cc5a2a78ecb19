/** The logger as a state machine over all of its operations, and the
    representation invariant every operation keeps. */
module Invariants {
  import opened Wrappers
  import opened CInt
  import opened CString
  import opened Levels
  import opened FileSystem
  import opened Config
  import opened Emission
  import opened Rotation

  /** What every reachable state satisfies: an open handle writes an
      existing file, the tag list respects its capacity and slot size, and
      the strings the logger owns are whole C strings. */
  ghost predicate Consistent(s: System) {
    && (s.logger.fileOpen ==> s.logger.path in s.world.files)
    && |s.logger.tags| <= MAX_TAGS
    && (forall t :: t in s.logger.tags ==> |t| < MAX_TAG_LENGTH && NulFree(t))
    && NulFree(s.logger.path)
    && NulFree(s.logger.prefix)
    && NulFree(s.logger.dateFormat)
  }

  /** One call of the interface, with the host's answers it depends on. */
  datatype Op =
    | SetPrefixOp(prefix: string)
    | SetFileOp(filePath: string, openOk: bool)
    | SetLevelsOp(consoleLevel: Level, fileLevel: Level)
    | SetDateFormatOp(dateFormat: string)
    | SetLogToFileOp(logToFile: bool)
    | SetThreadIdOp(includeThreadId: bool)
    | SetProcessIdOp(includeProcessId: bool)
    | LogOp(env: Env, level: Level, msg: string)
    | TimestampOp(tsEnv: Env, tag: string, tvSec: Int64, tvUsec: Int64)
    | AddTagOp(newTag: string)
    | RotateOp(maxSize: Int64, renameOk: bool, reopenOk: bool)

  function Apply(s: System, op: Op): System {
    match op
    case SetPrefixOp(p) => s.(logger := SetLogPrefix(s.logger, p))
    case SetFileOp(p, ok) => SetLogFile(s, p, ok)
    case SetLevelsOp(c, f) => s.(logger := SetLogLevels(s.logger, c, f))
    case SetDateFormatOp(fmt) => s.(logger := SetDateFormat(s.logger, fmt))
    case SetLogToFileOp(b) => s.(logger := SetLogToFile(s.logger, b))
    case SetThreadIdOp(b) => s.(logger := SetIncludeThreadId(s.logger, b))
    case SetProcessIdOp(b) => s.(logger := SetIncludeProcessId(s.logger, b))
    case LogOp(env, level, msg) => LogMessage(s, env, level, msg)
    case TimestampOp(env, tag, sec, usec) => LogTimestamp(s, env, tag, sec, usec)
    case AddTagOp(tag) => s.(logger := AddTag(s.logger, tag))
    case RotateOp(m, renameOk, openOk) => RotateLog(s, m, renameOk, openOk)
  }

  /** The operations applied one after another. */
  function Run(s: System, ops: seq<Op>): System
    decreases |ops|
  {
    if ops == [] then s else Run(Apply(s, ops[0]), ops[1..])
  }

  /** `init_logger` produces a consistent state from any world. */
  lemma InitConsistent(w: World, consoleLevel: Level, fileLevel: Level, filePath: string,
                       dateFormat: Option<string>, logToFile: bool, includeThreadId: bool,
                       includeProcessId: bool, openOk: bool)
    ensures Consistent(InitLogger(w, consoleLevel, fileLevel, filePath, dateFormat,
                                  logToFile, includeThreadId, includeProcessId, openOk))
  {
  }

  /** Every single operation keeps the invariant. */
  lemma ApplyConsistent(s: System, op: Op)
    requires Consistent(s)
    ensures Consistent(Apply(s, op))
  {
  }

  /** Any sequence of operations keeps the invariant. */
  lemma {:induction false} RunConsistent(s: System, ops: seq<Op>)
    requires Consistent(s)
    ensures Consistent(Run(s, ops))
    decreases |ops|
  {
    if ops != [] {
      ApplyConsistent(s, ops[0]);
      RunConsistent(Apply(s, ops[0]), ops[1..]);
    }
  }

  /** Only `set_log_file` and `rotate_log` open or close the log file, and
      only `set_log_file` changes its path; a sequence of other operations
      keeps the file handle and path as they were. */
  lemma {:induction false} RunKeepsHandle(s: System, ops: seq<Op>)
    requires forall i :: 0 <= i < |ops| ==> !ops[i].SetFileOp? && !ops[i].RotateOp?
    ensures Run(s, ops).logger.fileOpen == s.logger.fileOpen
    ensures Run(s, ops).logger.path == s.logger.path
    decreases |ops|
  {
    if ops != [] {
      assert !ops[0].SetFileOp? && !ops[0].RotateOp?;
      var s1 := Apply(s, ops[0]);
      assert s1.logger.fileOpen == s.logger.fileOpen && s1.logger.path == s.logger.path;
      RunKeepsHandle(s1, ops[1..]);
    }
  }

  /** Nothing is ever taken back from standard error. */
  lemma {:induction false} RunStderrOnlyGrows(s: System, ops: seq<Op>)
    ensures s.world.stderr <= Run(s, ops).world.stderr
    decreases |ops|
  {
    if ops != [] {
      var s1 := Apply(s, ops[0]);
      assert s.world.stderr <= s1.world.stderr;
      RunStderrOnlyGrows(s1, ops[1..]);
    }
  }
}
