/** `log_message` and `log_timestamp`: the emission gate, the layout of a
    rendered line and where the line goes. */
module Emission {
  import opened Wrappers
  import opened CInt
  import opened CString
  import opened Decimal
  import opened Levels
  import opened FileSystem
  import opened Config

  /** What the host supplies to one call: `clock` is the current local time
      rendered by `strftime` under a pattern (into the 20-character buffer
      `log_message` gives it), and the ids `pthread_self()` and `getpid()`
      return. */
  datatype Env = Env(clock: string -> string, threadId: ULong, processId: Int32)

  function Timestamp(l: Logger, env: Env): string {
    env.clock(l.dateFormat)
  }

  /** The part of a line every message has: timestamp, level name, prefix. */
  function Head(l: Logger, env: Env, level: Level): string {
    Timestamp(l, env) + " | " + LevelName(level) + " " + l.prefix
  }

  function ThreadText(env: Env): string {
    " | Thread ID: " + NatToDecimal(env.threadId)
  }

  function ProcessText(env: Env): string {
    " | Process ID: " + IntToDecimal(env.processId)
  }

  function ThreadSegment(l: Logger, env: Env): string {
    if l.includeThreadId then ThreadText(env) else ""
  }

  function ProcessSegment(l: Logger, env: Env): string {
    if l.includeProcessId then ProcessText(env) else ""
  }

  /** One rendered log line, without its newline; `msg` is the message as
      `vprintf` formatted it. */
  function Line(l: Logger, env: Env, level: Level, msg: string): string {
    Head(l, env, level) + ThreadSegment(l, env) + ProcessSegment(l, env) + " | " + msg
  }

  /** The message passes the gate at the top of `log_message`. */
  predicate ReachesConsole(l: Logger, level: Level) {
    level >= l.consoleLevel || level >= l.fileLevel
  }

  /** The message is also written to the log file. */
  predicate ReachesFile(l: Logger, level: Level) {
    l.logToFile && l.fileOpen && level >= l.fileLevel
  }

  /** `log_message`. Once a message passes the gate it is printed to the
      console even when it is below the console threshold (it may have
      passed on the file threshold alone); the file write checks the file
      threshold again. The file receives the same line as the console. */
  function LogMessage(s: System, env: Env, level: Level, msg: string): (r: System)
    ensures r.logger == s.logger
    ensures r.world.stderr == s.world.stderr
    ensures r.world.console == s.world.console
                               + (if ReachesConsole(s.logger, level) then [Line(s.logger, env, level, msg)] else [])
    ensures ReachesFile(s.logger, level) ==>
              r.world.files == Append(s.world.files, s.logger.path, Line(s.logger, env, level, msg) + "\n")
    ensures !ReachesFile(s.logger, level) ==> r.world.files == s.world.files
  {
    var l := s.logger;
    if level < l.consoleLevel && level < l.fileLevel then s
    else
      var line := Line(l, env, level, msg);
      var console := s.world.console + [line];
      var files := if l.logToFile && l.fileOpen && level >= l.fileLevel
                   then Append(s.world.files, l.path, line + "\n")
                   else s.world.files;
      System(l, World(files, console, s.world.stderr))
  }

  /** A file line is always accompanied by the identical console line. */
  lemma FileLineHasConsoleTwin(s: System, env: Env, level: Level, msg: string)
    requires ReachesFile(s.logger, level)
    ensures var r := LogMessage(s, env, level, msg);
            && r.world.console == s.world.console + [Line(s.logger, env, level, msg)]
            && Contents(r.world.files, s.logger.path)
               == Contents(s.world.files, s.logger.path) + r.world.console[|r.world.console| - 1] + "\n"
  {
  }

  /** The console threshold alone does not silence a message: one below it
      but at or above the file threshold is printed, whether or not file
      logging is on. */
  lemma ConsoleIgnoresOwnThreshold(s: System, env: Env, level: Level, msg: string)
    requires level < s.logger.consoleLevel && level >= s.logger.fileLevel
    ensures |LogMessage(s, env, level, msg).world.console| == |s.world.console| + 1
  {
  }

  // ---- reading a line back ----

  /** The characters of `s` before its first space. */
  function UpToSpace(s: string): (w: string)
    ensures w <= s && NoSpace(w)
  {
    if s == [] || s[0] == ' ' then [] else [s[0]] + UpToSpace(s[1..])
  }

  lemma {:induction false} UpToSpaceOf(word: string, rest: string)
    requires NoSpace(word)
    ensures UpToSpace(word + " " + rest) == word
  {
    if word != [] {
      assert (word + " " + rest)[1..] == word[1..] + " " + rest;
      UpToSpaceOf(word[1..], rest);
    }
  }

  /** The level a line names, read from just after its timestamp, whose
      length the reader has to know. */
  function LevelAt(line: string, timestampLength: nat): Option<Level> {
    if timestampLength + 3 <= |line| then LevelOfName(UpToSpace(line[timestampLength + 3..])) else None
  }

  /** Every rendered line names its level unambiguously, whatever the
      timestamp, prefix or message hold; only non-enumerators read as
      unknown. */
  lemma LineLevelRecoverable(l: Logger, env: Env, level: Level, msg: string)
    ensures LevelAt(Line(l, env, level, msg), |Timestamp(l, env)|)
            == if IsEnumerator(level) then Some(level) else None
  {
    var rest := l.prefix + ThreadSegment(l, env) + ProcessSegment(l, env) + " | " + msg;
    assert Line(l, env, level, msg) == Timestamp(l, env) + " | " + LevelName(level) + " " + rest;
    WordAfterBar(Timestamp(l, env), LevelName(level), rest);
    LevelNameRoundTrip(level);
  }

  lemma WordAfterBar(ts: string, word: string, rest: string)
    requires NoSpace(word)
    ensures |ts| + 3 <= |ts + " | " + word + " " + rest|
    ensures UpToSpace((ts + " | " + word + " " + rest)[|ts| + 3..]) == word
  {
    assert (ts + " | " + word + " " + rest)[|ts| + 3..] == word + " " + rest;
    UpToSpaceOf(word, rest);
  }

  /** Every rendered line ends with `" | "` and the message itself. */
  lemma LineEndsWithMessage(l: Logger, env: Env, level: Level, msg: string)
    ensures var line := Line(l, env, level, msg);
            && |msg| + 3 <= |line|
            && line[|line| - |msg| - 3..] == " | " + msg
  {
  }

  /** Turning the thread id on inserts exactly the thread segment, right
      after the prefix. */
  lemma ThreadSegmentInserted(l: Logger, env: Env, level: Level, msg: string)
    ensures var off := Line(l.(includeThreadId := false), env, level, msg);
            var k := |Head(l, env, level)|;
            && k <= |off|
            && Line(l.(includeThreadId := true), env, level, msg) == off[..k] + ThreadText(env) + off[k..]
  {
  }

  /** Turning the process id on inserts exactly the process segment, after
      the prefix and after the thread segment when that is present: the
      thread id always comes first. */
  lemma ProcessSegmentInserted(l: Logger, env: Env, level: Level, msg: string)
    ensures var off := Line(l.(includeProcessId := false), env, level, msg);
            var k := |Head(l, env, level)| + |ThreadSegment(l, env)|;
            && k <= |off|
            && Line(l.(includeProcessId := true), env, level, msg) == off[..k] + ProcessText(env) + off[k..]
  {
  }

  /** What `%lu` printed in the thread segment reads back as the thread id. */
  lemma ThreadIdRecoverable(env: Env)
    ensures ThreadText(env)[14..] == NatToDecimal(env.threadId)
    ensures ParseDecimal(ThreadText(env)[14..]) == env.threadId
  {
    assert ThreadText(env)[14..] == NatToDecimal(env.threadId);
    ParseNatToDecimal(env.threadId);
  }

  /** What `%d` printed in the process segment reads back as the process id. */
  lemma ProcessIdRecoverable(env: Env)
    ensures SignedDecimal(ProcessText(env)[15..])
    ensures ParseSigned(ProcessText(env)[15..]) == env.processId
  {
    assert ProcessText(env)[15..] == IntToDecimal(env.processId);
    IntToDecimalRoundTrip(env.processId);
  }

  // ---- a sequence of calls ----

  datatype Call = Call(env: Env, level: Level, msg: string)

  /** `log_message` once per call, in order. */
  function LogAll(s: System, calls: seq<Call>): System
    decreases |calls|
  {
    if calls == [] then s
    else LogAll(LogMessage(s, calls[0].env, calls[0].level, calls[0].msg), calls[1..])
  }

  /** The console lines a run of calls produces: one per call that passes the gate. */
  function ConsoleLines(l: Logger, calls: seq<Call>): seq<string>
    decreases |calls|
  {
    if calls == [] then []
    else
      var c := calls[0];
      (if ReachesConsole(l, c.level) then [Line(l, c.env, c.level, c.msg)] else []) + ConsoleLines(l, calls[1..])
  }

  /** The text a run of calls appends to the log file: each line at or above
      the file threshold, with its newline. */
  function FileText(l: Logger, calls: seq<Call>): string
    decreases |calls|
  {
    if calls == [] then ""
    else
      var c := calls[0];
      (if c.level >= l.fileLevel then Line(l, c.env, c.level, c.msg) + "\n" else "") + FileText(l, calls[1..])
  }

  /** Over any run of calls the logger is unchanged, standard error is
      untouched, and the console gains exactly the lines of the calls that
      pass the gate, in call order. */
  lemma {:induction false} LogAllConsole(s: System, calls: seq<Call>)
    ensures LogAll(s, calls).logger == s.logger
    ensures LogAll(s, calls).world.stderr == s.world.stderr
    ensures LogAll(s, calls).world.console == s.world.console + ConsoleLines(s.logger, calls)
    decreases |calls|
  {
    if calls != [] {
      var c := calls[0];
      var s1 := LogMessage(s, c.env, c.level, c.msg);
      LogAllConsole(s1, calls[1..]);
      var first := if ReachesConsole(s.logger, c.level) then [Line(s.logger, c.env, c.level, c.msg)] else [];
      assert s1.world.console == s.world.console + first;
      assert ConsoleLines(s.logger, calls) == first + ConsoleLines(s.logger, calls[1..]);
      assert s1.world.console + ConsoleLines(s.logger, calls[1..])
             == s.world.console + (first + ConsoleLines(s.logger, calls[1..]));
    }
  }

  /** With file logging on and the file open, a run of calls appends to the
      log file exactly the lines at or above the file threshold, in call
      order, and touches no other file. */
  lemma {:induction false} LogAllFile(s: System, calls: seq<Call>)
    requires s.logger.logToFile && s.logger.fileOpen
    ensures Contents(LogAll(s, calls).world.files, s.logger.path)
            == Contents(s.world.files, s.logger.path) + FileText(s.logger, calls)
    ensures AgreeOutside(s.world.files, LogAll(s, calls).world.files, {s.logger.path})
    decreases |calls|
  {
    if calls != [] {
      var c := calls[0];
      var s1 := LogMessage(s, c.env, c.level, c.msg);
      LogAllFile(s1, calls[1..]);
      var p := s.logger.path;
      var first := if c.level >= s.logger.fileLevel then Line(s.logger, c.env, c.level, c.msg) + "\n" else "";
      assert Contents(s1.world.files, p) == Contents(s.world.files, p) + first;
      assert FileText(s.logger, calls) == first + FileText(s.logger, calls[1..]);
      assert Contents(s1.world.files, p) + FileText(s.logger, calls[1..])
             == Contents(s.world.files, p) + (first + FileText(s.logger, calls[1..]));
      AgreeOutsideTrans(s.world.files, s1.world.files, LogAll(s1, calls[1..]).world.files, {p});
    }
  }

  /** With file logging off or no file open, a run of calls touches no file. */
  lemma {:induction false} LogAllNoFile(s: System, calls: seq<Call>)
    requires !(s.logger.logToFile && s.logger.fileOpen)
    ensures LogAll(s, calls).world.files == s.world.files
    decreases |calls|
  {
    if calls != [] {
      LogAllNoFile(LogMessage(s, calls[0].env, calls[0].level, calls[0].msg), calls[1..]);
    }
  }

  // ---- log_timestamp ----

  /** `(long long)tv_sec * 1000 + (long long)tv_usec / 1000`. */
  function Millis(tvSec: Int64, tvUsec: Int64): (ms: int)
    ensures 0 <= tvUsec < 1_000_000 ==> tvSec * 1000 <= ms < tvSec * 1000 + 1000
    ensures 0 <= tvUsec < 1_000_000 ==> (ms - tvSec * 1000) * 1000 <= tvUsec < (ms - tvSec * 1000 + 1) * 1000
  {
    tvSec * 1000 + Quot(tvUsec, 1000)
  }

  /** The message `"[%s] Timestamp: %lld ms"` formats to. */
  function TimestampMessage(tag: string, ms: int): string {
    "[" + Text(tag) + "] Timestamp: " + IntToDecimal(ms) + " ms"
  }

  /** `log_timestamp`: a DEBUG message carrying the tag and the wall-clock
      time in milliseconds. Since no level is below DEBUG it passes the gate
      exactly when one of the thresholds is DEBUG, and reaches the file only
      when the file threshold is. */
  function LogTimestamp(s: System, env: Env, tag: string, tvSec: Int64, tvUsec: Int64): (r: System)
    ensures r.logger == s.logger
    ensures r.world.stderr == s.world.stderr
    ensures var line := Line(s.logger, env, DEBUG, TimestampMessage(tag, Millis(tvSec, tvUsec)));
            r.world.console == s.world.console
                               + (if s.logger.consoleLevel == DEBUG || s.logger.fileLevel == DEBUG then [line] else [])
    ensures var line := Line(s.logger, env, DEBUG, TimestampMessage(tag, Millis(tvSec, tvUsec)));
            s.logger.logToFile && s.logger.fileOpen && s.logger.fileLevel == DEBUG ==>
              r.world.files == Append(s.world.files, s.logger.path, line + "\n")
    ensures !(s.logger.logToFile && s.logger.fileOpen && s.logger.fileLevel == DEBUG) ==>
              r.world.files == s.world.files
  {
    LogMessage(s, env, DEBUG, TimestampMessage(tag, Millis(tvSec, tvUsec)))
  }

  lemma TimestampFields(t: string, digits: string)
    ensures var m := "[" + t + "] Timestamp: " + digits + " ms";
            && |t| + 17 <= |m|
            && m[1..|t| + 1] == t
            && m[|t| + 14..|m| - 3] == digits
  {
  }

  /** The tag and the millisecond count can be read back from the message. */
  lemma TimestampMessageRecoverable(tag: string, ms: int)
    ensures var m := TimestampMessage(tag, ms);
            var start := |Text(tag)| + 14;
            && start + 3 <= |m|
            && m[1..|Text(tag)| + 1] == Text(tag)
            && SignedDecimal(m[start..|m| - 3])
            && ParseSigned(m[start..|m| - 3]) == ms
  {
    TimestampFields(Text(tag), IntToDecimal(ms));
    IntToDecimalRoundTrip(ms);
  }
}
