# Log4C logger, modelled in Dafny

Log4C is a single-header C logging utility (`include/logger.h`). A `struct
Logger` holds two severity thresholds (console and file), a log file handle
and its path, a `strftime` date pattern, a message prefix, three flags (log
to file, include thread id, include process id) and a list of at most ten
short tags. `log_message` renders a line

    <timestamp> | <LEVEL> <prefix>[ | Thread ID: <tid>][ | Process ID: <pid>] | <message>

prints it on standard output and, if file logging is on, the file is open and
the level reaches the file threshold, appends the same line to the file.
`rotate_log` moves a file that has reached a size limit to `<path>.old` and
starts a new one.

The model is functional. The logger is an immutable `Config.Logger` record;
the world is `FileSystem.World`: a map from path to file contents, plus the
lines written to standard output and standard error. Every operation is a
pure function from the old logger and world to the new ones. The host's
contributions are parameters:

- `Emission.Env.clock` is the current time rendered under a pattern (`time`,
  `localtime` and `strftime`);
- `Env.threadId` and `Env.processId` are the ids;
- `openOk` and `renameOk` say whether `fopen` and `rename` succeed;
- `tvSec` and `tvUsec` are the `gettimeofday` reading.

Modules:

- `CInt` — C integer widths, and C's truncating `/`.
- `CString` — the text of a `char *` buffer, which ends at the first NUL, and `strncpy`.
- `Decimal` — the `%lu`, `%d` and `%lld` conversions, with their inverses.
- `Levels` — `enum LogLevel` and the printed level names.
- `FileSystem` — the world, `fopen(…, "a")`, appending, and `rename`.
- `Config` — `struct Logger`, `init_logger`, the setters, `add_tag`.
- `Emission` — `log_message`, line layout, runs of calls, `log_timestamp`.
- `Rotation` — `rotate_log`.
- `Invariants` — every operation as one state machine, and the representation invariant it keeps.
- `Scenarios` — concrete runs.

Modelling choices:

- **Levels.** `enum LogLevel` is a 32-bit unsigned `newtype`: GCC and Clang
  represent an enumeration without negative enumerators as `unsigned int`.
  So any stray value compares above `ERROR` and prints as `UNKNOWN`.
- **Strings.** String arguments are raw character buffers. What `strdup`
  stores and `%s` prints is `CString.Text`, the part before the first NUL.
- **Flags.** The C `int` flags are booleans, since the code only uses them as
  truth values.
- **File handle.** The handle is a boolean `fileOpen`. Every operation that
  opens a handle opens it on the logger's current path, so an open handle
  always writes the file at `path`.
- **File contents** are a flat character string, so the size
  `fseek`/`ftell` report is its length.

Behaviours of the header worth knowing:

- **Console gate.** The console line is printed whenever the level reaches
  either threshold, not only the console one. The file write checks the file
  threshold again. So a message below the console threshold still reaches the
  console when it passes on the file threshold, even with file logging off
  (`Emission.ConsoleIgnoresOwnThreshold`, `Scenarios.ConsoleBelowThresholdScenario`).
- **Rotation failures.** A failed `rename` is not reported; the reopened
  handle then appends to the unrotated file. A failed reopen only leaves the
  handle closed and prints the usual open error.
- **`set_log_file`** opens the new path whether or not file logging is
  enabled.
- **Empty path.** Nothing checks that the path is non-empty when file
  logging is enabled.
- **`close_logger`** is not idempotent; it is left out (see below).

`log_message` hands the same `va_list` first to `vprintf` and then to
`vfprintf` without `va_copy`. The second use is undefined behaviour in C. The
model takes the message as already formatted and writes the same message to
both sinks, which is what the code evidently intends.

## Model

| member | source | states |
|---|---|---|
| CInt.Quot | include/logger.h:247 | C integer division truncates toward zero: the remainder has the dividend's sign and is smaller than the divisor |
| CString.Text | include/logger.h:53-56 | what `strdup` copies from a buffer is NUL-free, is a prefix of the buffer, and stops exactly at the first NUL or at the end |
| CString.TextUnique | include/logger.h:53-56 | those three facts determine the copied text, so they are a complete description of `strdup` |
| CString.TextOfNulFree | include/logger.h:76-79 | copying a string that holds no NUL copies all of it |
| CString.StrNCpyText | include/logger.h:232-233 | `strncpy` of at most 19 characters plus a terminator at index 19 leaves the first min(19, length) characters of the tag's text |
| Decimal.NatToDecimal | include/logger.h:197 | `%lu` prints at least one digit, only digits, and no leading zero except for zero itself |
| Decimal.ParseNatToDecimal | include/logger.h:197 | reading back the digits `%lu` printed yields the number printed |
| Decimal.NatToDecimalInjective | include/logger.h:197 | distinct thread ids print differently |
| Decimal.IntToDecimal | include/logger.h:200 | `%d` prints a minus sign exactly for negative values |
| Decimal.IntToDecimalRoundTrip | include/logger.h:200 | what `%d` or `%lld` printed is a well-formed signed decimal that reads back as the number printed |
| Levels.LevelName | include/logger.h:171-190 | the printed name is "UNKNOWN" exactly for values that are not among the five enumerators; every name is non-empty and has no space |
| Levels.LevelOfName | include/logger.h:171-190 | a name identifies a level only if that level is one of the five enumerators |
| Levels.LevelNameRoundTrip | include/logger.h:171-190 | the printed name identifies the enumerator it was printed for; every other value prints a name that identifies none |
| Levels.LevelOfNameRoundTrip | include/logger.h:171-190 | every name that identifies a level is the name printed for it |
| Levels.LevelNameInjective | include/logger.h:171-190 | distinct enumerators print distinct names |
| FileSystem.OpenForAppend | include/logger.h:63 | opening for append creates a missing file empty, keeps an existing file's contents, and touches no other file |
| FileSystem.Append | include/logger.h:207-217 | a write through the handle extends that file by exactly the written text and touches no other file |
| FileSystem.Rename | include/logger.h:266 | a successful rename moves the contents to the new name, replacing what was there, removes the old name, and touches nothing else; a missing source changes nothing |
| Config.OpenLogFile | include/logger.h:62-67 | after `fopen` the handle is open exactly when the open succeeds; a success creates or keeps the file at the path; a failure adds one "Error opening log file" line to standard error; no other logger field changes |
| Config.InitLogger | include/logger.h:50-68 | levels and flags are as passed; the path is the copied text; the date format is the given one or "%Y-%m-%d %H:%M:%S" for NULL; the prefix is empty and there are no tags; the file is open iff file logging is requested and the open succeeds; the console is untouched |
| Config.SetLogPrefix | include/logger.h:76-79 | replaces the prefix with the copied text and changes no other field |
| Config.SetLogLevels | include/logger.h:105-108 | replaces both thresholds together and changes no other field |
| Config.SetDateFormat | include/logger.h:116-119 | replaces the date pattern, unvalidated, and changes no other field |
| Config.SetLogToFile | include/logger.h:127-129 | replaces the file-logging flag and changes no other field; in particular no file is opened or closed |
| Config.SetIncludeThreadId | include/logger.h:137-139 | replaces the thread-id flag and changes no other field |
| Config.SetIncludeProcessId | include/logger.h:147-149 | replaces the process-id flag and changes no other field |
| Config.SetLogFile | include/logger.h:87-96 | replaces the path; the handle ends up open on the new path exactly when the open succeeds, whatever the file-logging flag; the new file keeps its contents and no other file changes; a failure reports the error; nothing else in the logger changes |
| Config.StoredTag | include/logger.h:229-236 | a stored tag is shorter than the 20-character slot, holds no NUL, is a prefix of the tag's text, and is the whole text when that is shorter than 19 |
| Config.TagSlotText | include/logger.h:232-233 | the text the slot holds after the `strncpy` and the terminator is the stored form of the tag |
| Config.AddTag | include/logger.h:229-236 | with fewer than 10 tags, appends exactly the stored form of the tag after the earlier tags; with 10 or more, changes nothing; no other field changes |
| Config.AddTagsFrame | include/logger.h:229-236 | any number of `add_tag` calls change nothing but the tag list |
| Config.AddTagsKeepsFirst | include/logger.h:229-236 | successive `add_tag` calls keep the earlier tags in place and in order, keep as many new tags as there are free slots, in call order, drop the rest, and never exceed 10 tags |
| Config.SameExceptNothing | include/logger.h:24-36 | two loggers that agree on every field are equal, so the setters' frame conditions leave no field unaccounted for |
| Emission.LogMessage | include/logger.h:159-221 | the console gains one line iff the level reaches the console or the file threshold; the file gains that same line plus a newline iff file logging is on, the file is open and the level reaches the file threshold; no other file, no logger field and nothing on standard error changes |
| Emission.FileLineHasConsoleTwin | include/logger.h:195-217 | whenever a line goes to the file, the identical line goes to the console |
| Emission.ConsoleIgnoresOwnThreshold | include/logger.h:160-204 | a message below the console threshold but at or above the file threshold is printed on the console |
| Emission.LineLevelRecoverable | include/logger.h:171-195 | given the timestamp's length, the level can be read back from a line whatever the timestamp, prefix and message contain; only non-enumerators read as unknown |
| Emission.LineEndsWithMessage | include/logger.h:202-204 | every line ends with the bar separator followed by the message |
| Emission.ThreadSegmentInserted | include/logger.h:195-198 | turning the thread id on inserts exactly the bar separator, "Thread ID: " and the id right after the prefix and changes nothing else in the line |
| Emission.ProcessSegmentInserted | include/logger.h:195-201 | turning the process id on inserts exactly the bar separator, "Process ID: " and the id after the thread segment, so the thread id always precedes the process id |
| Emission.ThreadIdRecoverable | include/logger.h:197 | the digits in the thread segment read back as the thread id |
| Emission.ProcessIdRecoverable | include/logger.h:200 | the digits in the process segment read back as the process id |
| Emission.LogAllConsole | include/logger.h:159-204 | over any run of calls the logger and standard error are unchanged and the console gains exactly the lines of the calls that pass the gate, in call order |
| Emission.LogAllFile | include/logger.h:206-217 | with file logging on and the file open, a run of calls appends to the file exactly the lines at or above the file threshold, in call order, and no other file changes |
| Emission.LogAllNoFile | include/logger.h:206 | with file logging off or no file open, no run of calls changes any file |
| Emission.Millis | include/logger.h:245-247 | for a `gettimeofday` reading the millisecond count falls within the reported second and is the seconds times 1000 plus the microseconds divided by 1000, truncated |
| Emission.LogTimestamp | include/logger.h:244-250 | a timestamp event appends its rendered line to the console, keeping earlier lines, exactly when one of the thresholds is DEBUG; appends the same line plus a newline to the log file exactly when file logging is on, the file is open and the file threshold is DEBUG, and otherwise changes no file; leaves the logger and standard error unchanged |
| Emission.TimestampMessageRecoverable | include/logger.h:247-249 | the tag and the millisecond count can be read back from a timestamp message |
| Rotation.RotatedPathDiffers | include/logger.h:264-266 | the rotated name is never the log path itself |
| Rotation.RotateLog | include/logger.h:258-273 | rotation does nothing without an open handle or below the limit; otherwise the old contents end up at "<path>.old" (replacing it) and the path holds a new empty file, or no file if the reopen failed; a failed rename leaves the file in place, with its contents; only the handle changes in the logger and only the two paths in the filesystem |
| Rotation.RotateSettles | include/logger.h:258-273 | right after a successful rotation, rotating again under any positive limit changes nothing |
| Rotation.RotateThenLog | include/logger.h:258-273 | after a successful rotation the next file line starts a new file, and the earlier contents stay in the rotated file |
| Invariants.InitConsistent | include/logger.h:50-68 | `init_logger` yields a state where an open handle has a file, there are no more than 10 tags of at most 19 characters, and the owned strings hold no NUL |
| Invariants.ApplyConsistent | include/logger.h:24-36 | every operation of the interface keeps that invariant |
| Invariants.RunConsistent | include/logger.h:24-36 | any sequence of operations keeps that invariant |
| Invariants.RunKeepsHandle | include/logger.h:87-96 | operations other than `set_log_file` and `rotate_log` never open, close or re-point the log file |
| Invariants.RunStderrOnlyGrows | include/logger.h:65 | nothing written to standard error is ever taken back |
| Scenarios.OutLogInitialised | include/logger.h:50-68 | `init_logger(INFO, WARNING, "out.log", NULL, 1, 0, 0)` on an empty filesystem yields the expected logger and one empty file |
| Scenarios.InfoWarningScenario | include/logger.h:159-217 | with console INFO and file WARNING, a DEBUG message leaves no trace, and a WARNING message is printed and written to the file as the same line |
| Scenarios.ConsoleBelowThresholdScenario | include/logger.h:160-161 | with console ERROR, file DEBUG and file logging off, an INFO message is still printed |
| Scenarios.ElevenTagsScenario | include/logger.h:229-236 | of eleven tags that fit their slots, the first ten are kept in order and the eleventh is dropped |
| Scenarios.LongTagScenario | include/logger.h:232-233 | a tag of 19 or more characters is stored as its first 19 |

## Left out

- Formatting the message (`printf`, `vprintf`, varargs): the message is an already formatted string. The reuse of the `va_list` is discussed above.
- `time`, `localtime` and `strftime`: `Env.clock` stands for all three. Whatever the 20-character `timeBuffer` does to a long rendering is the C library's business and is folded into `clock`.
- `pthread_self`, `getpid` and `gettimeofday`: their results are parameters.
- Real I/O (`fopen`, `fclose`, `fflush`, `rename`, `fseek`, `ftell`): the filesystem map plus the `openOk` and `renameOk` answers replace it. A failing write, flush or `ftell` is not modelled, and neither is a file longer than `LONG_MAX`. Every write is flushed at once, so closing a handle changes no file contents.
- Anyone else writing, renaming or deleting the log file while a handle is open: out of scope. Otherwise a handle could outlive the file at its path.
- `close_logger` and all memory management (`strdup`, `free`): there is no allocation to model. `close_logger` frees the strings without clearing the pointers, so a second call would free them twice; it is not idempotent and no such claim is made.
- A `strdup` that returns NULL, and NULL passed for the path, prefix or date pattern of a setter: both are undefined behaviour in C.
- Emission.LogTimestamp: `(long long)tv_sec * 1000` is computed on unbounded integers, so a 64-bit overflow (beyond 292 million years from the epoch) is not modelled.
- Thread safety: the logger has no locking; the model is sequential.
- `example/example.c`: a demo program with no logic of its own.
