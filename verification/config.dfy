/** The logger record (`struct Logger`), its initialisation, its setters and
    the tag list. Every operation is a pure function from the old state to
    the new one; the operations that open files also take the world. */
module Config {
  import opened Wrappers
  import opened CString
  import opened Levels
  import opened FileSystem

  const MAX_TAGS: nat := 10
  /** Size of one tag slot, terminator included. */
  const MAX_TAG_LENGTH: nat := 20
  const DEFAULT_DATE_FORMAT: string := "%Y-%m-%d %H:%M:%S"

  /** `struct Logger`. The `FILE *` handle is represented by `fileOpen`:
      when set, the handle is open for append on the file at `path` (every
      operation that opens a handle opens it on the current path). The C
      `int` flags are only used as truth values and are booleans here, and
      `num_tags` is the length of `tags`. */
  datatype Logger = Logger(
    consoleLevel: Level,
    fileLevel: Level,
    fileOpen: bool,
    path: string,
    dateFormat: string,
    prefix: string,
    logToFile: bool,
    includeThreadId: bool,
    includeProcessId: bool,
    tags: seq<string>)

  /** The logger together with the world it writes to. */
  datatype System = System(logger: Logger, world: World)

  /** Names of the logger's fields, for frame conditions. */
  datatype Field =
    | ConsoleLevel | FileLevel | FileHandle | FilePath | DateFormat
    | Prefix | LogToFile | IncludeThreadId | IncludeProcessId | Tags

  /** `a` and `b` agree on every field not named in `changed`. */
  predicate SameExcept(a: Logger, b: Logger, changed: set<Field>) {
    && (ConsoleLevel !in changed ==> a.consoleLevel == b.consoleLevel)
    && (FileLevel !in changed ==> a.fileLevel == b.fileLevel)
    && (FileHandle !in changed ==> a.fileOpen == b.fileOpen)
    && (FilePath !in changed ==> a.path == b.path)
    && (DateFormat !in changed ==> a.dateFormat == b.dateFormat)
    && (Prefix !in changed ==> a.prefix == b.prefix)
    && (LogToFile !in changed ==> a.logToFile == b.logToFile)
    && (IncludeThreadId !in changed ==> a.includeThreadId == b.includeThreadId)
    && (IncludeProcessId !in changed ==> a.includeProcessId == b.includeProcessId)
    && (Tags !in changed ==> a.tags == b.tags)
  }

  /** Agreement on every field is equality. */
  lemma SameExceptNothing(a: Logger, b: Logger)
    requires SameExcept(a, b, {})
    ensures a == b
  {
  }

  lemma SameExceptTrans(a: Logger, b: Logger, c: Logger, changed: set<Field>)
    requires SameExcept(a, b, changed) && SameExcept(b, c, changed)
    ensures SameExcept(a, c, changed)
  {
  }

  /** The line written to standard error when a log file cannot be opened. */
  function OpenError(path: string): string {
    "Error opening log file " + path
  }

  /** `logger->file = fopen(logger->file_path, "a")` followed by the error
      report on failure; `openOk` says whether `fopen` succeeds. */
  function OpenLogFile(s: System, openOk: bool): (r: System)
    ensures SameExcept(s.logger, r.logger, {FileHandle})
    ensures r.logger.fileOpen == openOk
    ensures r.world.console == s.world.console
    ensures openOk ==> && r.logger.path in r.world.files
                       && r.world.files[r.logger.path] == Contents(s.world.files, s.logger.path)
                       && AgreeOutside(s.world.files, r.world.files, {s.logger.path})
                       && r.world.stderr == s.world.stderr
    ensures !openOk ==> && r.world.files == s.world.files
                        && r.world.stderr == s.world.stderr + [OpenError(s.logger.path)]
  {
    var w := s.world;
    if openOk then
      System(s.logger.(fileOpen := true), w.(files := OpenForAppend(w.files, s.logger.path)))
    else
      System(s.logger.(fileOpen := false), w.(stderr := w.stderr + [OpenError(s.logger.path)]))
  }

  /** `init_logger`: `dateFormat` is `None` for a NULL pointer. */
  function InitLogger(w: World, consoleLevel: Level, fileLevel: Level, filePath: string,
                      dateFormat: Option<string>, logToFile: bool, includeThreadId: bool,
                      includeProcessId: bool, openOk: bool): (r: System)
    ensures r.logger.consoleLevel == consoleLevel && r.logger.fileLevel == fileLevel
    ensures r.logger.logToFile == logToFile
    ensures r.logger.includeThreadId == includeThreadId
    ensures r.logger.includeProcessId == includeProcessId
    ensures r.logger.path == Text(filePath)
    ensures dateFormat.None? ==> r.logger.dateFormat == DEFAULT_DATE_FORMAT
    ensures dateFormat.Some? ==> r.logger.dateFormat == Text(dateFormat.value)
    ensures r.logger.prefix == "" && r.logger.tags == []
    ensures r.logger.fileOpen <==> logToFile && openOk
    ensures r.world.console == w.console
    ensures r.logger.fileOpen ==> && r.logger.path in r.world.files
                                  && r.world.files[r.logger.path] == Contents(w.files, r.logger.path)
                                  && AgreeOutside(w.files, r.world.files, {r.logger.path})
    ensures !r.logger.fileOpen ==> r.world.files == w.files
    ensures r.world.stderr == w.stderr + (if logToFile && !openOk then [OpenError(Text(filePath))] else [])
  {
    var format := if dateFormat.Some? then Text(dateFormat.value) else DEFAULT_DATE_FORMAT;
    var l := Logger(consoleLevel, fileLevel, false, Text(filePath), format, "",
                    logToFile, includeThreadId, includeProcessId, []);
    if logToFile then OpenLogFile(System(l, w), openOk) else System(l, w)
  }

  /** `set_log_prefix`. */
  function SetLogPrefix(l: Logger, prefix: string): (r: Logger)
    ensures SameExcept(l, r, {Prefix})
    ensures r.prefix == Text(prefix)
  {
    l.(prefix := Text(prefix))
  }

  /** `set_log_levels`: both thresholds in one step. */
  function SetLogLevels(l: Logger, consoleLevel: Level, fileLevel: Level): (r: Logger)
    ensures SameExcept(l, r, {ConsoleLevel, FileLevel})
    ensures r.consoleLevel == consoleLevel && r.fileLevel == fileLevel
  {
    l.(consoleLevel := consoleLevel, fileLevel := fileLevel)
  }

  /** `set_date_format`: the pattern is stored without any validation. */
  function SetDateFormat(l: Logger, dateFormat: string): (r: Logger)
    ensures SameExcept(l, r, {DateFormat})
    ensures r.dateFormat == Text(dateFormat)
  {
    l.(dateFormat := Text(dateFormat))
  }

  /** `set_log_to_file`: only the flag changes; no file is opened or closed. */
  function SetLogToFile(l: Logger, logToFile: bool): (r: Logger)
    ensures SameExcept(l, r, {LogToFile})
    ensures r.logToFile == logToFile
  {
    l.(logToFile := logToFile)
  }

  /** `set_include_thread_id`. */
  function SetIncludeThreadId(l: Logger, includeThreadId: bool): (r: Logger)
    ensures SameExcept(l, r, {IncludeThreadId})
    ensures r.includeThreadId == includeThreadId
  {
    l.(includeThreadId := includeThreadId)
  }

  /** `set_include_process_id`. */
  function SetIncludeProcessId(l: Logger, includeProcessId: bool): (r: Logger)
    ensures SameExcept(l, r, {IncludeProcessId})
    ensures r.includeProcessId == includeProcessId
  {
    l.(includeProcessId := includeProcessId)
  }

  /** `set_log_file`: replaces the path, closes the old handle and opens the
      new path for append whether or not file logging is enabled. Closing
      loses nothing, since every write was flushed when it was made. */
  function SetLogFile(s: System, filePath: string, openOk: bool): (r: System)
    ensures SameExcept(s.logger, r.logger, {FilePath, FileHandle})
    ensures r.logger.path == Text(filePath)
    ensures r.logger.fileOpen == openOk
    ensures r.world.console == s.world.console
    ensures openOk ==> && Text(filePath) in r.world.files
                       && r.world.files[Text(filePath)] == Contents(s.world.files, Text(filePath))
                       && AgreeOutside(s.world.files, r.world.files, {Text(filePath)})
                       && r.world.stderr == s.world.stderr
    ensures !openOk ==> && r.world.files == s.world.files
                        && r.world.stderr == s.world.stderr + [OpenError(Text(filePath))]
  {
    var closed := s.logger.(path := Text(filePath), fileOpen := false);
    OpenLogFile(System(closed, s.world), openOk)
  }

  /** What a tag slot holds once a tag is stored: its first at most
      `MAX_TAG_LENGTH - 1` characters, up to its first NUL. */
  function StoredTag(tag: string): (t: string)
    ensures |t| < MAX_TAG_LENGTH && NulFree(t)
    ensures t <= Text(tag)
    ensures |t| < MAX_TAG_LENGTH - 1 ==> t == Text(tag)
  {
    Text(tag)[..Min(MAX_TAG_LENGTH - 1, |Text(tag)|)]
  }

  /** The text of the slot that `strncpy(slot, tag, MAX_TAG_LENGTH - 1)`
      followed by `slot[MAX_TAG_LENGTH - 1] = '\0'` fills. */
  function TagSlotText(tag: string): (t: string)
    ensures t == StoredTag(tag)
  {
    StrNCpyText(tag, MAX_TAG_LENGTH - 1);
    Text(StrNCpy(tag, MAX_TAG_LENGTH - 1) + [NUL])
  }

  /** `add_tag`: stores a truncated copy of the tag in the next free slot,
      and does nothing once all `MAX_TAGS` slots are taken. */
  function AddTag(l: Logger, tag: string): (r: Logger)
    ensures SameExcept(l, r, {Tags})
    ensures |l.tags| < MAX_TAGS ==> r.tags == l.tags + [StoredTag(tag)]
    ensures |l.tags| >= MAX_TAGS ==> r == l
  {
    if |l.tags| < MAX_TAGS then l.(tags := l.tags + [TagSlotText(tag)]) else l
  }

  /** Successive `add_tag` calls, one per element of `tags`, in order. */
  function AddTags(l: Logger, tags: seq<string>): Logger
    decreases |tags|
  {
    if tags == [] then l else AddTags(AddTag(l, tags[0]), tags[1..])
  }

  /** The stored form of each of `tags`, in order. */
  function StoredTags(tags: seq<string>): (r: seq<string>)
    ensures |r| == |tags|
  {
    if tags == [] then [] else [StoredTag(tags[0])] + StoredTags(tags[1..])
  }

  lemma {:induction false} StoredTagsAt(tags: seq<string>, i: nat)
    requires i < |tags|
    ensures StoredTags(tags)[i] == StoredTag(tags[i])
    decreases i
  {
    if i > 0 {
      StoredTagsAt(tags[1..], i - 1);
    }
  }

  /** Adding tags one by one changes nothing but the tag list. */
  lemma {:induction false} AddTagsFrame(l: Logger, tags: seq<string>)
    ensures SameExcept(l, AddTags(l, tags), {Tags})
    decreases |tags|
  {
    if tags != [] {
      var l1 := AddTag(l, tags[0]);
      AddTagsFrame(l1, tags[1..]);
      SameExceptTrans(l, l1, AddTags(l1, tags[1..]), {Tags});
    }
  }

  /** Adding tags one by one keeps the earlier tags in place and in order,
      keeps as many of the new ones, in order, as there are free slots, and
      drops the rest; so the list never grows past `MAX_TAGS`. */
  lemma {:induction false} AddTagsKeepsFirst(l: Logger, tags: seq<string>)
    requires |l.tags| <= MAX_TAGS
    ensures AddTags(l, tags).tags == l.tags + StoredTags(tags)[..Min(|tags|, MAX_TAGS - |l.tags|)]
    ensures |AddTags(l, tags).tags| <= MAX_TAGS
    decreases |tags|
  {
    if tags == [] {
      assert StoredTags(tags)[..0] == [];
    } else {
      var l1 := AddTag(l, tags[0]);
      AddTagsKeepsFirst(l1, tags[1..]);
      assert StoredTags(tags) == [StoredTag(tags[0])] + StoredTags(tags[1..]);
      KeptTagsStep(l.tags, l1.tags, StoredTag(tags[0]), StoredTags(tags[1..]));
    }
  }

  /** The inductive step of `AddTagsKeepsFirst`, on the tag lists alone:
      `x` is the stored form of the first tag, `rest` that of the others. */
  lemma KeptTagsStep<T>(before: seq<T>, after: seq<T>, x: T, rest: seq<T>)
    requires |before| <= MAX_TAGS
    requires after == if |before| < MAX_TAGS then before + [x] else before
    ensures after + rest[..Min(|rest|, MAX_TAGS - |after|)]
            == before + ([x] + rest)[..Min(|rest| + 1, MAX_TAGS - |before|)]
  {
  }
}
