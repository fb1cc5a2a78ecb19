/** Concrete runs of the logger that pin down its observable behaviour. */
module Scenarios {
  import opened Wrappers
  import opened CString
  import opened Levels
  import opened FileSystem
  import opened Config
  import opened Emission

  const EMPTY_WORLD: World := World(map[], [], [])

  /** The logger of the scenario below, right after `init_logger`. */
  function OutLogLogger(): System {
    InitLogger(EMPTY_WORLD, INFO, WARNING, "out.log", None, true, false, false, true)
  }

  lemma OutLogInitialised()
    ensures OutLogLogger().logger == Logger(INFO, WARNING, true, "out.log", DEFAULT_DATE_FORMAT, "",
                                            true, false, false, [])
    ensures OutLogLogger().world == World(map["out.log" := ""], [], [])
  {
  }

  /** Console at INFO, file at WARNING, file logging on: a DEBUG message
      leaves no trace anywhere, and a WARNING message is printed and
      appended to the file as the same line. */
  lemma InfoWarningScenario(env: Env)
    ensures var s0 := OutLogLogger();
            var s1 := LogMessage(s0, env, DEBUG, "x");
            var s2 := LogMessage(s1, env, WARNING, "y");
            var line := env.clock(DEFAULT_DATE_FORMAT) + " | WARNING  | y";
            && s1 == s0
            && s2.world.console == [line]
            && s2.world.files == map["out.log" := line + "\n"]
  {
    OutLogInitialised();
    var s0 := OutLogLogger();
    var line := env.clock(DEFAULT_DATE_FORMAT) + " | WARNING  | y";
    assert Line(s0.logger, env, WARNING, "y") == line;
    assert "" + (line + "\n") == line + "\n";
  }

  /** Console at ERROR and file at DEBUG with file logging off: an INFO
      message is still printed, below the console threshold. */
  lemma ConsoleBelowThresholdScenario(env: Env)
    ensures var s0 := InitLogger(EMPTY_WORLD, ERROR, DEBUG, "", None, false, false, false, false);
            |LogMessage(s0, env, INFO, "m").world.console| == 1
  {
  }

  /** Eleven tags that each fit a slot: the first ten are kept, in order,
      and the eleventh is dropped. */
  lemma ElevenTagsScenario(l: Logger, tags: seq<string>)
    requires l.tags == [] && |tags| == 11
    requires forall i :: 0 <= i < |tags| ==> |tags[i]| < MAX_TAG_LENGTH - 1 && NulFree(tags[i])
    ensures AddTags(l, tags).tags == tags[..10]
  {
    AddTagsKeepsFirst(l, tags);
    assert Min(|tags|, MAX_TAGS - |l.tags|) == 10;
    forall i | 0 <= i < 10
      ensures StoredTags(tags)[i] == tags[i]
    {
      StoredTagsAt(tags, i);
      TextOfNulFree(tags[i]);
    }
  }

  /** A tag longer than a slot keeps its first nineteen characters. */
  lemma LongTagScenario(l: Logger, tag: string)
    requires l.tags == [] && NulFree(tag) && |tag| >= MAX_TAG_LENGTH - 1
    ensures AddTag(l, tag).tags == [tag[..MAX_TAG_LENGTH - 1]]
  {
    TextOfNulFree(tag);
  }
}
