/** Severity levels (`enum LogLevel`) and their display names. */
module Levels {
  import opened Wrappers

  /** `enum LogLevel`. GCC and Clang represent an enumeration none of whose
      enumerators is negative as `unsigned int`, so any value the type can
      hold lies in [0, 2^32) and a value outside the five enumerators
      compares above `ERROR`. */
  newtype Level = x: int | 0 <= x < 0x1_0000_0000

  const DEBUG: Level := 0
  const INFO: Level := 1
  const SUCCESS: Level := 2
  const WARNING: Level := 3
  const ERROR: Level := 4

  /** The level is one of the five enumerators. */
  predicate IsEnumerator(l: Level) {
    l <= ERROR
  }

  predicate NoSpace(s: string) {
    forall i :: 0 <= i < |s| ==> s[i] != ' '
  }

  /** The name `log_message` prints for a level, with `"UNKNOWN"` for any
      value that is not an enumerator. */
  function LevelName(l: Level): (name: string)
    ensures name == "UNKNOWN" <==> !IsEnumerator(l)
    ensures 1 <= |name| && NoSpace(name)
  {
    if l == DEBUG then "DEBUG"
    else if l == INFO then "INFO"
    else if l == SUCCESS then "SUCCESS"
    else if l == WARNING then "WARNING"
    else if l == ERROR then "ERROR"
    else "UNKNOWN"
  }

  /** The enumerator a printed name stands for, if any. */
  function LevelOfName(name: string): (r: Option<Level>)
    ensures r.Some? ==> IsEnumerator(r.value)
  {
    if name == "DEBUG" then Some(DEBUG)
    else if name == "INFO" then Some(INFO)
    else if name == "SUCCESS" then Some(SUCCESS)
    else if name == "WARNING" then Some(WARNING)
    else if name == "ERROR" then Some(ERROR)
    else None
  }

  /** A printed name identifies the enumerator it was printed for, and
      every other value prints the same name that no enumerator has. */
  lemma LevelNameRoundTrip(l: Level)
    ensures LevelOfName(LevelName(l)) == if IsEnumerator(l) then Some(l) else None
  {
  }

  /** Every name that identifies a level is the name printed for it. */
  lemma LevelOfNameRoundTrip(name: string)
    ensures LevelOfName(name).Some? ==> LevelName(LevelOfName(name).value) == name
  {
  }

  /** Two enumerators print the same name only if they are the same. */
  lemma LevelNameInjective(a: Level, b: Level)
    requires IsEnumerator(a) && IsEnumerator(b)
    requires LevelName(a) == LevelName(b)
    ensures a == b
  {
  }
}
