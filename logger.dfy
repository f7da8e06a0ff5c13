/**
  `Logger` (src/logger.js): a five-level filter over console output. The
  level table and the comparison are pure; the current level is the one
  piece of state, changed only by `setLevel`.
*/
module Logging {
  import opened Wrappers
  import opened Text

  /** `LOG_LEVELS`: each level's rank. */
  const LogLevels: map<string, nat> := map["debug" := 0, "info" := 1, "warn" := 2, "error" := 3, "none" := 4]

  /** The same five levels listed from the most to the least verbose. */
  const Levels: seq<string> := ["debug", "info", "warn", "error", "none"]

  /** The level a fresh logger starts at, and the one an invalid request falls back to. */
  const DefaultLevel: string := "info"

  /**
    The names every JavaScript object inherits from `Object.prototype`; an
    index expression on the level table with one of these yields a function
    or an object, never `undefined`.
  */
  const ObjectPrototypeNames: set<string> := {
    "constructor", "toString", "toLocaleString", "valueOf", "hasOwnProperty",
    "isPrototypeOf", "propertyIsEnumerable", "__proto__", "__defineGetter__",
    "__defineSetter__", "__lookupGetter__", "__lookupSetter__"
  }

  /** `LOG_LEVELS[level] >= LOG_LEVELS[current]`; a name outside the table compares as NaN, so false. */
  function Permits(current: string, level: string): (b: bool)
    ensures b ==> current in LogLevels && level in LogLevels
    ensures current in LogLevels && (level == current || level == "none") ==> b
    ensures current == "debug" ==> (b <==> level in LogLevels)
  {
    current in LogLevels && level in LogLevels && LogLevels[level] >= LogLevels[current]
  }

  /** The rank of a level is its position in the listing, and the listing holds each level once. */
  lemma LevelsAreRanked()
    ensures forall l :: l in LogLevels <==> l in Levels
    ensures forall i :: 0 <= i < |Levels| ==> Levels[i] in LogLevels && LogLevels[Levels[i]] == i
    ensures forall i, j :: 0 <= i < j < |Levels| ==> Levels[i] != Levels[j]
  {
  }

  /**
    A message at `level` shows under `current` exactly when `level` comes no
    earlier than `current` in the listing from debug to none.
  */
  lemma PermitsFollowsListing(current: string, level: string)
    ensures Permits(current, level) <==>
      exists i, j :: 0 <= j <= i < |Levels| && Levels[j] == current && Levels[i] == level
  {
    LevelsAreRanked();
    if Permits(current, level) {
      var i, j := LogLevels[level], LogLevels[current];
      assert Levels[i] == level && Levels[j] == current;
    }
  }

  /** The level `setLevel` installs: a level of the table, else the default. */
  function ResolveLevel(level: string): (r: string)
    ensures r in LogLevels
    ensures level in LogLevels ==> r == level
    ensures level !in LogLevels ==> r == DefaultLevel
  {
    if level in LogLevels then level else DefaultLevel
  }

  /**
    The guard of `setLevel` as written: `LOG_LEVELS[level] !== undefined`
    also holds for the names inherited from `Object.prototype`.
  */
  function ResolveLevelAsWritten(level: string): (r: string)
    ensures level in LogLevels ==> r == level
    ensures level in ObjectPrototypeNames ==> r == level
    ensures level !in LogLevels && level !in ObjectPrototypeNames ==> r == DefaultLevel
  {
    if level in LogLevels || level in ObjectPrototypeNames then level else DefaultLevel
  }

  /**
    As written, `setLevel("toString")` installs a level under which nothing at
    all is shown, errors included, although it is not `none`.
  */
  lemma PrototypeNameSilencesLogger()
    ensures ResolveLevelAsWritten("toString") == "toString" != "none"
    ensures forall l :: !Permits(ResolveLevelAsWritten("toString"), l)
  {
  }

  /** The two requests differ only on inherited names. */
  lemma ResolveLevelAgreesOffPrototype(level: string)
    requires level !in ObjectPrototypeNames
    ensures ResolveLevelAsWritten(level) == ResolveLevel(level)
  {
  }

  /** With a level from the table, errors always show unless the level is `none`. */
  lemma ErrorsShowUnlessNone(current: string)
    requires current in LogLevels
    ensures Permits(current, "error") <==> current != "none"
  {
  }

  /** `formatLog`'s level tag: `level.toUpperCase().padEnd(5)`. */
  function LevelTag(level: string): (tag: string)
    ensures |tag| == if |level| < 5 then 5 else |level|
    ensures tag[..|level|] == Upper(level)
    ensures forall k :: |level| <= k < |tag| ==> tag[k] == ' '
  {
    Upper(level) + seq(if |level| < 5 then 5 - |level| else 0, _ => ' ')
  }

  /** Every level of the table gets a five-character tag, so messages line up. */
  lemma LevelTagsOfTheTable()
    ensures LevelTag("debug") == "DEBUG"
    ensures LevelTag("info") == "INFO "
    ensures LevelTag("warn") == "WARN "
    ensures LevelTag("error") == "ERROR"
    ensures LevelTag("none") == "NONE "
  {
  }

  /** `formatLog`: the ISO timestamp (a parameter, as the clock is not modelled), the tag, the message. */
  function FormatLog(timestamp: string, level: string, message: string): (line: string)
    ensures |line| == |timestamp| + |LevelTag(level)| + |message| + 6
    ensures line[|line| - |message|..] == message
  {
    "[" + timestamp + "] [" + LevelTag(level) + "] " + message
  }

  /** Under one clock reading, lines of any two table levels carry their messages from the same column. */
  lemma MessagesLineUp(timestamp: string, level: string, message: string)
    requires level in LogLevels
    ensures FormatLog(timestamp, level, message)[..|timestamp| + 11] == "[" + timestamp + "] [" + LevelTag(level) + "] "
    ensures FormatLog(timestamp, level, message)[|timestamp| + 11..] == message
  {
  }

  /** A log line and the level it was written at. */
  datatype LogLine = LogLine(level: string, message: string)

  /** What `task` hands back: a callback that does nothing, or one that reports the task's end. */
  datatype Completion = NoOp | Reporter(taskName: string)

  /** The static state of `Logger`. */
  class Logger {
    var currentLevel: string

    /** The current level is always one of the table's. */
    ghost predicate Valid()
      reads this
    {
      currentLevel in LogLevels
    }

    constructor ()
      ensures Valid() && currentLevel == DefaultLevel
    {
      currentLevel := DefaultLevel;
    }

    /** `shouldLog`. */
    function ShouldLog(level: string): (b: bool)
      reads this
      ensures b ==> level in LogLevels
      ensures currentLevel == "debug" ==> (b <==> level in LogLevels)
      ensures currentLevel == "none" ==> (b <==> level == "none")
    {
      Permits(currentLevel, level)
    }

    /**
      `setLevel`: a level of the table is installed and announced at info; any
      other name is reported at warn, under the level in force before the
      call, and the default is installed.
    */
    method SetLevel(level: string) returns (emitted: Option<LogLine>)
      modifies this
      ensures Valid()
      ensures currentLevel == ResolveLevel(level)
      ensures level in LogLevels ==>
        emitted == if Permits(level, "info") then Some(LogLine("info", "Log level set to: " + level)) else None
      ensures level !in LogLevels ==>
        emitted == if Permits(old(currentLevel), "warn")
                   then Some(LogLine("warn", "Invalid log level: " + level + ". Using default: info"))
                   else None
    {
      if level in LogLevels {
        currentLevel := level;
        emitted := if ShouldLog("info") then Some(LogLine("info", "Log level set to: " + level)) else None;
      } else {
        emitted := if ShouldLog("warn") then Some(LogLine("warn", "Invalid log level: " + level + ". Using default: info")) else None;
        currentLevel := DefaultLevel;
      }
    }

    /**
      `task`: below debug the callback is a no-op and nothing is written;
      at debug the start line is written and the callback reports the end.
    */
    method Task(taskName: string, timestamp: string) returns (started: Option<string>, done: Completion)
      ensures done.NoOp? <==> currentLevel != "debug"
      ensures done.NoOp? <==> started.None?
      ensures done.Reporter? ==> done.taskName == taskName
      ensures started.Some? ==> started.value == FormatLog(timestamp, "debug", "\U{1F504} Starting: " + taskName)
    {
      if !ShouldLog("debug") {
        return None, NoOp;
      }
      started := Some(FormatLog(timestamp, "debug", "\U{1F504} Starting: " + taskName));
      done := Reporter(taskName);
    }
  }

  // ---------------------------------------------------------------------------
  // Properties of the level filter

  /**
    A logger whose level comes from the table is never mute: `none`-level
    output always shows, and errors show unless the level is `none`.
  */
  lemma ValidLoggerIsNeverMute(logger: Logger)
    requires logger.Valid()
    ensures logger.ShouldLog("none")
    ensures logger.ShouldLog("error") <==> logger.currentLevel != "none"
  {
  }

  /** `none` hides the four message levels; `debug` shows all of them. */
  lemma NoneAndDebugExtremes()
    ensures forall l :: l in ["debug", "info", "warn", "error"] ==> !Permits("none", l) && Permits("debug", l)
  {
  }

  /** A name outside the table is never shown, whatever the current level. */
  lemma UnknownLevelNeverShown(current: string, level: string)
    requires level !in LogLevels
    ensures !Permits(current, level)
  {
  }

  /** Debug output shows only at the debug level. */
  lemma DebugShowsOnlyAtDebug(current: string)
    ensures Permits(current, "debug") <==> current == "debug"
  {
  }

  /**
    The filter is a total order on the table: any two levels are comparable,
    the comparison is antisymmetric and transitive.
  */
  lemma PermitsIsTotalOrder(a: string, b: string, c: string)
    requires a in LogLevels && b in LogLevels && c in LogLevels
    ensures Permits(a, b) || Permits(b, a)
    ensures Permits(a, b) && Permits(b, a) ==> a == b
    ensures Permits(a, b) && Permits(b, c) ==> Permits(a, c)
  {
  }

  /** Raising the current level only hides more. */
  lemma RaisingLevelHidesMore(lower: string, higher: string, level: string)
    requires Permits(lower, higher)
    ensures Permits(higher, level) ==> Permits(lower, level)
  {
  }
}
