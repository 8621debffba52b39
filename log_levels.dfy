/** The log level names of internal/log/types.go and their zap levels. */
module LogLevels {
  import opened LogModel

  const Debug: string := "debug"
  const Info: string := "info"
  const Warn: string := "warn"
  const Err: string := "error"

  /** The levelToZap table. */
  const LevelToZap: map<string, Level> := map[Debug := DebugLevel, Info := InfoLevel, Warn := WarnLevel, Err := ErrorLevel]

  const DefaultLevel: Level := InfoLevel

  /** getZapLevel: the table entry, or the default level for any other name. */
  function GetZapLevel(l: string): (r: Level)
    ensures r in {DebugLevel, InfoLevel, WarnLevel, ErrorLevel}
    ensures l !in {Debug, Info, Warn, Err} ==> r == InfoLevel
  {
    if l in LevelToZap then LevelToZap[l] else DefaultLevel
  }

  /** The four names map to their levels; anything else, "" and "fatal" and capitalised names included, is Info. */
  lemma GetZapLevelNames()
    ensures GetZapLevel("debug") == DebugLevel && GetZapLevel("info") == InfoLevel
    ensures GetZapLevel("warn") == WarnLevel && GetZapLevel("error") == ErrorLevel
    ensures GetZapLevel("") == InfoLevel && GetZapLevel("fatal") == InfoLevel && GetZapLevel("DEBUG") == InfoLevel
  {
    assert "fatal" !in LevelToZap;
    assert "DEBUG" !in LevelToZap;
  }

  /** A level other than Info comes only from its own name: the mapping is one-to-one off the default. */
  lemma GetZapLevelInverse(l: string)
    ensures GetZapLevel(l) == DebugLevel ==> l == Debug
    ensures GetZapLevel(l) == WarnLevel ==> l == Warn
    ensures GetZapLevel(l) == ErrorLevel ==> l == Err
  {
  }

  /** The names keep their order as zap levels, and no name reaches DPanic, Panic or Fatal. */
  lemma GetZapLevelOrder(l: string)
    ensures GetZapLevel(Debug) < GetZapLevel(Info) < GetZapLevel(Warn) < GetZapLevel(Err)
    ensures GetZapLevel(l) < DPanicLevel
  {
  }
}
