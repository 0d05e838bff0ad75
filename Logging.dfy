/** The part of logrus that the command-line front end relies on: the
    severities it uses, which messages a level lets through, and the
    recognition of a log-level option value. */
module Logging {

  import opened Wrappers

  /** The logrus severities in use, from most to least severe. */
  datatype Level = Fatal | Error | Info | Debug

  /** Position in logrus's ordering: a logger at level `l` emits every
      message whose severity has a rank at most `Rank(l)`. */
  function Rank(l: Level): nat
  {
    match l
    case Fatal => 1
    case Error => 2
    case Info => 4
    case Debug => 5
  }

  /** Whether a message of severity `severity` is emitted at level `current`. */
  predicate Enabled(severity: Level, current: Level)
  {
    Rank(severity) <= Rank(current)
  }

  /** The level of a freshly started process (logrus's standard logger). */
  const InitialLevel: Level := Info

  /** The option spellings the front end recognises. */
  const LevelDebugName: string := "debug"
  const LevelInfoName: string := "info"
  const LevelErrorName: string := "error"

  /** The option spelling of each level that can be selected. */
  function LevelName(l: Level): string
    requires l != Fatal
  {
    match l
    case Debug => LevelDebugName
    case Info => LevelInfoName
    case Error => LevelErrorName
  }

  /** The level a log-level option value names, if any: an exact,
      case-sensitive comparison against the three spellings. */
  function ParseLevel(name: string): (r: Option<Level>)
    ensures r.Some? ==> r.value != Fatal && LevelName(r.value) == name
  {
    if name == LevelDebugName then Some(Debug)
    else if name == LevelInfoName then Some(Info)
    else if name == LevelErrorName then Some(Error)
    else None
  }

  /** The level that selecting `name` leaves in force: the named one, or
      Info for a value that names none. */
  function LevelFor(name: string): Level
  {
    match ParseLevel(name)
    case Some(l) => l
    case None => Info
  }

  /** The three spellings are recognised, each as its own level, so parsing
      is the exact inverse of naming. */
  lemma ParseLevelName(l: Level)
    requires l != Fatal
    ensures ParseLevel(LevelName(l)) == Some(l)
  {
  }

  /** A value is recognised exactly when it is one of the three spellings. */
  lemma ParseLevelRecognises(name: string)
    ensures ParseLevel(name).Some? <==> name in {LevelDebugName, LevelInfoName, LevelErrorName}
  {
  }

  /** Unrecognised values, upper-case spellings among them, select Info. */
  lemma LevelForFallback(name: string)
    requires name !in {LevelDebugName, LevelInfoName, LevelErrorName}
    ensures LevelFor(name) == Info
  {
  }

  /** Matching is case-sensitive. */
  lemma ParseLevelCaseSensitive()
    ensures ParseLevel("DEBUG") == None && ParseLevel("Info") == None && ParseLevel("ERROR") == None
  {
  }

  /** Fatal messages are emitted at every level; the selectable levels are
      ordered Error, Info, Debug by what they let through. */
  lemma EnabledOrder(current: Level)
    ensures Enabled(Fatal, current)
    ensures Enabled(Error, current) <==> current != Fatal
    ensures Enabled(Info, current) <==> current in {Info, Debug}
    ensures Enabled(Debug, current) <==> current == Debug
  {
  }
}
