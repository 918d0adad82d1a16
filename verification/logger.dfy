/** pkg/logger/level.go: a log level named by a string and its zap level. */
module Logger {
  import opened Wrappers

  /** zap's levels, as their numeric values. */
  const DebugLevel: int := -1
  const InfoLevel: int := 0
  const WarnLevel: int := 1
  const ErrorLevel: int := 2
  const DPanicLevel: int := 3
  const PanicLevel: int := 4
  const FatalLevel: int := 5

  datatype Level = Level(lvl: string)

  /** `NewLevel`: the name is kept as given; it is only checked when read. */
  function NewLevel(lvl: string): (l: Level)
    ensures l.lvl == lvl
  {
    Level(lvl)
  }

  /** `ZapLevel`: one of seven exact, lower-case names; any other name is the
      "invalid log level" panic, here `None`. */
  function ZapLevel(l: Level): (r: Option<int>)
    ensures r.Some? ==> DebugLevel <= r.value <= FatalLevel
  {
    match l.lvl
    case "debug" => Some(DebugLevel)
    case "info" => Some(InfoLevel)
    case "warn" => Some(WarnLevel)
    case "error" => Some(ErrorLevel)
    case "dpanic" => Some(DPanicLevel)
    case "panic" => Some(PanicLevel)
    case "fatal" => Some(FatalLevel)
    case _ => None
  }

  /** The name of each zap level, independent of the switch above. */
  function LevelName(z: int): string
    requires DebugLevel <= z <= FatalLevel
  {
    ["debug", "info", "warn", "error", "dpanic", "panic", "fatal"][z + 1]
  }

  /** A name is accepted exactly when it is the name of a zap level, and then
      it yields that level: seven names, seven distinct levels. */
  lemma ZapLevelNames(s: string, z: int)
    requires DebugLevel <= z <= FatalLevel
    ensures ZapLevel(NewLevel(s)) == Some(z) <==> s == LevelName(z)
  {
  }

  /** `ZapLevel` is defined on the level names and nowhere else. */
  lemma ZapLevelDefined(s: string)
    ensures ZapLevel(NewLevel(s)).Some? <==> exists z | DebugLevel <= z <= FatalLevel :: s == LevelName(z)
  {
    if ZapLevel(NewLevel(s)).Some? {
      var z := ZapLevel(NewLevel(s)).value;
      ZapLevelNames(s, z);
    } else {
      forall z | DebugLevel <= z <= FatalLevel
        ensures s != LevelName(z)
      {
        ZapLevelNames(s, z);
      }
    }
  }

  /** Matching is case-sensitive. */
  lemma CapitalisedRejected()
    ensures ZapLevel(NewLevel("Info")).None?
    ensures ZapLevel(NewLevel("INFO")).None?
  {
  }

  /** `WithLevel`: the option that replaces the name. */
  datatype LevelOption = WithLevel(lvl: string)

  function Apply(o: LevelOption, l: Level): (r: Level)
    ensures r.lvl == o.lvl
  {
    Level(o.lvl)
  }

  function ApplyAll(opts: seq<LevelOption>, l: Level): Level
    decreases |opts|
  {
    if opts == [] then l else ApplyAll(opts[1..], Apply(opts[0], l))
  }

  /** Applying options in order: the last one decides the level; none leaves it as it was. */
  lemma {:induction false} LastLevelWins(opts: seq<LevelOption>, l: Level)
    ensures opts == [] ==> ApplyAll(opts, l) == l
    ensures opts != [] ==> ApplyAll(opts, l) == Level(opts[|opts| - 1].lvl)
    decreases |opts|
  {
    if |opts| > 1 {
      LastLevelWins(opts[1..], Apply(opts[0], l));
      assert opts[1..][|opts[1..]| - 1] == opts[|opts| - 1];
    }
  }
}
