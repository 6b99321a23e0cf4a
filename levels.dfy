/**
 * The standard levels of java.util.logging.Level: a name and an integer rank.
 * Every comparison the formatter and the adapter make goes through the rank.
 */
module Levels {

  const INT_MIN: int := -0x8000_0000
  const INT_MAX: int := 0x7FFF_FFFF

  datatype Level = All | Finest | Finer | Fine | Config | Info | Warning | Severe | Off {

    /** `Level.intValue()`. */
    function IntValue(): int {
      match this
      case All => INT_MIN
      case Finest => 300
      case Finer => 400
      case Fine => 500
      case Config => 700
      case Info => 800
      case Warning => 900
      case Severe => 1000
      case Off => INT_MAX
    }

    /** `Level.toString()`, which is `Level.getName()`. */
    function Name(): string {
      match this
      case All => "ALL"
      case Finest => "FINEST"
      case Finer => "FINER"
      case Fine => "FINE"
      case Config => "CONFIG"
      case Info => "INFO"
      case Warning => "WARNING"
      case Severe => "SEVERE"
      case Off => "OFF"
    }
  }

  /** The levels from least to most severe, as declared by java.util.logging. */
  const Ascending: seq<Level> := [All, Finest, Finer, Fine, Config, Info, Warning, Severe, Off]

  /** The ranks follow the declared order strictly, and every rank fits a Java `int`. */
  lemma RanksAscend(i: int, j: int)
    requires 0 <= i < j < |Ascending|
    ensures Ascending[i].IntValue() < Ascending[j].IntValue()
    ensures INT_MIN <= Ascending[i].IntValue() && Ascending[j].IntValue() <= INT_MAX
  {
  }

  /** The rank identifies the level, and so does the name. */
  lemma RankAndNameIdentify(a: Level, b: Level)
    ensures a.IntValue() == b.IntValue() ==> a == b
    ensures a.Name() == b.Name() ==> a == b
  {
  }
}
