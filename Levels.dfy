/** The six logging severities of the netlist library, in declaration order. */
module Levels {

  datatype Level = DEBUG | INFO | VERBOSE | WARNING | ERROR | FATAL

  /** Position of a severity in the enumeration's declaration order. */
  function Rank(l: Level): nat
  {
    match l
    case DEBUG => 0
    case INFO => 1
    case VERBOSE => 2
    case WARNING => 3
    case ERROR => 4
    case FATAL => 5
  }

  /** Strict severity order: `a` is less severe than `b`. */
  predicate Below(a: Level, b: Level)
  {
    Rank(a) < Rank(b)
  }

  /** All severities, listed as the enumeration declares them. */
  function AllLevels(): (r: seq<Level>)
    ensures |r| == 6
    ensures forall i :: 0 <= i < |r| ==> Rank(r[i]) == i
    ensures forall l: Level :: Rank(l) < |r| && r[Rank(l)] == l
  {
    [DEBUG, INFO, VERBOSE, WARNING, ERROR, FATAL]
  }

  /** Distinct severities have distinct ranks, so `Below` is a strict total order. */
  lemma BelowIsStrictTotalOrder(a: Level, b: Level, c: Level)
    ensures !Below(a, a)
    ensures Below(a, b) && Below(b, c) ==> Below(a, c)
    ensures a == b || Below(a, b) || Below(b, a)
  {
    var all := AllLevels();
    assert all[Rank(a)] == a && all[Rank(b)] == b;
  }
}
