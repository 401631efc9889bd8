/**
 * The "any red, else any orange, else green" reduction that every status
 * screen applies to a list of colours.
 */
module Severity {
  import opened Colors

  /** Severity order of a colour: red above orange above everything else. */
  function Rank(c: Color): nat {
    match c
    case Red => 2
    case Orange => 1
    case _ => 0
  }

  /** A `for ... of` scan that returns as soon as it meets `target`. */
  function AnyIs(cs: seq<Color>, target: Color): (found: bool)
    ensures found <==> target in cs
  {
    if cs == [] then false
    else if cs[0] == target then true
    else AnyIs(cs[1..], target)
  }

  /** First scan for red, then for orange, else green. */
  function WorstOf(cs: seq<Color>): (c: Color)
    ensures c == Red <==> Red in cs
    ensures c == Orange <==> Red !in cs && Orange in cs
    ensures c == Green <==> Red !in cs && Orange !in cs
  {
    if AnyIs(cs, Red) then Red
    else if AnyIs(cs, Orange) then Orange
    else Green
  }

  /** Reference definition: the largest rank in the list (0 for the empty list). */
  function MaxRank(cs: seq<Color>): nat {
    if cs == [] then 0
    else var rest := MaxRank(cs[1..]); if Rank(cs[0]) > rest then Rank(cs[0]) else rest
  }

  lemma {:induction false} MaxRankBounds(cs: seq<Color>)
    ensures MaxRank(cs) == 2 <==> Red in cs
    ensures MaxRank(cs) == 1 <==> Red !in cs && Orange in cs
    ensures MaxRank(cs) == 0 <==> Red !in cs && Orange !in cs
  {
    if cs != [] {
      MaxRankBounds(cs[1..]);
      assert cs == [cs[0]] + cs[1..];
    }
  }

  /** The two-scan reduction is the severity maximum, with green as the empty case. */
  lemma WorstOfIsMaximum(cs: seq<Color>)
    ensures Rank(WorstOf(cs)) == MaxRank(cs)
    ensures forall i :: 0 <= i < |cs| ==> Rank(cs[i]) <= Rank(WorstOf(cs))
  {
    MaxRankBounds(cs);
  }

  /** Orderings of the list do not matter: only which colours occur. */
  lemma WorstOfDependsOnMembership(cs: seq<Color>, ds: seq<Color>)
    requires forall c :: c in cs <==> c in ds
    ensures WorstOf(cs) == WorstOf(ds)
  {
  }

  lemma WorstOfExamples()
    ensures WorstOf([]) == Green
    ensures WorstOf([Green, Orange, Green]) == Orange
    ensures WorstOf([Red, Green]) == Red
  {
  }
}
