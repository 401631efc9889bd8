/** The per-metric alarm cutoffs of api/threshold.js. */
module Thresholds {

  datatype Metric = Pressure | Temperature | Humidity

  /** A reading at or above `red` is "act now", at or above `orange` "pay attention". */
  datatype Cutoffs = Cutoffs(red: real, orange: real)

  /** The `thresholds` table. */
  function Threshold(m: Metric): (c: Cutoffs)
    ensures c.orange < c.red
  {
    match m
    case Humidity => Cutoffs(50.0, 25.0)
    case Temperature => Cutoffs(50.0, 40.0)
    case Pressure => Cutoffs(350.0, 325.0)
  }

  /** The three bands that a red-first, then orange test produces. */
  datatype Band = Below | OrangeBand | RedBand

  function BandOf(m: Metric, v: real): Band {
    if v >= Threshold(m).red then RedBand
    else if v >= Threshold(m).orange then OrangeBand
    else Below
  }

  /**
   * Because ORANGE < RED for every metric, testing red first and orange second
   * splits the readings into three disjoint intervals, each non-empty.
   */
  lemma BandsAreIntervals(m: Metric, v: real)
    ensures BandOf(m, v) == RedBand <==> v >= Threshold(m).red
    ensures BandOf(m, v) == OrangeBand <==> Threshold(m).orange <= v < Threshold(m).red
    ensures BandOf(m, v) == Below <==> v < Threshold(m).orange
    ensures BandOf(m, Threshold(m).orange) == OrangeBand
  {
  }

  /** Raising a reading never moves it to a lower band. */
  lemma BandMonotone(m: Metric, v: real, w: real)
    requires v <= w
    ensures BandOf(m, v) == RedBand ==> BandOf(m, w) == RedBand
    ensures BandOf(m, v) == OrangeBand ==> BandOf(m, w) != Below
  {
  }
}
