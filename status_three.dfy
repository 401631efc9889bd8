/**
 * The third status screen (navigation/Status3.js): device lists that colour
 * each row either by the device's overall colour or by one reading against
 * a pair of cutoffs, plus the sensor card and overall home colours.
 * The per-device and fleet-wide metric colours this screen imports are
 * taken as inputs, and so are a per-reading list's two cutoffs (the fields
 * of `Mode.PerReading`): the source reads them from a `thresholds` import
 * that api/sensor.js does not export.
 */
module StatusThree {
  import opened Options
  import opened Colors
  import opened Thresholds
  import opened Severity
  import opened Devices

  /** A list shows either every device's overall status or one reading with its cutoffs. */
  datatype Mode = Overall | PerReading(metric: Metric, orange: real, red: real)

  /**
   * `DeviceListItem.getBackgroundColor`. None stands for the `undefined` the
   * guard clauses return. `mostSevere` is the device's most severe reading
   * colour, which the screen imports. A list row other than the header
   * always carries a device (the source dereferences it).
   */
  function BackgroundColor(header: bool, mode: Mode, device: Option<DeviceRecord>, mostSevere: Color): (c: Option<Color>)
    requires !header ==> device.Some?
    ensures header ==> c == None
    ensures !header && mode.Overall? ==> c == Some(mostSevere)
    ensures !header && mode.PerReading? ==>
              (c == None <==> ReadingOf(device.value, mode.metric) == 0.0)
    ensures !header && mode.PerReading? && ReadingOf(device.value, mode.metric) != 0.0 ==>
              (c == Some(Red) <==> (ReadingOf(device.value, mode.metric) >= mode.red
                                    || ReadingOf(device.value, mode.metric) >= mode.orange))
              && (c == Some(Green) <==> (ReadingOf(device.value, mode.metric) < mode.red
                                      && ReadingOf(device.value, mode.metric) < mode.orange))
    ensures mode.PerReading? ==> c != Some(Orange)
  {
    if header then None
    else if ReadingOf(device.value, MetricOf(mode)) == 0.0 && !mode.Overall? then None
    else if mode.Overall? then Some(mostSevere)
    else if ReadingOf(device.value, mode.metric) >= mode.red then Some(Red)
    else if ReadingOf(device.value, mode.metric) >= mode.orange then Some(Red)
    else Some(Green)
  }

  /** The metric a list looks at; overall lists look at none, so any metric serves. */
  function MetricOf(mode: Mode): Metric {
    if mode.PerReading? then mode.metric else Pressure
  }

  /**
   * If the cutoffs are those of the threshold table, a reading in the orange
   * band is shown red: the per-reading list has only two colours.
   */
  lemma OrangeBandShownRed(device: DeviceRecord, m: Metric)
    requires BandOf(m, ReadingOf(device, m)) == OrangeBand
    requires ReadingOf(device, m) != 0.0
    ensures BackgroundColor(false, PerReading(m, Threshold(m).orange, Threshold(m).red), Some(device), Green) == Some(Red)
  {
    BandsAreIntervals(m, ReadingOf(device, m));
  }

  /** What a row's value column shows: words or the raw reading. */
  datatype Cell = Words(text: string) | Value(reading: real)

  /** `getReadingText`. */
  function ReadingText(mode: Mode, device: Option<DeviceRecord>, mostSevere: Color): (t: Cell)
    ensures device.None? ==> t == Words("?")
    ensures device.Some? && mode.Overall? ==>
              (t == Words("Act Now") <==> mostSevere == Red)
              && (t == Words("Pay Attention") <==> mostSevere == Orange)
              && (t == Words("Good Job") <==> mostSevere != Red && mostSevere != Orange)
    ensures device.Some? && mode.PerReading? ==> t == Value(ReadingOf(device.value, mode.metric))
  {
    if device.None? then Words("?")
    else if mode.Overall? then
      var overall := BackgroundColor(false, mode, device, mostSevere);
      if overall == Some(Red) then Words("Act Now")
      else if overall == Some(Orange) then Words("Pay Attention")
      else Words("Good Job")
    else Value(ReadingOf(device.value, mode.metric))
  }

  /** `SensorCard.getSummaryColor`: first red in the list, else first orange, else green. */
  function SensorCardColor(pressure: Color, temperature: Color, humidity: Color): (c: Color)
    ensures c == Red <==> pressure == Red || temperature == Red || humidity == Red
    ensures c == Orange <==> (!(pressure == Red || temperature == Red || humidity == Red)
                              && (pressure == Orange || temperature == Orange || humidity == Orange))
    ensures c == Green <==> (pressure != Red && temperature != Red && humidity != Red
                             && pressure != Orange && temperature != Orange && humidity != Orange)
  {
    WorstOf([pressure, temperature, humidity])
  }

  /** `OverallHome.getOverallColor`: the same reduction written as an if-chain. */
  function OverallHomeColor(pressure: Color, temperature: Color, humidity: Color): (c: Color)
    ensures c == SensorCardColor(pressure, temperature, humidity)
    ensures Rank(c) == MaxRank([pressure, temperature, humidity])
  {
    WorstOfIsMaximum([pressure, temperature, humidity]);
    if pressure == Red || temperature == Red || humidity == Red then Red
    else if pressure == Orange || temperature == Orange || humidity == Orange then Orange
    else Green
  }
}
