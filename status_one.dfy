/**
 * The first status screen (navigation/Status.js): one card per sensor whose
 * colour, icons and summary come from cutoffs written into the screen itself.
 */
module StatusOne {
  import opened Colors
  import opened Thresholds
  import opened Severity
  import opened Display

  /** One entry of the screen's `sensors` list. */
  datatype SensorData = SensorData(id: int, location: string, pressure: real, temperature: real, humidity: real)

  function Reading(d: SensorData, m: Metric): real {
    match m
    case Pressure => d.pressure
    case Temperature => d.temperature
    case Humidity => d.humidity
  }

  /** `getPressureColor`: red from 350, orange from 320, else the "primary" token. */
  function PressureColor(d: SensorData): (c: Color)
    ensures c == Red <==> d.pressure >= 350.0
    ensures c == Orange <==> 320.0 <= d.pressure < 350.0
    ensures c == PrimaryKey <==> d.pressure < 320.0
  {
    if d.pressure >= 350.0 then Red
    else if d.pressure >= 320.0 then Orange
    else PrimaryKey
  }

  /** `getTemperatureColor`: red from 50, orange from 40, else "primary". */
  function TemperatureColor(d: SensorData): (c: Color)
    ensures c == Red <==> d.temperature >= 50.0
    ensures c == Orange <==> 40.0 <= d.temperature < 50.0
    ensures c == PrimaryKey <==> d.temperature < 40.0
  {
    if d.temperature >= 50.0 then Red
    else if d.temperature >= 40.0 then Orange
    else PrimaryKey
  }

  /** `getHumidityColor`: red from 50, orange from 25, else "primary". */
  function HumidityColor(d: SensorData): (c: Color)
    ensures c == Red <==> d.humidity >= 50.0
    ensures c == Orange <==> 25.0 <= d.humidity < 50.0
    ensures c == PrimaryKey <==> d.humidity < 25.0
  {
    if d.humidity >= 50.0 then Red
    else if d.humidity >= 25.0 then Orange
    else PrimaryKey
  }

  function ReadingColor(d: SensorData, m: Metric): Color {
    match m
    case Pressure => PressureColor(d)
    case Temperature => TemperatureColor(d)
    case Humidity => HumidityColor(d)
  }

  /** The same sensor with one reading replaced. */
  function WithReading(d: SensorData, m: Metric, v: real): SensorData {
    match m
    case Pressure => d.(pressure := v)
    case Temperature => d.(temperature := v)
    case Humidity => d.(humidity := v)
  }

  /** Raising any one reading never yields a less severe colour. */
  lemma ReadingColorMonotone(d: SensorData, m: Metric, v: real)
    requires v >= Reading(d, m)
    ensures Rank(ReadingColor(WithReading(d, m, v), m)) >= Rank(ReadingColor(d, m))
  {
  }

  /**
   * Temperature and humidity agree with the shared thresholds table; pressure
   * turns orange from 320 whereas the table's orange cutoff is 325.
   */
  lemma AgreementWithThresholdTable(d: SensorData)
    ensures TemperatureColor(d) == Red <==> BandOf(Temperature, d.temperature) == RedBand
    ensures TemperatureColor(d) == Orange <==> BandOf(Temperature, d.temperature) == OrangeBand
    ensures HumidityColor(d) == Red <==> BandOf(Humidity, d.humidity) == RedBand
    ensures HumidityColor(d) == Orange <==> BandOf(Humidity, d.humidity) == OrangeBand
    ensures PressureColor(d) == Red <==> BandOf(Pressure, d.pressure) == RedBand
    ensures PressureColor(d) == Orange <==>
              BandOf(Pressure, d.pressure) == OrangeBand || 320.0 <= d.pressure < Threshold(Pressure).orange
  {
    BandsAreIntervals(Temperature, d.temperature);
    BandsAreIntervals(Humidity, d.humidity);
    BandsAreIntervals(Pressure, d.pressure);
  }

  /** A pressure of 320 is orange on this screen but below the table's orange band. */
  lemma PressureCutoffDiffersFromTable()
    ensures PressureColor(SensorData(1, "", 320.0, 0.0, 0.0)) == Orange
    ensures BandOf(Pressure, 320.0) == Below
  {
  }

  /** `get*Source`: fixed red and orange icons, the theme icon otherwise. */
  function ReadingSource(d: SensorData, m: Metric, dark: bool): (i: Icon)
    ensures i.metric == m
    ensures i.variant == RedIcon <==> ReadingColor(d, m) == Red
    ensures i.variant == OrangeIcon <==> ReadingColor(d, m) == Orange
    ensures ReadingColor(d, m) == PrimaryKey ==> i.variant == (if dark then DarkIcon else LightIcon)
  {
    MetricIcon(m, ReadingColor(d, m), dark)
  }

  /** The dark flag changes a metric icon only when the reading is neither red nor orange. */
  lemma ReadingSourceThemeIndependent(d: SensorData, m: Metric)
    requires ReadingColor(d, m) in {Red, Orange}
    ensures ReadingSource(d, m, true) == ReadingSource(d, m, false)
  {
  }

  /** `getSummaryColor`: the card colour. */
  function SummaryColor(d: SensorData): (c: Color)
    ensures c == Red <==> d.pressure >= 350.0 || d.temperature >= 50.0 || d.humidity >= 50.0
    ensures c == Orange <==>
              !(d.pressure >= 350.0 || d.temperature >= 50.0 || d.humidity >= 50.0)
              && (d.pressure >= 320.0 || d.temperature >= 40.0 || d.humidity >= 25.0)
    ensures c == Green <==> d.pressure < 320.0 && d.temperature < 40.0 && d.humidity < 25.0
  {
    WorstOf([PressureColor(d), TemperatureColor(d), HumidityColor(d)])
  }

  /** The card is at least as severe as each of its readings. */
  lemma SummaryDominatesReadings(d: SensorData, m: Metric)
    ensures Rank(SummaryColor(d)) >= Rank(ReadingColor(d, m))
  {
    WorstOfIsMaximum([PressureColor(d), TemperatureColor(d), HumidityColor(d)]);
  }

  /** Raising any reading never makes the card less severe. */
  lemma SummaryColorMonotone(d: SensorData, m: Metric, v: real)
    requires v >= Reading(d, m)
    ensures Rank(SummaryColor(WithReading(d, m, v))) >= Rank(SummaryColor(d))
  {
  }

  /** `getSummaryText`. */
  function CardSummaryText(d: SensorData): (s: string)
    ensures s == "Act Now" <==> SummaryColor(d) == Red
    ensures s == "Pay Attention" <==> SummaryColor(d) == Orange
    ensures s == "Good Job" <==> SummaryColor(d) == Green
  {
    SummaryText(SummaryColor(d))
  }

  /** `getSummarySource`. */
  function CardSummaryFace(d: SensorData): (f: Face)
    ensures f == ActNow <==> CardSummaryText(d) == "Act Now"
    ensures f == PayAttention <==> CardSummaryText(d) == "Pay Attention"
    ensures f == GoodJob <==> CardSummaryText(d) == "Good Job"
  {
    SummaryLockstep(SummaryColor(d));
    SummaryFace(SummaryColor(d))
  }

  /** The screen's `exampleData.sensors`. */
  function ExampleData(): (ds: seq<SensorData>)
    ensures |ds| == 4
    ensures forall i :: 0 <= i < |ds| ==> ds[i].id == i + 1
  {
    [SensorData(1, "Left Hip", 350.0, 50.0, 50.0),
     SensorData(2, "Right Hip", 350.0, 37.0, 30.0),
     SensorData(3, "Left Heel", 330.0, 37.0, 5.0),
     SensorData(4, "Right Heel", 300.0, 37.0, 5.0)]
  }

  /** `renderSensorCards`: nothing without data, otherwise one card colour per sensor. */
  function CardColors(sensors: seq<SensorData>): (cs: seq<Color>)
    ensures |cs| == |sensors|
    ensures forall i :: 0 <= i < |cs| ==> cs[i] == SummaryColor(sensors[i])
  {
    if sensors == [] then [] else [SummaryColor(sensors[0])] + CardColors(sensors[1..])
  }

  lemma ExampleSummaries()
    ensures CardSummaryText(ExampleData()[0]) == "Act Now"
    ensures CardSummaryText(ExampleData()[1]) == "Act Now"
    ensures CardSummaryText(ExampleData()[2]) == "Pay Attention"
    ensures CardSummaryText(ExampleData()[3]) == "Good Job"
    ensures CardColors(ExampleData()) == [Red, Red, Orange, Green]
  {
  }
}
