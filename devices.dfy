/** Device records and the `exampleDevices` table of api/sensor.js. */
module Devices {
  import opened Options
  import opened Thresholds

  /** A snapshot of one sensor unit's fields. */
  datatype DeviceRecord = DeviceRecord(
    id: int,
    name: string,
    signal: string,
    logTo: string,
    location: string,
    calibration: seq<Option<real>>,
    pressure: real,
    temperature: real,
    humidity: real,
    paused: bool,
    expanded: bool)

  /** `device[reading]` for a metric name. */
  function ReadingOf(d: DeviceRecord, m: Metric): real {
    match m
    case Pressure => d.pressure
    case Temperature => d.temperature
    case Humidity => d.humidity
  }

  const DefaultLogTo: string := "content://com.android.externalstorage.documents/tree/primary%3APUPSys"

  function DefaultCalibration(): seq<Option<real>> {
    [Some(30.0), Some(40.0), Some(50.0)]
  }

  function Example(id: int, name: string, signal: string, location: string,
                   pressure: real, temperature: real, humidity: real): DeviceRecord
  {
    DeviceRecord(id, name, signal, DefaultLogTo, location, DefaultCalibration(),
                 pressure, temperature, humidity, false, false)
  }

  /** The four example devices; every id equals the device's position. */
  function ExampleDevices(): (ds: seq<DeviceRecord>)
    ensures |ds| == 4
    ensures forall i :: 0 <= i < |ds| ==> ds[i].id == i && !ds[i].paused
  {
    [ Example(0, "HT100", "-77dBm", "Left Hip", 350.0, 50.0, 50.0),
      Example(1, "HT110", "-50dBm", "Right Hip", 300.0, 40.0, 20.0),
      Example(2, "HT120", "-111dBm", "Left Heel", 300.0, 30.0, 20.0),
      Example(3, "HT130", "-121dBm", "Right Heel", 300.0, 30.0, 20.0) ]
  }
}
