/**
 * The second status screen (navigation/Status2.js): fleet-wide colours per
 * metric, the overall card, its check marks and icons.
 */
module StatusTwo {
  import opened Colors
  import opened Thresholds
  import opened Severity
  import opened Display
  import opened Devices

  /** Device k is the first device whose reading of m is at or above orange. */
  predicate FirstAlarm(devices: seq<DeviceRecord>, m: Metric, k: int) {
    0 <= k < |devices| && ReadingOf(devices[k], m) >= Threshold(m).orange
    && forall i :: 0 <= i < k ==> ReadingOf(devices[i], m) < Threshold(m).orange
  }

  /**
   * `getPressureColorOverall` / `getTemperatureColorOverall` /
   * `getHumidityColorOverall`: scan the devices in order and return at the
   * first one at or above orange; the theme's text colour if there is none.
   */
  function MetricColorOverall(devices: seq<DeviceRecord>, m: Metric, dark: bool): (c: Color)
    ensures c == Red || c == Orange || c == ThemeTextPrimary(dark)
    ensures c == ThemeTextPrimary(dark) <==>
              forall i :: 0 <= i < |devices| ==> ReadingOf(devices[i], m) < Threshold(m).orange
  {
    if devices == [] then ThemeTextPrimary(dark)
    else if ReadingOf(devices[0], m) >= Threshold(m).red then Red
    else if ReadingOf(devices[0], m) >= Threshold(m).orange then Orange
    else MetricColorOverall(devices[1..], m, dark)
  }

  /**
   * The first alarming device alone decides: red when its reading is at or
   * above red, orange otherwise, whatever the devices after it read.
   */
  lemma {:induction false} FirstAlarmDecides(devices: seq<DeviceRecord>, m: Metric, dark: bool, k: int)
    requires FirstAlarm(devices, m, k)
    ensures MetricColorOverall(devices, m, dark) ==
              (if ReadingOf(devices[k], m) >= Threshold(m).red then Red else Orange)
  {
    if k > 0 {
      assert FirstAlarm(devices[1..], m, k - 1) by {
        forall i | 0 <= i < k - 1
          ensures ReadingOf(devices[1..][i], m) < Threshold(m).orange
        {
          assert devices[1..][i] == devices[i + 1];
        }
      }
      FirstAlarmDecides(devices[1..], m, dark, k - 1);
    }
  }

  /** A non-neutral metric colour always comes from some first alarming device. */
  lemma {:induction false} FirstAlarmExists(devices: seq<DeviceRecord>, m: Metric, dark: bool)
    requires MetricColorOverall(devices, m, dark) != ThemeTextPrimary(dark)
    ensures exists k :: FirstAlarm(devices, m, k)
  {
    if ReadingOf(devices[0], m) >= Threshold(m).orange {
      assert FirstAlarm(devices, m, 0);
    } else {
      FirstAlarmExists(devices[1..], m, dark);
      var k :| FirstAlarm(devices[1..], m, k);
      assert FirstAlarm(devices, m, k + 1) by {
        forall i | 0 <= i < k + 1
          ensures ReadingOf(devices[i], m) < Threshold(m).orange
        {
          if i > 0 {
            assert devices[i] == devices[1..][i - 1];
          }
        }
      }
    }
  }

  /** A metric is red exactly when its first alarming device reads at or above red. */
  lemma MetricRedIffFirstAlarmRed(devices: seq<DeviceRecord>, m: Metric, dark: bool)
    ensures MetricColorOverall(devices, m, dark) == Red <==>
              exists k :: FirstAlarm(devices, m, k) && ReadingOf(devices[k], m) >= Threshold(m).red
  {
    if MetricColorOverall(devices, m, dark) != ThemeTextPrimary(dark) {
      FirstAlarmExists(devices, m, dark);
      var k :| FirstAlarm(devices, m, k);
      FirstAlarmDecides(devices, m, dark, k);
    } else {
      forall k | FirstAlarm(devices, m, k)
        ensures false
      {
      }
    }
  }

  /** An earlier orange device is not overridden by a later red one. */
  lemma EarlierOrangeWins(a: DeviceRecord, b: DeviceRecord, m: Metric, dark: bool)
    requires Threshold(m).orange <= ReadingOf(a, m) < Threshold(m).red
    requires ReadingOf(b, m) >= Threshold(m).red
    ensures MetricColorOverall([a, b], m, dark) == Orange
    ensures MetricColorOverall([b, a], m, dark) == Red
  {
  }

  /** `getOverallColor`: red if any metric is red, else orange if any is orange, else green. */
  function OverallColor(pressure: Color, temperature: Color, humidity: Color): (c: Color)
    ensures c == WorstOf([pressure, temperature, humidity])
  {
    if pressure == Red || temperature == Red || humidity == Red then Red
    else if pressure == Orange || temperature == Orange || humidity == Orange then Orange
    else Green
  }

  /** The overall card colour for a device list. */
  function FleetColor(devices: seq<DeviceRecord>, dark: bool): (c: Color)
    ensures devices == [] ==> c == Green
    ensures c == Green <==> forall m: Metric, i :: 0 <= i < |devices| ==> ReadingOf(devices[i], m) < Threshold(m).orange
  {
    var p := MetricColorOverall(devices, Pressure, dark);
    var t := MetricColorOverall(devices, Temperature, dark);
    var h := MetricColorOverall(devices, Humidity, dark);
    OverallColor(p, t, h)
  }

  /** The overall card is red exactly when, for some metric, the first alarming device reads red. */
  lemma FleetColorRed(devices: seq<DeviceRecord>, dark: bool)
    ensures FleetColor(devices, dark) == Red <==>
              exists m: Metric, k :: FirstAlarm(devices, m, k) && ReadingOf(devices[k], m) >= Threshold(m).red
  {
    var p := MetricColorOverall(devices, Pressure, dark);
    var t := MetricColorOverall(devices, Temperature, dark);
    var h := MetricColorOverall(devices, Humidity, dark);
    assert FleetColor(devices, dark) == Red <==> p == Red || t == Red || h == Red;
    if FleetColor(devices, dark) == Red {
      if p == Red {
        MetricRedIffFirstAlarmRed(devices, Pressure, dark);
      } else if t == Red {
        MetricRedIffFirstAlarmRed(devices, Temperature, dark);
      } else {
        MetricRedIffFirstAlarmRed(devices, Humidity, dark);
      }
    }
    if exists m: Metric, k :: FirstAlarm(devices, m, k) && ReadingOf(devices[k], m) >= Threshold(m).red {
      var m: Metric, k :| FirstAlarm(devices, m, k) && ReadingOf(devices[k], m) >= Threshold(m).red;
      FirstAlarmDecides(devices, m, dark, k);
      match m
      case Pressure => assert p == Red;
      case Temperature => assert t == Red;
      case Humidity => assert h == Red;
    }
  }

  /** The dark flag only picks the neutral colour, so it never changes the overall colour. */
  lemma FleetColorIgnoresTheme(devices: seq<DeviceRecord>)
    ensures FleetColor(devices, true) == FleetColor(devices, false)
  {
    forall m: Metric
      ensures MetricColorOverall(devices, m, true) == Red <==> MetricColorOverall(devices, m, false) == Red
      ensures MetricColorOverall(devices, m, true) == Orange <==> MetricColorOverall(devices, m, false) == Orange
    {
      NeutralThemeOnly(devices, m);
    }
  }

  /** Two themes give the same metric colour unless the colour is the neutral one. */
  lemma {:induction false} NeutralThemeOnly(devices: seq<DeviceRecord>, m: Metric)
    ensures MetricColorOverall(devices, m, true) == ThemeTextPrimary(true)
            <==> MetricColorOverall(devices, m, false) == ThemeTextPrimary(false)
    ensures MetricColorOverall(devices, m, true) != ThemeTextPrimary(true)
            ==> MetricColorOverall(devices, m, true) == MetricColorOverall(devices, m, false)
  {
    if devices != [] {
      NeutralThemeOnly(devices[1..], m);
    }
  }

  /** `Reading`'s mark: a check exactly when the colour is green. */
  function CheckMark(c: Color): (s: string)
    ensures s == "\U{2713}" <==> c == Green
    ensures s == "\U{2716}" <==> c != Green
  {
    if c == Green then "\U{2713}" else "\U{2716}"
  }

  /** No metric colour is ever green, so every overall reading shows the cross. */
  lemma OverallReadingsAlwaysCrossed(devices: seq<DeviceRecord>, m: Metric, dark: bool)
    ensures CheckMark(MetricColorOverall(devices, m, dark)) == "\U{2716}"
  {
    GreenIsNotTextPrimary(dark);
  }

  /** `getPressureIcon` / `getTemperatureIcon` / `getHumidityIcon`. */
  function OverallIcon(devices: seq<DeviceRecord>, m: Metric, dark: bool): (i: Icon)
    ensures i.metric == m
    ensures i.variant == RedIcon <==> MetricColorOverall(devices, m, dark) == Red
    ensures i.variant == OrangeIcon <==> MetricColorOverall(devices, m, dark) == Orange
    ensures i.variant == (if dark then DarkIcon else LightIcon) <==>
              forall k :: 0 <= k < |devices| ==> ReadingOf(devices[k], m) < Threshold(m).orange
  {
    MetricIcon(m, MetricColorOverall(devices, m, dark), dark)
  }

  /** With the example devices every metric is red and the overall summary is "Act Now". */
  lemma ExampleFleet(dark: bool)
    ensures forall m: Metric :: MetricColorOverall(ExampleDevices(), m, dark) == Red
    ensures FleetColor(ExampleDevices(), dark) == Red
    ensures SummaryText(FleetColor(ExampleDevices(), dark)) == "Act Now"
    ensures SummaryFace(FleetColor(ExampleDevices(), dark)) == ActNow
  {
    var ds := ExampleDevices();
    forall m: Metric ensures MetricColorOverall(ds, m, dark) == Red {
      assert ReadingOf(ds[0], m) >= Threshold(m).red;
    }
  }
}
