/**
 * The calibration screen (navigation/Calibration.js): the device list with
 * its selection, the log-location editor, the three-step calibration wizard,
 * disconnecting and resetting devices. Devices are heap objects, because the
 * screen copies the list shallowly and then writes fields of the shared
 * objects in place.
 */
module Calibration {
  import opened Options
  import opened Colors
  import opened Devices

  /** The unit names the weight conversion recognises. */
  datatype CalibrationUnit = Grams | Ounces | Kilograms | Pounds

  /** `allCalibrationUnits`: the only units the dropdown offers ("g" and "oz"). */
  function SelectableUnits(): (us: seq<CalibrationUnit>)
    ensures Kilograms !in us && Pounds !in us
  {
    [Grams, Ounces]
  }

  /** Grams in one unit of each kind. */
  function GramsPerUnit(unit: CalibrationUnit): (f: real)
    ensures f >= 1.0
  {
    match unit
    case Grams => 1.0
    case Ounces => 28.3495
    case Kilograms => 1000.0
    case Pounds => 453.592
  }

  /**
   * The conversion at the top of `handleSubmit` as written: kilograms, pounds
   * and ounces are each divided by their factor, grams are kept.
   */
  function ToGramsAsWritten(weight: real, unit: CalibrationUnit): (g: real)
    ensures g * GramsPerUnit(unit) == weight
  {
    match unit
    case Kilograms => weight / 1000.0
    case Pounds => weight / 453.592
    case Ounces => weight / 28.3495
    case Grams => weight
  }

  /** As written, no conversion ever enlarges a non-negative weight. */
  lemma ToGramsAsWrittenShrinks(weight: real, unit: CalibrationUnit)
    requires weight >= 0.0
    ensures 0.0 <= ToGramsAsWritten(weight, unit) <= weight
  {
  }

  /** One ounce, the other unit the dropdown offers, comes out as far less than one gram. */
  lemma OunceAsWrittenIsNotGrams()
    ensures Ounces in SelectableUnits()
    ensures ToGramsAsWritten(1.0, Ounces) < 1.0 < GramsPerUnit(Ounces)
  {
  }

  /**
   * The intended conversion: a weight in `unit` is that many times the unit's
   * gram count. It never shrinks a non-negative weight.
   */
  function ToGrams(weight: real, unit: CalibrationUnit): (g: real)
    ensures g == weight * GramsPerUnit(unit)
    ensures weight >= 0.0 ==> g >= weight
  {
    match unit
    case Kilograms => weight * 1000.0
    case Pounds => weight * 453.592
    case Ounces => weight * 28.3495
    case Grams => weight
  }

  /** The source's division is exactly the reverse conversion, from grams back into the unit. */
  lemma AsWrittenIsInverse(weight: real, unit: CalibrationUnit)
    ensures ToGramsAsWritten(ToGrams(weight, unit), unit) == weight
    ensures ToGrams(ToGramsAsWritten(weight, unit), unit) == weight
  {
  }

  /** `CalibrationDot`'s state: 2 = done, 1 = current, 0 = pending. */
  function DotState(step: int, number: int): (s: int)
    ensures s == 2 <==> number < step
    ensures s == 1 <==> number == step
    ensures s == 0 <==> number > step
  {
    var s := if step >= number then 2 else 0;
    if step == number then 1 else s
  }

  /** `CalibrationDot.getDotColor`. */
  function DotColor(state: int, dark: bool): (c: Color)
    ensures state == 0 ==> c == ButtonFill(dark)
    ensures state == 1 ==> c == GreenAlpha
    ensures state != 0 && state != 1 ==> c == Green
  {
    if state == 0 then ButtonFill(dark)
    else if state == 1 then GreenAlpha
    else Green
  }

  /**
   * The three dots during the wizard: those before the step are green, the
   * step's own dot is translucent green, later ones take the theme fill;
   * after the reset to step 0 every dot is pending.
   */
  lemma DotsFollowStep(step: int, dark: bool)
    requires 0 <= step <= 3
    ensures forall n :: 1 <= n <= 3 ==>
              DotColor(DotState(step, n), dark) == (if n < step then Green else if n == step then GreenAlpha else ButtonFill(dark))
    ensures step == 0 ==> forall n :: 1 <= n <= 3 ==> DotState(step, n) == 0
    ensures 1 <= step ==> exists n :: 1 <= n <= 3 && DotState(step, n) == 1
  {
    if 1 <= step {
      assert DotState(step, step) == 1;
    }
  }

  /** No two positions of the list hold the same object. */
  predicate Distinct(ds: seq<Device>) {
    forall i, j :: 0 <= i < j < |ds| ==> ds[i] != ds[j]
  }

  lemma DistinctWithout(ds: seq<Device>, k: int)
    requires Distinct(ds) && 0 <= k < |ds|
    ensures Distinct(ds[..k] + ds[k + 1..])
  {
    var r := ds[..k] + ds[k + 1..];
    forall i, j | 0 <= i < j < |r|
      ensures r[i] != r[j]
    {
      var i' := if i < k then i else i + 1;
      var j' := if j < k then j else j + 1;
      assert r[i] == ds[i'] && r[j] == ds[j'];
    }
  }

  /**
   * The filtering loop of `confirmDisconnect`: every device but position
   * `skip`, in order, each kept one with its `id` set to its index in `ds`.
   */
  method KeepRenumbered(ds: seq<Device>, skip: int) returns (kept: seq<Device>)
    requires Distinct(ds) && 0 <= skip < |ds|
    modifies ds
    ensures kept == ds[..skip] + ds[skip + 1..]
    ensures forall k :: 0 <= k < |ds| && k != skip ==> ds[k].Snapshot() == old(ds[k].Snapshot()).(id := k)
    ensures ds[skip].Snapshot() == old(ds[skip].Snapshot())
  {
    kept := [];
    for i := 0 to |ds|
      invariant kept == if i <= skip then ds[..i] else ds[..skip] + ds[skip + 1..i]
      invariant forall k :: 0 <= k < i && k != skip ==> ds[k].Snapshot() == old(ds[k].Snapshot()).(id := k)
      invariant forall k :: 0 <= k < |ds| && (i <= k || k == skip) ==> ds[k].Snapshot() == old(ds[k].Snapshot())
    {
      if i != skip {
        var d := ds[i];
        label Before:
        d.id := i;
        forall k | 0 <= k < |ds| && k != i
          ensures ds[k].Snapshot() == old@Before(ds[k].Snapshot())
        {
          assert ds[k] != d;
        }
        if i < skip {
          assert ds[..i + 1] == ds[..i] + [d];
        } else {
          assert ds[skip + 1..i + 1] == ds[skip + 1..i] + [d];
        }
        kept := kept + [d];
      } else {
        assert ds[..i + 1] == ds[..i] + [ds[i]];
      }
    }
  }

  /** One sensor unit, with the fields the screen writes (`id`, `logTo`, `calibration`) mutable. */
  class Device {
    var id: int
    const name: string
    const signal: string
    var logTo: string
    const location: string
    var calibration: seq<Option<real>>
    const pressure: real
    const temperature: real
    const humidity: real
    const paused: bool
    const expanded: bool

    constructor (r: DeviceRecord)
      ensures Snapshot() == r
    {
      id := r.id;
      name := r.name;
      signal := r.signal;
      logTo := r.logTo;
      location := r.location;
      calibration := r.calibration;
      pressure := r.pressure;
      temperature := r.temperature;
      humidity := r.humidity;
      paused := r.paused;
      expanded := r.expanded;
    }

    /** The device's current field values. */
    function Snapshot(): DeviceRecord
      reads this
    {
      DeviceRecord(id, name, signal, logTo, location, calibration,
                   pressure, temperature, humidity, paused, expanded)
    }
  }

  /**
   * The screen's state: the shared device list (initially the
   * `exampleDevices` array itself), the selected index, and the state of the
   * calibration sequence.
   */
  class CalibrationScreen {
    const exampleDevices: seq<Device>
    var devices: seq<Device>
    var currentDevice: int
    var calibrating: bool
    var calibrationStep: int
    var currentWeight: Option<int>
    var calibrationUnits: CalibrationUnit
    var calibrationReadings: seq<Option<real>>

    predicate Valid()
      reads this
    {
      Distinct(exampleDevices) && Distinct(devices)
      && |calibrationReadings| == 3
      && 0 <= calibrationStep <= 3
      && (calibrating ==> 1 <= calibrationStep)
      && calibrationUnits in SelectableUnits()
    }

    constructor ()
      ensures Valid()
      ensures |exampleDevices| == 4 && devices == exampleDevices
      ensures forall i :: 0 <= i < 4 ==> fresh(devices[i]) && devices[i].Snapshot() == ExampleDevices()[i]
      ensures currentDevice == 0 && !calibrating
    {
      var records := ExampleDevices();
      var d0 := new Device(records[0]);
      var d1 := new Device(records[1]);
      var d2 := new Device(records[2]);
      var d3 := new Device(records[3]);
      exampleDevices := [d0, d1, d2, d3];
      devices := exampleDevices;
      currentDevice := 0;
      calibrating := false;
      calibrationStep := 1;
      currentWeight := None;
      calibrationUnits := Grams;
      calibrationReadings := [None, None, None];
    }

    /**
     * `handleLogToChange`: copy the list, then set `logTo` on the selected
     * device object, which the old list (and `exampleDevices`) share.
     */
    method HandleLogToChange(newUri: string)
      requires Valid() && 0 <= currentDevice < |devices|
      modifies this, devices[currentDevice]
      ensures Valid()
      ensures devices == old(devices) && currentDevice == old(currentDevice)
      ensures devices[currentDevice].Snapshot() == old(devices[currentDevice].Snapshot()).(logTo := newUri)
      ensures forall i :: 0 <= i < |devices| && i != currentDevice ==> devices[i].Snapshot() == old(devices[i].Snapshot())
      ensures calibrating == old(calibrating) && calibrationStep == old(calibrationStep)
      ensures currentWeight == old(currentWeight) && calibrationUnits == old(calibrationUnits)
      ensures calibrationReadings == old(calibrationReadings)
    {
      var newDevices: seq<Device> := [];
      for i := 0 to |devices|
        invariant newDevices == devices[..i]
      {
        newDevices := newDevices + [devices[i]];
      }
      newDevices[currentDevice].logTo := newUri;
      devices := newDevices;
    }

    /**
     * `DeviceListItem.handleClick`; None is the header row. The selection
     * becomes the clicked device's `id`, not its position.
     */
    method HandleClick(item: Option<Device>)
      requires Valid()
      modifies this
      ensures Valid()
      ensures item.None? || old(calibrating) ==> currentDevice == old(currentDevice)
      ensures item.Some? && !old(calibrating) ==> currentDevice == item.value.id
      ensures devices == old(devices) && calibrating == old(calibrating)
      ensures calibrationStep == old(calibrationStep) && currentWeight == old(currentWeight)
      ensures calibrationUnits == old(calibrationUnits) && calibrationReadings == old(calibrationReadings)
    {
      if item.None? {
        return;
      }
      if calibrating {
        return;
      }
      currentDevice := item.value.id;
    }

    /** `DeviceListItem.getBackgroundColor`: only the selected device's row is highlighted. */
    function ListItemColor(item: Option<Device>): (c: Option<Color>)
      reads this, if item.Some? then {item.value} else {}
      ensures c == Some(GreenAlpha) <==> item.Some? && item.value.id == currentDevice
      ensures c != Some(GreenAlpha) ==> c == None
    {
      if item.None? then None
      else if currentDevice == item.value.id then Some(GreenAlpha)
      else None
    }

    /**
     * The Calibrate / Cancel button. Showing the calibration sequence mounts
     * it afresh, so its state starts at step 1 with no weights, in grams.
     */
    method ToggleCalibrating()
      requires Valid()
      modifies this
      ensures Valid()
      ensures calibrating == !old(calibrating)
      ensures calibrating ==> calibrationStep == 1 && currentWeight == None && calibrationUnits == Grams
                              && calibrationReadings == [None, None, None]
      ensures !calibrating ==> calibrationStep == old(calibrationStep) && currentWeight == old(currentWeight)
                               && calibrationUnits == old(calibrationUnits)
                               && calibrationReadings == old(calibrationReadings)
      ensures devices == old(devices) && currentDevice == old(currentDevice)
    {
      calibrating := !calibrating;
      if calibrating {
        calibrationStep := 1;
        currentWeight := None;
        calibrationUnits := Grams;
        calibrationReadings := [None, None, None];
      }
    }

    /** Picking a unit from the dropdown (only "g" and "oz" are offered). */
    method SelectCalibrationUnit(unit: CalibrationUnit)
      requires Valid() && unit in SelectableUnits()
      modifies this
      ensures Valid()
      ensures calibrationUnits == unit
      ensures devices == old(devices) && currentDevice == old(currentDevice) && calibrating == old(calibrating)
      ensures calibrationStep == old(calibrationStep) && currentWeight == old(currentWeight)
      ensures calibrationReadings == old(calibrationReadings)
    {
      calibrationUnits := unit;
    }

    /** Typing into the weight entry; None stands for a text that does not parse. */
    method EnterWeight(weight: Option<int>)
      requires Valid()
      modifies this
      ensures Valid()
      ensures currentWeight == weight
      ensures devices == old(devices) && currentDevice == old(currentDevice) && calibrating == old(calibrating)
      ensures calibrationStep == old(calibrationStep) && calibrationUnits == old(calibrationUnits)
      ensures calibrationReadings == old(calibrationReadings)
    {
      currentWeight := weight;
    }

    /**
     * `confirmReadings`: write the readings held now into the selected
     * device object's `calibration` (through a copy of the list that is never
     * stored), then clear the readings.
     */
    method ConfirmReadings()
      requires Valid() && 0 <= currentDevice < |devices|
      modifies this, devices[currentDevice]
      ensures Valid()
      ensures devices == old(devices) && currentDevice == old(currentDevice)
      ensures devices[currentDevice].Snapshot() == old(devices[currentDevice].Snapshot()).(calibration := old(calibrationReadings))
      ensures forall i :: 0 <= i < |devices| && i != currentDevice ==> devices[i].Snapshot() == old(devices[i].Snapshot())
      ensures calibrationReadings == [None, None, None]
      ensures calibrating == old(calibrating) && calibrationStep == old(calibrationStep)
      ensures currentWeight == old(currentWeight) && calibrationUnits == old(calibrationUnits)
    {
      var newDevices: seq<Device> := [];
      for i := 0 to |devices|
        invariant newDevices == devices[..i]
      {
        newDevices := newDevices + [devices[i]];
      }
      newDevices[currentDevice].calibration := calibrationReadings;
      calibrationReadings := [None, None, None];
    }

    /**
     * `handleSubmit` (enabled only while a non-zero weight is entered). At
     * steps 1 and 2 the weight in grams (the intended multiplying conversion,
     * not the division as written) goes to slot step - 1 and the wizard
     * advances. At step 3 the wizard closes and the device receives the
     * readings held before this submit: the third weight is never stored.
     */
    method HandleSubmit()
      requires Valid() && calibrating
      requires currentWeight.Some? && currentWeight.value != 0
      requires calibrationStep == 3 ==> 0 <= currentDevice < |devices|
      modifies this, devices
      ensures Valid()
      ensures currentWeight == None
      ensures devices == old(devices) && currentDevice == old(currentDevice) && calibrationUnits == old(calibrationUnits)
      ensures old(calibrationStep) <= 2 ==>
                calibrating && calibrationStep == old(calibrationStep) + 1
                && calibrationReadings == old(calibrationReadings)[old(calibrationStep) - 1 :=
                     Some(ToGrams(old(currentWeight).value as real, old(calibrationUnits)))]
                && forall i :: 0 <= i < |devices| ==> devices[i].Snapshot() == old(devices[i].Snapshot())
      ensures old(calibrationStep) == 3 ==>
                !calibrating && calibrationStep == 0 && calibrationReadings == [None, None, None]
                && devices[currentDevice].Snapshot() == old(devices[currentDevice].Snapshot()).(calibration := old(calibrationReadings))
                && forall i :: 0 <= i < |devices| && i != currentDevice ==> devices[i].Snapshot() == old(devices[i].Snapshot())
    {
      var grams := ToGrams(currentWeight.value as real, calibrationUnits);
      var newReadings: seq<Option<real>> := [];
      for i := 0 to |calibrationReadings|
        invariant newReadings == calibrationReadings[..i]
      {
        newReadings := newReadings + [calibrationReadings[i]];
      }
      newReadings := newReadings[calibrationStep - 1 := Some(grams)];
      currentWeight := None;
      if calibrationStep <= 2 {
        calibrationReadings := newReadings;
        calibrationStep := calibrationStep + 1;
      } else {
        calibrationStep := 0;
        calibrating := false;
        ConfirmReadings();
      }
    }

    /**
     * `confirmDisconnect`: keep every device but the selected one, in order,
     * writing each kept device's `id` to its original index. The selection
     * moves back only when it was the last index.
     */
    method ConfirmDisconnect()
      requires Valid() && 0 <= currentDevice < |devices|
      modifies this, devices
      ensures Valid()
      ensures devices == old(devices[..currentDevice] + devices[currentDevice + 1..])
      ensures forall i :: 0 <= i < |old(devices)| && i != old(currentDevice) ==>
                old(devices)[i].Snapshot() == old(devices[i].Snapshot()).(id := i)
      ensures old(devices)[old(currentDevice)].Snapshot() == old(devices[currentDevice].Snapshot())
      ensures currentDevice == if old(currentDevice) == |old(devices)| - 1 then old(currentDevice) - 1 else old(currentDevice)
      ensures calibrating == old(calibrating) && calibrationStep == old(calibrationStep)
      ensures currentWeight == old(currentWeight) && calibrationUnits == old(calibrationUnits)
      ensures calibrationReadings == old(calibrationReadings)
    {
      var ds, cd := devices, currentDevice;
      var newDevices := KeepRenumbered(ds, cd);
      if cd == |ds| - 1 {
        currentDevice := cd - 1;
      }
      DistinctWithout(ds, cd);
      devices := newDevices;
    }

    /** `resetDevices`: hand back the `exampleDevices` array, whose objects may have been edited. */
    method ResetDevices()
      requires Valid()
      modifies this
      ensures Valid()
      ensures devices == exampleDevices && currentDevice == old(currentDevice)
      ensures calibrating == old(calibrating) && calibrationStep == old(calibrationStep)
      ensures currentWeight == old(currentWeight) && calibrationUnits == old(calibrationUnits)
      ensures calibrationReadings == old(calibrationReadings)
    {
      devices := exampleDevices;
    }
  }

  /**
   * A log location typed for device 0 survives "Reset Devices": the reset
   * hands back the very objects the edit wrote to.
   */
  method EditSurvivesReset() returns (restored: string)
    ensures restored == "content://edited"
    ensures restored != DefaultLogTo
  {
    var screen := new CalibrationScreen();
    screen.HandleLogToChange("content://edited");
    screen.ResetDevices();
    restored := screen.devices[0].logTo;
  }

  /**
   * Selecting device 1 and disconnecting it leaves ids 0, 2, 3 at positions
   * 0, 1, 2; clicking the last row then selects 3, past the end of the list.
   */
  method DisconnectThenClick() returns (ids: seq<int>, selected: int, count: int)
    ensures ids == [0, 2, 3]
    ensures selected == 3 && count == 3
    ensures !(0 <= selected < count)
  {
    var screen := new CalibrationScreen();
    screen.HandleClick(Some(screen.devices[1]));
    screen.ConfirmDisconnect();
    ids := [screen.devices[0].id, screen.devices[1].id, screen.devices[2].id];
    screen.HandleClick(Some(screen.devices[2]));
    selected := screen.currentDevice;
    count := |screen.devices|;
  }

  /**
   * Disconnecting the selected last device moves the selection back one row;
   * with a single device left the same rule leaves it at -1.
   */
  method DisconnectLast() returns (selected: int, count: int, ids: seq<int>)
    ensures selected == 2 && count == 3
    ensures ids == [0, 1, 2]
  {
    var screen := new CalibrationScreen();
    screen.HandleClick(Some(screen.devices[3]));
    screen.ConfirmDisconnect();
    selected := screen.currentDevice;
    count := |screen.devices|;
    ids := [screen.devices[0].id, screen.devices[1].id, screen.devices[2].id];
  }

  /** A full wizard run with 100 g, 200 g and 300 g stores only the first two weights. */
  method WizardDropsThirdWeight() returns (stored: seq<Option<real>>, step: int, open: bool)
    ensures stored == [Some(100.0), Some(200.0), None]
    ensures step == 0 && !open
  {
    var screen := new CalibrationScreen();
    screen.ToggleCalibrating();
    screen.EnterWeight(Some(100));
    screen.HandleSubmit();
    screen.EnterWeight(Some(200));
    screen.HandleSubmit();
    screen.EnterWeight(Some(300));
    screen.HandleSubmit();
    stored := screen.devices[0].calibration;
    step := screen.calibrationStep;
    open := screen.calibrating;
  }
}
