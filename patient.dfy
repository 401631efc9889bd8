/**
 * The patient screen (navigation/Patient.js): the medical-condition
 * checklist and the editors of the patient record.
 */
module Patient {
  import opened Options

  /** `allConditions`: the checklist's entries, in display order. */
  function AllConditions(): (cs: seq<string>)
    ensures |cs| == 5
    ensures forall i, j :: 0 <= i < j < |cs| ==> cs[i] != cs[j]
  {
    ["Diabetes", "Option 2", "Option 3", "...", "Other"]
  }

  /** `medicalConditions.filter(c => c !== condition)`, defined on the last element. */
  function Without(s: seq<string>, c: string): (r: seq<string>)
    ensures c !in r
    ensures forall x :: x != c ==> (x in r <==> x in s)
    ensures |r| <= |s|
  {
    if s == [] then []
    else
      assert s == s[..|s| - 1] + [s[|s| - 1]];
      Without(s[..|s| - 1], c) + (if s[|s| - 1] == c then [] else [s[|s| - 1]])
  }

  /** Filtering splits over concatenation, so the kept entries stay in their order. */
  lemma {:induction false} WithoutAppend(a: seq<string>, b: seq<string>, c: string)
    ensures Without(a + b, c) == Without(a, c) + Without(b, c)
  {
    if b == [] {
      assert a + b == a;
    } else {
      var b' := b[..|b| - 1];
      assert (a + b)[..|a + b| - 1] == a + b';
      assert (a + b)[|a + b| - 1] == b[|b| - 1];
      WithoutAppend(a, b', c);
    }
  }

  /** Filtering out an absent entry changes nothing. */
  lemma {:induction false} WithoutAbsent(s: seq<string>, c: string)
    requires c !in s
    ensures Without(s, c) == s
  {
    if s != [] {
      assert s[|s| - 1] in s;
      assert s[..|s| - 1] + [s[|s| - 1]] == s;
      WithoutAbsent(s[..|s| - 1], c);
    }
  }

  /** Every copy of `c` goes, every other entry keeps its multiplicity. */
  lemma {:induction false} WithoutCounts(s: seq<string>, c: string)
    ensures multiset(Without(s, c)) == multiset(s)[c := 0]
  {
    if s != [] {
      var p := s[..|s| - 1];
      assert s == p + [s[|s| - 1]];
      WithoutCounts(p, c);
    }
  }

  /** `toggleCondition` on the list: remove if present, otherwise append. */
  function Toggled(s: seq<string>, c: string): (r: seq<string>)
    ensures c in r <==> c !in s
    ensures forall x :: x != c ==> (x in r <==> x in s)
  {
    if c in s then Without(s, c) else s + [c]
  }

  /** Toggling an absent condition twice restores the list exactly. */
  lemma ToggleTwice(s: seq<string>, c: string)
    requires c !in s
    ensures Toggled(s, c) == s + [c]
    ensures Toggled(Toggled(s, c), c) == s
  {
    WithoutAppend(s, [c], c);
    assert Without([c], c) == Without([], c) + [];
    WithoutAbsent(s, c);
  }

  /** `StyledCheckbox checked={medicalConditions.includes(cond)}`. */
  function Checked(s: seq<string>, index: int): (b: bool)
    requires 0 <= index < |AllConditions()|
    ensures b <==> exists k :: 0 <= k < |s| && s[k] == AllConditions()[index]
  {
    AllConditions()[index] in s
  }

  /** Toggling checkbox i flips that box and leaves every other box as it was. */
  lemma ToggleFlipsOneCheckbox(s: seq<string>, i: int, j: int)
    requires 0 <= i < |AllConditions()| && 0 <= j < |AllConditions()|
    ensures Checked(Toggled(s, AllConditions()[i]), i) == !Checked(s, i)
    ensures i != j ==> Checked(Toggled(s, AllConditions()[i]), j) == Checked(s, j)
  {
  }

  /** The patient record; `weight` and `height` are None where `parseInt` gives NaN. */
  datatype PatientRecord = PatientRecord(
    name: string,
    weight: Option<int>,
    weightUnit: string,
    height: Option<int>,
    heightUnit: string,
    age: int)

  /** The screen's state: the patient shared through the app and the checked conditions. */
  class PatientScreen {
    var patient: PatientRecord
    var medicalConditions: seq<string>

    constructor (initial: PatientRecord)
      ensures patient == initial && medicalConditions == []
    {
      patient := initial;
      medicalConditions := [];
    }

    /**
     * `toggleCondition(index)`: filter the condition out when present,
     * otherwise copy the list and push the condition at the end.
     */
    method ToggleCondition(index: int)
      requires 0 <= index < |AllConditions()|
      modifies this
      ensures medicalConditions == Toggled(old(medicalConditions), AllConditions()[index])
      ensures old(AllConditions()[index] !in medicalConditions) ==>
                medicalConditions == old(medicalConditions) + [AllConditions()[index]]
      ensures old(AllConditions()[index] in medicalConditions) ==>
                multiset(medicalConditions) == multiset(old(medicalConditions))[AllConditions()[index] := 0]
      ensures patient == old(patient)
    {
      var condition := AllConditions()[index];
      if condition in medicalConditions {
        WithoutCounts(medicalConditions, condition);
        medicalConditions := Without(medicalConditions, condition);
      } else {
        var newConditions: seq<string> := [];
        for i := 0 to |medicalConditions|
          invariant newConditions == medicalConditions[..i]
        {
          newConditions := newConditions + [medicalConditions[i]];
        }
        newConditions := newConditions + [condition];
        medicalConditions := newConditions;
      }
    }

    /** `updatePatientName`. */
    method UpdatePatientName(t: string)
      modifies this
      ensures patient == old(patient).(name := t)
      ensures medicalConditions == old(medicalConditions)
    {
      var newPatient := patient;
      newPatient := newPatient.(name := t);
      patient := newPatient;
    }

    /** `updatePatientWeight`, with the parsed number (None for NaN) given. */
    method UpdatePatientWeight(parsed: Option<int>)
      modifies this
      ensures patient == old(patient).(weight := parsed)
      ensures medicalConditions == old(medicalConditions)
    {
      var newPatient := patient;
      newPatient := newPatient.(weight := parsed);
      patient := newPatient;
    }

    /** `updatePatientWeightUnit`. */
    method UpdatePatientWeightUnit(unit: string)
      modifies this
      ensures patient == old(patient).(weightUnit := unit)
      ensures medicalConditions == old(medicalConditions)
    {
      var newPatient := patient;
      newPatient := newPatient.(weightUnit := unit);
      patient := newPatient;
    }

    /** `updatePatientHeight`, with the parsed number (None for NaN) given. */
    method UpdatePatientHeight(parsed: Option<int>)
      modifies this
      ensures patient == old(patient).(height := parsed)
      ensures medicalConditions == old(medicalConditions)
    {
      var newPatient := patient;
      newPatient := newPatient.(height := parsed);
      patient := newPatient;
    }

    /** `updatePatientHeightUnit`. */
    method UpdatePatientHeightUnit(unit: string)
      modifies this
      ensures patient == old(patient).(heightUnit := unit)
      ensures medicalConditions == old(medicalConditions)
    {
      var newPatient := patient;
      newPatient := newPatient.(heightUnit := unit);
      patient := newPatient;
    }
  }

  /** Editing the name leaves weight, units, height and age as they were. */
  method EditNameKeepsRest() returns (before: PatientRecord, after: PatientRecord)
    ensures after.name == "A. Patient"
    ensures after.weight == before.weight && after.weightUnit == before.weightUnit
    ensures after.height == before.height && after.heightUnit == before.heightUnit && after.age == before.age
    ensures before == PatientRecord("Joe Dobbelaar", Some(78), "lb", Some(72), "in", 21)
  {
    before := PatientRecord("Joe Dobbelaar", Some(78), "lb", Some(72), "in", 21);
    var screen := new PatientScreen(before);
    screen.UpdatePatientName("A. Patient");
    after := screen.patient;
  }
}
