/** The dashboard's medication tracker: a pet's dosing schedule, the
    "mark as given" and "add medication" handlers, the current-medications
    view and how a dosing time is displayed. The clock and the id source are
    parameters. */
module Tracker {
  import opened Common

  /** One medication on the schedule. `time` is a comma-joined list of times. */
  datatype Medication = Medication(
    id: string,
    name: string,
    dosage: string,
    frequency: string,
    startDate: Date,
    endDate: Option<Date>,
    time: string,
    notes: Option<string>,
    isActive: bool,
    lastGiven: Option<Date>)

  /** What the add handler is given: a medication without id and active flag. */
  datatype MedicationInput = MedicationInput(
    name: string,
    dosage: string,
    frequency: string,
    startDate: Date,
    endDate: Option<Date>,
    time: string,
    notes: Option<string>,
    lastGiven: Option<Date>)

  /** The record the add handler appends: the input, the id, and active. */
  function NewMedication(m: MedicationInput, id: string): (r: Medication)
    ensures r.id == id && r.isActive
    ensures r.name == m.name && r.dosage == m.dosage && r.frequency == m.frequency
    ensures r.startDate == m.startDate && r.endDate == m.endDate && r.time == m.time
    ensures r.notes == m.notes && r.lastGiven == m.lastGiven
  {
    Medication(id, m.name, m.dosage, m.frequency, m.startDate, m.endDate,
               m.time, m.notes, true, m.lastGiven)
  }

  /** `meds.map(med => med.id === id ? {...med, lastGiven: now} : med)`:
      every record with the id gets `lastGiven = now` and nothing else
      changes. */
  function MarkGiven(meds: seq<Medication>, id: string, now: Date): (r: seq<Medication>)
    ensures |r| == |meds|
    ensures forall i :: 0 <= i < |meds| && meds[i].id == id ==> r[i] == meds[i].(lastGiven := Some(now))
    ensures forall i :: 0 <= i < |meds| && meds[i].id != id ==> r[i] == meds[i]
  {
    if meds == [] then []
    else
      [if meds[0].id == id then meds[0].(lastGiven := Some(now)) else meds[0]]
      + MarkGiven(meds[1..], id, now)
  }

  /** On a record it marks, MarkGiven touches `lastGiven` only. */
  lemma MarkGivenKeepsOtherFields(meds: seq<Medication>, id: string, now: Date, i: int)
    requires 0 <= i < |meds| && meds[i].id == id
    ensures var m := MarkGiven(meds, id, now)[i];
      && m.lastGiven == Some(now)
      && m.id == meds[i].id && m.name == meds[i].name && m.dosage == meds[i].dosage
      && m.frequency == meds[i].frequency && m.startDate == meds[i].startDate
      && m.endDate == meds[i].endDate && m.time == meds[i].time
      && m.notes == meds[i].notes && m.isActive == meds[i].isActive
  {
  }

  /** Marking an id no record has leaves the list as it was. */
  lemma MarkGivenUnknownId(meds: seq<Medication>, id: string, now: Date)
    requires forall i :: 0 <= i < |meds| ==> meds[i].id != id
    ensures MarkGiven(meds, id, now) == meds
  {
  }

  function IsActive(m: Medication): bool
  {
    m.isActive
  }

  /** The "current medications" tab: the active records, in list order. */
  function ActiveMedications(meds: seq<Medication>): (r: seq<Medication>)
    ensures forall i :: 0 <= i < |r| ==> r[i].isActive
    ensures forall i :: 0 <= i < |meds| && meds[i].isActive ==> meds[i] in r
    ensures IsSubsequence(r, meds)
    ensures |r| == Count(meds, IsActive)
  {
    FilterIsSubsequence(meds, IsActive);
    FilterKeepsMatches(meds, IsActive);
    Filter(meds, IsActive)
  }

  /** The footer's "N active medications". */
  function ActiveCount(meds: seq<Medication>): (n: nat)
    ensures n <= |meds|
    ensures n == 0 <==> forall i :: 0 <= i < |meds| ==> !meds[i].isActive
  {
    CountZero(meds, IsActive);
    |ActiveMedications(meds)|
  }

  /** Marking a medication as given and then taking the active view is the
      same as marking it in the active view: the view keeps its records and
      their order, so the footer count is unchanged too. */
  lemma {:induction false} ActiveAfterMarkGiven(meds: seq<Medication>, id: string, now: Date)
    ensures ActiveMedications(MarkGiven(meds, id, now)) == MarkGiven(ActiveMedications(meds), id, now)
    ensures ActiveCount(MarkGiven(meds, id, now)) == ActiveCount(meds)
  {
    if meds != [] {
      var m, rest := meds[0], meds[1..];
      var marked := if m.id == id then m.(lastGiven := Some(now)) else m;
      assert meds == [m] + rest;
      ActiveAfterMarkGiven(rest, id, now);
      MarkGivenCons(m, rest, id, now);
      FilterCons(marked, MarkGiven(rest, id, now), IsActive);
      FilterCons(m, rest, IsActive);
      if m.isActive {
        MarkGivenCons(m, Filter(rest, IsActive), id, now);
      }
    }
  }

  /** One step of MarkGiven. */
  lemma MarkGivenCons(m: Medication, s: seq<Medication>, id: string, now: Date)
    ensures MarkGiven([m] + s, id, now)
      == [if m.id == id then m.(lastGiven := Some(now)) else m] + MarkGiven(s, id, now)
  {
    assert ([m] + s)[0] == m && ([m] + s)[1..] == s;
  }

  /** An added medication is active, so it ends the current view. */
  lemma ActiveAfterAdd(meds: seq<Medication>, m: MedicationInput, id: string)
    ensures ActiveMedications(meds + [NewMedication(m, id)])
      == ActiveMedications(meds) + [NewMedication(m, id)]
    ensures ActiveCount(meds + [NewMedication(m, id)]) == ActiveCount(meds) + 1
  {
    FilterAppend(meds, [NewMedication(m, id)], IsActive);
  }

  /** How a dosing time is shown: several comma-joined times read
      "Multiple times", a single time is shown as it is. */
  function TimeDisplay(time: string): (shown: string)
    ensures ',' in time ==> shown == "Multiple times"
    ensures ',' !in time ==> shown == time
  {
    if ',' in time then "Multiple times" else time
  }

  /** The tracker card's state. */
  class MedicationTracker {
    var medications: seq<Medication>
    var isAddMedicationOpen: bool

    /** The card as it mounts: the add dialog starts open. */
    constructor (initial: seq<Medication>)
      ensures medications == initial && isAddMedicationOpen
    {
      medications := initial;
      isAddMedicationOpen := true;
    }

    /** "Mark as Given"; `now` stands for the current time. */
    method MarkAsGiven(id: string, now: Date)
      modifies this
      ensures medications == MarkGiven(old(medications), id, now)
      ensures isAddMedicationOpen == old(isAddMedicationOpen)
    {
      medications := MarkGiven(medications, id, now);
    }

    /** The add handler; `id` stands for the time-derived id. */
    method AddMedication(m: MedicationInput, id: string)
      modifies this
      ensures medications == old(medications) + [NewMedication(m, id)]
      ensures !isAddMedicationOpen
    {
      medications := medications + [NewMedication(m, id)];
      isAddMedicationOpen := false;
    }

    /** The add dialog's "Cancel" button closes it. */
    method CloseAddDialog()
      modifies this
      ensures !isAddMedicationOpen && medications == old(medications)
    {
      isAddMedicationOpen := false;
    }

    /** The empty view's "Add Medication" button opens the add dialog. */
    method OpenAddDialog()
      modifies this
      ensures isAddMedicationOpen && medications == old(medications)
    {
      isAddMedicationOpen := true;
    }
  }
}
