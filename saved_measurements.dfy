/** The Log app's list of saved readings: selecting a row, deleting rows and
    saving edited notes back into the list. */
module SavedMeasurements {
  import opened Common
  import opened Lists
  import opened LogMeasurement

  function IdOf(m: Measurement): Uuid
  {
    m.id
  }

  /** The list after the notes editor saves `notes` for `target`: the first
      record with `target`'s id is overwritten by `target` carrying the new
      notes, and a list without that id is returned as it was. */
  function WithNotes(ms: seq<Measurement>, target: Measurement, notes: string): (r: seq<Measurement>)
    ensures |r| == |ms|
    ensures (forall i :: 0 <= i < |ms| ==> ms[i].id != target.id) ==> r == ms
    ensures forall k :: 0 <= k < |ms| && ms[k].id == target.id &&
                        (forall j :: 0 <= j < k ==> ms[j].id != target.id) ==>
              && r[k] == target.(notes := notes)
              && (forall j :: 0 <= j < |ms| && j != k ==> r[j] == ms[j])
  {
    match FirstIndexOf(ms, IdOf, target.id)
    case None => ms
    case Some(index) => ms[index := target.(notes := notes)]
  }

  /** When the edited record is the list's copy of it (the fields other than
      the notes never change after saving), saving notes changes only that
      record's notes: every field but the notes, and every other record, is
      kept. */
  lemma WithNotesChangesOnlyNotes(ms: seq<Measurement>, k: nat, notes: string)
    requires k < |ms|
    requires forall j :: 0 <= j < k ==> ms[j].id != ms[k].id
    ensures WithNotes(ms, ms[k], notes) == ms[k := ms[k].(notes := notes)]
    ensures WithNotes(ms, ms[k], notes)[k].notes == notes
  {
    var r := WithNotes(ms, ms[k], notes);
    assert r[k] == ms[k].(notes := notes);
    forall j | 0 <= j < |ms|
      ensures r[j] == ms[k := ms[k].(notes := notes)][j]
    {
    }
  }

  class SavedMeasurementsScreen {
    /** The parent screen's list, shared through a binding. */
    var measurements: seq<Measurement>
    var selectedMeasurement: Option<Measurement>
    var showingDetails: bool
    var editingNotes: string

    constructor (measurements: seq<Measurement>)
      ensures this.measurements == measurements
      ensures selectedMeasurement == None && !showingDetails && editingNotes == ""
    {
      this.measurements := measurements;
      selectedMeasurement := None;
      showingDetails := false;
      editingNotes := "";
    }

    /** Tapping a row: remembers the record, loads its notes into the editor
        and opens the detail sheet. */
    method Select(m: Measurement)
      modifies this
      ensures selectedMeasurement == Some(m) && editingNotes == m.notes && showingDetails
      ensures measurements == old(measurements)
    {
      selectedMeasurement := Some(m);
      editingNotes := m.notes;
      showingDetails := true;
    }

    /** `deleteMeasurement(at:)`. Offsets come from the rows on screen, so
        they are positions of the list. */
    method Delete(offsets: set<nat>)
      requires forall o :: o in offsets ==> o < |measurements|
      modifies this
      ensures measurements == RemoveOffsets(old(measurements), offsets)
      ensures |measurements| == |old(measurements)| - |offsets|
      ensures selectedMeasurement == old(selectedMeasurement)
      ensures showingDetails == old(showingDetails) && editingNotes == old(editingNotes)
    {
      RemoveOffsetsCount(measurements, offsets);
      measurements := RemoveOffsets(measurements, offsets);
    }

    /** The detail sheet's `onSave`: writes the notes into the list entry
        with the selected record's id, if there still is one. The sheet
        exists only while a record is selected. */
    method SaveNotes(notes: string)
      modifies this
      ensures selectedMeasurement.None? ==> measurements == old(measurements)
      ensures selectedMeasurement.Some? ==>
                measurements == WithNotes(old(measurements), selectedMeasurement.value, notes)
      ensures |measurements| == |old(measurements)|
      ensures selectedMeasurement == old(selectedMeasurement)
      ensures showingDetails == old(showingDetails) && editingNotes == old(editingNotes)
    {
      if selectedMeasurement.Some? {
        var measurement := selectedMeasurement.value;
        var index := FirstIndexOf(measurements, IdOf, measurement.id);
        if index.Some? {
          measurements := measurements[index.value := measurement.(notes := notes)];
        }
      }
    }
  }
}
