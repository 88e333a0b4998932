/** The VeeTA clinometer screens (for an existing tree and while creating a
    new one). Each device-motion sample turns the pitch into the displayed
    inclination, rebased on a zero reference once the screen is calibrated;
    "Calibra Zero" stores the displayed inclination as the new reference and
    shows zero; saving needs a calibrated screen on a ready AR session. */
module ZeroClinometer {
  import opened Common
  import opened ArSession
  import opened Records
  import Trees

  /** `currentInclination`, `isCalibrated` and `zeroReferenceAngle`. */
  datatype Readout = Readout(currentInclination: real, isCalibrated: bool, zeroReferenceAngle: real)

  const InitialReadout: Readout := Readout(0.0, false, 0.0)

  /** The displayed inclination is the last sampled pitch, rebased on the
      reference when calibrated. */
  predicate Tracks(r: Readout, pitch: real)
  {
    r.currentInclination == if r.isCalibrated then pitch - r.zeroReferenceAngle else pitch
  }

  /** The motion handler: a new pitch (in degrees) replaces the displayed
      inclination and leaves the calibration alone. */
  function Sample(r: Readout, pitch: real): (s: Readout)
    ensures Tracks(s, pitch)
    ensures s.isCalibrated == r.isCalibrated && s.zeroReferenceAngle == r.zeroReferenceAngle
  {
    var inclination := if r.isCalibrated then pitch - r.zeroReferenceAngle else pitch;
    r.(currentInclination := inclination)
  }

  /** `calibrateZero()` as written: the new reference is the displayed
      inclination, which is already rebased when the screen was calibrated. */
  function CalibrateZeroAsWritten(r: Readout): (s: Readout)
    ensures s.isCalibrated && s.currentInclination == 0.0
    ensures s.zeroReferenceAngle == r.currentInclination
  {
    Readout(0.0, true, r.currentInclination)
  }

  /** `calibrateZero()` with the reference it evidently means, the pitch of
      the current position: the displayed inclination plus the reference it
      was rebased on. */
  function CalibrateZero(r: Readout): (s: Readout)
    ensures s.isCalibrated && s.currentInclination == 0.0
    ensures !r.isCalibrated ==> s.zeroReferenceAngle == r.currentInclination
  {
    var reference := if r.isCalibrated then r.zeroReferenceAngle + r.currentInclination
                     else r.currentInclination;
    Readout(0.0, true, reference)
  }

  /** After calibrating, the position it was taken at reads zero, and keeps
      reading zero on the next sample at that position, however many times
      the screen was calibrated before. */
  lemma CalibrateZeroZeroesCurrentPosition(r: Readout, pitch: real)
    requires Tracks(r, pitch)
    ensures Tracks(CalibrateZero(r), pitch)
    ensures CalibrateZero(r).zeroReferenceAngle == pitch
    ensures Sample(CalibrateZero(r), pitch).currentInclination == 0.0
  {
  }

  /** The code as written agrees with that on the first calibration... */
  lemma CalibrateZeroAsWrittenFirstTime(r: Readout, pitch: real)
    requires Tracks(r, pitch) && !r.isCalibrated
    ensures CalibrateZeroAsWritten(r) == CalibrateZero(r)
    ensures Sample(CalibrateZeroAsWritten(r), pitch).currentInclination == 0.0
  {
  }

  /** ...but a re-calibration stores `pitch - oldReference`, so the next
      sample at the same position shows the old reference instead of zero. */
  lemma CalibrateZeroAsWrittenRecalibration(r: Readout, pitch: real)
    requires Tracks(r, pitch) && r.isCalibrated
    ensures CalibrateZeroAsWritten(r).zeroReferenceAngle == pitch - r.zeroReferenceAngle
    ensures Sample(CalibrateZeroAsWritten(r), pitch).currentInclination == r.zeroReferenceAngle
  {
  }

  /** Held at 10 degrees and calibrated twice, the screen as written shows
      10 degrees again, where the corrected rule shows 0. */
  lemma CalibrateTwiceCounterexample()
    ensures var once := Sample(CalibrateZeroAsWritten(Sample(InitialReadout, 10.0)), 10.0);
            Sample(CalibrateZeroAsWritten(once), 10.0).currentInclination == 10.0
    ensures var once := Sample(CalibrateZero(Sample(InitialReadout, 10.0)), 10.0);
            Sample(CalibrateZero(once), 10.0).currentInclination == 0.0
  {
  }

  /** `InclinationIndicator`: the needle angle is held within a half turn. */
  function IndicatorAngle(inclination: real): (r: real)
    ensures -90.0 <= r <= 90.0
    ensures -90.0 <= inclination <= 90.0 ==> r == inclination
    ensures inclination > 90.0 ==> r == 90.0
    ensures inclination < -90.0 ==> r == -90.0
  {
    Clamp(-90.0, 90.0, inclination)
  }

  /** The needle is red once calibrated, orange before. */
  function IndicatorColor(isCalibrated: bool): (c: Color)
    ensures c == Red <==> isCalibrated
    ensures c == Orange <==> !isCalibrated
  {
    if isCalibrated then Red else Orange
  }

  /** `BubbleLevel`: green within 2 degrees of level, red otherwise. */
  function BubbleColor(inclination: real): (c: Color)
    ensures c == Green <==> Abs(inclination) < 2.0
    ensures c == Red <==> Abs(inclination) >= 2.0
  {
    if Abs(inclination) < 2.0 then Green else Red
  }

  /** The bubble moves 8 points per degree and stays within 0.7 of the
      bubble size either side. */
  function BubbleOffset(inclination: real, size: real): (r: real)
    requires size >= 0.0
    ensures -size * 0.7 <= r <= size * 0.7
    ensures -size * 0.7 <= inclination * 8.0 <= size * 0.7 ==> r == inclination * 8.0
  {
    Max(-size * 0.7, Min(size * 0.7, inclination * 8.0))
  }

  const CalibratedMessage: string :=
    "Calibrazione completata! Il punto attuale è ora impostato come riferimento zero."
  const SavedMessage: string := "Misurazione salvata con successo!"
  const SaveErrorPrefix: string := "Errore nel salvare la misurazione: "
  const TreeSavedMessage: string := "Albero e misurazione dell'inclinazione salvati con successo!"

  /** The word the alert's OK button looks for. */
  const SuccessMarker: string := "successo"

  /** The reference stays 0 until the first calibration, and a screen once
      calibrated stays calibrated. */
  predicate ReferenceConsistent(r: Readout)
  {
    !r.isCalibrated ==> r.zeroReferenceAngle == 0.0
  }

  /** Sampling and calibrating (with either rule) keep the reference
      consistent, starting from the initial readout. */
  lemma ReferenceConsistentPreserved(r: Readout, pitch: real)
    requires ReferenceConsistent(r)
    ensures ReferenceConsistent(InitialReadout)
    ensures ReferenceConsistent(Sample(r, pitch))
    ensures ReferenceConsistent(CalibrateZeroAsWritten(r)) && ReferenceConsistent(CalibrateZero(r))
  {
  }

  /** Both success messages contain the marker. */
  lemma SuccessMessagesContainMarker()
    ensures ContainsSubstring(SavedMessage, SuccessMarker)
    ensures ContainsSubstring(TreeSavedMessage, SuccessMarker)
  {
    assert OccursAt(SavedMessage, SuccessMarker, 24);
    ContainsSubstringOccurs(SavedMessage, SuccessMarker);
    assert OccursAt(TreeSavedMessage, SuccessMarker, 51);
    ContainsSubstringOccurs(TreeSavedMessage, SuccessMarker);
  }

  /** The clinometer screen of an existing tree. The records it saves are
      collected in `inserted`, standing for the model context. */
  class ClinometerScreen {
    var readout: Readout
    var notes: string
    var showingAlert: bool
    var alertMessage: string
    var session: Session
    var dismissScheduled: bool
    var inserted: seq<ClinometerRecord>

    predicate Valid()
      reads this
    {
      ReferenceConsistent(readout)
    }

    constructor ()
      ensures Valid()
      ensures readout == InitialReadout && session == InitialSession
      ensures notes == "" && !showingAlert && alertMessage == ""
      ensures !dismissScheduled && inserted == []
    {
      readout := InitialReadout;
      notes := "";
      showingAlert := false;
      alertMessage := "";
      session := InitialSession;
      dismissScheduled := false;
      inserted := [];
    }

    /** "Salva" is enabled only on a calibrated screen with a ready session;
        "Calibra Zero" only with a ready session. */
    predicate CanSave()
      reads this
    {
      readout.isCalibrated && session.ready
    }

    predicate CanCalibrate()
      reads this
    {
      session.ready
    }

    /** The device-motion handler; `attitudePitch` is in radians and a
        callback without motion data is ignored. */
    method OnDeviceMotion(attitudePitch: Option<real>, degreesPerRadian: real)
      requires Valid()
      modifies this
      ensures Valid()
      ensures attitudePitch.None? ==> readout == old(readout)
      ensures attitudePitch.Some? ==> readout == Sample(old(readout), attitudePitch.value * degreesPerRadian)
      ensures attitudePitch.Some? ==> Tracks(readout, attitudePitch.value * degreesPerRadian)
      ensures session == old(session) && inserted == old(inserted) && notes == old(notes)
      ensures showingAlert == old(showingAlert) && alertMessage == old(alertMessage)
      ensures dismissScheduled == old(dismissScheduled)
    {
      if attitudePitch.None? {
        return;
      }
      var pitch := attitudePitch.value * degreesPerRadian;
      readout := Sample(readout, pitch);
    }

    /** `calibrateZero()` as the code has it: the displayed inclination
        becomes the reference, which on a first calibration is the current
        position. */
    method CalibrateZeroAction()
      requires Valid() && CanCalibrate()
      modifies this
      ensures Valid()
      ensures readout == CalibrateZeroAsWritten(old(readout))
      ensures readout.isCalibrated && readout.currentInclination == 0.0
      ensures readout.zeroReferenceAngle == old(readout.currentInclination)
      ensures !old(readout.isCalibrated) ==> readout == CalibrateZero(old(readout))
      ensures alertMessage == CalibratedMessage && showingAlert
      ensures session == old(session) && inserted == old(inserted) && notes == old(notes)
      ensures dismissScheduled == old(dismissScheduled)
    {
      readout := CalibrateZeroAsWritten(readout);
      alertMessage := CalibratedMessage;
      showingAlert := true;
    }

    /** `saveMeasurement()`: hands one record with the displayed inclination
        and the notes to the model context; `saveError` is the error its
        `save()` throws, if any. Success schedules the dismissal. */
    method SaveMeasurement(now: Date, saveError: Option<string>)
      requires CanSave()
      modifies this
      ensures inserted == old(inserted) + [NewRecord(readout.currentInclination, notes, now)]
      ensures showingAlert
      ensures saveError.None? ==> alertMessage == SavedMessage && dismissScheduled
      ensures saveError.Some? ==>
                alertMessage == SaveErrorPrefix + saveError.value
                && dismissScheduled == old(dismissScheduled)
      ensures readout == old(readout) && session == old(session) && notes == old(notes)
    {
      var measurement := NewRecord(readout.currentInclination, notes, now);
      inserted := inserted + [measurement];
      if saveError.None? {
        alertMessage := SavedMessage;
        showingAlert := true;
        dismissScheduled := true;
      } else {
        alertMessage := SaveErrorPrefix + saveError.value;
        showingAlert := true;
      }
    }

    /** The alert's OK button only closes the alert. */
    method AlertOk()
      modifies this
      ensures !showingAlert
      ensures readout == old(readout) && session == old(session) && notes == old(notes)
      ensures inserted == old(inserted) && alertMessage == old(alertMessage)
      ensures dismissScheduled == old(dismissScheduled)
    {
      showingAlert := false;
    }

    /** The AR view's callbacks and the retry button. */
    method OnSessionEvent(e: SessionEvent)
      modifies this
      ensures session == OnEvent(old(session), e)
      ensures readout == old(readout) && inserted == old(inserted) && notes == old(notes)
      ensures showingAlert == old(showingAlert) && alertMessage == old(alertMessage)
      ensures dismissScheduled == old(dismissScheduled)
    {
      session := OnEvent(session, e);
    }
  }

  /** `ClinometerForNewTreeView`: the same readout, saving a new tree that
      carries the reading and handing it to `onSave` (collected in
      `delivered`). */
  class NewTreeClinometerScreen {
    const treeName: string
    const treeSpecies: string
    const extraNotes: string
    const cluster: Option<Trees.ClusterRef>
    var readout: Readout
    var notes: string
    var showingAlert: bool
    var alertMessage: string
    var session: Session
    var dismissed: bool
    var delivered: seq<Trees.Tree>

    predicate Valid()
      reads this
    {
      ReferenceConsistent(readout)
    }

    constructor (treeName: string, treeSpecies: string, extraNotes: string, cluster: Option<Trees.ClusterRef>)
      ensures Valid()
      ensures this.treeName == treeName && this.treeSpecies == treeSpecies
      ensures this.extraNotes == extraNotes && this.cluster == cluster
      ensures readout == InitialReadout && session == InitialSession
      ensures notes == "" && !showingAlert && alertMessage == ""
      ensures !dismissed && delivered == []
    {
      this.treeName := treeName;
      this.treeSpecies := treeSpecies;
      this.extraNotes := extraNotes;
      this.cluster := cluster;
      readout := InitialReadout;
      notes := "";
      showingAlert := false;
      alertMessage := "";
      session := InitialSession;
      dismissed := false;
      delivered := [];
    }

    /** "Salva Albero" is enabled only on a calibrated screen with a ready
        session. */
    predicate CanSave()
      reads this
    {
      readout.isCalibrated && session.ready
    }

    method OnDeviceMotion(attitudePitch: Option<real>, degreesPerRadian: real)
      requires Valid()
      modifies this
      ensures Valid()
      ensures attitudePitch.None? ==> readout == old(readout)
      ensures attitudePitch.Some? ==> readout == Sample(old(readout), attitudePitch.value * degreesPerRadian)
      ensures attitudePitch.Some? ==> Tracks(readout, attitudePitch.value * degreesPerRadian)
      ensures session == old(session) && delivered == old(delivered) && notes == old(notes)
      ensures showingAlert == old(showingAlert) && alertMessage == old(alertMessage)
      ensures dismissed == old(dismissed)
    {
      if attitudePitch.None? {
        return;
      }
      var pitch := attitudePitch.value * degreesPerRadian;
      readout := Sample(readout, pitch);
    }

    /** `calibrateZero()`, the same assignment as on the other screen. */
    method CalibrateZeroAction()
      requires Valid() && session.ready
      modifies this
      ensures Valid()
      ensures readout == CalibrateZeroAsWritten(old(readout))
      ensures readout.isCalibrated && readout.currentInclination == 0.0
      ensures readout.zeroReferenceAngle == old(readout.currentInclination)
      ensures !old(readout.isCalibrated) ==> readout == CalibrateZero(old(readout))
      ensures alertMessage == CalibratedMessage && showingAlert
      ensures session == old(session) && delivered == old(delivered) && notes == old(notes)
      ensures dismissed == old(dismissed)
    {
      readout := CalibrateZeroAsWritten(readout);
      alertMessage := CalibratedMessage;
      showingAlert := true;
    }

    /** `saveMeasurementAndTree()`: builds the tree with its single
        inclination record, calls `onSave` with it exactly once and raises the
        success alert. */
    method SaveMeasurementAndTree(now: Date) returns (newTree: Trees.Tree)
      requires CanSave()
      modifies this
      ensures fresh(newTree)
      ensures newTree.name == treeName && newTree.species == treeSpecies
      ensures newTree.extraNotes == extraNotes && newTree.cluster == cluster
      ensures newTree.clinometer == [NewRecord(readout.currentInclination, notes, now)]
      ensures newTree.measurements == [] && newTree.lengthMeasurements == [] && newTree.treeProiection == []
      ensures delivered == old(delivered) + [newTree]
      ensures alertMessage == TreeSavedMessage && showingAlert
      ensures readout == old(readout) && session == old(session) && notes == old(notes)
      ensures dismissed == old(dismissed)
    {
      newTree := new Trees.Tree(treeName, treeSpecies, extraNotes, cluster, now);
      var measurement := NewRecord(readout.currentInclination, notes, now);
      newTree.AppendClinometer(measurement);
      delivered := delivered + [newTree];
      alertMessage := TreeSavedMessage;
      showingAlert := true;
    }

    /** The alert's OK button closes the alert, and dismisses the screen only
        after a success. */
    method AlertOk()
      modifies this
      ensures dismissed == (old(dismissed) || ContainsSubstring(alertMessage, SuccessMarker))
      ensures alertMessage == TreeSavedMessage ==> dismissed
      ensures !showingAlert
      ensures readout == old(readout) && session == old(session) && notes == old(notes)
      ensures delivered == old(delivered) && alertMessage == old(alertMessage)
    {
      SuccessMessagesContainMarker();
      showingAlert := false;
      if ContainsSubstring(alertMessage, SuccessMarker) {
        dismissed := true;
      }
    }

    method OnSessionEvent(e: SessionEvent)
      modifies this
      ensures session == OnEvent(old(session), e)
      ensures readout == old(readout) && delivered == old(delivered) && notes == old(notes)
      ensures showingAlert == old(showingAlert) && alertMessage == old(alertMessage)
      ensures dismissed == old(dismissed)
    {
      session := OnEvent(session, e);
    }
  }
}
