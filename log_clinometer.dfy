/** The Log app's clinometer screen: the angles it derives from the filtered
    pitch and roll, its calibration toggle, the assessment labels and colours
    it shows, and the list of saved readings. Pitch and roll are the motion
    manager's published values in degrees, passed in by the caller. */
module LogClinometer {
  import opened Common
  import opened Modes
  import opened Severity
  import opened LogMeasurement

  /** `calibrationOffset`. */
  datatype Offset = Offset(pitch: real, roll: real)

  /** The name given to a reading saved without one. */
  const UnnamedTree: string := "Misura senza nome"

  /** The starting distance to the tree, in metres. */
  const DefaultDistance: real := 20.0

  /** `getRelevantAngle()`. */
  function RelevantAngle(mode: Mode, axis: Axis, pitch: real, roll: real, off: Offset): real
  {
    match mode
    case TreeLean =>
      var rawAngle := if axis == Longitudinal then pitch - off.pitch else roll - off.roll;
      90.0 - rawAngle
    case SlopeGrade => pitch - off.pitch
    case TreeHeight => pitch - off.pitch
  }

  /** `getOtherAxisAngle()`. */
  function OtherAxisAngle(mode: Mode, axis: Axis, pitch: real, roll: real, off: Offset): real
  {
    if mode == TreeLean then
      var rawAngle := if axis == Longitudinal then roll - off.roll else pitch - off.pitch;
      90.0 - rawAngle
    else 0.0
  }

  /** `calculateTreeHeight(angle:distance:)`: `distance * tan(angle)` with
      the angle in degrees. */
  function TreeHeightEstimate(angle: real, distance: real, tanDeg: real -> real): real
  {
    distance * tanDeg(angle)
  }

  /** With the initial zero offset the angles read the filtered channels
      directly. */
  lemma ZeroOffsetUsesRawAngles(mode: Mode, axis: Axis, pitch: real, roll: real)
    ensures RelevantAngle(mode, axis, pitch, roll, Offset(0.0, 0.0)) ==
              if mode != TreeLean then pitch
              else if axis == Longitudinal then 90.0 - pitch
              else 90.0 - roll
    ensures OtherAxisAngle(mode, axis, pitch, roll, Offset(0.0, 0.0)) ==
              if mode != TreeLean then 0.0
              else if axis == Longitudinal then 90.0 - roll
              else 90.0 - pitch
  {
  }

  /** In tree-lean mode the primary reading is the 90-complement of the
      active channel after calibration, and switching the axis swaps the
      primary and secondary readings. */
  lemma LeanAxisSwap(pitch: real, roll: real, off: Offset)
    ensures RelevantAngle(TreeLean, Longitudinal, pitch, roll, off) == 90.0 - (pitch - off.pitch)
    ensures RelevantAngle(TreeLean, Lateral, pitch, roll, off) == 90.0 - (roll - off.roll)
    ensures RelevantAngle(TreeLean, Lateral, pitch, roll, off) ==
              OtherAxisAngle(TreeLean, Longitudinal, pitch, roll, off)
    ensures OtherAxisAngle(TreeLean, Lateral, pitch, roll, off) ==
              RelevantAngle(TreeLean, Longitudinal, pitch, roll, off)
  {
  }

  /** Outside tree-lean mode the primary reading is the calibrated pitch,
      whatever the axis, roll or roll offset, and the secondary reading is 0. */
  lemma NonLeanIgnoresRoll(mode: Mode, axis: Axis, axis': Axis, pitch: real, roll: real, roll': real, off: Offset, rollOff': real)
    requires mode != TreeLean
    ensures RelevantAngle(mode, axis, pitch, roll, off) == pitch - off.pitch
    ensures RelevantAngle(mode, axis, pitch, roll, off) ==
              RelevantAngle(mode, axis', pitch, roll', Offset(off.pitch, rollOff'))
    ensures OtherAxisAngle(mode, axis, pitch, roll, off) == 0.0
  {
  }

  /** With the offset just captured from the current sample, a slope or
      height reading is 0 and both tree-lean readings are 90. */
  lemma CapturedOffsetReadings(mode: Mode, axis: Axis, pitch: real, roll: real)
    ensures RelevantAngle(mode, axis, pitch, roll, Offset(pitch, roll)) ==
              if mode == TreeLean then 90.0 else 0.0
    ensures OtherAxisAngle(mode, axis, pitch, roll, Offset(pitch, roll)) ==
              if mode == TreeLean then 90.0 else 0.0
  {
  }

  const LeanLabels: seq<string> :=
    ["Perfettamente verticale", "Inclinazione minima", "Inclinazione moderata",
     "Inclinazione significativa", "Grave inclinazione"]

  const SlopeLabels: seq<string> :=
    ["Terreno pianeggiante", "Pendenza leggera", "Pendenza moderata",
     "Pendenza forte", "Pendenza molto ripida"]

  /** The colours of the five bands, mildest first. */
  const BandColors: seq<Color> := [Green, GreenFaded, Yellow, Orange, Red]

  /** `treeLeanAssessment(angle:)`. */
  function LeanAssessment(angle: real): string
  {
    var absAngle := Abs(angle);
    if absAngle < 1.5 then "Perfettamente verticale"
    else if absAngle < 5.0 then "Inclinazione minima"
    else if absAngle < 10.0 then "Inclinazione moderata"
    else if absAngle < 15.0 then "Inclinazione significativa"
    else "Grave inclinazione"
  }

  /** `treeLeanColor(angle:)`. */
  function LeanColor(angle: real): Color
  {
    var absAngle := Abs(angle);
    if absAngle < 1.5 then Green
    else if absAngle < 5.0 then GreenFaded
    else if absAngle < 10.0 then Yellow
    else if absAngle < 15.0 then Orange
    else Red
  }

  /** `slopeAssessment(percentGrade:)`. */
  function SlopeAssessment(percentGrade: real): string
  {
    var absGrade := Abs(percentGrade);
    if absGrade < 5.0 then "Terreno pianeggiante"
    else if absGrade < 10.0 then "Pendenza leggera"
    else if absGrade < 20.0 then "Pendenza moderata"
    else if absGrade < 30.0 then "Pendenza forte"
    else "Pendenza molto ripida"
  }

  /** `slopeColor(percentGrade:)`. */
  function SlopeColor(percentGrade: real): Color
  {
    var absGrade := Abs(percentGrade);
    if absGrade < 5.0 then Green
    else if absGrade < 10.0 then GreenFaded
    else if absGrade < 20.0 then Yellow
    else if absGrade < 30.0 then Orange
    else Red
  }

  /** The lean label and colour are those of the band `|angle|` falls in on
      the lean scale (strict `<` at every breakpoint). */
  lemma LeanAssessmentIsBand(angle: real)
    ensures LeanAssessment(angle) == LeanLabels[Band(Abs(angle), LeanBreaks)]
    ensures LeanColor(angle) == BandColors[Band(Abs(angle), LeanBreaks)]
  {
    BandOfFour(Abs(angle), LeanBreaks);
  }

  /** The slope label and colour are those of the band `|grade|` falls in on
      the slope scale. */
  lemma SlopeAssessmentIsBand(percentGrade: real)
    ensures SlopeAssessment(percentGrade) == SlopeLabels[Band(Abs(percentGrade), SlopeBreaks)]
    ensures SlopeColor(percentGrade) == BandColors[Band(Abs(percentGrade), SlopeBreaks)]
  {
    BandOfFour(Abs(percentGrade), SlopeBreaks);
  }

  /** An example of `LeanAssessmentIsBand` at the first breakpoint: under the
      strict `<`, exactly 1.5 degrees is already a minimal lean. */
  lemma LeanBreakpointExample()
    ensures LeanAssessment(1.5) == "Inclinazione minima"
    ensures LeanAssessment(-1.5) == "Inclinazione minima"
    ensures LeanAssessment(1.4) == "Perfettamente verticale"
  {
  }

  /** The live colours and the saved record's status colour agree: a saved
      lean record is coloured as the live view colours its larger magnitude,
      and a saved slope record as the live view colours its grade. */
  lemma StatusColorMatchesLiveColor(m: Measurement, tanDeg: real -> real)
    ensures m.mode == TreeLean ==>
              StatusColor(StatusLevelOf(m, tanDeg)) == LeanColor(LeanMagnitude(m))
    ensures m.mode == SlopeGrade ==>
              StatusColor(StatusLevelOf(m, tanDeg)) ==
                SlopeColor(PercentGrade(m.primaryAngle, tanDeg))
  {
    StatusLevelIsBand(m, tanDeg);
    LeanAssessmentIsBand(LeanMagnitude(m));
    SlopeAssessmentIsBand(PercentGrade(m.primaryAngle, tanDeg));
    assert Abs(LeanMagnitude(m)) == LeanMagnitude(m);
  }

  /** The record `saveMeasurement()` builds from the screen state. */
  function NewRecord(treeName: string, mode: Mode, axis: Axis, pitch: real, roll: real,
                     off: Offset, distanceToTree: real, id: Uuid, now: Date,
                     tanDeg: real -> real): (r: Measurement)
    ensures r.treeName != ""
    ensures treeName != "" ==> r.treeName == treeName
    ensures treeName == "" ==> r.treeName == UnnamedTree
    ensures r.mode == mode && r.date == now && r.notes == "" && r.id == id
    ensures r.primaryAngle == RelevantAngle(mode, axis, pitch, roll, off)
    ensures r.secondaryAngle == OtherAxisAngle(mode, axis, pitch, roll, off)
    ensures r.distance.Some? <==> mode == TreeHeight
    ensures r.estimatedHeight.Some? <==> mode == TreeHeight
    ensures r.distance.Some? ==> r.distance.value == distanceToTree
    ensures r.estimatedHeight.Some? ==>
              r.estimatedHeight.value == TreeHeightEstimate(Abs(r.primaryAngle), distanceToTree, tanDeg)
  {
    var primary := RelevantAngle(mode, axis, pitch, roll, off);
    Measurement(
      id,
      if treeName == "" then UnnamedTree else treeName,
      mode,
      primary,
      OtherAxisAngle(mode, axis, pitch, roll, off),
      if mode == TreeHeight then Some(distanceToTree) else None,
      if mode == TreeHeight then Some(TreeHeightEstimate(Abs(primary), distanceToTree, tanDeg)) else None,
      now,
      "")
  }

  /** The screen's state. */
  class ClinometerScreen {
    var savedMeasurements: seq<Measurement>
    var treeName: string
    var activeAxis: Axis
    var isCalibrating: bool
    var calibrationOffset: Offset
    var measurementMode: Mode
    var distanceToTree: real

    constructor ()
      ensures savedMeasurements == [] && treeName == ""
      ensures activeAxis == Longitudinal && measurementMode == TreeLean
      ensures !isCalibrating && calibrationOffset == Offset(0.0, 0.0)
      ensures distanceToTree == DefaultDistance
    {
      savedMeasurements := [];
      treeName := "";
      activeAxis := Longitudinal;
      isCalibrating := false;
      calibrationOffset := Offset(0.0, 0.0);
      measurementMode := TreeLean;
      distanceToTree := DefaultDistance;
    }

    /** The main reading for the current sample. */
    function PrimaryAngle(pitch: real, roll: real): real
      reads this
    {
      RelevantAngle(measurementMode, activeAxis, pitch, roll, calibrationOffset)
    }

    /** The secondary reading for the current sample. */
    function SecondaryAngle(pitch: real, roll: real): real
      reads this
    {
      OtherAxisAngle(measurementMode, activeAxis, pitch, roll, calibrationOffset)
    }

    /** `toggleCalibration()`. Turning calibration on captures the current
        sample as the offset, so the readings restart from their reference
        values; turning it off only clears the flag and keeps the offset. */
    method ToggleCalibration(pitch: real, roll: real)
      modifies this
      ensures isCalibrating == !old(isCalibrating)
      ensures old(isCalibrating) ==> calibrationOffset == old(calibrationOffset)
      ensures !old(isCalibrating) ==> calibrationOffset == Offset(pitch, roll)
      ensures !old(isCalibrating) ==>
                && PrimaryAngle(pitch, roll) == (if measurementMode == TreeLean then 90.0 else 0.0)
                && SecondaryAngle(pitch, roll) == (if measurementMode == TreeLean then 90.0 else 0.0)
      ensures savedMeasurements == old(savedMeasurements) && treeName == old(treeName)
      ensures activeAxis == old(activeAxis) && measurementMode == old(measurementMode)
      ensures distanceToTree == old(distanceToTree)
    {
      if isCalibrating {
        isCalibrating := false;
      } else {
        calibrationOffset := Offset(pitch, roll);
        isCalibrating := true;
        CapturedOffsetReadings(measurementMode, activeAxis, pitch, roll);
      }
    }

    /** `saveMeasurement()`: appends exactly one record built from the
        current sample and clears the name field. */
    method SaveMeasurement(pitch: real, roll: real, id: Uuid, now: Date, tanDeg: real -> real)
      modifies this
      ensures savedMeasurements ==
                old(savedMeasurements)
                + [NewRecord(old(treeName), measurementMode, activeAxis, pitch, roll,
                             calibrationOffset, distanceToTree, id, now, tanDeg)]
      ensures treeName == ""
      ensures activeAxis == old(activeAxis) && measurementMode == old(measurementMode)
      ensures isCalibrating == old(isCalibrating) && calibrationOffset == old(calibrationOffset)
      ensures distanceToTree == old(distanceToTree)
    {
      var newMeasurement := NewRecord(treeName, measurementMode, activeAxis, pitch, roll,
                                      calibrationOffset, distanceToTree, id, now, tanDeg);
      savedMeasurements := savedMeasurements + [newMeasurement];
      treeName := "";
    }
  }
}
