# Forestry clinometer and AR measurement rules, in Dafny

This project models the framework-free rules underneath two iOS forestry apps.

The **Log** app is a forestry clinometer:
- a motion manager low-pass filters the device pitch and roll;
- a clinometer screen derives mode- and axis-dependent angles from them, minus a calibration offset, grades tree lean and slope, and appends saved readings;
- a saved-readings list deletes rows and edits notes in place;
- a location store keeps saved map locations and writes them back after every change.

The **VeeTA** app has four kinds of screen, plus the `Tree` model:
- Zero-calibration clinometer screens: a pitch is rebased on a zero reference once the screen is calibrated.
- Two-point AR screens for height, diameter and length: the first hit fixes a start point, the second an end point and the distance between them.
- History screens with mean, extremes, range, population standard deviation and range-table classifiers.
- The `Tree` model, whose "latest" reading is the newest one by date.

How the model represents the source:
- Numbers are Dafny `real`s.
- `tan` (of an angle in degrees), `sqrt`, the radian-to-degree factor and the AR `distance` are parameters about which nothing is assumed.
- Dates are an ordered `instant`, and UUIDs are `nat`s.
- `Date()` and `UUID()` are passed in as `now` and `id`.
- The persisted SwiftData records are plain values (`Records.Record`).
- A screen's `@State` fields and an `ObservableObject`'s published fields are the fields of a Dafny `class`, updated by methods with `modifies` clauses.
- Computed properties and switches are functions.
- The if-chain and range-switch classifiers are all proved equal to one reference definition, `Severity.Band`: the index of the first breakpoint strictly above the value.

## Model

| member | source | states |
|---|---|---|
| Motion.LowPass | Log/Log/AR/MotionManager.swift:14-48 | the step is `filtered·(1−0.2) + input·0.2`: it moves by exactly 0.2 of the gap to the input, the new value lies between the old one and the input, and an input equal to the filtered value is a fixed point |
| Motion.SettleStaysBetween | Log/Log/AR/MotionManager.swift:36-37 | any number of samples of a constant input keep the filtered value between the start and the input |
| Motion.SettleGeometric | Log/Log/AR/MotionManager.swift:36-37 | after n samples of a constant input the remaining gap is the start gap times `Retained(n)` = 0.8^n, which is positive and at most 1 |
| Motion.MotionManager.constructor | Log/Log/AR/MotionManager.swift:16-20 | pitch, roll and both filter states start at 0 |
| Motion.MotionManager.OnDeviceMotion | Log/Log/AR/MotionManager.swift:29-41 | a missing sample or an error changes nothing; otherwise each channel is filtered from its own previous value and its own input, and the published pitch/roll equal the new filtered values |
| Modes.AllModesEnumerates | Log/Log/AR/MeasurementMode.swift:11-14 | every mode is in the case list, which has exactly three distinct cases in the order tree lean, slope grade, tree height |
| Modes.AllAxesEnumerates | Log/Log/AR/MeasurementMode.swift:31-33 | every axis is in the case list of two distinct cases |
| Modes.ModeId | Log/Log/AR/MeasurementMode.swift:16 | a mode's id parses back to the mode and is the raw value of no other mode, so ids are unique |
| Modes.AxisId | Log/Log/AR/MeasurementMode.swift:35 | an axis's id parses back to the axis and is the raw value of no other axis, so ids are unique |
| Modes.ModeRawValueRoundTrip | Log/Log/AR/MeasurementMode.swift:12-16 | parsing a mode's raw value gives the mode back, so equal ids mean equal modes |
| Modes.AxisRawValueRoundTrip | Log/Log/AR/MeasurementMode.swift:32-35 | the same for axes |
| Modes.ModeFromRawValue | Log/Log/AR/MeasurementMode.swift:12-14 | a parsed mode has the given raw value |
| Modes.AxisFromRawValue | Log/Log/AR/MeasurementMode.swift:32-33 | a parsed axis has the given raw value |
| Modes.ModeDescription | Log/Log/AR/MeasurementMode.swift:18-27 | every mode has a non-empty description |
| LogClinometer.ZeroOffsetUsesRawAngles | Log/Log/AR/ClinometerView.swift:265-294 | with the initial (0,0) offset the derived angles use the raw filtered pitch and roll |
| LogClinometer.LeanAxisSwap | Log/Log/AR/ClinometerView.swift:267-291 | in tree-lean mode the primary angle is `90 − (pitch − offP)` longitudinally and `90 − (roll − offR)` laterally, and switching axis swaps primary and secondary |
| LogClinometer.NonLeanIgnoresRoll | Log/Log/AR/ClinometerView.swift:276-293 | in slope and height modes the primary angle is `pitch − offP`, it does not depend on roll, the roll offset or the axis, and the secondary angle is 0 |
| LogClinometer.CapturedOffsetReadings | Log/Log/AR/ClinometerView.swift:243 | right after the offset is captured, the slope/height angle reads 0 and the tree-lean primary angle reads 90 |
| LogClinometer.LeanAssessmentIsBand | Log/Log/AR/ClinometerView.swift:316-345 | the lean text and the lean colour are the labels and colours of the band of `|angle|` among the strict breakpoints 1.5/5/10/15 |
| LogClinometer.SlopeAssessmentIsBand | Log/Log/AR/ClinometerView.swift:348-377 | the slope text and colour are those of the band of `|grade|` among 5/10/20/30 |
| LogClinometer.LeanBreakpointExample | Log/Log/AR/ClinometerView.swift:318-321 | an example instance of `LeanAssessmentIsBand` at the first breakpoint: exactly ±1.5 is "Inclinazione minima" under the strict `<`, and 1.4 is "Perfettamente verticale" |
| LogClinometer.StatusColorMatchesLiveColor | Log/Log/AR/ClinometerView.swift:332-377 | a saved lean reading's status colour is the live lean colour of its larger magnitude, and a saved slope reading's is the live slope colour of its grade |
| LogClinometer.NewRecord | Log/Log/AR/ClinometerView.swift:249-259 | the record has a non-empty name ("Misura senza nome" for an empty one), the derived primary and secondary angles, empty notes, and a distance and estimated height exactly in tree-height mode, the height computed from `|primary|` |
| LogClinometer.ClinometerScreen.constructor | Log/Log/AR/ClinometerView.swift:13-21 | no readings, empty name, longitudinal axis, tree-lean mode, not calibrating, offset (0,0), distance 20 m |
| LogClinometer.ClinometerScreen.ToggleCalibration | Log/Log/AR/ClinometerView.swift:239-246 | the flag flips; switching on captures (pitch, roll) as the offset, so the readings become 90/0, and switching off keeps the offset |
| LogClinometer.ClinometerScreen.SaveMeasurement | Log/Log/AR/ClinometerView.swift:249-262 | exactly one record (`NewRecord` of the current state) is appended and the name is cleared; nothing else changes |
| LogMeasurement.StatusLevelOf | Log/Log/AR/Measurement.swift:56-87 | the level is neutral exactly for tree-height readings |
| LogMeasurement.StatusLevelIsBand | Log/Log/AR/Measurement.swift:58-83 | tree lean grades `max(|primary|, |secondary|)` by the bands 1.5/5/10/15, and slope grades `|tan·100|` by 5/10/20/30, into optimal…critical |
| LogMeasurement.LeanMagnitude | Log/Log/AR/Measurement.swift:59 | the larger of the two magnitudes: non-negative, at least each of them, and equal to one |
| LogMeasurement.LeanStatusMonotone | Log/Log/AR/Measurement.swift:59-70 | a larger lean magnitude never gives a less severe level |
| LogMeasurement.SlopeStatusMonotone | Log/Log/AR/Measurement.swift:72-83 | a larger grade magnitude never gives a less severe level |
| LogMeasurement.Rank | Log/Log/AR/Measurement.swift:90-95 | every graded level has a position on the optimal…critical scale |
| LogMeasurement.RankOfScale | Log/Log/AR/Measurement.swift:90-95 | the scale's positions and `Rank` are inverse |
| LogMeasurement.StatusColor | Log/Log/AR/Measurement.swift:98-106 | the colour is blue exactly for the neutral level |
| LogMeasurement.SecondaryLabel | Log/Log/AR/Measurement.swift:45-54 | "Secondaria:", "" and "Distanza:" for lean, slope and height: empty exactly in slope mode |
| LogMeasurement.FormattedSecondaryValue | Log/Log/AR/Measurement.swift:34-43 | the text is empty exactly in slope mode and in height mode without a distance |
| SavedMeasurements.WithNotes | Log/Log/AR/SavedMeasurementsView.swift:68-73 | the length is kept; without the id the list is unchanged; otherwise the first record with the id becomes the edited record with the new notes and every other record is kept |
| SavedMeasurements.WithNotesChangesOnlyNotes | Log/Log/AR/SavedMeasurementsView.swift:69-72 | saving notes for a listed record changes that record's notes and nothing else |
| SavedMeasurements.SavedMeasurementsScreen.Select | Log/Log/AR/SavedMeasurementsView.swift:22-25 | the row becomes the selected record, its notes are loaded into the editor and the detail sheet opens |
| SavedMeasurements.SavedMeasurementsScreen.Delete | Log/Log/AR/SavedMeasurementsView.swift:81-83 | the list becomes `RemoveOffsets` of the old one and shrinks by the number of offsets |
| SavedMeasurements.SavedMeasurementsScreen.SaveNotes | Log/Log/AR/SavedMeasurementsView.swift:68-73 | the list becomes `WithNotes` of the old one for the selected record |
| Lists.FirstIndexOf | Log/Log/AR/SavedMeasurementsView.swift:69 | none exactly when no element has the key; otherwise an index holding the key with no earlier one |
| Lists.RemoveOffsetsKeeps | Log/Log/AR/SavedMeasurementsView.swift:82 | the survivors are exactly the elements at the positions not removed, in their original order |
| Lists.KeptIndicesComplete | Log/Log/AR/SavedMeasurementsView.swift:82 | the kept positions ascend strictly and include every position that is not an offset |
| Lists.RemoveOffsetsCount | Log/Map/LocationStore.swift:29 | with valid offsets, the list shrinks by the number of offsets |
| Lists.KeptIndicesCount | Log/Map/LocationStore.swift:29 | each offset below the length removes exactly one position |
| Lists.RemoveNoOffsets | Log/Map/LocationStore.swift:29 | removing no offsets keeps the list |
| Lists.RemoveSingleOffset | Log/Map/LocationStore.swift:35 | `remove(at: i)` is removal of the single offset i |
| Locations.NewLocation | Log/Map/SavedLocations.swift:25-31 | id, title and timestamp are stored unchanged, and latitude and longitude are copied from the coordinate |
| Locations.CoordinateOf | Log/Map/SavedLocations.swift:21-23 | the coordinate is the stored latitude and longitude |
| Locations.CoordinateRoundTrip | Log/Map/SavedLocations.swift:21-31 | the coordinate a location was made with is the one it reports, and rebuilding a location from its fields gives it back |
| Locations.SameLocationIgnoresContents | Log/Map/SavedLocations.swift:47-49 | equality holds exactly when the ids are equal, whatever the title, coordinate and time, and it is symmetric and transitive |
| Locations.LocationStore.constructor | Log/Map/LocationStore.swift:15-21 | the store starts with the stored list, or empty when nothing is stored |
| Locations.LocationStore.SaveLocations | Log/Map/LocationStore.swift:42-49 | the stored list becomes the in-memory one and the save count goes up by one |
| Locations.LocationStore.AddLocation | Log/Map/LocationStore.swift:23-26 | the location is appended at the end, earlier ones kept, and the new list is written back |
| Locations.LocationStore.RemoveLocationAt | Log/Map/LocationStore.swift:28-31 | exactly the given offsets are removed, order kept, and the new list is written back |
| Locations.LocationStore.RemoveLocationWithId | Log/Map/LocationStore.swift:33-38 | only the first location with the id is removed and the new list is written back; without one nothing changes and nothing is saved |
| Locations.LocationStore.ImportLocations | Log/Map/LocationStore.swift:86-93 | a decoded list is appended after the existing ones and the new list is written back; an unreadable file changes nothing |
| ZeroClinometer.Sample | VeeTA/HomeView/MeasurementsView/ClinometerView.swift:243-249 | the inclination is `pitch − zeroReference` when calibrated and `pitch` otherwise; the calibration is untouched; the same in VeeTA/HomeView/AddTree/NewClinometer.swift:251-257 |
| ZeroClinometer.CalibrateZeroAsWritten | VeeTA/HomeView/MeasurementsView/ClinometerView.swift:294-297 | the code as written: the reference becomes the displayed inclination, the screen is calibrated and reads 0 |
| ZeroClinometer.CalibrateZeroAsWrittenRecalibration | VeeTA/HomeView/MeasurementsView/ClinometerView.swift:246-295 | re-calibrating a calibrated screen stores `pitch − oldReference`, so the next sample at the same position reads the old reference, not 0 |
| ZeroClinometer.CalibrateZeroAsWrittenFirstTime | VeeTA/HomeView/AddTree/NewClinometer.swift:302-305 | on an uncalibrated screen the code as written agrees with the corrected rule and zeroes the position |
| ZeroClinometer.CalibrateTwiceCounterexample | VeeTA/HomeView/AddTree/NewClinometer.swift:254-305 | held at 10°, calibrated, sampled and calibrated again, the code as written reads 10° where the corrected rule reads 0° |
| ZeroClinometer.ReferenceConsistentPreserved | VeeTA/HomeView/MeasurementsView/ClinometerView.swift:22-24 | the reference is 0 until the first calibration: the initial readout, a sample and either calibration rule keep that |
| ZeroClinometer.CalibrateZero | VeeTA/HomeView/AddTree/NewClinometer.swift:302-305 | the corrected rule: calibrated, reading 0, and on a first calibration the reference is the displayed inclination |
| ZeroClinometer.CalibrateZeroZeroesCurrentPosition | VeeTA/HomeView/MeasurementsView/ClinometerView.swift:294-297 | with the corrected rule, the reference is the pitch of the current position and the next sample there reads 0, however often it was calibrated before |
| ZeroClinometer.IndicatorAngle | VeeTA/HomeView/MeasurementsView/ClinometerView.swift:414 | the needle angle is the inclination held to [−90, 90] |
| ZeroClinometer.IndicatorColor | VeeTA/HomeView/MeasurementsView/ClinometerView.swift:422 | the needle is red once calibrated, orange before |
| ZeroClinometer.BubbleColor | VeeTA/HomeView/MeasurementsView/ClinometerView.swift:456 | green exactly when `|inclination| < 2`, red otherwise |
| ZeroClinometer.BubbleOffset | VeeTA/HomeView/MeasurementsView/ClinometerView.swift:458 | `inclination·8` when within ±0.7·size, and always within ±0.7·size |
| ZeroClinometer.SuccessMessagesContainMarker | VeeTA/HomeView/AddTree/NewClinometer.swift:220-223 | both save-success messages contain "successo" |
| ZeroClinometer.ClinometerScreen.constructor | VeeTA/HomeView/MeasurementsView/ClinometerView.swift:22-24 | the screen starts uncalibrated, with reference 0, inclination 0 and a session that is not ready |
| ZeroClinometer.ClinometerScreen.OnDeviceMotion | VeeTA/HomeView/MeasurementsView/ClinometerView.swift:239-249 | a callback without motion is ignored; a sample updates the readout by `Sample`, so the display tracks that pitch, and nothing else; the reference stays 0 until the first calibration |
| ZeroClinometer.ClinometerScreen.CalibrateZeroAction | VeeTA/HomeView/MeasurementsView/ClinometerView.swift:294-301 | allowed only on a ready session; as the code has it, the displayed inclination becomes the reference, the screen is calibrated, reads 0 and shows the calibration alert; on a first calibration this is the corrected rule |
| ZeroClinometer.ClinometerScreen.SaveMeasurement | VeeTA/HomeView/MeasurementsView/ClinometerView.swift:303-324 | allowed only when calibrated on a ready session; one record with the displayed inclination and the notes is inserted; success shows the saved message and schedules dismissal, and a save error shows the error message |
| ZeroClinometer.ClinometerScreen.AlertOk | VeeTA/HomeView/MeasurementsView/ClinometerView.swift:215-216 | OK only closes the alert; nothing else changes |
| ZeroClinometer.ClinometerScreen.OnSessionEvent | VeeTA/HomeView/MeasurementsView/ClinometerView.swift:84-96 | the session status follows `OnEvent`; the readout is untouched |
| ZeroClinometer.NewTreeClinometerScreen.constructor | VeeTA/HomeView/AddTree/NewClinometer.swift:17-34 | the given name, species, notes and cluster; uncalibrated at 0; nothing delivered |
| ZeroClinometer.NewTreeClinometerScreen.OnDeviceMotion | VeeTA/HomeView/AddTree/NewClinometer.swift:246-258 | the same motion rule |
| ZeroClinometer.NewTreeClinometerScreen.CalibrateZeroAction | VeeTA/HomeView/AddTree/NewClinometer.swift:302-309 | the same assignment as the other screen: the displayed inclination becomes the reference and the screen reads 0; on a first calibration this is the corrected rule |
| ZeroClinometer.NewTreeClinometerScreen.SaveMeasurementAndTree | VeeTA/HomeView/AddTree/NewClinometer.swift:311-335 | allowed only when calibrated on a ready session; a fresh tree with the given name, species, notes and cluster and exactly one inclination record (the displayed inclination and the notes) is delivered to `onSave` once, and the success alert shows |
| ZeroClinometer.NewTreeClinometerScreen.AlertOk | VeeTA/HomeView/AddTree/NewClinometer.swift:219-224 | OK closes the alert and dismisses the screen exactly when the message contains "successo", so always after the tree was saved |
| ZeroClinometer.NewTreeClinometerScreen.OnSessionEvent | VeeTA/HomeView/AddTree/NewClinometer.swift:88-100 | the session status follows `OnEvent` |
| ArSession.OnEvent | VeeTA/VeeTA/HomeView/MeasurementsView/HeightMeasurementView.swift:463-492 | only a ready session accepts taps; a failure, an interruption or a reset in progress refuses taps; readiness makes the session ready; ARKit error 102 marks the permission denied |
| ArSession.Dispatch | VeeTA/VeeTA/HomeView/MeasurementsView/HeightMeasurementView.swift:472-484 | error code 102 becomes a permission denial, any other AR error "Errore AR: …", and any other error "Errore sconosciuto: …" |
| ArSession.Apply | VeeTA/VeeTA/HomeView/MeasurementsView/HeightMeasurementView.swift:472-491 | after either error callback the session refuses taps |
| ArSession.DenyPermission | VeeTA/VeeTA/HomeView/MeasurementsView/HeightMeasurementView.swift:476 | permission is denied and taps are refused; ready and error are kept |
| ArSession.Fail | VeeTA/VeeTA/HomeView/MeasurementsView/HeightMeasurementView.swift:478-490 | the error is set and taps are refused |
| ArSession.BecomeReady | VeeTA/VeeTA/HomeView/MeasurementsView/HeightMeasurementView.swift:464-467 | the session is ready; the other flags are kept |
| ArSession.BeginReset | VeeTA/VeeTA/HomeView/MeasurementsView/DiameterView.swift:187-190 | the error is cleared and the session is no longer ready, so taps are refused |
| ArSession.FinishReset | VeeTA/VeeTA/HomeView/MeasurementsView/DiameterView.swift:192-201 | on a device without world tracking the error is "AR non supportato su questo dispositivo", otherwise nothing changes |
| ArSession.Coordinator.DidUpdateFrame | VeeTA/VeeTA/HomeView/MeasurementsView/HeightMeasurementView.swift:463-469 | readiness is reported exactly on the first frame with normal tracking, and never again |
| TwoPoint.Step | VeeTA/VeeTA/HomeView/MeasurementsView/HeightMeasurementView.swift:220-236 | the first hit sets only the start, the second the end, and a third changes nothing |
| TwoPoint.StepConsistent | VeeTA/VeeTA/HomeView/MeasurementsView/HeightMeasurementView.swift:224-234 | a hit keeps "end only after start, and the value is the distance of the two points, or 0 without an end" |
| TwoPoint.CompleteIgnoresHits | VeeTA/VeeTA/HomeView/MeasurementsView/DiameterView.swift:224-236 | once both points are set, any further hits change nothing |
| TwoPoint.HitsFromInitial | VeeTA/VeeTA/HomeView/MeasurementsView/LengthMeasurementView.swift:219-231 | from the initial state one hit sets only the start, and two or more set the first two points and their distance, whatever follows; the same in VeeTA/VeeTA/HomeView/AddTree/NewLength.swift:225-237 |
| TwoPoint.RaycastCount | VeeTA/VeeTA/HomeView/MeasurementsView/HeightMeasurementView.swift:204-217 | a refused tap casts no ray, and the fallback ray is cast exactly when the first finds nothing |
| TwoPoint.TapHit | VeeTA/VeeTA/HomeView/MeasurementsView/HeightMeasurementView.swift:204-217 | a refused tap processes nothing, otherwise the first hit, or else the fallback one |
| TwoPoint.PointPicker.constructor | VeeTA/VeeTA/HomeView/MeasurementsView/HeightMeasurementView.swift:21-23 | both points absent and the value 0 |
| TwoPoint.PointPicker.ProcessRaycastResult | VeeTA/VeeTA/HomeView/MeasurementsView/DiameterView.swift:220-236 | the state advances by `Step` and stays consistent |
| TwoPoint.PointPicker.HandleTap | VeeTA/VeeTA/HomeView/MeasurementsView/DiameterView.swift:204-218 | a tap is ignored unless the session is ready, permitted and error-free; otherwise the first raycast's hit, or else the fallback's, advances the state; the same in VeeTA/VeeTA/HomeView/MeasurementsView/LengthMeasurementView.swift:200-213 |
| TwoPoint.PointPicker.ResetMeasurement | VeeTA/VeeTA/HomeView/MeasurementsView/LengthMeasurementView.swift:265-269 | both points cleared and the value 0; the result card disappears; the same in VeeTA/VeeTA/HomeView/AddTree/NewLength.swift:273-278 |
| TwoPoint.PointPicker.OnSessionEvent | VeeTA/VeeTA/HomeView/AddTree/NewLength.swift:207 | the session status follows `OnEvent`; the points are untouched |
| TwoPoint.MeasurementScreen.Save | VeeTA/VeeTA/HomeView/MeasurementsView/DiameterView.swift:278-282 | one record with the measured value and the notes is inserted and the screen closes; the same in VeeTA/VeeTA/HomeView/MeasurementsView/HeightMeasurementView.swift:278-282 |
| TwoPoint.MeasurementScreen.constructor | VeeTA/VeeTA/HomeView/MeasurementsView/DiameterView.swift:21-23 | both points absent and the value 0, session not ready |
| TwoPoint.NewTreeLengthScreen.constructor | VeeTA/VeeTA/HomeView/AddTree/NewLength.swift:19-28 | the given tree fields; both points absent and the length 0 |
| TwoPoint.NewTreeLengthScreen.SaveTreeWithMeasurement | VeeTA/VeeTA/HomeView/AddTree/NewLength.swift:280-298 | a fresh tree with the given name, species, notes and cluster and exactly one length record is delivered once to `onSave`, then the screen closes |
| Records.NewRecord | VeeTA/HomeView/MeasurementsView/ClinometerView.swift:304-308 | the record carries the given value and notes and the current date |
| Records.InsertByDate | VeeTA/SwiftData/Tree.swift:41 | insertion adds exactly the new record |
| Records.InsertByDateSorted | VeeTA/SwiftData/Tree.swift:41 | inserting into a newest-first list keeps it newest first |
| Records.SortByDateDesc | VeeTA/SwiftData/Tree.swift:41 | the sort is a permutation |
| Records.SortByDateDescSorted | VeeTA/SwiftData/Tree.swift:41 | the sort is newest first |
| Records.LatestIsNewest | VeeTA/SwiftData/Tree.swift:40-42 | "latest" is absent exactly for an empty list, and otherwise a member no other record is newer than |
| Trees.CurrentText | VeeTA/SwiftData/Tree.swift:54-57 | absent exactly when there is no latest record, otherwise its formatted value |
| Trees.Tree.constructor | VeeTA/SwiftData/Tree.swift:31-37 | the given fields, the current date and four empty histories |
| Trees.Tree.LatestMeasurement | VeeTA/SwiftData/Tree.swift:40-42 | absent exactly without heights, otherwise the newest height |
| Trees.Tree.LatestLengthMeasurement | VeeTA/SwiftData/Tree.swift:43-45 | absent exactly without lengths, otherwise the newest length |
| Trees.Tree.LatestDiameterMeasurement | VeeTA/SwiftData/Tree.swift:46-48 | absent exactly without diameters, otherwise the newest diameter |
| Trees.Tree.LatestClinometerMeasurement | VeeTA/SwiftData/Tree.swift:49-51 | absent exactly without inclinations, otherwise the newest inclination |
| Trees.Tree.CurrentHeight | VeeTA/SwiftData/Tree.swift:54-57 | absent exactly when the latest height is, otherwise it in metres |
| Trees.Tree.CurrentLength | VeeTA/SwiftData/Tree.swift:58-61 | absent exactly when the latest length is |
| Trees.Tree.CurrentDiameter | VeeTA/SwiftData/Tree.swift:62-65 | absent exactly when the latest diameter is |
| Trees.Tree.CurrentInclination | VeeTA/SwiftData/Tree.swift:66-69 | absent exactly when the latest inclination is, otherwise it in degrees |
| Trees.Tree.AppendClinometer | VeeTA/HomeView/AddTree/NewClinometer.swift:328 | one inclination record is appended; the rest of the tree is kept |
| CompactTrees.Tree.constructor | VeeTA/VeeTA/SwiftData/Tree.swift:27-33 | the given fields and two empty histories |
| CompactTrees.Tree.LatestMeasurement | VeeTA/VeeTA/SwiftData/Tree.swift:36-38 | absent exactly without heights, otherwise the newest height |
| CompactTrees.Tree.LatestLengthMeasurement | VeeTA/VeeTA/SwiftData/Tree.swift:39-41 | absent exactly without lengths, otherwise the newest length |
| CompactTrees.Tree.CurrentHeight | VeeTA/VeeTA/SwiftData/Tree.swift:44-47 | absent exactly when the latest height is |
| CompactTrees.Tree.CurrentLength | VeeTA/VeeTA/SwiftData/Tree.swift:48-51 | absent exactly when the latest length is |
| CompactTrees.Tree.AppendLength | VeeTA/VeeTA/HomeView/AddTree/NewLength.swift:293 | one length record is appended; the rest of the tree is kept |
| History.Values | VeeTA/HomeView/Stats/ClinometerHistoryView.swift:208 | the values of the records, one per record, in order |
| History.Mean | VeeTA/HomeView/Stats/ClinometerHistoryView.swift:202-205 | none exactly for an empty list; otherwise the value whose product with the count is the sum |
| History.MaxOrZero | VeeTA/HomeView/Stats/ClinometerHistoryView.swift:207-209 | 0 for an empty list, otherwise a member no value exceeds |
| History.MinOrZero | VeeTA/HomeView/Stats/ClinometerHistoryView.swift:211-213 | 0 for an empty list, otherwise a member no value is below |
| History.Variation | VeeTA/HomeView/Stats/ClinometerHistoryView.swift:215-217 | the range is non-negative and bounds every pairwise difference |
| History.SeqMax | VeeTA/HomeView/Stats/LengthHistoryView.swift:142-144 | of a non-empty list, a member no value exceeds |
| History.SeqMin | VeeTA/HomeView/Stats/LengthHistoryView.swift:146-148 | of a non-empty list, a member no value is below |
| History.SumBounds | VeeTA/HomeView/Stats/LengthHistoryView.swift:138 | values within [lo, hi] sum to within [n·lo, n·hi] |
| History.MeanWithin | VeeTA/HomeView/Stats/DiameterHistoryView.swift:141-144 | values within [lo, hi] have a mean within [lo, hi] |
| History.MeanBetween | VeeTA/HomeView/Stats/MeasurementHistoryView.swift:141-152 | for a non-empty list, min ≤ average ≤ max |
| History.QuotientBetween | VeeTA/HomeView/Stats/MeasurementHistoryView.swift:141-144 | dividing a total within [n·lo, n·hi] by n > 0 gives a value within [lo, hi] |
| History.MeanOfConstant | VeeTA/HomeView/Stats/ClinometerHistoryView.swift:202-205 | the mean of a constant list is that constant |
| History.SquaredDeviations | VeeTA/HomeView/Stats/ClinometerHistoryView.swift:221-222 | the sum of squared deviations is non-negative |
| History.SquaredDeviationsOfConstant | VeeTA/HomeView/Stats/ClinometerHistoryView.swift:221-222 | it is 0 around the constant of a constant list |
| History.ProductSign | VeeTA/HomeView/Stats/ClinometerHistoryView.swift:221-223 | a quantity whose product with a positive count is non-negative is non-negative |
| History.Variance | VeeTA/HomeView/Stats/ClinometerHistoryView.swift:219-223 | none for an empty list; otherwise non-negative, the mean of the squared deviations from the average |
| History.VarianceOfConstant | VeeTA/HomeView/Stats/ClinometerHistoryView.swift:219-223 | a constant history has variance 0 |
| History.StandardDeviation | VeeTA/HomeView/Stats/ClinometerHistoryView.swift:219-225 | none for an empty list, otherwise `sqrt` of the variance |
| History.Summarize | VeeTA/HomeView/Stats/ClinometerHistoryView.swift:202-217 | for a non-empty history min ≤ average ≤ max and both extremes are recorded values; an empty one gives zeros; the range is max − min ≥ 0; the same in VeeTA/HomeView/Stats/LengthHistoryView.swift:137-152; the same in VeeTA/HomeView/Stats/DiameterHistoryView.swift:141-156; the same in VeeTA/HomeView/Stats/MeasurementHistoryView.swift:141-156 |
| History.HistorySections | VeeTA/HomeView/Stats/ClinometerHistoryView.swift:43-61 | the empty state shows exactly without records, the list exactly with some, and the statistics exactly with more than one; the same in VeeTA/HomeView/Stats/LengthHistoryView.swift:35-56; the same in VeeTA/HomeView/Stats/DiameterHistoryView.swift:50-54; the same in VeeTA/HomeView/Stats/MeasurementHistoryView.swift:50-54 |
| History.HistoryOrder | VeeTA/HomeView/Stats/ClinometerHistoryView.swift:31-37 | the history is listed newest first, as a permutation of the records, and the row marked latest is the first; the same in VeeTA/HomeView/Stats/LengthHistoryView.swift:23-29 |
| History.StabilityIsBand | VeeTA/HomeView/Stats/ClinometerHistoryView.swift:288-312 | a non-negative deviation is graded by the half-open ranges [0,2) Ottima, [2,5) Buona, [5,10) Discreta, otherwise Variabile, with the colours green, blue, orange and red; a negative one is Variabile and red |
| History.InclinationBadgeIsBand | VeeTA/HomeView/Stats/ClinometerHistoryView.swift:146-174 | the category of `|inclination|` is A/B/C/C-D/D for [0,5)/[5,15)/[15,30)/[30,80)/beyond, and the colour is green/yellow/orange/red for [0,5)/[5,15)/[15,30)/beyond, red exactly for C-D and D |
| Severity.Band | Log/Log/AR/Measurement.swift:60-69 | the band index counts the breakpoints at or below the value and is followed by a breakpoint strictly above it |
| Severity.BandMonotone | Log/Log/AR/Measurement.swift:60-69 | a larger value never falls in a lower band |
| Severity.BandBetween | Log/Log/AR/Measurement.swift:60-69 | for ascending breakpoints, a value between breakpoints k−1 and k is in band k |
| Severity.BandOfFour | Log/Log/AR/ClinometerView.swift:318-327 | with four ascending breakpoints the band is the five-way strict if-chain |
| Severity.BandOfThree | VeeTA/HomeView/Stats/ClinometerHistoryView.swift:148-157 | with three ascending breakpoints the band is the four-way strict if-chain |
| Common.ContainsSubstringOccurs | VeeTA/HomeView/AddTree/NewClinometer.swift:221 | `contains` holds exactly when the text occurs at some position |
| Common.Clamp | VeeTA/HomeView/MeasurementsView/ClinometerView.swift:414 | `max(lo, min(hi, x))` is x within [lo, hi], and otherwise the nearer bound |

## Left out

- SwiftUI view bodies, layout, sheets and navigation are not modelled. Only the gating flags are: which buttons are enabled, which sections and cards are shown, and when a screen closes.
- ARKit and RealityKit are left out: `makeUIView`, the raycast itself, `addSphere`, `addLine` and its rotation math, and clearing the anchors on reset. A raycast is a given optional point, and `distance` is a given function.
- CoreMotion start/stop, the camera permission check, the AVFoundation prompts and the settings link are left out. A sample is a given optional attitude.
- SwiftData is left out: `modelContext.insert/save/delete`, `@Query` filters, cascade rules and history-row deletion. Records that are inserted are collected in a sequence, and a failing `save()` is a given optional error.
- JSON encoding/decoding, `UserDefaults` and the temporary-file export in `LocationStore` are left out. Loading and importing take the already-decoded list (none when absent or undecodable), and `saveLocations` records the list and bumps a counter.
- `LocationStore.SaveLocations` does not model a failing `JSONEncoder`, which only prints.
- Floating-point trigonometry and all `String(format:)` output are left out. `tan`, `sqrt` and the radian factor are parameters, and formatted texts are their format string and argument.
- `formattedPrimaryValue` and `getAxisLabel` are display-only text and are not modelled.
- The `DispatchQueue` delays are not modelled: the 1.5 s dismissal is a "dismissal scheduled" flag, and the 0.5 s session restart is the separate `FinishReset` step.
- The small history indicator's needle rotation is display-only and is not modelled.
- `Records.SortByDateDesc` keeps records with equal dates in input order, while Swift's `sorted` promises no order among them. Every property stated is about the newest date only, which holds for any tie order.
- `History.Mean` is none for an empty list where Swift divides by zero and gets NaN; that case is only displayed when there is more than one record anyway.
- `History.StandardDeviation` uses an unspecified `sqrt`, so nothing is stated about the standard deviation beyond its definition from the variance; the stability grading is proved for every value, including negative ones.
- `ZeroClinometer.SuccessMessagesContainMarker` states that the success messages contain "successo"; that the calibration and error messages do not is not stated.
- Angles and values are unbounded reals: the source's `Float`/`Double` rounding and `Float → Double` conversion of the measured distance are not modelled.
- The Log app's calibration differs from a "reset to zero" design. Turning calibration off clears only the flag and keeps the captured offset, so the readings keep being rebased. The model follows the code.

## Findings

| source | as written | input that shows it | evidently intended | confidence | as-written member | corrected member |
|---|---|---|---|---|---|---|
| VeeTA/HomeView/MeasurementsView/ClinometerView.swift:294-297 | `calibrateZero` stores the displayed inclination as the zero reference, but once calibrated that inclination is already rebased on the old reference | hold the device at 10°, calibrate (reference 10, reads 0), then calibrate again: the reference becomes 0 and the next sample at 10° reads 10° | the reference is the pitch of the current position (displayed inclination plus the old reference), so the current position always reads 0 after calibrating | not executed | ZeroClinometer.CalibrateZeroAsWrittenRecalibration | ZeroClinometer.CalibrateZeroZeroesCurrentPosition |
| VeeTA/HomeView/AddTree/NewClinometer.swift:302-305 | the same rule on the new-tree screen | the same sequence: 10°, calibrate, calibrate again, and the next sample reads 10° | as above | not executed | ZeroClinometer.CalibrateTwiceCounterexample | ZeroClinometer.CalibrateZero |

Both screen classes calibrate as the code is written (`CalibrateZeroAsWritten`); the corrected rule `CalibrateZero` is defined beside it, agrees with it on a first calibration, and carries the intended property.
