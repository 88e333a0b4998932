/** A saved reading of the Log clinometer and the severity level it is
    re-assessed with when listed. */
module LogMeasurement {
  import opened Common
  import opened Modes
  import opened Severity

  /** `StatusLevel`, with its raw value. */
  datatype StatusLevel = Optimal | Good | Warning | Concern | Critical | Neutral

  function StatusRawValue(l: StatusLevel): string
  {
    match l
    case Optimal => "Ottimale"
    case Good => "Buono"
    case Warning => "Attenzione"
    case Concern => "Preoccupante"
    case Critical => "Critico"
    case Neutral => "Neutro"
  }

  /** The graded levels from least to most severe; `Neutral` is outside the
      scale. */
  const SeverityScale: seq<StatusLevel> := [Optimal, Good, Warning, Concern, Critical]

  /** Position of a graded level on the scale. */
  function Rank(l: StatusLevel): (k: nat)
    requires l != Neutral
    ensures k < |SeverityScale| && SeverityScale[k] == l
  {
    match l
    case Optimal => 0
    case Good => 1
    case Warning => 2
    case Concern => 3
    case Critical => 4
  }

  /** `StatusLevel.color`. */
  function StatusColor(l: StatusLevel): (c: Color)
    ensures c == Blue <==> l == Neutral
  {
    match l
    case Optimal => Green
    case Good => GreenFaded
    case Warning => Yellow
    case Concern => Orange
    case Critical => Red
    case Neutral => Blue
  }

  /** Breakpoints of the tree-lean scale, in degrees. */
  const LeanBreaks: seq<real> := [1.5, 5.0, 10.0, 15.0]

  /** Breakpoints of the slope scale, in percent grade. */
  const SlopeBreaks: seq<real> := [5.0, 10.0, 20.0, 30.0]

  /** `Measurement`. `distance` and `estimatedHeight` are Swift optionals. */
  datatype Measurement = Measurement(
    id: Uuid,
    treeName: string,
    mode: Mode,
    primaryAngle: real,
    secondaryAngle: real,
    distance: Option<real>,
    estimatedHeight: Option<real>,
    date: Date,
    notes: string)

  /** `tan(angle * .pi / 180) * 100`; `tanDeg` stands for the tangent of an
      angle given in degrees. */
  function PercentGrade(angle: real, tanDeg: real -> real): real
  {
    tanDeg(angle) * 100.0
  }

  /** The larger of the two lean magnitudes. */
  function LeanMagnitude(m: Measurement): (r: real)
    ensures r >= 0.0
    ensures r >= Abs(m.primaryAngle) && r >= Abs(m.secondaryAngle)
    ensures r == Abs(m.primaryAngle) || r == Abs(m.secondaryAngle)
  {
    Max(Abs(m.primaryAngle), Abs(m.secondaryAngle))
  }

  /** `statusLevel`: only tree-height records are neutral. */
  function StatusLevelOf(m: Measurement, tanDeg: real -> real): (r: StatusLevel)
    ensures r == Neutral <==> m.mode == TreeHeight
  {
    match m.mode
    case TreeLean =>
      var maxInclination := LeanMagnitude(m);
      if maxInclination < 1.5 then Optimal
      else if maxInclination < 5.0 then Good
      else if maxInclination < 10.0 then Warning
      else if maxInclination < 15.0 then Concern
      else Critical
    case SlopeGrade =>
      var percentGrade := Abs(PercentGrade(m.primaryAngle, tanDeg));
      if percentGrade < 5.0 then Optimal
      else if percentGrade < 10.0 then Good
      else if percentGrade < 20.0 then Warning
      else if percentGrade < 30.0 then Concern
      else Critical
    case TreeHeight => Neutral
  }

  /** A tree-lean record is graded by the band its larger magnitude falls in
      on the lean scale; a slope record by the band of its absolute grade on
      the slope scale. */
  lemma StatusLevelIsBand(m: Measurement, tanDeg: real -> real)
    ensures m.mode == TreeLean ==>
              StatusLevelOf(m, tanDeg) == SeverityScale[Band(LeanMagnitude(m), LeanBreaks)]
    ensures m.mode == SlopeGrade ==>
              StatusLevelOf(m, tanDeg) ==
                SeverityScale[Band(Abs(PercentGrade(m.primaryAngle, tanDeg)), SlopeBreaks)]
  {
    BandOfFour(LeanMagnitude(m), LeanBreaks);
    BandOfFour(Abs(PercentGrade(m.primaryAngle, tanDeg)), SlopeBreaks);
  }

  /** Between two tree-lean records, the one with the larger magnitude is
      never graded less severe. */
  lemma LeanStatusMonotone(m: Measurement, n: Measurement, tanDeg: real -> real)
    requires m.mode == TreeLean && n.mode == TreeLean
    requires LeanMagnitude(m) <= LeanMagnitude(n)
    ensures Rank(StatusLevelOf(m, tanDeg)) <= Rank(StatusLevelOf(n, tanDeg))
  {
    StatusLevelIsBand(m, tanDeg);
    StatusLevelIsBand(n, tanDeg);
    BandMonotone(LeanMagnitude(m), LeanMagnitude(n), LeanBreaks);
    RankOfScale(Band(LeanMagnitude(m), LeanBreaks));
    RankOfScale(Band(LeanMagnitude(n), LeanBreaks));
  }

  /** The same for slope records and their absolute grade. */
  lemma SlopeStatusMonotone(m: Measurement, n: Measurement, tanDeg: real -> real)
    requires m.mode == SlopeGrade && n.mode == SlopeGrade
    requires Abs(PercentGrade(m.primaryAngle, tanDeg)) <= Abs(PercentGrade(n.primaryAngle, tanDeg))
    ensures Rank(StatusLevelOf(m, tanDeg)) <= Rank(StatusLevelOf(n, tanDeg))
  {
    var x := Abs(PercentGrade(m.primaryAngle, tanDeg));
    var y := Abs(PercentGrade(n.primaryAngle, tanDeg));
    StatusLevelIsBand(m, tanDeg);
    StatusLevelIsBand(n, tanDeg);
    BandMonotone(x, y, SlopeBreaks);
    RankOfScale(Band(x, SlopeBreaks));
    RankOfScale(Band(y, SlopeBreaks));
  }

  lemma RankOfScale(k: nat)
    requires k < |SeverityScale|
    ensures SeverityScale[k] != Neutral && Rank(SeverityScale[k]) == k
  {
  }

  /** `secondaryLabel`: blank exactly for slope records. */
  function SecondaryLabel(mode: Mode): (r: string)
    ensures r == "" <==> mode == SlopeGrade
    ensures mode == TreeLean ==> r == "Secondaria:"
    ensures mode == TreeHeight ==> r == "Distanza:"
  {
    match mode
    case TreeLean => "Secondaria:"
    case SlopeGrade => ""
    case TreeHeight => "Distanza:"
  }

  /** `formattedSecondaryValue`: blank for slope records and for height
      records without a distance, a formatted number otherwise. */
  function FormattedSecondaryValue(m: Measurement): (r: Text)
    ensures IsEmptyText(r) <==> m.mode == SlopeGrade || (m.mode == TreeHeight && m.distance.None?)
    ensures m.mode == TreeLean ==> r == Formatted("%.1f°", m.secondaryAngle)
  {
    match m.mode
    case TreeLean => Formatted("%.1f°", m.secondaryAngle)
    case SlopeGrade => Literal("")
    case TreeHeight =>
      if m.distance.Some? then Formatted("%.0f m", m.distance.value) else Literal("")
  }
}
