/** The two `String`-backed enums of the Log clinometer: the measurement mode
    and, for tree lean, the measurement axis. Each case's `id` is its raw value
    and `init?(rawValue:)` inverts `rawValue`. */
module Modes {
  import opened Common

  datatype Mode = TreeLean | SlopeGrade | TreeHeight

  datatype Axis = Longitudinal | Lateral

  function ModeRawValue(m: Mode): string
  {
    match m
    case TreeLean => "Inclinazione Albero"
    case SlopeGrade => "Pendenza Terreno"
    case TreeHeight => "Altezza Albero"
  }

  /** `MeasurementMode.allCases`, in declaration order. */
  const AllModes: seq<Mode> := [TreeLean, SlopeGrade, TreeHeight]

  /** `MeasurementMode.id`: the raw value, which parses back to the mode and
      is the raw value of no other mode. */
  function ModeId(m: Mode): (r: string)
    ensures ModeFromRawValue(r) == Some(m)
    ensures forall n: Mode :: ModeRawValue(n) == r ==> n == m
  {
    ModeRawValue(m)
  }

  /** `MeasurementMode(rawValue:)`. */
  function ModeFromRawValue(s: string): (r: Option<Mode>)
    ensures r.Some? ==> ModeRawValue(r.value) == s
  {
    if s == "Inclinazione Albero" then Some(TreeLean)
    else if s == "Pendenza Terreno" then Some(SlopeGrade)
    else if s == "Altezza Albero" then Some(TreeHeight)
    else None
  }

  /** `MeasurementMode.description`: a non-empty explanation for every mode. */
  function ModeDescription(m: Mode): (r: string)
    ensures |r| > 0
  {
    match m
    case TreeLean => "Misura la deviazione dell'albero dalla verticale"
    case SlopeGrade => "Misura la pendenza del terreno"
    case TreeHeight => "Calcola l'altezza usando distanza e angolo"
  }

  function AxisRawValue(a: Axis): string
  {
    match a
    case Longitudinal => "Longitudinale"
    case Lateral => "Laterale"
  }

  /** `MeasurementAxis.allCases`, in declaration order. */
  const AllAxes: seq<Axis> := [Longitudinal, Lateral]

  /** `MeasurementAxis.id`: the raw value, which parses back to the axis and
      is the raw value of no other axis. */
  function AxisId(a: Axis): (r: string)
    ensures AxisFromRawValue(r) == Some(a)
    ensures forall b: Axis :: AxisRawValue(b) == r ==> b == a
  {
    AxisRawValue(a)
  }

  /** `MeasurementAxis(rawValue:)`. */
  function AxisFromRawValue(s: string): (r: Option<Axis>)
    ensures r.Some? ==> AxisRawValue(r.value) == s
  {
    if s == "Longitudinale" then Some(Longitudinal)
    else if s == "Laterale" then Some(Lateral)
    else None
  }

  /** Every mode is listed exactly once, so `allCases` has three entries. */
  lemma AllModesEnumerates(m: Mode)
    ensures m in AllModes
    ensures |AllModes| == 3
    ensures forall i, j :: 0 <= i < j < |AllModes| ==> AllModes[i] != AllModes[j]
  {
  }

  /** Every axis is listed exactly once, so `allCases` has two entries. */
  lemma AllAxesEnumerates(a: Axis)
    ensures a in AllAxes
    ensures |AllAxes| == 2
    ensures AllAxes[0] != AllAxes[1]
  {
  }

  /** Raw values, hence ids, are pairwise distinct, and parsing a raw value
      gives back its case. */
  lemma ModeRawValueRoundTrip(m: Mode, n: Mode)
    ensures ModeFromRawValue(ModeRawValue(m)) == Some(m)
    ensures ModeId(m) == ModeId(n) ==> m == n
  {
    assert ModeFromRawValue(ModeRawValue(n)) == Some(n);
  }

  lemma AxisRawValueRoundTrip(a: Axis, b: Axis)
    ensures AxisFromRawValue(AxisRawValue(a)) == Some(a)
    ensures AxisId(a) == AxisId(b) ==> a == b
  {
    assert AxisFromRawValue(AxisRawValue(b)) == Some(b);
  }
}
