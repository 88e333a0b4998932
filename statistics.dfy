/** The history screens of VeeTA (inclinations, lengths, crown diameters and
    heights). Each lists a tree's readings newest first, shows an empty state
    when there are none, and a statistics section when there is more than
    one: mean, maximum, minimum and their difference, plus, for
    inclinations, the population standard deviation with a stability grade.
    Each row of the inclination history carries a small category badge. */
module History {
  import opened Common
  import opened Severity
  import opened Records

  /** `map(\.value)` over a history. */
  function Values(rs: seq<Record>): (r: seq<real>)
    ensures |r| == |rs|
    ensures forall i :: 0 <= i < |rs| ==> r[i] == rs[i].value
  {
    if rs == [] then [] else [rs[0].value] + Values(rs[1..])
  }

  /** `reduce(0) { $0 + $1 }`, folding from the front. */
  function Sum(xs: seq<real>): real
  {
    if xs == [] then 0.0 else Sum(xs[..|xs| - 1]) + xs[|xs| - 1]
  }

  /** `total / Double(count)`. On an empty history Swift divides 0 by 0 and
      gets NaN; the model has no value there. */
  function Mean(xs: seq<real>): (r: Option<real>)
    ensures r.None? <==> xs == []
    ensures r.Some? ==> r.value * (|xs| as real) == Sum(xs)
  {
    if xs == [] then None else Some(Sum(xs) / (|xs| as real))
  }

  /** `max()` of a non-empty array. */
  function SeqMax(xs: seq<real>): (r: real)
    requires xs != []
    ensures r in xs
    ensures forall i :: 0 <= i < |xs| ==> xs[i] <= r
  {
    if |xs| == 1 then xs[0] else Max(xs[0], SeqMax(xs[1..]))
  }

  /** `min()` of a non-empty array. */
  function SeqMin(xs: seq<real>): (r: real)
    requires xs != []
    ensures r in xs
    ensures forall i :: 0 <= i < |xs| ==> r <= xs[i]
  {
    if |xs| == 1 then xs[0] else Min(xs[0], SeqMin(xs[1..]))
  }

  /** `max() ?? 0`. */
  function MaxOrZero(xs: seq<real>): (r: real)
    ensures xs == [] ==> r == 0.0
    ensures xs != [] ==> r in xs && forall i :: 0 <= i < |xs| ==> xs[i] <= r
  {
    if xs == [] then 0.0 else SeqMax(xs)
  }

  /** `min() ?? 0`. */
  function MinOrZero(xs: seq<real>): (r: real)
    ensures xs == [] ==> r == 0.0
    ensures xs != [] ==> r in xs && forall i :: 0 <= i < |xs| ==> r <= xs[i]
  {
    if xs == [] then 0.0 else SeqMin(xs)
  }

  /** The variation (or range) box, `max - min`: never negative, and no two
      readings differ by more. */
  function Variation(xs: seq<real>): (r: real)
    ensures r >= 0.0
    ensures forall i, j :: 0 <= i < |xs| && 0 <= j < |xs| ==> xs[i] - xs[j] <= r
  {
    MaxOrZero(xs) - MinOrZero(xs)
  }

  /** Bounds on the elements bound the total. */
  lemma {:induction false} SumBounds(xs: seq<real>, lo: real, hi: real)
    requires forall i :: 0 <= i < |xs| ==> lo <= xs[i] <= hi
    ensures (|xs| as real) * lo <= Sum(xs) <= (|xs| as real) * hi
  {
    if xs != [] {
      var init := xs[..|xs| - 1];
      SumBounds(init, lo, hi);
      assert (|xs| as real) * lo == (|init| as real) * lo + lo;
      assert (|xs| as real) * hi == (|init| as real) * hi + hi;
    }
  }

  /** On a non-empty history the mean lies between the minimum and the
      maximum. */
  lemma MeanBetween(xs: seq<real>)
    requires xs != []
    ensures MinOrZero(xs) <= Mean(xs).value <= MaxOrZero(xs)
  {
    var lo, hi := MinOrZero(xs), MaxOrZero(xs);
    assert forall i :: 0 <= i < |xs| ==> lo <= xs[i] <= hi;
    MeanWithin(xs, lo, hi);
  }

  /** Bounds on every reading bound the mean. */
  lemma MeanWithin(xs: seq<real>, lo: real, hi: real)
    requires xs != []
    requires forall i :: 0 <= i < |xs| ==> lo <= xs[i] <= hi
    ensures lo <= Mean(xs).value <= hi
  {
    SumBounds(xs, lo, hi);
    QuotientBetween(Sum(xs), |xs| as real, Mean(xs).value, lo, hi);
  }

  /** A quotient of a total bracketed by `n*lo` and `n*hi` lies in [lo, hi]. */
  lemma QuotientBetween(total: real, n: real, m: real, lo: real, hi: real)
    requires n > 0.0 && m * n == total
    requires n * lo <= total <= n * hi
    ensures lo <= m <= hi
  {
    assert (m - lo) * n == total - n * lo;
    assert (hi - m) * n == n * hi - total;
    ProductSign(m - lo, n);
    ProductSign(hi - m, n);
  }

  lemma ProductSign(a: real, n: real)
    requires n > 0.0 && a * n >= 0.0
    ensures a >= 0.0
  {
    assert a == (a * n) / n;
  }

  /** A history whose readings all agree has that reading as its mean. */
  lemma MeanOfConstant(xs: seq<real>, c: real)
    requires xs != []
    requires forall i :: 0 <= i < |xs| ==> xs[i] == c
    ensures Mean(xs) == Some(c)
  {
    MeanWithin(xs, c, c);
  }

  /** `reduce(0) { sum, m in sum + pow(m.value - mean, 2) }`. */
  function SquaredDeviations(xs: seq<real>, mean: real): (r: real)
    ensures r >= 0.0
  {
    if xs == [] then 0.0
    else
      var d := xs[|xs| - 1] - mean;
      SquaredDeviations(xs[..|xs| - 1], mean) + d * d
  }

  /** The population variance: the mean squared deviation from the mean. */
  function Variance(xs: seq<real>): (r: Option<real>)
    ensures r.None? <==> xs == []
    ensures r.Some? ==> r.value >= 0.0
    ensures r.Some? ==> r.value * (|xs| as real) == SquaredDeviations(xs, Mean(xs).value)
  {
    if xs == [] then None
    else Some(SquaredDeviations(xs, Mean(xs).value) / (|xs| as real))
  }

  /** Readings that all agree have no spread. */
  lemma {:induction false} SquaredDeviationsOfConstant(xs: seq<real>, c: real)
    requires forall i :: 0 <= i < |xs| ==> xs[i] == c
    ensures SquaredDeviations(xs, c) == 0.0
  {
    if xs != [] {
      SquaredDeviationsOfConstant(xs[..|xs| - 1], c);
    }
  }

  lemma VarianceOfConstant(xs: seq<real>, c: real)
    requires xs != []
    requires forall i :: 0 <= i < |xs| ==> xs[i] == c
    ensures Variance(xs) == Some(0.0)
  {
    MeanOfConstant(xs, c);
    SquaredDeviationsOfConstant(xs, c);
  }

  /** `sqrt(variance)`; `sqrt` is the platform's square root. */
  function StandardDeviation(xs: seq<real>, sqrt: real -> real): (r: Option<real>)
    ensures r.None? <==> xs == []
    ensures r.Some? ==> r.value == sqrt(Variance(xs).value)
  {
    match Variance(xs)
    case None => None
    case Some(v) => Some(sqrt(v))
  }

  /** The summary the statistics section shows. */
  datatype Summary = Summary(average: Option<real>, maximum: real, minimum: real, variation: real)

  /** `ClinometerStatisticsView`, `LengthStatisticsView`,
      `DiameterStatisticsView` and `StatisticsView`: all four compute the
      same summary of the readings' values. On a non-empty history the
      average is bracketed by the extremes, which are readings. */
  function Summarize(rs: seq<Record>): (s: Summary)
    ensures s.average.None? <==> rs == []
    ensures rs != [] ==> s.minimum <= s.average.value <= s.maximum
    ensures rs != [] ==> exists i :: 0 <= i < |rs| && rs[i].value == s.maximum
    ensures rs != [] ==> exists i :: 0 <= i < |rs| && rs[i].value == s.minimum
    ensures rs == [] ==> s.maximum == 0.0 && s.minimum == 0.0 && s.variation == 0.0
    ensures s.variation == s.maximum - s.minimum && s.variation >= 0.0
  {
    var xs := Values(rs);
    if rs != [] then MeanBetween(xs); Summary(Mean(xs), MaxOrZero(xs), MinOrZero(xs), Variation(xs))
    else Summary(Mean(xs), MaxOrZero(xs), MinOrZero(xs), Variation(xs))
  }

  /** Which parts of a history screen are visible. */
  datatype Sections = Sections(emptyState: bool, list: bool, statistics: bool)

  /** The empty state replaces the list when there are no readings; the
      statistics are shown only beside a list of at least two. */
  function HistorySections(count: nat): (r: Sections)
    ensures r.emptyState <==> !r.list
    ensures r.list <==> count > 0
    ensures r.statistics <==> count > 1
    ensures r.statistics ==> r.list
  {
    Sections(count == 0, count != 0, count > 1)
  }

  /** The rows are the readings newest first, and the row marked latest, the
      first, is the newest reading. */
  lemma HistoryOrder(rs: seq<Record>)
    ensures SortedByDateDesc(SortByDateDesc(rs))
    ensures multiset(SortByDateDesc(rs)) == multiset(rs)
    ensures rs != [] ==> Latest(rs) == Some(SortByDateDesc(rs)[0])
  {
    SortByDateDescSorted(rs);
    if rs != [] {
      assert rs[0] in multiset(SortByDateDesc(rs));
    }
  }

  const StabilityBreaks: seq<real> := [2.0, 5.0, 10.0]
  const StabilityLabels: seq<string> := ["Ottima", "Buona", "Discreta", "Variabile"]
  const StabilityColors: seq<Color> := [Green, Blue, Orange, Red]

  /** `stabilityCategory`: the half-open ranges 0..<2, 2..<5, 5..<10, and
      anything else (including a negative value) is variable. */
  function StabilityCategory(sd: real): string
  {
    if 0.0 <= sd < 2.0 then "Ottima"
    else if 2.0 <= sd < 5.0 then "Buona"
    else if 5.0 <= sd < 10.0 then "Discreta"
    else "Variabile"
  }

  /** `stabilityColor`. */
  function StabilityColor(sd: real): Color
  {
    if 0.0 <= sd < 2.0 then Green
    else if 2.0 <= sd < 5.0 then Blue
    else if 5.0 <= sd < 10.0 then Orange
    else Red
  }

  /** A non-negative deviation is graded by its band on the stability scale;
      the grade and its colour always go together. */
  lemma StabilityIsBand(sd: real)
    ensures sd >= 0.0 ==> StabilityCategory(sd) == StabilityLabels[Band(sd, StabilityBreaks)]
    ensures sd >= 0.0 ==> StabilityColor(sd) == StabilityColors[Band(sd, StabilityBreaks)]
    ensures sd < 0.0 ==> StabilityCategory(sd) == "Variabile" && StabilityColor(sd) == Red
  {
    BandOfThree(sd, StabilityBreaks);
  }

  const CategoryBreaks: seq<real> := [5.0, 15.0, 30.0, 80.0]
  const CategoryLabels: seq<string> := ["A", "B", "C", "C-D", "D"]
  const BadgeBreaks: seq<real> := [5.0, 15.0, 30.0]
  const BadgeColors: seq<Color> := [Green, Yellow, Orange, Red]

  /** `inclinationCategory` of the small indicator. */
  function InclinationCategory(inclination: real): string
  {
    var a := Abs(inclination);
    if 0.0 <= a < 5.0 then "A"
    else if 5.0 <= a < 15.0 then "B"
    else if 15.0 <= a < 30.0 then "C"
    else if 30.0 <= a < 80.0 then "C-D"
    else "D"
  }

  /** `inclinationColor` of the small indicator. */
  function InclinationColor(inclination: real): Color
  {
    var a := Abs(inclination);
    if 0.0 <= a < 5.0 then Green
    else if 5.0 <= a < 15.0 then Yellow
    else if 15.0 <= a < 30.0 then Orange
    else Red
  }

  /** The badge's category and colour are the bands of `|inclination|` on
      their scales, and the colour is red exactly for the two steepest
      categories. */
  lemma InclinationBadgeIsBand(inclination: real)
    ensures InclinationCategory(inclination) == CategoryLabels[Band(Abs(inclination), CategoryBreaks)]
    ensures InclinationColor(inclination) == BadgeColors[Band(Abs(inclination), BadgeBreaks)]
    ensures InclinationColor(inclination) == Red <==>
              InclinationCategory(inclination) == "C-D" || InclinationCategory(inclination) == "D"
  {
    BandOfFour(Abs(inclination), CategoryBreaks);
    BandOfThree(Abs(inclination), BadgeBreaks);
  }
}
