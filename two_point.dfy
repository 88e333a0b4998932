/** The two-point AR measurement the VeeTA height, diameter and length
    screens (and the length screen of a new tree) share: the first accepted
    hit fixes the start point, the second the end point and the measured
    distance between them, later hits are ignored until "Reset". */
module TwoPoint {
  import opened Common
  import opened ArSession
  import opened Records
  import Trees
  import CompactTrees

  /** A world position returned by a raycast. */
  datatype Point = Point(x: real, y: real, z: real)

  /** `startPoint`, `endPoint` and `measuredHeight` / `measuredDiameter` /
      `measuredLength`. */
  datatype Measure = Measure(start: Option<Point>, end: Option<Point>, measured: real)

  const Initial: Measure := Measure(None, None, 0.0)

  /** What every reachable state satisfies: an end point only after a start
      point, and the measured value is the distance of the two points, or 0
      while there is no end point. */
  predicate Consistent(m: Measure, dist: (Point, Point) -> real)
  {
    (m.end.Some? ==> m.start.Some? && m.measured == dist(m.start.value, m.end.value))
    && (m.end.None? ==> m.measured == 0.0)
  }

  /** `processRaycastResult`. */
  function Step(m: Measure, p: Point, dist: (Point, Point) -> real): (r: Measure)
    ensures m.start.None? ==> r.start == Some(p) && r.end == m.end
    ensures m.start.Some? && m.end.None? ==> r.start == m.start && r.end == Some(p)
    ensures m.start.Some? && m.end.Some? ==> r == m
  {
    if m.start.None? then m.(start := Some(p))
    else if m.end.None? then m.(end := Some(p), measured := dist(m.start.value, p))
    else m
  }

  /** A hit keeps a consistent state consistent. */
  lemma StepConsistent(m: Measure, p: Point, dist: (Point, Point) -> real)
    requires Consistent(m, dist)
    ensures Consistent(Step(m, p, dist), dist)
  {
  }

  /** The state after a series of processed hits. */
  function AfterHits(m: Measure, ps: seq<Point>, dist: (Point, Point) -> real): Measure
    decreases |ps|
  {
    if ps == [] then m else AfterHits(Step(m, ps[0], dist), ps[1..], dist)
  }

  /** Once both points are fixed, no further hit changes anything. */
  lemma {:induction false} CompleteIgnoresHits(m: Measure, ps: seq<Point>, dist: (Point, Point) -> real)
    requires m.start.Some? && m.end.Some?
    ensures AfterHits(m, ps, dist) == m
    decreases |ps|
  {
    if ps != [] {
      CompleteIgnoresHits(m, ps[1..], dist);
    }
  }

  /** From the initial state: no hit leaves it, one hit fixes only the start,
      and two or more hits fix the first two points and their distance,
      whatever follows. */
  lemma HitsFromInitial(ps: seq<Point>, dist: (Point, Point) -> real)
    ensures |ps| == 0 ==> AfterHits(Initial, ps, dist) == Initial
    ensures |ps| == 1 ==> AfterHits(Initial, ps, dist) == Measure(Some(ps[0]), None, 0.0)
    ensures |ps| >= 2 ==>
              AfterHits(Initial, ps, dist) == Measure(Some(ps[0]), Some(ps[1]), dist(ps[0], ps[1]))
  {
    if |ps| >= 1 {
      var one := Step(Initial, ps[0], dist);
      assert AfterHits(Initial, ps, dist) == AfterHits(one, ps[1..], dist);
      if |ps| >= 2 {
        var two := Step(one, ps[1], dist);
        assert AfterHits(one, ps[1..], dist) == AfterHits(two, ps[2..], dist);
        CompleteIgnoresHits(two, ps[2..], dist);
      }
    }
  }

  /** How many raycasts a tap performs: none on a session that refuses taps,
      the fallback one only when the first finds nothing. */
  function RaycastCount(s: Session, first: Option<Point>): (n: nat)
    ensures n == 0 <==> !AcceptsTaps(s)
    ensures n == 2 <==> AcceptsTaps(s) && first.None?
  {
    if !AcceptsTaps(s) then 0 else if first.Some? then 1 else 2
  }

  /** The hit a tap processes, if any. */
  function TapHit(s: Session, first: Option<Point>, fallback: Option<Point>): (h: Option<Point>)
    ensures !AcceptsTaps(s) ==> h.None?
    ensures AcceptsTaps(s) && first.Some? ==> h == first
    ensures AcceptsTaps(s) && first.None? ==> h == fallback
  {
    if !AcceptsTaps(s) then None else if first.Some? then first else fallback
  }

  /** The AR state of a two-point screen; `dist` is `simd distance`. */
  class PointPicker {
    const dist: (Point, Point) -> real
    var startPoint: Option<Point>
    var endPoint: Option<Point>
    var measured: real
    var session: Session

    function Current(): Measure
      reads this
    {
      Measure(startPoint, endPoint, measured)
    }

    predicate Valid()
      reads this
    {
      Consistent(Current(), dist)
    }

    constructor (dist: (Point, Point) -> real)
      ensures Valid()
      ensures this.dist == dist && Current() == Initial && session == InitialSession
    {
      this.dist := dist;
      startPoint := None;
      endPoint := None;
      measured := 0.0;
      session := InitialSession;
    }

    /** The result card is shown exactly when both points are set. */
    predicate ShowsResult()
      reads this
    {
      startPoint.Some? && endPoint.Some?
    }

    /** "Reset" is disabled while there is no start point or the session is
        not ready. */
    predicate CanReset()
      reads this
    {
      startPoint.Some? && session.ready
    }

    method ProcessRaycastResult(p: Point)
      requires Valid()
      modifies this
      ensures Valid()
      ensures Current() == Step(old(Current()), p, dist)
      ensures session == old(session)
    {
      StepConsistent(Current(), p, dist);
      if startPoint.None? {
        startPoint := Some(p);
      } else if endPoint.None? {
        endPoint := Some(p);
        measured := dist(startPoint.value, p);
      }
    }

    /** `handleTapGesture`: `first` and `fallback` are what the estimated-plane
        and the existing-geometry raycasts return. */
    method HandleTap(first: Option<Point>, fallback: Option<Point>) returns (raycasts: nat)
      requires Valid()
      modifies this
      ensures Valid()
      ensures raycasts == RaycastCount(old(session), first)
      ensures TapHit(old(session), first, fallback).None? ==> Current() == old(Current())
      ensures TapHit(old(session), first, fallback).Some? ==>
                Current() == Step(old(Current()), TapHit(old(session), first, fallback).value, dist)
      ensures session == old(session)
    {
      if !AcceptsTaps(session) {
        return 0;
      }
      if first.Some? {
        ProcessRaycastResult(first.value);
        return 1;
      }
      raycasts := 2;
      if fallback.Some? {
        ProcessRaycastResult(fallback.value);
      }
    }

    /** `resetMeasurement`. */
    method ResetMeasurement()
      modifies this
      ensures Valid()
      ensures Current() == Initial && !ShowsResult()
      ensures session == old(session)
    {
      startPoint := None;
      endPoint := None;
      measured := 0.0;
    }

    method OnSessionEvent(e: SessionEvent)
      modifies this
      ensures session == OnEvent(old(session), e)
      ensures Current() == old(Current())
    {
      session := OnEvent(session, e);
    }
  }

  /** What an existing-tree screen measures. */
  datatype Quantity = Height | Diameter | Length

  /** `HeightMeasurementView`, `DiameterView` and `LengthMeasurementView`:
      the measured value and the notes are saved as one record of the
      screen's quantity (collected in `inserted`) and the screen closes. */
  class MeasurementScreen {
    const quantity: Quantity
    const picker: PointPicker
    var notes: string
    var inserted: seq<Record>
    var dismissed: bool

    constructor (quantity: Quantity, dist: (Point, Point) -> real)
      ensures fresh(picker) && picker.Valid()
      ensures this.quantity == quantity && picker.dist == dist
      ensures picker.Current() == Initial && picker.session == InitialSession
      ensures notes == "" && inserted == [] && !dismissed
    {
      this.quantity := quantity;
      picker := new PointPicker(dist);
      notes := "";
      inserted := [];
      dismissed := false;
    }

    /** "Salva" on the save sheet, which opens from the result card. */
    method Save(now: Date)
      requires picker.ShowsResult()
      modifies this
      ensures inserted == old(inserted) + [NewRecord(picker.measured, notes, now)]
      ensures dismissed && notes == old(notes)
    {
      inserted := inserted + [NewRecord(picker.measured, notes, now)];
      dismissed := true;
    }
  }

  /** `LengthMeasurementForNewTreeView`: saving creates the tree with one
      length record and hands it to `onSave` (collected in `delivered`)
      before the screen closes. */
  class NewTreeLengthScreen {
    const treeName: string
    const treeSpecies: string
    const extraNotes: string
    const cluster: Option<Trees.ClusterRef>
    const picker: PointPicker
    var notes: string
    var delivered: seq<CompactTrees.Tree>
    var dismissed: bool

    constructor (treeName: string, treeSpecies: string, extraNotes: string,
                 cluster: Option<Trees.ClusterRef>, dist: (Point, Point) -> real)
      ensures fresh(picker) && picker.Valid()
      ensures this.treeName == treeName && this.treeSpecies == treeSpecies
      ensures this.extraNotes == extraNotes && this.cluster == cluster
      ensures picker.dist == dist && picker.Current() == Initial && picker.session == InitialSession
      ensures notes == "" && delivered == [] && !dismissed
    {
      this.treeName := treeName;
      this.treeSpecies := treeSpecies;
      this.extraNotes := extraNotes;
      this.cluster := cluster;
      picker := new PointPicker(dist);
      notes := "";
      delivered := [];
      dismissed := false;
    }

    /** `saveTreeWithMeasurement`. */
    method SaveTreeWithMeasurement(now: Date) returns (newTree: CompactTrees.Tree)
      requires picker.ShowsResult() && !dismissed
      modifies this
      ensures fresh(newTree)
      ensures newTree.name == treeName && newTree.species == treeSpecies
      ensures newTree.extraNotes == extraNotes && newTree.cluster == cluster
      ensures newTree.lengthMeasurements == [NewRecord(picker.measured, notes, now)]
      ensures newTree.measurements == []
      ensures delivered == old(delivered) + [newTree]
      ensures dismissed && notes == old(notes)
    {
      newTree := new CompactTrees.Tree(treeName, treeSpecies, extraNotes, cluster, now);
      newTree.AppendLength(NewRecord(picker.measured, notes, now));
      delivered := delivered + [newTree];
      dismissed := true;
    }
  }
}
