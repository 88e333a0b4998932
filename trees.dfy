/** The VeeTA `Tree` model with all four measurement histories (heights,
    lengths, crown diameters and inclinations) and its latest-reading
    accessors. */
module Trees {
  import opened Common
  import opened Records

  /** A cluster is referred to by its identity. */
  type ClusterRef = Uuid

  /** `String(format: "%.2f m", …)` and `String(format: "%.2f°", …)`, the
      formats of the current values. */
  function MetresText(x: real): Text
  {
    Formatted("%.2f m", x)
  }

  function DegreesText(x: real): Text
  {
    Formatted("%.2f°", x)
  }

  /** The text of the latest reading, or nothing when there is none. */
  function CurrentText(latest: Option<Record>, format: real -> Text): (r: Option<Text>)
    ensures r.None? <==> latest.None?
    ensures r.Some? ==> r.value == format(latest.value.value)
  {
    match latest
    case None => None
    case Some(m) => Some(format(m.value))
  }

  class Tree {
    var name: string
    var species: string
    var extraNotes: string
    var createdAt: Date
    var cluster: Option<ClusterRef>
    var measurements: seq<HeightRecord>
    var lengthMeasurements: seq<LengthRecord>
    var treeProiection: seq<DiameterRecord>
    var clinometer: seq<ClinometerRecord>

    /** `init(name:species:extraNotes:cluster:)`; the defaults are `""` and
        `nil`, and `now` stands for `Date()`. */
    constructor (name: string, species: string, extraNotes: string, cluster: Option<ClusterRef>, now: Date)
      ensures this.name == name && this.species == species
      ensures this.extraNotes == extraNotes && this.cluster == cluster
      ensures createdAt == now
      ensures measurements == [] && lengthMeasurements == []
      ensures treeProiection == [] && clinometer == []
    {
      this.name := name;
      this.species := species;
      this.extraNotes := extraNotes;
      this.createdAt := now;
      this.cluster := cluster;
      measurements := [];
      lengthMeasurements := [];
      treeProiection := [];
      clinometer := [];
    }

    function LatestMeasurement(): (r: Option<HeightRecord>)
      reads this
      ensures r.None? <==> measurements == []
      ensures r.Some? ==> r.value in measurements
      ensures r.Some? ==> forall x :: x in measurements ==> NotOlder(r.value, x)
    {
      LatestIsNewest(measurements);
      Latest(measurements)
    }

    function LatestLengthMeasurement(): (r: Option<LengthRecord>)
      reads this
      ensures r.None? <==> lengthMeasurements == []
      ensures r.Some? ==> r.value in lengthMeasurements
      ensures r.Some? ==> forall x :: x in lengthMeasurements ==> NotOlder(r.value, x)
    {
      LatestIsNewest(lengthMeasurements);
      Latest(lengthMeasurements)
    }

    function LatestDiameterMeasurement(): (r: Option<DiameterRecord>)
      reads this
      ensures r.None? <==> treeProiection == []
      ensures r.Some? ==> r.value in treeProiection
      ensures r.Some? ==> forall x :: x in treeProiection ==> NotOlder(r.value, x)
    {
      LatestIsNewest(treeProiection);
      Latest(treeProiection)
    }

    function LatestClinometerMeasurement(): (r: Option<ClinometerRecord>)
      reads this
      ensures r.None? <==> clinometer == []
      ensures r.Some? ==> r.value in clinometer
      ensures r.Some? ==> forall x :: x in clinometer ==> NotOlder(r.value, x)
    {
      LatestIsNewest(clinometer);
      Latest(clinometer)
    }

    /** `currentHeight`: absent exactly when there is no height reading,
        otherwise the latest height in metres. */
    function CurrentHeight(): (r: Option<Text>)
      reads this
      ensures r.None? <==> LatestMeasurement().None?
      ensures r.None? <==> measurements == []
      ensures r.Some? ==> r.value == MetresText(LatestMeasurement().value.value)
    {
      CurrentText(LatestMeasurement(), MetresText)
    }

    function CurrentLength(): (r: Option<Text>)
      reads this
      ensures r.None? <==> LatestLengthMeasurement().None?
      ensures r.None? <==> lengthMeasurements == []
      ensures r.Some? ==> r.value == MetresText(LatestLengthMeasurement().value.value)
    {
      CurrentText(LatestLengthMeasurement(), MetresText)
    }

    function CurrentDiameter(): (r: Option<Text>)
      reads this
      ensures r.None? <==> LatestDiameterMeasurement().None?
      ensures r.None? <==> treeProiection == []
      ensures r.Some? ==> r.value == MetresText(LatestDiameterMeasurement().value.value)
    {
      CurrentText(LatestDiameterMeasurement(), MetresText)
    }

    function CurrentInclination(): (r: Option<Text>)
      reads this
      ensures r.None? <==> LatestClinometerMeasurement().None?
      ensures r.None? <==> clinometer == []
      ensures r.Some? ==> r.value == DegreesText(LatestClinometerMeasurement().value.value)
    {
      CurrentText(LatestClinometerMeasurement(), DegreesText)
    }

    /** `clinometer.append(_:)`, as the new-tree screens use it. */
    method AppendClinometer(m: ClinometerRecord)
      modifies this
      ensures clinometer == old(clinometer) + [m]
      ensures name == old(name) && species == old(species) && extraNotes == old(extraNotes)
      ensures cluster == old(cluster) && createdAt == old(createdAt)
      ensures measurements == old(measurements) && lengthMeasurements == old(lengthMeasurements)
      ensures treeProiection == old(treeProiection)
    {
      clinometer := clinometer + [m];
    }
  }
}

/** The smaller VeeTA `Tree` model, with height and length histories only. */
module CompactTrees {
  import opened Common
  import opened Records
  import Trees

  class Tree {
    var name: string
    var species: string
    var extraNotes: string
    var createdAt: Date
    var cluster: Option<Trees.ClusterRef>
    var measurements: seq<HeightRecord>
    var lengthMeasurements: seq<LengthRecord>

    constructor (name: string, species: string, extraNotes: string, cluster: Option<Trees.ClusterRef>, now: Date)
      ensures this.name == name && this.species == species
      ensures this.extraNotes == extraNotes && this.cluster == cluster
      ensures createdAt == now
      ensures measurements == [] && lengthMeasurements == []
    {
      this.name := name;
      this.species := species;
      this.extraNotes := extraNotes;
      this.createdAt := now;
      this.cluster := cluster;
      measurements := [];
      lengthMeasurements := [];
    }

    function LatestMeasurement(): (r: Option<HeightRecord>)
      reads this
      ensures r.None? <==> measurements == []
      ensures r.Some? ==> r.value in measurements
      ensures r.Some? ==> forall x :: x in measurements ==> NotOlder(r.value, x)
    {
      LatestIsNewest(measurements);
      Latest(measurements)
    }

    function LatestLengthMeasurement(): (r: Option<LengthRecord>)
      reads this
      ensures r.None? <==> lengthMeasurements == []
      ensures r.Some? ==> r.value in lengthMeasurements
      ensures r.Some? ==> forall x :: x in lengthMeasurements ==> NotOlder(r.value, x)
    {
      LatestIsNewest(lengthMeasurements);
      Latest(lengthMeasurements)
    }

    function CurrentHeight(): (r: Option<Text>)
      reads this
      ensures r.None? <==> LatestMeasurement().None?
      ensures r.None? <==> measurements == []
      ensures r.Some? ==> r.value == Trees.MetresText(LatestMeasurement().value.value)
    {
      Trees.CurrentText(LatestMeasurement(), Trees.MetresText)
    }

    function CurrentLength(): (r: Option<Text>)
      reads this
      ensures r.None? <==> LatestLengthMeasurement().None?
      ensures r.None? <==> lengthMeasurements == []
      ensures r.Some? ==> r.value == Trees.MetresText(LatestLengthMeasurement().value.value)
    {
      Trees.CurrentText(LatestLengthMeasurement(), Trees.MetresText)
    }

    /** `lengthMeasurements.append(_:)`, as the new-tree length screen uses it. */
    method AppendLength(m: LengthRecord)
      modifies this
      ensures lengthMeasurements == old(lengthMeasurements) + [m]
      ensures name == old(name) && species == old(species) && extraNotes == old(extraNotes)
      ensures cluster == old(cluster) && createdAt == old(createdAt)
      ensures measurements == old(measurements)
    {
      lengthMeasurements := lengthMeasurements + [m];
    }
  }
}
