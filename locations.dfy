/** The Log app's saved map locations: the `SavedLocation` value and the
    `LocationStore` that keeps them in memory and writes them back after
    every change. */
module Locations {
  import opened Common
  import opened Lists

  /** `CLLocationCoordinate2D`. */
  datatype Coordinate = Coordinate(latitude: real, longitude: real)

  datatype SavedLocation = SavedLocation(id: Uuid, title: string, latitude: real, longitude: real, timestamp: Date)

  /** `SavedLocation(id:title:coordinate:timestamp:)`: the coordinate is
      stored as its two components. */
  function NewLocation(id: Uuid, title: string, coordinate: Coordinate, timestamp: Date): (l: SavedLocation)
    ensures l.id == id && l.title == title && l.timestamp == timestamp
    ensures l.latitude == coordinate.latitude && l.longitude == coordinate.longitude
  {
    SavedLocation(id, title, coordinate.latitude, coordinate.longitude, timestamp)
  }

  /** The computed `coordinate`. */
  function CoordinateOf(l: SavedLocation): (c: Coordinate)
    ensures c.latitude == l.latitude && c.longitude == l.longitude
  {
    Coordinate(l.latitude, l.longitude)
  }

  /** The coordinate a location was made with is the one it reports, and a
      location rebuilt from its own fields is the same value. */
  lemma CoordinateRoundTrip(id: Uuid, title: string, coordinate: Coordinate, timestamp: Date, l: SavedLocation)
    ensures CoordinateOf(NewLocation(id, title, coordinate, timestamp)) == coordinate
    ensures NewLocation(l.id, l.title, CoordinateOf(l), l.timestamp) == l
  {
  }

  /** The custom `==`: locations are the same when their ids are. */
  predicate SameLocation(a: SavedLocation, b: SavedLocation)
  {
    a.id == b.id
  }

  /** Equality by id ignores the title, the coordinate and the time, and is an
      equivalence. */
  lemma SameLocationIgnoresContents(a: SavedLocation, b: SavedLocation, c: SavedLocation)
    ensures SameLocation(a, b) <==> a.id == b.id
    ensures SameLocation(a, a.(title := b.title, latitude := b.latitude,
                               longitude := b.longitude, timestamp := b.timestamp))
    ensures SameLocation(a, b) ==> SameLocation(b, a)
    ensures SameLocation(a, b) && SameLocation(b, c) ==> SameLocation(a, c)
  {
  }

  function IdOf(l: SavedLocation): Uuid
  {
    l.id
  }

  /** `LocationStore`. `persisted` stands for the decoded value under the
      `"SavedLocations"` key of the user defaults (`None`: nothing there, or
      nothing decodable), and `saveCount` counts the calls of
      `saveLocations()`. */
  class LocationStore {
    var savedLocations: seq<SavedLocation>
    var persisted: Option<seq<SavedLocation>>
    var saveCount: nat

    /** What is stored, once anything is, is the list in memory. */
    predicate Valid()
      reads this
    {
      persisted.Some? ==> persisted.value == savedLocations
    }

    /** `init()` runs `loadLocations()`: the stored list if there is one,
        otherwise an empty store. */
    constructor (persisted: Option<seq<SavedLocation>>)
      ensures Valid()
      ensures this.persisted == persisted && saveCount == 0
      ensures persisted.None? ==> savedLocations == []
      ensures persisted.Some? ==> savedLocations == persisted.value
    {
      this.persisted := persisted;
      savedLocations := if persisted.Some? then persisted.value else [];
      saveCount := 0;
    }

    /** `saveLocations()`. */
    method SaveLocations()
      modifies this
      ensures Valid()
      ensures persisted == Some(savedLocations) && saveCount == old(saveCount) + 1
      ensures savedLocations == old(savedLocations)
    {
      persisted := Some(savedLocations);
      saveCount := saveCount + 1;
    }

    /** `addLocation(_:)`: appends at the end, then saves. */
    method AddLocation(location: SavedLocation)
      modifies this
      ensures Valid()
      ensures savedLocations == old(savedLocations) + [location]
      ensures persisted == Some(savedLocations) && saveCount == old(saveCount) + 1
    {
      savedLocations := savedLocations + [location];
      SaveLocations();
    }

    /** `removeLocation(at:)`: the offsets are rows of the list. */
    method RemoveLocationAt(offsets: set<nat>)
      requires forall o :: o in offsets ==> o < |savedLocations|
      modifies this
      ensures Valid()
      ensures savedLocations == RemoveOffsets(old(savedLocations), offsets)
      ensures |savedLocations| == |old(savedLocations)| - |offsets|
      ensures persisted == Some(savedLocations) && saveCount == old(saveCount) + 1
    {
      RemoveOffsetsCount(savedLocations, offsets);
      savedLocations := RemoveOffsets(savedLocations, offsets);
      SaveLocations();
    }

    /** `removeLocation(withID:)`: removes the first location with that id
        and saves; without such a location nothing happens, not even a
        save. */
    method RemoveLocationWithId(id: Uuid)
      requires Valid()
      modifies this
      ensures Valid()
      ensures FirstIndexOf(old(savedLocations), IdOf, id).None? ==>
                savedLocations == old(savedLocations) && saveCount == old(saveCount)
                && persisted == old(persisted)
      ensures FirstIndexOf(old(savedLocations), IdOf, id).Some? ==>
                var i := FirstIndexOf(old(savedLocations), IdOf, id).value;
                savedLocations == old(savedLocations)[..i] + old(savedLocations)[i + 1..]
                && persisted == Some(savedLocations) && saveCount == old(saveCount) + 1
      ensures (forall l :: l in old(savedLocations) ==> l.id != id) <==> saveCount == old(saveCount)
    {
      var index := FirstIndexOf(savedLocations, IdOf, id);
      if index.Some? {
        RemoveSingleOffset(savedLocations, index.value);
        savedLocations := RemoveOffsets(savedLocations, {index.value});
        SaveLocations();
      }
    }

    /** The append step of `importLocations(from:)`: `imported` is the decoded
        file, `None` when it cannot be read or decoded, in which case nothing
        changes. */
    method ImportLocations(imported: Option<seq<SavedLocation>>)
      requires Valid()
      modifies this
      ensures Valid()
      ensures imported.None? ==>
                savedLocations == old(savedLocations) && saveCount == old(saveCount)
                && persisted == old(persisted)
      ensures imported.Some? ==>
                savedLocations == old(savedLocations) + imported.value
                && persisted == Some(savedLocations) && saveCount == old(saveCount) + 1
    {
      if imported.Some? {
        savedLocations := savedLocations + imported.value;
        SaveLocations();
      }
    }
  }
}
