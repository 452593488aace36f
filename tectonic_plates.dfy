/**
 * Plate attribution of utils/utils.py (get_tectonic_plate_data): every
 * earthquake becomes a point (longitude, latitude), is spatially left-joined
 * with the plate polygons, and the plate name it receives is relabelled from
 * a minor plate to its major plate through a constant table.
 *
 * Point-in-polygon containment is an oracle carried by each plate region.
 */
module TectonicPlates {
  import opened Wrappers
  import opened EarthquakeFeed

  /** The minor-plate to major-plate table, 38 entries. */
  const MinorToMajor: map<string, string> := map[
    "Juan de Fuca" := "Pacific",
    "Okhotsk" := "Eurasia",
    "Burma" := "Eurasia",
    "Sunda" := "Eurasia",
    "Yangtze" := "Eurasia",
    "Amur" := "Eurasia",
    "Aegean Sea" := "Eurasia",
    "Caribbean" := "North America",
    "Sandwich" := "South America",
    "Nazca" := "South America",
    "Cocos" := "North America",
    "Panama" := "North America",
    "Philippine Sea" := "Pacific",
    "Tonga" := "Pacific",
    "New Hebrides" := "Pacific",
    "South Bismarck" := "Pacific",
    "North Bismarck" := "Pacific",
    "Mariana" := "Pacific",
    "Kermadec" := "Pacific",
    "Altiplano" := "South America",
    "Maoke" := "Australia",
    "Woodlark" := "Australia",
    "Banda Sea" := "Australia",
    "Okinawa" := "Eurasia",
    "Futuna" := "Pacific",
    "North Andes" := "South America",
    "Arabia" := "Eurasia",
    "Shetland" := "Antarctica",
    "Manus" := "Pacific",
    "Timor" := "Australia",
    "Molucca Sea" := "Pacific",
    "Balmoral Reef" := "Australia",
    "Somalia" := "Africa",
    "India" := "Eurasia",
    "Birds Head" := "Australia",
    "Easter" := "Pacific",
    "Niuafo'ou" := "Pacific",
    "Antarctica" := "Antarctica"
  ]

  /** The seven labels the table maps to. */
  const MajorPlates: set<string> :=
    {"Pacific", "Eurasia", "North America", "South America", "Australia", "Africa", "Antarctica"}

  /** A shapely point: x is the longitude, y the latitude. */
  datatype Point = Point(x: real, y: real)

  /** One row of the plates file: its PlateName and its polygon, as a containment test. */
  datatype PlateRegion = PlateRegion(name: string, contains: Point -> bool)

  /** An earthquake row with its `tectonic_plate` column; None is pandas' NaN. */
  datatype PlatedQuake = PlatedQuake(quake: Earthquake, tectonicPlate: Option<string>)

  /** Every value of the table is one of the seven major labels. */
  lemma TableTargetsMajorPlates()
    ensures forall minor | minor in MinorToMajor :: MinorToMajor[minor] in MajorPlates
  {
  }

  // One lemma per major label below keeps each comparison against the 38
  // keys in a proof obligation of its own.

  lemma PacificNotMinor()
    ensures "Pacific" !in MinorToMajor
  {
  }

  lemma EurasiaNotMinor()
    ensures "Eurasia" !in MinorToMajor
  {
  }

  lemma NorthAmericaNotMinor()
    ensures "North America" !in MinorToMajor
  {
  }

  lemma SouthAmericaNotMinor()
    ensures "South America" !in MinorToMajor
  {
  }

  lemma AustraliaNotMinor()
    ensures "Australia" !in MinorToMajor
  {
  }

  lemma AfricaNotMinor()
    ensures "Africa" !in MinorToMajor
  {
  }

  /** A major label is not a key of the table, or it maps to itself (Antarctica). */
  lemma MajorPlatesSettled()
    ensures forall major | major in MajorPlates :: major !in MinorToMajor || MinorToMajor[major] == major
  {
    PacificNotMinor();
    EurasiaNotMinor();
    NorthAmericaNotMinor();
    SouthAmericaNotMinor();
    AustraliaNotMinor();
    AfricaNotMinor();
  }

  /** The only table entry that maps a name to itself is Antarctica. */
  lemma OnlyAntarcticaMapsToItself()
    ensures forall minor | minor in MinorToMajor :: MinorToMajor[minor] == minor <==> minor == "Antarctica"
  {
  }

  /**
   * `replace(minor_to_major_plate)` on one cell of `tectonic_plate`: a name
   * that is a key of the table becomes its major plate, any other name and a
   * missing name stay as they are.
   */
  function Relabel(plate: Option<string>): (r: Option<string>)
    ensures r.None? <==> plate.None?
    ensures plate.Some? && plate.value in MinorToMajor ==> r == Some(MinorToMajor[plate.value])
    ensures plate.Some? && plate.value in MinorToMajor ==> r.value in MajorPlates
    ensures plate.Some? && plate.value !in MinorToMajor ==> r == plate
  {
    TableTargetsMajorPlates();
    match plate
    case None => None
    case Some(name) => if name in MinorToMajor then Some(MinorToMajor[name]) else plate
  }

  /** Relabelling changes a cell exactly when it holds a table key other than Antarctica. */
  lemma RelabelChanges(plate: Option<string>)
    ensures Relabel(plate) != plate <==>
      plate.Some? && plate.value in MinorToMajor && plate.value != "Antarctica"
  {
    OnlyAntarcticaMapsToItself();
  }

  /** Relabelling a relabelled cell changes nothing more. */
  lemma RelabelIdempotent(plate: Option<string>)
    ensures Relabel(Relabel(plate)) == Relabel(plate)
  {
    MajorPlatesSettled();
  }

  /** The point the join tests: longitude first, as shapely's Point(lon, lat). */
  function PointOf(e: Earthquake): Point {
    Point(e.longitude, e.latitude)
  }

  /** `idx` lists, in increasing order, exactly the indices of the regions that contain `p`. */
  predicate ListsContaining(idx: seq<nat>, p: Point, plates: seq<PlateRegion>) {
    && (forall i :: 0 <= i < |idx| ==> idx[i] < |plates|)
    && (forall i, k :: 0 <= i < k < |idx| ==> idx[i] < idx[k])
    && (forall j :: 0 <= j < |plates| ==> (plates[j].contains(p) <==> j in idx))
  }

  /** The indices, from `from` on, of the regions that contain `p`, in file order. */
  function ContainingFrom(p: Point, plates: seq<PlateRegion>, from: nat): (idx: seq<nat>)
    requires from <= |plates|
    decreases |plates| - from
    ensures forall i :: 0 <= i < |idx| ==> from <= idx[i] < |plates|
  {
    if from == |plates| then []
    else (if plates[from].contains(p) then [from] else []) + ContainingFrom(p, plates, from + 1)
  }

  /** The indices from `from` on are increasing and are exactly the containing regions'. */
  lemma {:induction false} ContainingFromExact(p: Point, plates: seq<PlateRegion>, from: nat)
    requires from <= |plates|
    decreases |plates| - from
    ensures var idx := ContainingFrom(p, plates, from);
      && (forall i, k :: 0 <= i < k < |idx| ==> idx[i] < idx[k])
      && (forall j :: from <= j < |plates| ==> (plates[j].contains(p) <==> j in idx))
  {
    if from < |plates| {
      ContainingFromExact(p, plates, from + 1);
    }
  }

  /** The names of the regions, from `from` on, that contain `p`, one entry per region, in file order. */
  function MatchingFrom(p: Point, plates: seq<PlateRegion>, from: nat): (names: seq<string>)
    requires from <= |plates|
    decreases |plates| - from
    ensures |names| <= |plates| - from
    ensures forall name :: name in names <==>
      exists j :: from <= j < |plates| && plates[j].contains(p) && plates[j].name == name
    ensures names == [] <==> forall j :: from <= j < |plates| ==> !plates[j].contains(p)
  {
    if from == |plates| then []
    else (if plates[from].contains(p) then [plates[from].name] else []) + MatchingFrom(p, plates, from + 1)
  }

  /** The names of the plate regions that contain `p`, one entry per region, in file order. */
  function MatchingPlates(p: Point, plates: seq<PlateRegion>): (names: seq<string>)
    ensures |names| <= |plates|
    ensures forall name :: name in names <==>
      exists j :: 0 <= j < |plates| && plates[j].contains(p) && plates[j].name == name
    ensures names == [] <==> forall j :: 0 <= j < |plates| ==> !plates[j].contains(p)
  {
    MatchingFrom(p, plates, 0)
  }

  /** Entry i of the matches from `from` on is the name of the i-th containing region from `from` on. */
  lemma {:induction false} MatchingFollowsContaining(p: Point, plates: seq<PlateRegion>, from: nat)
    requires from <= |plates|
    decreases |plates| - from
    ensures |MatchingFrom(p, plates, from)| == |ContainingFrom(p, plates, from)|
    ensures forall i :: 0 <= i < |ContainingFrom(p, plates, from)| ==>
      MatchingFrom(p, plates, from)[i] == plates[ContainingFrom(p, plates, from)[i]].name
  {
    if from < |plates| {
      MatchingFollowsContaining(p, plates, from + 1);
      var names := MatchingFrom(p, plates, from + 1);
      var idx := ContainingFrom(p, plates, from + 1);
      if plates[from].contains(p) {
        assert MatchingFrom(p, plates, from) == [plates[from].name] + names;
        assert ContainingFrom(p, plates, from) == [from] + idx;
        forall i | 1 <= i <= |idx|
          ensures ([plates[from].name] + names)[i] == plates[([from] + idx)[i]].name
        {
          assert ([plates[from].name] + names)[i] == names[i - 1];
          assert ([from] + idx)[i] == idx[i - 1];
        }
      } else {
        assert MatchingFrom(p, plates, from) == names;
        assert ContainingFrom(p, plates, from) == idx;
      }
    }
  }

  /**
   * The matches are the names of the containing regions, one entry per region,
   * in file order: a name held by two containing regions appears twice.
   */
  lemma MatchingPlatesInOrder(p: Point, plates: seq<PlateRegion>)
    ensures exists idx ::
      && ListsContaining(idx, p, plates)
      && |MatchingPlates(p, plates)| == |idx|
      && (forall i :: 0 <= i < |idx| ==> MatchingPlates(p, plates)[i] == plates[idx[i]].name)
  {
    MatchingFollowsContaining(p, plates, 0);
    ContainingFromExact(p, plates, 0);
    assert ListsContaining(ContainingFrom(p, plates, 0), p, plates);
  }

  /** The rows `gpd.sjoin(..., how="left")` makes for one earthquake. */
  function JoinRows(e: Earthquake, plates: seq<PlateRegion>): seq<PlatedQuake> {
    var names := MatchingPlates(PointOf(e), plates);
    if names == [] then [PlatedQuake(e, None)]
    else seq(|names|, i requires 0 <= i < |names| => PlatedQuake(e, Some(names[i])))
  }

  /** The spatial left join: the rows of each earthquake, earthquakes in order. */
  function SpatialLeftJoin(quakes: seq<Earthquake>, plates: seq<PlateRegion>): seq<PlatedQuake> {
    if quakes == [] then []
    else JoinRows(quakes[0], plates) + SpatialLeftJoin(quakes[1..], plates)
  }

  /** The `replace` step over the whole `tectonic_plate` column. */
  function RelabelColumn(rows: seq<PlatedQuake>): (r: seq<PlatedQuake>)
    ensures |r| == |rows|
    ensures forall i :: 0 <= i < |rows| ==>
      r[i].quake == rows[i].quake && r[i].tectonicPlate == Relabel(rows[i].tectonicPlate)
  {
    seq(|rows|, i requires 0 <= i < |rows| => rows[i].(tectonicPlate := Relabel(rows[i].tectonicPlate)))
  }

  /** get_tectonic_plate_data: the left join, then the relabelling. */
  function GetTectonicPlateData(quakes: seq<Earthquake>, plates: seq<PlateRegion>): seq<PlatedQuake> {
    RelabelColumn(SpatialLeftJoin(quakes, plates))
  }

  /** No two plate regions contain the same point. */
  predicate OneRegionAt(p: Point, plates: seq<PlateRegion>) {
    forall j1, j2 :: 0 <= j1 < |plates| && 0 <= j2 < |plates| && plates[j1].contains(p) && plates[j2].contains(p) ==> j1 == j2
  }

  /** Every earthquake lies in at most one plate region, as the plates file intends. */
  predicate AtMostOnePlate(quakes: seq<Earthquake>, plates: seq<PlateRegion>) {
    forall i :: 0 <= i < |quakes| ==> OneRegionAt(PointOf(quakes[i]), plates)
  }

  /** With no overlap, the containing indices from `from` on are the one region's, if it is there. */
  lemma {:induction false} OnlyRegion(p: Point, plates: seq<PlateRegion>, from: nat, j: nat)
    requires OneRegionAt(p, plates)
    requires from <= |plates| && j < |plates| && plates[j].contains(p)
    decreases |plates| - from
    ensures ContainingFrom(p, plates, from) == if from <= j then [j] else []
  {
    if from < |plates| {
      OnlyRegion(p, plates, from + 1, j);
    }
  }

  /** A point in at most one region has at most one match. */
  lemma OneRegionOneMatch(p: Point, plates: seq<PlateRegion>)
    requires OneRegionAt(p, plates)
    ensures |MatchingPlates(p, plates)| <= 1
  {
    if j :| 0 <= j < |plates| && plates[j].contains(p) {
      OnlyRegion(p, plates, 0, j);
      MatchingFollowsContaining(p, plates, 0);
    }
  }

  /** A point in two distinct regions has at least two matches. */
  lemma TwoRegionsTwoMatches(p: Point, plates: seq<PlateRegion>, j1: nat, j2: nat)
    requires j1 < |plates| && j2 < |plates| && j1 != j2
    requires plates[j1].contains(p) && plates[j2].contains(p)
    ensures |MatchingPlates(p, plates)| >= 2
  {
    MatchingPlatesInOrder(p, plates);
    var names := MatchingPlates(p, plates);
    var idx :| ListsContaining(idx, p, plates) && |names| == |idx| &&
      (forall i :: 0 <= i < |idx| ==> names[i] == plates[idx[i]].name);
    assert j1 in idx && j2 in idx;
    var i1 :| 0 <= i1 < |idx| && idx[i1] == j1;
    var i2 :| 0 <= i2 < |idx| && idx[i2] == j2;
    assert i1 != i2;
  }

  /** Every row made for one earthquake carries that earthquake, and there is at least one. */
  lemma JoinRowsCarry(e: Earthquake, plates: seq<PlateRegion>)
    ensures |JoinRows(e, plates)| >= 1
    ensures forall j :: 0 <= j < |JoinRows(e, plates)| ==> JoinRows(e, plates)[j].quake == e
  {
  }

  /** The left join keeps every earthquake: each one has a row. */
  lemma {:induction false} JoinKeepsEveryEvent(quakes: seq<Earthquake>, plates: seq<PlateRegion>)
    ensures |SpatialLeftJoin(quakes, plates)| >= |quakes|
    ensures forall i :: 0 <= i < |quakes| ==>
      exists j :: 0 <= j < |SpatialLeftJoin(quakes, plates)| && SpatialLeftJoin(quakes, plates)[j].quake == quakes[i]
  {
    if quakes != [] {
      var head: seq<PlatedQuake> := JoinRows(quakes[0], plates);
      var tail: seq<PlatedQuake> := SpatialLeftJoin(quakes[1..], plates);
      JoinRowsCarry(quakes[0], plates);
      JoinKeepsEveryEvent(quakes[1..], plates);
      assert SpatialLeftJoin(quakes, plates) == head + tail;
      assert (head + tail)[0] == head[0];
      forall i | 1 <= i < |quakes|
        ensures exists j :: 0 <= j < |head + tail| && (head + tail)[j].quake == quakes[i]
      {
        assert quakes[i] == quakes[1..][i - 1];
        var j :| 0 <= j < |tail| && tail[j].quake == quakes[1..][i - 1];
        assert (head + tail)[|head| + j] == tail[j];
      }
    }
  }

  /** The left join invents no earthquake: every row carries an input earthquake. */
  lemma {:induction false} JoinInventsNothing(quakes: seq<Earthquake>, plates: seq<PlateRegion>)
    ensures forall j :: 0 <= j < |SpatialLeftJoin(quakes, plates)| ==> SpatialLeftJoin(quakes, plates)[j].quake in quakes
  {
    if quakes != [] {
      var head: seq<PlatedQuake> := JoinRows(quakes[0], plates);
      var tail: seq<PlatedQuake> := SpatialLeftJoin(quakes[1..], plates);
      JoinRowsCarry(quakes[0], plates);
      JoinInventsNothing(quakes[1..], plates);
      assert SpatialLeftJoin(quakes, plates) == head + tail;
      forall j | 0 <= j < |head + tail|
        ensures (head + tail)[j].quake in quakes
      {
        if j >= |head| {
          assert (head + tail)[j] == tail[j - |head|];
          assert tail[j - |head|].quake in quakes[1..];
        }
      }
    }
  }

  /**
   * With at most one plate per point the join keeps length and order: row
   * `i` is earthquake `i`, with no plate exactly when no region contains it,
   * and otherwise with the name of a region that does.
   */
  lemma {:induction false} JoinOneRowPerEvent(quakes: seq<Earthquake>, plates: seq<PlateRegion>)
    requires AtMostOnePlate(quakes, plates)
    ensures var rows := SpatialLeftJoin(quakes, plates);
      && |rows| == |quakes|
      && forall i :: 0 <= i < |quakes| ==>
        && rows[i].quake == quakes[i]
        && rows[i].tectonicPlate == (
             var names := MatchingPlates(PointOf(quakes[i]), plates);
             if names == [] then None else Some(names[0]))
  {
    if quakes != [] {
      var head: seq<PlatedQuake> := JoinRows(quakes[0], plates);
      var tail: seq<PlatedQuake> := SpatialLeftJoin(quakes[1..], plates);
      assert AtMostOnePlate(quakes[1..], plates) by {
        forall i | 0 <= i < |quakes[1..]|
          ensures OneRegionAt(PointOf(quakes[1..][i]), plates)
        {
          assert quakes[1..][i] == quakes[i + 1];
        }
      }
      JoinOneRowPerEvent(quakes[1..], plates);
      var names := MatchingPlates(PointOf(quakes[0]), plates);
      OneRegionOneMatch(PointOf(quakes[0]), plates);
      assert head == [PlatedQuake(quakes[0], if names == [] then None else Some(names[0]))];
      assert SpatialLeftJoin(quakes, plates) == head + tail;
      forall i | 0 <= i < |quakes|
        ensures (head + tail)[i].quake == quakes[i]
        ensures (head + tail)[i].tectonicPlate == (
          var found := MatchingPlates(PointOf(quakes[i]), plates);
          if found == [] then None else Some(found[0]))
      {
        if i > 0 {
          assert (head + tail)[i] == tail[i - 1];
          assert quakes[i] == quakes[1..][i - 1];
        }
      }
    }
  }

  /** A point inside two regions gives its earthquake two rows: the join then grows. */
  lemma {:induction false} JoinDuplicatesOverlaps(quakes: seq<Earthquake>, plates: seq<PlateRegion>, i: nat, j1: nat, j2: nat)
    requires i < |quakes| && j1 < |plates| && j2 < |plates| && j1 != j2
    requires plates[j1].contains(PointOf(quakes[i])) && plates[j2].contains(PointOf(quakes[i]))
    ensures |SpatialLeftJoin(quakes, plates)| > |quakes|
  {
    JoinKeepsEveryEvent(quakes[1..], plates);
    if i > 0 {
      assert quakes[1..][i - 1] == quakes[i];
      JoinDuplicatesOverlaps(quakes[1..], plates, i - 1, j1, j2);
    } else {
      TwoRegionsTwoMatches(PointOf(quakes[0]), plates, j1, j2);
    }
  }

  /**
   * The table of get_tectonic_plate_data: one row per earthquake in order when
   * regions do not overlap; a row outside every region has no plate; a row in
   * a region named by a table key gets that key's major plate, and a row in
   * any other region keeps the region's own name.
   */
  lemma GetTectonicPlateDataRows(quakes: seq<Earthquake>, plates: seq<PlateRegion>)
    requires AtMostOnePlate(quakes, plates)
    ensures var rows := GetTectonicPlateData(quakes, plates);
      && |rows| == |quakes|
      && forall i :: 0 <= i < |quakes| ==>
        && rows[i].quake == quakes[i]
        && (rows[i].tectonicPlate.None? <==>
              forall j :: 0 <= j < |plates| ==> !plates[j].contains(PointOf(quakes[i])))
        && (forall j :: 0 <= j < |plates| && plates[j].contains(PointOf(quakes[i])) ==>
              rows[i].tectonicPlate ==
                if plates[j].name in MinorToMajor then Some(MinorToMajor[plates[j].name])
                else Some(plates[j].name))
  {
    JoinOneRowPerEvent(quakes, plates);
    forall i, j | 0 <= i < |quakes| && 0 <= j < |plates| && plates[j].contains(PointOf(quakes[i]))
      ensures GetTectonicPlateData(quakes, plates)[i].tectonicPlate == Relabel(Some(plates[j].name))
    {
      var names := MatchingPlates(PointOf(quakes[i]), plates);
      OneRegionOneMatch(PointOf(quakes[i]), plates);
      assert plates[j].name in names;
    }
  }

  /** Relabelling the finished table again changes nothing. */
  lemma GetTectonicPlateDataSettled(quakes: seq<Earthquake>, plates: seq<PlateRegion>)
    ensures RelabelColumn(GetTectonicPlateData(quakes, plates)) == GetTectonicPlateData(quakes, plates)
  {
    var rows := GetTectonicPlateData(quakes, plates);
    forall i | 0 <= i < |rows|
      ensures RelabelColumn(rows)[i] == rows[i]
    {
      RelabelIdempotent(SpatialLeftJoin(quakes, plates)[i].tectonicPlate);
    }
  }

  /**
   * Joining a row made from a feature tests the feature's own GeoJSON
   * coordinates 0 and 1: the reordering of the flattening is undone.
   */
  lemma PointOfFeature(f: Feature, e: Earthquake)
    requires HasCoordinates(f) && Flattened(f, e)
    ensures PointOf(e) == Point(f.geometry.coordinates[0], f.geometry.coordinates[1])
  {
  }

  /**
   * Three earthquakes, two inside the Cocos region and one outside every
   * region: three rows, the first two on North America, the last with none.
   */
  lemma CocosScenario()
    ensures
      var inside1 := Earthquake("Offshore Guatemala", 5.1, 0, 0, 400, 12.0, -91.0, 30.0);
      var inside2 := Earthquake("Offshore El Salvador", 4.4, 1, 0, 298, 11.5, -89.5, 45.0);
      var outside := Earthquake("Central Atlantic", 3.2, 2, 0, 158, 0.0, -30.0, 10.0);
      var cocos := PlateRegion("Cocos", (p: Point) => -100.0 <= p.x <= -83.0 && 5.0 <= p.y <= 18.0);
      GetTectonicPlateData([inside1, inside2, outside], [cocos]) ==
        [ PlatedQuake(inside1, Some("North America")),
          PlatedQuake(inside2, Some("North America")),
          PlatedQuake(outside, None) ]
  {
  }
}
