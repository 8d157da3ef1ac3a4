/**
 * The world grid: the list of all zones, built lazily in row-major order
 * (one row per degree of latitude, one column per degree of longitude),
 * and the constant-time lookup of the zone that owns a position.
 */
module Grid {
  import opened Builtins
  import opened Positions
  import opened Zones

  // The configuration constants of the grid, in degrees.
  const MinLongitudeDegrees: int := -180
  const MaxLongitudeDegrees: int := 180
  const MinLatitudeDegrees: int := -90
  const MaxLatitudeDegrees: int := 90
  const WidthDegrees: int := 1
  const HeightDegrees: int := 1

  /** Zones per row: the iterations of the inner (longitude) loop of the build. */
  const Columns: int := (MaxLongitudeDegrees - MinLongitudeDegrees) / WidthDegrees
  /** Rows: the iterations of the outer (latitude) loop, which steps by one degree. */
  const Rows: int := MaxLatitudeDegrees - MinLatitudeDegrees
  const ZoneCount: int := Rows * Columns

  /** The exception a lookup raises instead of returning a zone. */
  datatype Fault = IndexError | AssertionError

  datatype Result<+T> = Success(value: T) | Failure(error: Fault)

  /** The positions the grid covers: a half-open rectangle of the globe. */
  predicate InRange(p: Position)
  {
    && MinLongitudeDegrees as real <= p.longitudeDegrees < MaxLongitudeDegrees as real
    && MinLatitudeDegrees as real <= p.latitudeDegrees < MaxLatitudeDegrees as real
  }

  /** The bottom-left corner of the k-th zone the build creates. */
  function LowerCorner(k: nat): Position
  {
    Position((MinLongitudeDegrees + (k % Columns) * WidthDegrees) as real,
             (MinLatitudeDegrees + k / Columns) as real)
  }

  /** The top-right corner of the k-th zone the build creates. */
  function UpperCorner(k: nat): Position
  {
    Position((MinLongitudeDegrees + (k % Columns) * WidthDegrees + WidthDegrees) as real,
             (MinLatitudeDegrees + k / Columns + HeightDegrees) as real)
  }

  /** Whether the k-th zone of a built grid contains the position. */
  predicate CellContains(k: nat, p: Position)
  {
    InBox(LowerCorner(k), UpperCorner(k), p)
  }

  /** The zones are laid out as the build leaves them, zone k at its corners. */
  ghost predicate LaidOut(zones: seq<Zone>)
  {
    && |zones| == ZoneCount
    && forall k :: 0 <= k < |zones| ==>
         zones[k].corner1 == LowerCorner(k) && zones[k].corner2 == UpperCorner(k)
  }

  /**
   * The flat index the lookup computes: truncated offsets from the
   * minimum longitude and latitude, combined row-major.
   */
  function ZoneIndex(p: Position): (index: int)
    ensures InRange(p) ==> 0 <= index < ZoneCount
  {
    var longitudeIndex := Trunc((p.longitudeDegrees - MinLongitudeDegrees as real) / WidthDegrees as real);
    var latitudeIndex := Trunc((p.latitudeDegrees - MinLatitudeDegrees as real) / HeightDegrees as real);
    var longitudeBins := Trunc((MaxLongitudeDegrees - MinLongitudeDegrees) as real / WidthDegrees as real);
    latitudeIndex * longitudeBins + longitudeIndex
  }

  lemma RowColumn(row: int, column: int)
    requires 0 <= column < Columns
    ensures (row * Columns + column) / Columns == row
    ensures (row * Columns + column) % Columns == column
  {
  }

  /**
   * Row-major layout: the zone of row i and column j sits at index
   * i * Columns + j, with its lower corner i degrees north of the minimum
   * latitude and j degrees east of the minimum longitude.
   */
  lemma LayoutIsRowMajor(row: int, column: int)
    requires 0 <= row < Rows && 0 <= column < Columns
    ensures 0 <= row * Columns + column < ZoneCount
    ensures LowerCorner(row * Columns + column)
         == Position((MinLongitudeDegrees + column) as real, (MinLatitudeDegrees + row) as real)
    ensures UpperCorner(row * Columns + column)
         == Position((MinLongitudeDegrees + column + 1) as real, (MinLatitudeDegrees + row + 1) as real)
  {
    RowColumn(row, column);
  }

  /**
   * The lookup and the build agree: every position in range gets an index
   * of the list whose zone contains it, so the check after the lookup
   * never fails.
   */
  lemma LookupFindsContainingZone(p: Position)
    requires InRange(p)
    ensures 0 <= ZoneIndex(p) < ZoneCount && CellContains(ZoneIndex(p), p)
  {
    var column := Trunc(p.longitudeDegrees - MinLongitudeDegrees as real);
    var row := Trunc(p.latitudeDegrees - MinLatitudeDegrees as real);
    assert ZoneIndex(p) == row * Columns + column;
    RowColumn(row, column);
  }

  /**
   * A zone of the built grid contains only positions in range, and only
   * those whose computed index is its own.
   */
  lemma ZoneOwnsOnlyItsPositions(k: nat, p: Position)
    requires k < ZoneCount && CellContains(k, p)
    ensures InRange(p) && ZoneIndex(p) == k
  {
    var row, column := k / Columns, k % Columns;
    assert k == row * Columns + column;
    assert Trunc(p.longitudeDegrees - MinLongitudeDegrees as real) == column;
    assert Trunc(p.latitudeDegrees - MinLatitudeDegrees as real) == row;
  }

  /**
   * What the lookup does with any position whatever: the subscript is in
   * bounds and the zone read there passes the containment check exactly
   * when the position is in range, and then the index read is the
   * computed one.
   */
  lemma CheckedLookup(p: Position)
    ensures var i := ListIndex(ZoneCount, ZoneIndex(p));
            (i.Some? && CellContains(i.value, p)) <==> InRange(p)
    ensures InRange(p) ==> ListIndex(ZoneCount, ZoneIndex(p)) == Some(ZoneIndex(p))
  {
    var i := ListIndex(ZoneCount, ZoneIndex(p));
    if InRange(p) {
      LookupFindsContainingZone(p);
    } else if i.Some? && CellContains(i.value, p) {
      ZoneOwnsOnlyItsPositions(i.value, p);
      assert false;
    }
  }

  /** The zones partition the covered rectangle: each position in range lies in exactly one. */
  lemma ExactlyOneZone(p: Position)
    requires InRange(p)
    ensures forall k: nat :: k < ZoneCount ==> (CellContains(k, p) <==> k == ZoneIndex(p))
  {
    LookupFindsContainingZone(p);
    forall k: nat | k < ZoneCount && CellContains(k, p)
      ensures k == ZoneIndex(p)
    {
      ZoneOwnsOnlyItsPositions(k, p);
    }
  }

  /**
   * Zones are closed on their lower edges and open on their upper edges:
   * the lower corner is inside, the points one width east or one height
   * north of it are not, and they belong to the neighbouring zone there.
   */
  lemma BoundaryPolicy(k: nat)
    requires k < ZoneCount
    ensures CellContains(k, LowerCorner(k))
    ensures !CellContains(k, Position(LowerCorner(k).longitudeDegrees + WidthDegrees as real, LowerCorner(k).latitudeDegrees))
    ensures !CellContains(k, Position(LowerCorner(k).longitudeDegrees, LowerCorner(k).latitudeDegrees + HeightDegrees as real))
    ensures k % Columns < Columns - 1 ==>
              CellContains(k + 1, Position(LowerCorner(k).longitudeDegrees + WidthDegrees as real, LowerCorner(k).latitudeDegrees))
    ensures k + Columns < ZoneCount ==>
              CellContains(k + Columns, Position(LowerCorner(k).longitudeDegrees, LowerCorner(k).latitudeDegrees + HeightDegrees as real))
  {
    var row, column := k / Columns, k % Columns;
    if column < Columns - 1 {
      RowColumn(row, column + 1);
    }
    RowColumn(row + 1, column);
  }

  /**
   * Two positions just outside the grid: one degree east of it the
   * subscript is in bounds but the zone read fails the containment check;
   * one degree north of it the subscript is out of bounds.
   */
  lemma RejectionExamples()
    ensures ListIndex(ZoneCount, ZoneIndex(Position(181.0, 0.0))).Some?
    ensures !CellContains(ListIndex(ZoneCount, ZoneIndex(Position(181.0, 0.0))).value, Position(181.0, 0.0))
    ensures ListIndex(ZoneCount, ZoneIndex(Position(0.0, 91.0))).None?
  {
    assert ZoneIndex(Position(181.0, 0.0)) == 90 * Columns + 361;
    RowColumn(91, 1);
    assert ZoneIndex(Position(0.0, 91.0)) == 181 * Columns + 180;
  }

  /**
   * The grid of zones. In the source the list is a class attribute of
   * Zone, shared by the whole process; here it is the state of one object.
   */
  class ZoneGrid {
    var zones: seq<Zone>

    /** The list is either not built yet or built completely, exactly once. */
    ghost predicate Valid()
      reads this
    {
      zones == [] || LaidOut(zones)
    }

    /** The list starts empty. */
    constructor ()
      ensures Valid() && zones == []
    {
      zones := [];
    }

    /**
     * Appends one zone per degree of latitude and longitude, row by row,
     * each new and empty, after whatever the list already holds.
     */
    method InitializeZones()
      modifies this
      ensures |zones| == |old(zones)| + ZoneCount
      ensures zones[..|old(zones)|] == old(zones)
      ensures forall j :: |old(zones)| <= j < |zones| ==>
                && zones[j].corner1 == LowerCorner(j - |old(zones)|)
                && zones[j].corner2 == UpperCorner(j - |old(zones)|)
                && fresh(zones[j]) && zones[j].inhabitants == []
    {
      ghost var start := |zones|;
      var latitude := MinLatitudeDegrees;
      while latitude < MaxLatitudeDegrees
        invariant MinLatitudeDegrees <= latitude <= MaxLatitudeDegrees
        invariant |zones| == start + (latitude - MinLatitudeDegrees) * Columns
        invariant zones[..start] == old(zones)
        invariant forall j :: start <= j < |zones| ==>
                    && zones[j].corner1 == LowerCorner(j - start)
                    && zones[j].corner2 == UpperCorner(j - start)
                    && fresh(zones[j]) && zones[j].inhabitants == []
      {
        var longitude := MinLongitudeDegrees;
        while longitude < MaxLongitudeDegrees
          invariant MinLongitudeDegrees <= longitude <= MaxLongitudeDegrees
          invariant |zones| == start + (latitude - MinLatitudeDegrees) * Columns + (longitude - MinLongitudeDegrees)
          invariant zones[..start] == old(zones)
          invariant forall j :: start <= j < |zones| ==>
                      && zones[j].corner1 == LowerCorner(j - start)
                      && zones[j].corner2 == UpperCorner(j - start)
                      && fresh(zones[j]) && zones[j].inhabitants == []
        {
          RowColumn(latitude - MinLatitudeDegrees, longitude - MinLongitudeDegrees);
          var bottomLeftCorner := Position(longitude as real, latitude as real);
          var topRightCorner := Position((longitude + WidthDegrees) as real, (latitude + HeightDegrees) as real);
          var zone := new Zone(bottomLeftCorner, topRightCorner);
          zones := zones + [zone];
          longitude := longitude + WidthDegrees;
        }
        latitude := latitude + 1;
      }
    }

    /**
     * Builds the list on first use, then reads the zone at the computed
     * index and checks that it contains the position. A position in range
     * always gets its zone; any other ends in the IndexError of the list
     * subscript or the AssertionError of the check.
     */
    method FindZoneThatContains(position: Position) returns (r: Result<Zone>)
      requires Valid()
      modifies this
      ensures Valid() && |zones| == ZoneCount
      ensures old(zones) != [] ==> zones == old(zones)
      ensures old(zones) == [] ==> forall k :: 0 <= k < ZoneCount ==> fresh(zones[k]) && zones[k].inhabitants == []
      ensures r.Success? <==> InRange(position)
      ensures r.Success? ==> r.value == zones[ZoneIndex(position)] && r.value.Contains(position)
      ensures r.Failure? ==> (r.error == IndexError <==> !(-ZoneCount <= ZoneIndex(position) < ZoneCount))
    {
      if zones == [] {
        InitializeZones();
      }
      CheckedLookup(position);
      var zoneIndex := ZoneIndex(position);
      var i := ListIndex(|zones|, zoneIndex);
      if i.None? {
        return Failure(IndexError);
      }
      var zone := zones[i.value];
      if !zone.Contains(position) {
        return Failure(AssertionError);
      }
      return Success(zone);
    }
  }

  /**
   * Looking the same position up twice gives the same outcome, and the
   * second lookup neither rebuilds nor extends the list: it ends as the
   * first lookup left it (`built`), which is the list held before if
   * there was one.
   */
  method LookupTwice(grid: ZoneGrid, p: Position)
      returns (first: Result<Zone>, second: Result<Zone>, ghost built: seq<Zone>)
    requires grid.Valid()
    modifies grid
    ensures first == second
    ensures grid.Valid() && |grid.zones| == ZoneCount
    ensures grid.zones == built
    ensures old(grid.zones) != [] ==> built == old(grid.zones)
    ensures first.Success? ==> 0 <= ZoneIndex(p) < |built| && first.value == built[ZoneIndex(p)]
  {
    first := grid.FindZoneThatContains(p);
    built := grid.zones;
    second := grid.FindZoneThatContains(p);
  }
}
