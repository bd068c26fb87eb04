/**
 * The older engine of index.js: one bbox only; levels take the columns and rows straight
 * from the smaller to the larger corner index (no antimeridian split, no north clamp of
 * their own); single yields every tile without deduplication; count is the quick sum alone.
 */
module Legacy {
  import opened Wrappers
  import opened Mercator
  import opened Ranges
  import opened BBoxes
  import opened Levels
  import opened Grid
  import opened Drain
  import opened Bulk

  // ----- levels -----

  /** The level of the bbox at one zoom: both corners projected, then min..max on each axis. */
  function LegacyLevelAt(proj: Projection, b: BBox, zoom: int): (r: Result<Level, Error>)
    ensures r.Ok? <==> ValidZoom(zoom)
    ensures r.Err? ==> r.error == ZoomError(zoom)
    ensures r.Ok? ==> r.value.zoom == zoom
  {
    var t1 :- LngLatToTile(proj, b.west, b.south, zoom);
    var t2 := LngLatToTile(proj, b.east, b.north, zoom).value;
    Ok(Level(Span(Min(t1.x, t2.x), Max(t1.x, t2.x) + 1), Span(Min(t1.y, t2.y), Max(t1.y, t2.y) + 1), zoom))
  }

  /** The levels over a list of zooms; the first invalid zoom throws. */
  function LegacyZoomLevels(proj: Projection, b: BBox, zooms: seq<int>): (r: Result<seq<Level>, Error>)
    ensures r.Ok? ==> |r.value| == |zooms|
    decreases |zooms|
  {
    if zooms == [] then Ok([])
    else
      var n := |zooms| - 1;
      var init :- LegacyZoomLevels(proj, b, zooms[..n]);
      var level :- LegacyLevelAt(proj, b, zooms[n]);
      Ok(init + [level])
  }

  /** levels(bbox, minZoom, maxZoom): one level per zoom of range(minZoom, maxZoom + 1). */
  function LegacyLevels(proj: Projection, b: BBox, minZoom: int, maxZoom: int): Result<seq<Level>, Error> {
    LegacyZoomLevels(proj, b, Span(minZoom, maxZoom + 1))
  }

  /** The zoom loop succeeds exactly when every zoom is valid, and gives each zoom's level in order. */
  lemma {:induction false} LegacyZoomLevelsOk(proj: Projection, b: BBox, zooms: seq<int>)
    ensures LegacyZoomLevels(proj, b, zooms).Ok? <==> AllValid(zooms)
    ensures var r := LegacyZoomLevels(proj, b, zooms);
      r.Ok? ==> forall i :: 0 <= i < |zooms| ==> Ok(r.value[i]) == LegacyLevelAt(proj, b, zooms[i])
    decreases |zooms|
  {
    if zooms != [] {
      var n := |zooms| - 1;
      LegacyZoomLevelsOk(proj, b, zooms[..n]);
      assert zooms[..n] + [zooms[n]] == zooms;
    }
  }

  /** Once a prefix of the zooms throws, the whole list throws the same error. */
  lemma {:induction false} LegacyErrorPersists(proj: Projection, b: BBox, zooms: seq<int>, k: nat)
    requires k <= |zooms| && LegacyZoomLevels(proj, b, zooms[..k]).Err?
    ensures LegacyZoomLevels(proj, b, zooms) == LegacyZoomLevels(proj, b, zooms[..k])
    decreases |zooms|
  {
    if k < |zooms| {
      var n := |zooms| - 1;
      var init := zooms[..n];
      assert init[..k] == zooms[..k];
      LegacyErrorPersists(proj, b, init, k);
      LegacyInitError(proj, b, zooms, init);
    } else {
      assert zooms[..k] == zooms;
    }
  }

  /** An error in all zooms but the last is the error of all zooms. */
  lemma LegacyInitError(proj: Projection, b: BBox, zooms: seq<int>, init: seq<int>)
    requires zooms != [] && init == zooms[..|zooms| - 1] && LegacyZoomLevels(proj, b, init).Err?
    ensures LegacyZoomLevels(proj, b, zooms) == LegacyZoomLevels(proj, b, init)
  {
  }

  /** levels as index.js runs it: a loop over the zooms pushing [columns, rows, zoom]. */
  method BuildLegacyLevels(proj: Projection, b: BBox, minZoom: int, maxZoom: int) returns (r: Result<seq<Level>, Error>)
    ensures r == LegacyLevels(proj, b, minZoom, maxZoom)
  {
    var zooms := BuildRange(minZoom, Some(maxZoom + 1), 0);
    SpanIsRange(minZoom, maxZoom + 1);
    var levels: seq<Level> := [];
    var k := 0;
    while k < |zooms|
      invariant 0 <= k <= |zooms|
      invariant LegacyZoomLevels(proj, b, zooms[..k]) == Ok(levels)
    {
      var level := BuildLegacyLevel(proj, b, zooms[k]);
      LegacySnoc(proj, b, zooms, k);
      if level.Err? {
        LegacyErrorPersists(proj, b, zooms, k + 1);
        return Err(level.error);
      }
      levels := levels + [level.value];
      k := k + 1;
    }
    assert zooms[..k] == zooms;
    r := Ok(levels);
  }

  /** The body of the zoom loop: both corners projected, then rows and columns from min to max. */
  method BuildLegacyLevel(proj: Projection, b: BBox, zoom: int) returns (r: Result<Level, Error>)
    ensures r == LegacyLevelAt(proj, b, zoom)
  {
    var t1 := LngLatToTile(proj, b.west, b.south, zoom);
    if t1.Err? {
      return Err(t1.error);
    }
    var t2 := LngLatToTile(proj, b.east, b.north, zoom).value;
    var rows := BuildRange(Min(t1.value.y, t2.y), Some(Max(t1.value.y, t2.y) + 1), 0);
    SpanIsRange(Min(t1.value.y, t2.y), Max(t1.value.y, t2.y) + 1);
    var columns := BuildRange(Min(t1.value.x, t2.x), Some(Max(t1.value.x, t2.x) + 1), 0);
    SpanIsRange(Min(t1.value.x, t2.x), Max(t1.value.x, t2.x) + 1);
    r := Ok(Level(columns, rows, zoom));
  }

  /** One more zoom: the level is appended, or its error ends the loop. */
  lemma LegacySnoc(proj: Projection, b: BBox, zooms: seq<int>, k: nat)
    requires k < |zooms| && LegacyZoomLevels(proj, b, zooms[..k]).Ok?
    ensures var l := LegacyLevelAt(proj, b, zooms[k]);
      LegacyZoomLevels(proj, b, zooms[..k + 1]) ==
        if l.Err? then Err(l.error) else Ok(LegacyZoomLevels(proj, b, zooms[..k]).value + [l.value])
  {
    assert zooms[..k + 1][..k] == zooms[..k];
  }

  /**
   * Every level's columns are the contiguous ascending run between the two corners' columns,
   * and its rows likewise: never empty, never split at the antimeridian, inside the grid.
   */
  lemma LegacyLevelShape(proj: Projection, b: BBox, zoom: int)
    requires ValidZoom(zoom)
    ensures var l, t1, t2 := LegacyLevelAt(proj, b, zoom).value,
        LngLatToTile(proj, b.west, b.south, zoom).value, LngLatToTile(proj, b.east, b.north, zoom).value;
      |l.columns| == Max(t1.x, t2.x) - Min(t1.x, t2.x) + 1 &&
      (forall i :: 0 <= i < |l.columns| ==> l.columns[i] == Min(t1.x, t2.x) + i && 0 <= l.columns[i] < Pow2(zoom)) &&
      |l.rows| == Max(t1.y, t2.y) - Min(t1.y, t2.y) + 1 &&
      (forall i :: 0 <= i < |l.rows| ==> l.rows[i] == Min(t1.y, t2.y) + i && 0 <= l.rows[i] < Pow2(zoom))
  {
    var t1, t2 := LngLatToTile(proj, b.west, b.south, zoom).value, LngLatToTile(proj, b.east, b.north, zoom).value;
    SpanUp(Min(t1.x, t2.x), Max(t1.x, t2.x) + 1);
    SpanUp(Min(t1.y, t2.y), Max(t1.y, t2.y) + 1);
  }

  /** The bbox gives one level per zoom of range(minZoom, maxZoom + 1), when every zoom is valid. */
  lemma LegacyLevelCount(proj: Projection, b: BBox, minZoom: int, maxZoom: int)
    ensures var r, zs := LegacyLevels(proj, b, minZoom, maxZoom), Span(minZoom, maxZoom + 1);
      (r.Ok? <==> AllValid(zs)) &&
      (r.Ok? ==> |r.value| == |zs| && forall i :: 0 <= i < |zs| ==> r.value[i].zoom == zs[i])
  {
    LegacyZoomLevelsOk(proj, b, Span(minZoom, maxZoom + 1));
  }

  /** The world from zoom 3 to 21 gives 19 levels here too. */
  lemma LegacyWorldLevelCount(proj: Projection)
    ensures var r := LegacyLevels(proj, BBox(-180.0, -90.0, 180.0, 90.0), 3, 21);
      r.Ok? && |r.value| == 19
  {
    SpanUp(3, 22);
    LegacyLevelCount(proj, BBox(-180.0, -90.0, 180.0, 90.0), 3, 21);
  }

  /** lngLatToTile already clamps the latitude, so the newer engine's clamp of the north changes nothing. */
  lemma NorthClampRedundant(proj: Projection, lng: real, lat: real, zoom: int)
    ensures LngLatToTile(proj, lng, ClampLat(lat), zoom) == LngLatToTile(proj, lng, lat, zoom)
  {
    assert ClampLat(ClampLat(lat)) == ClampLat(lat);
  }

  /** Where the west corner's column is not east of the east corner's, the two engines build the same level. */
  lemma EnginesAgreeWithoutWrap(proj: Projection, b: BBox, minZoom: int, maxZoom: int, zoom: int)
    requires ValidZoom(zoom)
    requires SouthWest(proj, Record(b, minZoom, maxZoom), zoom).x <= NorthEast(proj, Record(b, minZoom, maxZoom), zoom).x
    ensures LegacyLevelAt(proj, b, zoom) == LevelAt(proj, Record(b, minZoom, maxZoom), zoom)
  {
    var rec := Record(b, minZoom, maxZoom);
    LegacyCorners(proj, rec, zoom);
    NewCorners(proj, rec, zoom);
  }

  /**
   * Where the west corner's column is east of the east corner's (the bbox crosses the
   * antimeridian), the older engine spans the columns between the two corners, the far side
   * of the world, while the newer one takes the columns from the west corner to the last and
   * from the first to the east corner.
   */
  lemma EnginesDifferAcrossWrap(proj: Projection, b: BBox, minZoom: int, maxZoom: int, zoom: int)
    requires ValidZoom(zoom)
    requires SouthWest(proj, Record(b, minZoom, maxZoom), zoom).x > NorthEast(proj, Record(b, minZoom, maxZoom), zoom).x
    ensures var w, e := SouthWest(proj, Record(b, minZoom, maxZoom), zoom).x, NorthEast(proj, Record(b, minZoom, maxZoom), zoom).x;
      LegacyLevelAt(proj, b, zoom).value.columns == Span(e, w + 1) &&
      LevelAt(proj, Record(b, minZoom, maxZoom), zoom).value.columns == Span(w, Pow2(zoom)) + Span(0, e + 1)
  {
    var rec := Record(b, minZoom, maxZoom);
    LegacyCorners(proj, rec, zoom);
    NewCorners(proj, rec, zoom);
  }

  /** The older engine's level, in terms of the newer engine's two corners. */
  lemma LegacyCorners(proj: Projection, rec: Record, zoom: int)
    requires ValidZoom(zoom)
    ensures var t1, t2 := SouthWest(proj, rec, zoom), NorthEast(proj, rec, zoom);
      LegacyLevelAt(proj, rec.bbox, zoom) == Ok(Level(Span(Min(t1.x, t2.x), Max(t1.x, t2.x) + 1), Rows(t1, t2), zoom))
  {
    NorthClampRedundant(proj, rec.bbox.east, rec.bbox.north, zoom);
  }

  /** The newer engine's level, in terms of its two corners. */
  lemma NewCorners(proj: Projection, rec: Record, zoom: int)
    requires ValidZoom(zoom)
    ensures var t1, t2 := SouthWest(proj, rec, zoom), NorthEast(proj, rec, zoom);
      LevelAt(proj, rec, zoom) == Ok(Level(Columns(t1, t2, zoom), Rows(t1, t2), zoom))
  {
  }

  // ----- single, bulk and count -----

  /** single: a fresh generator over the levels that yields every tile, repeats included. */
  method LegacySingle(proj: Projection, b: BBox, minZoom: int, maxZoom: int) returns (r: Result<TileIterator, Error>)
    ensures r.Err? <==> LegacyLevels(proj, b, minZoom, maxZoom).Err?
    ensures r.Err? ==> r.error == LegacyLevels(proj, b, minZoom, maxZoom).error
    ensures r.Ok? ==> (fresh(r.value) && r.value.Valid() && r.value.yielded == [] && !r.value.unique &&
      r.value.output == Candidates(LegacyLevels(proj, b, minZoom, maxZoom).value))
  {
    var levels := BuildLegacyLevels(proj, b, minZoom, maxZoom);
    if levels.Err? {
      return Err(levels.error);
    }
    var grid := new TileIterator(levels.value, false);
    WalkAll(levels.value);
    return Ok(grid);
  }

  /** bulk over the older single: the candidates cut into batches. */
  function LegacyBulkOf(proj: Projection, b: BBox, minZoom: int, maxZoom: int, size: int): Result<seq<seq<Tile>>, Error> {
    var levels :- LegacyLevels(proj, b, minZoom, maxZoom);
    Ok(Batches(Candidates(levels), size))
  }

  method LegacyBulk(proj: Projection, b: BBox, minZoom: int, maxZoom: int, size: int) returns (r: Result<seq<seq<Tile>>, Error>)
    ensures r == LegacyBulkOf(proj, b, minZoom, maxZoom, size)
  {
    var grid := LegacySingle(proj, b, minZoom, maxZoom);
    if grid.Err? {
      return Err(grid.error);
    }
    var batches := Chunk(grid.value, size);
    return Ok(batches);
  }

  /** count: the sum of rows.length * columns.length over the levels. */
  function LegacyCountOf(proj: Projection, b: BBox, minZoom: int, maxZoom: int): Result<nat, Error> {
    var levels :- LegacyLevels(proj, b, minZoom, maxZoom);
    Ok(Area(levels, 0))
  }

  method LegacyCount(proj: Projection, b: BBox, minZoom: int, maxZoom: int) returns (r: Result<nat, Error>)
    ensures r == LegacyCountOf(proj, b, minZoom, maxZoom)
  {
    var levels := BuildLegacyLevels(proj, b, minZoom, maxZoom);
    if levels.Err? {
      return Err(levels.error);
    }
    var n := QuickSum(levels.value);
    return Ok(n);
  }

  /** Without deduplication, count is exactly the number of tiles single yields. */
  lemma LegacyCountIsTileCount(proj: Projection, b: BBox, minZoom: int, maxZoom: int)
    requires LegacyLevels(proj, b, minZoom, maxZoom).Ok?
    ensures LegacyCountOf(proj, b, minZoom, maxZoom).value == |Walk(LegacyLevels(proj, b, minZoom, maxZoom).value, false)|
  {
    WalkAll(LegacyLevels(proj, b, minZoom, maxZoom).value);
  }

  /** The batches of the older bulk, concatenated, are every tile of the older single, in order. */
  lemma LegacyBulkFlatten(proj: Projection, b: BBox, minZoom: int, maxZoom: int, size: int)
    requires LegacyLevels(proj, b, minZoom, maxZoom).Ok?
    ensures Flatten(LegacyBulkOf(proj, b, minZoom, maxZoom, size).value) == Candidates(LegacyLevels(proj, b, minZoom, maxZoom).value)
  {
    BatchesFlatten(Candidates(LegacyLevels(proj, b, minZoom, maxZoom).value), size);
  }
}
