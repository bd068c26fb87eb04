/**
 * The entry points of the newer engine: single, all, bulk and count, each built on levels
 * and the deduplicating tile walk.
 */
module Engine {
  import opened Wrappers
  import opened Mercator
  import opened BBoxes
  import opened Ranges
  import opened Levels
  import opened Grid
  import opened Drain
  import opened Bulk

  // ----- what each entry point answers -----

  /** all: every tile single yields, in the order it yields them. */
  function AllOf(proj: Projection, extent: Option<Extent>, minZoom: Option<int>, maxZoom: Option<int>): Result<seq<Tile>, Error> {
    var levels :- LevelsOf(proj, extent, minZoom, maxZoom);
    Ok(Walk(levels, true))
  }

  /** Every batch bulk yields, the final (possibly empty) container included. */
  function BulkOf(proj: Projection, extent: Option<Extent>, minZoom: Option<int>, maxZoom: Option<int>, size: int): Result<seq<seq<Tile>>, Error> {
    var tiles :- AllOf(proj, extent, minZoom, maxZoom);
    Ok(Batches(tiles, size))
  }

  /**
   * count: `quick || 1000` is the threshold; unless it is -1, the quick count (the sum of
   * rows * columns over the levels) is answered when it exceeds the threshold, and
   * otherwise the tiles single yields are counted one by one.
   */
  function CountOf(proj: Projection, extent: Option<Extent>, minZoom: Option<int>, maxZoom: Option<int>, quick: Option<int>): Result<nat, Error> {
    var levels :- LevelsOf(proj, extent, minZoom, maxZoom);
    var q := Or(quick, 1000);
    if q != -1 && Area(levels, 0) > q then Ok(Area(levels, 0)) else Ok(|Walk(levels, true)|)
  }

  // ----- the entry points as the source runs them -----

  /** single: a fresh generator, paused before its first tile, over the levels of the extent. */
  method Single(proj: Projection, extent: Option<Extent>, minZoom: Option<int>, maxZoom: Option<int>)
    returns (r: Result<TileIterator, Error>)
    ensures r.Err? <==> LevelsOf(proj, extent, minZoom, maxZoom).Err?
    ensures r.Err? ==> r.error == LevelsOf(proj, extent, minZoom, maxZoom).error
    ensures r.Ok? ==> (fresh(r.value) && r.value.Valid() && r.value.yielded == [] && r.value.unique &&
      r.value.output == AllOf(proj, extent, minZoom, maxZoom).value)
  {
    var levels := BuildLevels(proj, extent, minZoom, maxZoom);
    if levels.Err? {
      return Err(levels.error);
    }
    var grid := new TileIterator(levels.value, true);
    return Ok(grid);
  }

  /** all: drain single into an array. */
  method All(proj: Projection, extent: Option<Extent>, minZoom: Option<int>, maxZoom: Option<int>)
    returns (r: Result<seq<Tile>, Error>)
    ensures r == AllOf(proj, extent, minZoom, maxZoom)
  {
    var grid := Single(proj, extent, minZoom, maxZoom);
    if grid.Err? {
      return Err(grid.error);
    }
    var tiles := Collect(grid.value);
    return Ok(tiles);
  }

  /** bulk: every batch the bulk generator yields, collected in order. */
  method BulkBatches(proj: Projection, extent: Option<Extent>, minZoom: Option<int>, maxZoom: Option<int>, size: int)
    returns (r: Result<seq<seq<Tile>>, Error>)
    ensures r == BulkOf(proj, extent, minZoom, maxZoom, size)
  {
    var grid := Single(proj, extent, minZoom, maxZoom);
    if grid.Err? {
      return Err(grid.error);
    }
    var batches := Chunk(grid.value, size);
    return Ok(batches);
  }

  /** count: the quick sum over the levels, then, when it is not answered, a full drain of single. */
  method Count(proj: Projection, extent: Option<Extent>, minZoom: Option<int>, maxZoom: Option<int>, quick: Option<int>)
    returns (r: Result<nat, Error>)
    ensures r == CountOf(proj, extent, minZoom, maxZoom, quick)
  {
    var q := if quick.Some? && quick.value != 0 then quick.value else 1000;
    var levels := BuildLevels(proj, extent, minZoom, maxZoom);
    if levels.Err? {
      return Err(levels.error);
    }
    if q != -1 {
      var n := QuickSum(levels.value);
      if n > q {
        return Ok(n);
      }
    }
    var grid := new TileIterator(levels.value, true);
    var n := Tally(grid);
    return Ok(n);
  }

  // ----- what all promises -----

  /** all fails exactly when levels fails, with the same error. */
  lemma AllErrors(proj: Projection, extent: Option<Extent>, minZoom: Option<int>, maxZoom: Option<int>)
    ensures var a, l := AllOf(proj, extent, minZoom, maxZoom), LevelsOf(proj, extent, minZoom, maxZoom);
      (a.Err? <==> l.Err?) && (a.Err? ==> a.error == l.error) &&
      (extent.None? ==> a == Err(ExtentRequired)) &&
      (extent.Some? && minZoom.None? ==> a == Err(MinZoomRequired)) &&
      (extent.Some? && minZoom.Some? && maxZoom.None? ==> a == Err(MaxZoomRequired))
  {
  }

  /** No two tiles of all share a hash: every tile is yielded once. */
  lemma AllUnique(proj: Projection, extent: Option<Extent>, minZoom: Option<int>, maxZoom: Option<int>)
    requires AllOf(proj, extent, minZoom, maxZoom).Ok?
    ensures DistinctHashes(AllOf(proj, extent, minZoom, maxZoom).value)
    ensures var ts := AllOf(proj, extent, minZoom, maxZoom).value;
      forall i, j :: 0 <= i < j < |ts| ==> ts[i] != ts[j]
  {
    WalkUnique(LevelsOf(proj, extent, minZoom, maxZoom).value);
  }

  /** all holds exactly the [column, row, zoom] tiles of the levels, each a valid tile. */
  lemma AllMembers(proj: Projection, extent: Option<Extent>, minZoom: Option<int>, maxZoom: Option<int>, t: Tile)
    requires LevelsOf(proj, extent, minZoom, maxZoom).Ok?
    ensures var ls := LevelsOf(proj, extent, minZoom, maxZoom).value;
      t in AllOf(proj, extent, minZoom, maxZoom).value <==> exists k, r, c :: At(ls, k, r, c) && t == TileAt(ls, k, r, c)
    ensures t in AllOf(proj, extent, minZoom, maxZoom).value ==> ValidTile(t)
  {
    var ls := LevelsOf(proj, extent, minZoom, maxZoom).value;
    LevelsBounded(proj, extent, minZoom, maxZoom);
    WalkMembers(ls, t);
    if t in Walk(ls, true) {
      var k, r, c :| At(ls, k, r, c) && t == TileAt(ls, k, r, c);
      TileAtValid(ls, k, r, c);
    }
  }

  /** all keeps the first occurrence of every tile, in level, row, column order. */
  lemma AllOrder(proj: Projection, extent: Option<Extent>, minZoom: Option<int>, maxZoom: Option<int>)
    requires LevelsOf(proj, extent, minZoom, maxZoom).Ok?
    ensures AllOf(proj, extent, minZoom, maxZoom).value == FirstOccurrences(Candidates(LevelsOf(proj, extent, minZoom, maxZoom).value))
  {
    WalkOrder(LevelsOf(proj, extent, minZoom, maxZoom).value);
  }

  // ----- what bulk promises -----

  /** The batches of bulk, concatenated, are the tiles of all in the same order. */
  lemma BulkFlatten(proj: Projection, extent: Option<Extent>, minZoom: Option<int>, maxZoom: Option<int>, size: int)
    requires BulkOf(proj, extent, minZoom, maxZoom, size).Ok?
    ensures Flatten(BulkOf(proj, extent, minZoom, maxZoom, size).value) == AllOf(proj, extent, minZoom, maxZoom).value
  {
    BatchesFlatten(AllOf(proj, extent, minZoom, maxZoom).value, size);
  }

  /** With a non-zero size no batch holds more than |size| tiles. */
  lemma BulkBound(proj: Projection, extent: Option<Extent>, minZoom: Option<int>, maxZoom: Option<int>, size: int)
    requires size != 0 && BulkOf(proj, extent, minZoom, maxZoom, size).Ok?
    ensures forall b :: b in BulkOf(proj, extent, minZoom, maxZoom, size).value ==> |b| <= Abs(size)
  {
    BatchesBound(AllOf(proj, extent, minZoom, maxZoom).value, size);
  }

  /** A size larger than the tile count plus one gives a single batch holding every tile (32 tiles, size 500). */
  lemma BulkOneBatch(proj: Projection, extent: Option<Extent>, minZoom: Option<int>, maxZoom: Option<int>, size: int)
    requires AllOf(proj, extent, minZoom, maxZoom).Ok?
    requires size > |AllOf(proj, extent, minZoom, maxZoom).value| + 1
    ensures BulkOf(proj, extent, minZoom, maxZoom, size) == Ok([AllOf(proj, extent, minZoom, maxZoom).value])
  {
    BatchesWhole(AllOf(proj, extent, minZoom, maxZoom).value, size);
  }

  // ----- what count promises -----

  /** The answer lies between the exact count and the quick count, and is one of the two. */
  lemma CountBounds(proj: Projection, extent: Option<Extent>, minZoom: Option<int>, maxZoom: Option<int>, quick: Option<int>)
    requires LevelsOf(proj, extent, minZoom, maxZoom).Ok?
    ensures var n, exact, area := CountOf(proj, extent, minZoom, maxZoom, quick).value,
        |AllOf(proj, extent, minZoom, maxZoom).value|, Area(LevelsOf(proj, extent, minZoom, maxZoom).value, 0);
      exact <= n <= area && (n == exact || n == area)
  {
    WalkAtMostArea(LevelsOf(proj, extent, minZoom, maxZoom).value);
  }

  /** quick = -1 always counts exactly; so does any threshold the quick count does not exceed. */
  lemma CountExact(proj: Projection, extent: Option<Extent>, minZoom: Option<int>, maxZoom: Option<int>, quick: Option<int>)
    requires LevelsOf(proj, extent, minZoom, maxZoom).Ok?
    requires quick == Some(-1) || Area(LevelsOf(proj, extent, minZoom, maxZoom).value, 0) <= Or(quick, 1000)
    ensures CountOf(proj, extent, minZoom, maxZoom, quick) == Ok(|AllOf(proj, extent, minZoom, maxZoom).value|)
  {
  }

  /** Any threshold other than -1 that the quick count exceeds gives the quick count. */
  lemma CountQuick(proj: Projection, extent: Option<Extent>, minZoom: Option<int>, maxZoom: Option<int>, quick: Option<int>)
    requires LevelsOf(proj, extent, minZoom, maxZoom).Ok?
    requires quick != Some(-1) && Area(LevelsOf(proj, extent, minZoom, maxZoom).value, 0) > Or(quick, 1000)
    ensures CountOf(proj, extent, minZoom, maxZoom, quick) == Ok(Area(LevelsOf(proj, extent, minZoom, maxZoom).value, 0))
  {
  }

  /** Without a threshold, or with 0, count uses 1000: at most 1000 candidates are counted exactly. */
  lemma CountDefault(proj: Projection, extent: Option<Extent>, minZoom: Option<int>, maxZoom: Option<int>)
    ensures CountOf(proj, extent, minZoom, maxZoom, None) == CountOf(proj, extent, minZoom, maxZoom, Some(0))
    ensures CountOf(proj, extent, minZoom, maxZoom, None) == CountOf(proj, extent, minZoom, maxZoom, Some(1000))
  {
  }

  /** When no tile repeats among the candidates, every threshold gives the same, exact, answer. */
  lemma CountQuickIsExact(proj: Projection, extent: Option<Extent>, minZoom: Option<int>, maxZoom: Option<int>, quick: Option<int>)
    requires LevelsOf(proj, extent, minZoom, maxZoom).Ok?
    requires DistinctHashes(Candidates(LevelsOf(proj, extent, minZoom, maxZoom).value))
    ensures CountOf(proj, extent, minZoom, maxZoom, quick) == Ok(|AllOf(proj, extent, minZoom, maxZoom).value|)
    ensures CountOf(proj, extent, minZoom, maxZoom, quick) == Ok(Area(LevelsOf(proj, extent, minZoom, maxZoom).value, 0))
  {
    var ls := LevelsOf(proj, extent, minZoom, maxZoom).value;
    WalkDistinct(ls);
    WalkAll(ls);
  }

  // ----- the antimeridian example -----

  /**
   * A feature crossing the antimeridian (Fiji) at zoom 2: its west corner falls in tile
   * (3, 1) and its east corner in tile (0, 1), so all yields [3, 1, 2] then [0, 1, 2].
   */
  lemma AcrossAntimeridian(proj: Projection, b: BBox)
    requires SouthWest(proj, Record(b, 2, 2), 2) == Tile(3, 1, 2)
    requires NorthEast(proj, Record(b, 2, 2), 2) == Tile(0, 1, 2)
    ensures AllOf(proj, Some(Features([Feature(b, None, None, None, None)])), Some(2), Some(2)) == Ok([Tile(3, 1, 2), Tile(0, 1, 2)])
  {
    WrappedLevel(proj, b);
    WrappedWalk();
  }

  /** The level of that feature at zoom 2: columns 3 then 0 (right world, then left), row 1. */
  lemma WrappedLevel(proj: Projection, b: BBox)
    requires SouthWest(proj, Record(b, 2, 2), 2) == Tile(3, 1, 2)
    requires NorthEast(proj, Record(b, 2, 2), 2) == Tile(0, 1, 2)
    ensures LevelsOf(proj, Some(Features([Feature(b, None, None, None, None)])), Some(2), Some(2)) == Ok([Level([3, 0], [1], 2)])
  {
    var f := Feature(b, None, None, None, None);
    var rec := Record(b, 2, 2);
    assert Records(Features([f]), 2, 2) == [rec];
    assert Pow2(2) == 4;
    SpanUp(3, 4);
    SpanUp(0, 1);
    SpanUp(1, 2);
    assert Span(3, 4) + Span(0, 1) == [3, 0];
    var level := Level([3, 0], [1], 2);
    assert Columns(Tile(3, 1, 2), Tile(0, 1, 2), 2) == [3, 0];
    assert Rows(Tile(3, 1, 2), Tile(0, 1, 2)) == [1];
    assert LevelAt(proj, rec, 2) == Ok(level);
    SpanUp(2, 3);
    assert Zooms(rec) == [2];
    assert ZoomLevels(proj, rec, [2]) == Ok([level]) by {
      assert [2][..0] == [];
      assert [] + [level] == [level];
    }
    assert [rec][..0] == [];
    assert RecordsLevels(proj, [rec]) == Ok([level]);
  }

  /** Walking that level yields both tiles, column 3 first; their hashes 29 and 17 differ. */
  lemma WrappedWalk()
    ensures Walk([Level([3, 0], [1], 2)], true) == [Tile(3, 1, 2), Tile(0, 1, 2)]
  {
    var ls := [Level([3, 0], [1], 2)];
    assert Rest(ls, 0, 0, 2) == [] by {
      assert Rest(ls, 0, 1, 0) == Rest(ls, 1, 0, 0);
    }
    assert Rest(ls, 0, 0, 1) == [Tile(0, 1, 2)] + Rest(ls, 0, 0, 2);
    assert Rest(ls, 0, 0, 0) == [Tile(3, 1, 2)] + Rest(ls, 0, 0, 1);
    assert Candidates(ls) == [Tile(3, 1, 2), Tile(0, 1, 2)];
    assert Hash(Tile(3, 1, 2)) == 29 && Hash(Tile(0, 1, 2)) == 17;
    assert Fresh([Tile(0, 1, 2)], {29}) == [Tile(0, 1, 2)];
    assert [Tile(3, 1, 2), Tile(0, 1, 2)][1..] == [Tile(0, 1, 2)];
    assert Fresh([Tile(3, 1, 2), Tile(0, 1, 2)], {}) == [Tile(3, 1, 2), Tile(0, 1, 2)];
  }
}
