/**
 * levels(extent, minZoom, maxZoom): the extent is normalised into (bbox, minZoom, maxZoom)
 * records, and every record yields one [columns, rows, zoom] level per zoom of
 * range(minZoom, maxZoom + 1).
 */
module Levels {
  import opened Wrappers
  import opened Mercator
  import opened Ranges
  import opened BBoxes

  /**
   * The floating-point part of lngLatToTile: lngLatToMeters, metersToPixels and
   * ceil(pixel / 256) - 1, before pixelsToTile clamps at zero. Its one fact used here:
   * a validated coordinate at zoom 1..30 gives indices below 2^zoom.
   */
  ghost predicate InRange(p: (real, real, int) -> (int, int)) {
    forall lng: real, lat: real, z: int :: -180.0 <= lng <= 180.0 && -85.0 <= lat <= 85.0 && 1 <= z <= MaxZoom ==>
      p(lng, lat, z).0 < Pow2(z) && p(lng, lat, z).1 < Pow2(z)
  }

  type Projection = p: (real, real, int) -> (int, int) | InRange(p)
    witness (lng: real, lat: real, z: int) => (0, 0)

  function Min(a: int, b: int): int { if a <= b then a else b }

  function Max(a: int, b: int): int { if a <= b then b else a }

  function ClampZero(v: int): (r: int)
    ensures r >= 0
    ensures v >= 0 ==> r == v
    ensures v < 0 ==> r == 0
  {
    if v < 0 then 0 else v
  }

  /** The error validateZoom raises for a zoom outside 0..30. */
  function ZoomError(zoom: int): Error {
    if zoom < 0 then ZoomBelowZero else ZoomAboveThirty
  }

  /**
   * lngLatToTile: validateLngLat, then pixelsToTile, which answers [0, 0, 0] at zoom 0,
   * validates any other zoom and clamps negative indices to 0.
   */
  function LngLatToTile(proj: Projection, lng: real, lat: real, zoom: int): (r: Result<Tile, Error>)
    ensures r.Ok? <==> ValidZoom(zoom)
    ensures r.Err? ==> r.error == ZoomError(zoom)
    ensures zoom == 0 ==> r == Ok(Tile(0, 0, 0))
    ensures r.Ok? ==> r.value.z == zoom && ValidTile(r.value)
  {
    var p := ValidateLngLat(LngLat(Some(lng), Some(lat)), true);
    if zoom == 0 then Ok(Tile(0, 0, 0))
    else
      var z :- ValidateZoom(Some(zoom));
      var t := proj(p.value.lng.value, p.value.lat.value, z);
      Ok(Tile(ClampZero(t.0), ClampZero(t.1), z))
  }

  /** A GeoJSON feature, reduced to its bbox and its optional zoom properties. */
  datatype Feature = Feature(bbox: BBox, minZoom: Option<int>, minzoom: Option<int>, maxZoom: Option<int>, maxzoom: Option<int>)

  /** One bbox, an array of bboxes, or GeoJSON features (one Feature or a FeatureCollection). */
  datatype Extent = Box(bbox: BBox) | Boxes(boxes: seq<BBox>) | Features(features: seq<Feature>)

  datatype Record = Record(bbox: BBox, minZoom: int, maxZoom: int)

  datatype Level = Level(columns: seq<int>, rows: seq<int>, zoom: int)

  /** JavaScript `a || b` on an optional number: absent and 0 are both falsy. */
  function Or(a: Option<int>, b: int): (r: int)
    ensures a.Some? && a.value != 0 ==> r == a.value
    ensures a.None? || a.value == 0 ==> r == b
  {
    if a.Some? && a.value != 0 then a.value else b
  }

  /** `properties.minZoom || properties.minzoom || minZoom`, and the same for maxZoom. */
  function FeatureRecord(f: Feature, minZoom: int, maxZoom: int): Record {
    Record(f.bbox, Or(f.minZoom, Or(f.minzoom, minZoom)), Or(f.maxZoom, Or(f.maxzoom, maxZoom)))
  }

  function Records(extent: Extent, minZoom: int, maxZoom: int): seq<Record> {
    match extent
    case Box(b) => [Record(b, minZoom, maxZoom)]
    case Boxes(bs) => seq(|bs|, i requires 0 <= i < |bs| => Record(bs[i], minZoom, maxZoom))
    case Features(fs) => seq(|fs|, i requires 0 <= i < |fs| => FeatureRecord(fs[i], minZoom, maxZoom))
  }

  /** The extents array: pushes one record per bbox or feature, in input order. */
  method Normalise(extent: Extent, minZoom: int, maxZoom: int) returns (extents: seq<Record>)
    ensures extents == Records(extent, minZoom, maxZoom)
  {
    extents := [];
    match extent {
      case Box(b) =>
        extents := extents + [Record(b, minZoom, maxZoom)];
      case Boxes(bs) =>
        var i := 0;
        while i < |bs|
          invariant 0 <= i <= |bs|
          invariant |extents| == i
          invariant forall k :: 0 <= k < i ==> extents[k] == Record(bs[k], minZoom, maxZoom)
        {
          extents := extents + [Record(bs[i], minZoom, maxZoom)];
          i := i + 1;
        }
      case Features(fs) =>
        var i := 0;
        while i < |fs|
          invariant 0 <= i <= |fs|
          invariant |extents| == i
          invariant forall k :: 0 <= k < i ==> extents[k] == FeatureRecord(fs[k], minZoom, maxZoom)
        {
          var f := fs[i];
          var fmin := Or(f.minZoom, Or(f.minzoom, minZoom));
          var fmax := Or(f.maxZoom, Or(f.maxzoom, maxZoom));
          extents := extents + [Record(f.bbox, fmin, fmax)];
          i := i + 1;
        }
    }
  }

  /** range(minZoom, maxZoom + 1). */
  function Zooms(rec: Record): seq<int> {
    Span(rec.minZoom, rec.maxZoom + 1)
  }

  /** Columns between the west tile t1 and the east tile t2; right world first when they wrap. */
  function Columns(t1: Tile, t2: Tile, zoom: nat): seq<int> {
    if t1.x > t2.x then Span(t1.x, Pow2(zoom)) + Span(0, t2.x + 1)
    else Span(Min(t1.x, t2.x), Max(t1.x, t2.x) + 1)
  }

  function Rows(t1: Tile, t2: Tile): seq<int> {
    Span(Min(t1.y, t2.y), Max(t1.y, t2.y) + 1)
  }

  /** The level one record gives at one zoom; north is first clamped to +/-85. */
  function LevelAt(proj: Projection, rec: Record, zoom: int): (r: Result<Level, Error>)
    ensures r.Ok? <==> ValidZoom(zoom)
    ensures r.Err? ==> r.error == ZoomError(zoom)
    ensures r.Ok? ==> r.value.zoom == zoom
  {
    var b := rec.bbox;
    var t1 :- LngLatToTile(proj, b.west, b.south, zoom);
    var t2 := LngLatToTile(proj, b.east, ClampLat(b.north), zoom).value;
    Ok(Level(Columns(t1, t2, zoom), Rows(t1, t2), zoom))
  }

  predicate AllValid(zooms: seq<int>) {
    forall i :: 0 <= i < |zooms| ==> ValidZoom(zooms[i])
  }

  /** zooms[i] is the first zoom validateZoom rejects. */
  predicate FirstInvalidAt(zooms: seq<int>, i: int) {
    0 <= i < |zooms| && !ValidZoom(zooms[i]) && AllValid(zooms[..i])
  }

  /** ls holds, position by position, the level of rec at each zoom. */
  predicate LevelsMatch(proj: Projection, rec: Record, zooms: seq<int>, ls: seq<Level>) {
    |ls| == |zooms| && forall i :: 0 <= i < |zooms| ==> Ok(ls[i]) == LevelAt(proj, rec, zooms[i])
  }

  /** The levels of one record over a list of zooms; the first invalid zoom throws. */
  function ZoomLevels(proj: Projection, rec: Record, zooms: seq<int>): (r: Result<seq<Level>, Error>)
    ensures r.Ok? ==> |r.value| == |zooms|
    decreases |zooms|
  {
    if zooms == [] then Ok([])
    else
      var n := |zooms| - 1;
      var init :- ZoomLevels(proj, rec, zooms[..n]);
      var level :- LevelAt(proj, rec, zooms[n]);
      Ok(init + [level])
  }

  /** The zoom loop succeeds exactly when every zoom is valid, giving each zoom's level in order. */
  lemma {:induction false} ZoomLevelsOk(proj: Projection, rec: Record, zooms: seq<int>)
    ensures ZoomLevels(proj, rec, zooms).Ok? <==> AllValid(zooms)
    ensures ZoomLevels(proj, rec, zooms).Ok? ==> LevelsMatch(proj, rec, zooms, ZoomLevels(proj, rec, zooms).value)
    decreases |zooms|
  {
    if zooms != [] {
      var n := |zooms| - 1;
      ZoomLevelsOk(proj, rec, zooms[..n]);
      assert zooms[..n] + [zooms[n]] == zooms;
    }
  }

  /** When the zoom loop throws, it throws validateZoom's error for the first invalid zoom. */
  lemma {:induction false} ZoomLevelsError(proj: Projection, rec: Record, zooms: seq<int>)
    requires ZoomLevels(proj, rec, zooms).Err?
    ensures exists i :: FirstInvalidAt(zooms, i) && ZoomLevels(proj, rec, zooms).error == ZoomError(zooms[i])
    decreases |zooms|
  {
    var n := |zooms| - 1;
    var init := ZoomLevels(proj, rec, zooms[..n]);
    if init.Err? {
      ZoomLevelsError(proj, rec, zooms[..n]);
      PrefixFirstInvalid(zooms, n);
    } else {
      ZoomLevelsOk(proj, rec, zooms[..n]);
      assert FirstInvalidAt(zooms, n);
    }
  }

  /** A zoom that is first invalid in a prefix is first invalid in the whole list. */
  lemma PrefixFirstInvalid(zooms: seq<int>, n: int)
    requires 0 <= n <= |zooms|
    ensures forall i :: FirstInvalidAt(zooms[..n], i) ==> FirstInvalidAt(zooms, i)
  {
    forall i | FirstInvalidAt(zooms[..n], i) ensures FirstInvalidAt(zooms, i) {
      assert zooms[..n][..i] == zooms[..i];
    }
  }

  /** The (record, zoom) pairs levels walks: records in input order, zooms in range order. */
  function Schedule(recs: seq<Record>): (r: seq<(Record, int)>)
    ensures |recs| == 1 ==> |r| == |Zooms(recs[0])|
  {
    if recs == [] then []
    else
      var last := recs[|recs| - 1];
      Schedule(recs[..|recs| - 1]) + Pairs(last, Zooms(last))
  }

  function Pairs(rec: Record, zs: seq<int>): (r: seq<(Record, int)>)
    ensures |r| == |zs| && forall i :: 0 <= i < |zs| ==> r[i] == (rec, zs[i])
  {
    seq(|zs|, i requires 0 <= i < |zs| => (rec, zs[i]))
  }

  predicate ScheduleValid(s: seq<(Record, int)>) {
    forall i :: 0 <= i < |s| ==> ValidZoom(s[i].1)
  }

  lemma ScheduleValidAppend(a: seq<(Record, int)>, b: seq<(Record, int)>)
    ensures ScheduleValid(a + b) <==> ScheduleValid(a) && ScheduleValid(b)
  {
    assert forall i :: 0 <= i < |b| ==> (a + b)[|a| + i] == b[i];
    assert forall i :: 0 <= i < |a| ==> (a + b)[i] == a[i];
  }

  /** s[i] is the first (record, zoom) pair whose zoom validateZoom rejects. */
  predicate ScheduleFirstInvalidAt(s: seq<(Record, int)>, i: int) {
    0 <= i < |s| && !ValidZoom(s[i].1) && ScheduleValid(s[..i])
  }

  /** The levels of all records; the first invalid (record, zoom) throws. */
  function RecordsLevels(proj: Projection, recs: seq<Record>): (r: Result<seq<Level>, Error>)
    decreases |recs|
  {
    if recs == [] then Ok([])
    else
      var n := |recs| - 1;
      var init :- RecordsLevels(proj, recs[..n]);
      var more :- ZoomLevels(proj, recs[n], Zooms(recs[n]));
      Ok(init + more)
  }

  /** The ith schedule entry's level, for every i. */
  predicate ScheduleMatch(proj: Projection, s: seq<(Record, int)>, ls: seq<Level>) {
    |ls| == |s| && forall i :: 0 <= i < |s| ==> Ok(ls[i]) == LevelAt(proj, s[i].0, s[i].1)
  }

  lemma ScheduleMatchAppend(proj: Projection, s0: seq<(Record, int)>, l0: seq<Level>, rec: Record, zs: seq<int>, l1: seq<Level>)
    requires ScheduleMatch(proj, s0, l0) && LevelsMatch(proj, rec, zs, l1)
    ensures ScheduleMatch(proj, s0 + Pairs(rec, zs), l0 + l1)
  {
    var s, l := s0 + Pairs(rec, zs), l0 + l1;
    forall i | 0 <= i < |s| ensures Ok(l[i]) == LevelAt(proj, s[i].0, s[i].1) {
      if i >= |s0| {
        assert s[i] == (rec, zs[i - |s0|]) && l[i] == l1[i - |s0|];
      }
    }
  }

  /**
   * levels succeeds exactly when every (record, zoom) pair has a valid zoom, and then
   * gives one level per pair: records in input order, zooms in range order.
   */
  lemma {:induction false} RecordsLevelsOk(proj: Projection, recs: seq<Record>)
    ensures RecordsLevels(proj, recs).Ok? <==> ScheduleValid(Schedule(recs))
    ensures RecordsLevels(proj, recs).Ok? ==> ScheduleMatch(proj, Schedule(recs), RecordsLevels(proj, recs).value)
    decreases |recs|
  {
    if recs != [] {
      var n := |recs| - 1;
      var zs := Zooms(recs[n]);
      var s0 := Schedule(recs[..n]);
      RecordsLevelsOk(proj, recs[..n]);
      ZoomLevelsOk(proj, recs[n], zs);
      ScheduleValidAppend(s0, Pairs(recs[n], zs));
      PairsValid(recs[n], zs);
      var r := RecordsLevels(proj, recs);
      if r.Ok? {
        ScheduleMatchAppend(proj, s0, RecordsLevels(proj, recs[..n]).value, recs[n], zs, ZoomLevels(proj, recs[n], zs).value);
      }
    }
  }

  /** When levels throws, it throws validateZoom's error for the first invalid (record, zoom) pair. */
  lemma {:induction false} RecordsLevelsError(proj: Projection, recs: seq<Record>)
    requires RecordsLevels(proj, recs).Err?
    ensures var s := Schedule(recs);
      exists i :: ScheduleFirstInvalidAt(s, i) && RecordsLevels(proj, recs).error == ZoomError(s[i].1)
    decreases |recs|
  {
    var n := |recs| - 1;
    var zs := Zooms(recs[n]);
    var s0 := Schedule(recs[..n]);
    var init := RecordsLevels(proj, recs[..n]);
    assert recs[..n] + [recs[n]] == recs;
    assert Schedule(recs) == s0 + Pairs(recs[n], zs);
    if init.Err? {
      RecordsLevelsError(proj, recs[..n]);
      ScheduleErrorInPrefix(s0, Pairs(recs[n], zs));
    } else {
      RecordsLevelsOk(proj, recs[..n]);
      ZoomLevelsError(proj, recs[n], zs);
      var k :| FirstInvalidAt(zs, k) && ZoomLevels(proj, recs[n], zs).error == ZoomError(zs[k]);
      ScheduleErrorInTail(s0, recs[n], zs, k);
    }
  }

  lemma PairsValid(rec: Record, zs: seq<int>)
    ensures ScheduleValid(Pairs(rec, zs)) <==> AllValid(zs)
  {
  }

  lemma ScheduleErrorInPrefix(s0: seq<(Record, int)>, tail: seq<(Record, int)>)
    ensures forall i :: ScheduleFirstInvalidAt(s0, i) ==> ScheduleFirstInvalidAt(s0 + tail, i)
  {
    forall i | ScheduleFirstInvalidAt(s0, i) ensures ScheduleFirstInvalidAt(s0 + tail, i) {
      assert (s0 + tail)[..i] == s0[..i];
    }
  }

  lemma ScheduleErrorInTail(s0: seq<(Record, int)>, rec: Record, zs: seq<int>, k: int)
    requires ScheduleValid(s0) && FirstInvalidAt(zs, k)
    ensures ScheduleFirstInvalidAt(s0 + Pairs(rec, zs), |s0| + k)
  {
    var tail := Pairs(rec, zs);
    assert (s0 + tail)[..|s0| + k] == s0 + tail[..k];
    assert tail[..k] == Pairs(rec, zs[..k]);
    PairsValid(rec, zs[..k]);
    ScheduleValidAppend(s0, tail[..k]);
  }

  /** levels: extent, minZoom and maxZoom are required, in that order, then every record is expanded. */
  function LevelsOf(proj: Projection, extent: Option<Extent>, minZoom: Option<int>, maxZoom: Option<int>): Result<seq<Level>, Error> {
    if extent.None? then Err(ExtentRequired)
    else if minZoom.None? then Err(MinZoomRequired)
    else if maxZoom.None? then Err(MaxZoomRequired)
    else RecordsLevels(proj, Records(extent.value, minZoom.value, maxZoom.value))
  }

  /** Once a prefix of the zooms throws, the whole list throws the same error. */
  lemma {:induction false} ZoomLevelsErrorPersists(proj: Projection, rec: Record, zooms: seq<int>, k: nat)
    requires k <= |zooms| && ZoomLevels(proj, rec, zooms[..k]).Err?
    ensures ZoomLevels(proj, rec, zooms) == ZoomLevels(proj, rec, zooms[..k])
    decreases |zooms|
  {
    if k < |zooms| {
      var n := |zooms| - 1;
      var init := zooms[..n];
      assert init[..k] == zooms[..k];
      ZoomLevelsErrorPersists(proj, rec, init, k);
      ZoomLevelsInitError(proj, rec, zooms, init);
    } else {
      assert zooms[..k] == zooms;
    }
  }

  /** An error in all zooms but the last is the error of all zooms. */
  lemma ZoomLevelsInitError(proj: Projection, rec: Record, zooms: seq<int>, init: seq<int>)
    requires zooms != [] && init == zooms[..|zooms| - 1] && ZoomLevels(proj, rec, init).Err?
    ensures ZoomLevels(proj, rec, zooms) == ZoomLevels(proj, rec, init)
  {
  }

  /** Once a prefix of the records throws, all records throw the same error. */
  lemma {:induction false} RecordsLevelsErrorPersists(proj: Projection, recs: seq<Record>, k: nat)
    requires k <= |recs| && RecordsLevels(proj, recs[..k]).Err?
    ensures RecordsLevels(proj, recs) == RecordsLevels(proj, recs[..k])
    decreases |recs|
  {
    if k < |recs| {
      var n := |recs| - 1;
      var init := recs[..n];
      assert init[..k] == recs[..k];
      RecordsLevelsErrorPersists(proj, init, k);
      RecordsLevelsInitError(proj, recs, init);
    } else {
      assert recs[..k] == recs;
    }
  }

  /** An error in all records but the last is the error of all records. */
  lemma RecordsLevelsInitError(proj: Projection, recs: seq<Record>, init: seq<Record>)
    requires recs != [] && init == recs[..|recs| - 1] && RecordsLevels(proj, init).Err?
    ensures RecordsLevels(proj, recs) == RecordsLevels(proj, init)
  {
  }

  /** One [columns, rows, zoom] level from the two projected corners. */
  method BuildLevel(proj: Projection, rec: Record, zoom: int, y2: real) returns (r: Result<Level, Error>)
    requires y2 == ClampLat(rec.bbox.north)
    ensures r == LevelAt(proj, rec, zoom)
  {
    var t1 := LngLatToTile(proj, rec.bbox.west, rec.bbox.south, zoom);
    if t1.Err? {
      return Err(t1.error);
    }
    var a := t1.value;
    var b := LngLatToTile(proj, rec.bbox.east, y2, zoom).value;
    var columns := BuildColumns(a, b, zoom);
    var rows := BuildRange(Min(a.y, b.y), Some(Max(a.y, b.y) + 1), 0);
    SpanIsRange(Min(a.y, b.y), Max(a.y, b.y) + 1);
    r := Ok(Level(columns, rows, zoom));
  }

  /** The columns of a level: across the antimeridian when the west tile lies east of the east tile. */
  method BuildColumns(a: Tile, b: Tile, zoom: nat) returns (columns: seq<int>)
    ensures columns == Columns(a, b, zoom)
  {
    columns := [];
    if a.x > b.x {
      // right world, up to the antimeridian
      var maxtx := Pow2(zoom) - 1;
      var right := BuildRange(a.x, Some(maxtx + 1), 0);
      SpanIsRange(a.x, maxtx + 1);
      columns := columns + right;
      // left world, from the antimeridian
      var left := BuildRange(0, Some(b.x + 1), 0);
      SpanIsRange(0, b.x + 1);
      columns := columns + left;
    } else {
      columns := BuildRange(Min(a.x, b.x), Some(Max(a.x, b.x) + 1), 0);
      SpanIsRange(Min(a.x, b.x), Max(a.x, b.x) + 1);
    }
  }

  /** One more zoom: the level is appended, or its error ends the loop. */
  lemma ZoomLevelsSnoc(proj: Projection, rec: Record, zooms: seq<int>, k: nat)
    requires k < |zooms| && ZoomLevels(proj, rec, zooms[..k]).Ok?
    ensures var l := LevelAt(proj, rec, zooms[k]);
      ZoomLevels(proj, rec, zooms[..k + 1]) == if l.Err? then Err(l.error) else Ok(ZoomLevels(proj, rec, zooms[..k]).value + [l.value])
  {
    assert zooms[..k + 1][..k] == zooms[..k];
  }

  /** The zoom loop of one record; y2 is clamped to +/-85 on every pass. */
  method BuildRecordLevels(proj: Projection, rec: Record) returns (r: Result<seq<Level>, Error>)
    ensures r == ZoomLevels(proj, rec, Zooms(rec))
  {
    var zooms := BuildRange(rec.minZoom, Some(rec.maxZoom + 1), 0);
    SpanIsRange(rec.minZoom, rec.maxZoom + 1);
    r := ZoomLoop(proj, rec, zooms);
  }

  method ZoomLoop(proj: Projection, rec: Record, zooms: seq<int>) returns (r: Result<seq<Level>, Error>)
    ensures r == ZoomLevels(proj, rec, zooms)
  {
    var y2 := rec.bbox.north;
    var levels: seq<Level> := [];
    var k := 0;
    while k < |zooms|
      invariant 0 <= k <= |zooms|
      invariant ClampLat(y2) == ClampLat(rec.bbox.north)
      invariant ZoomLevels(proj, rec, zooms[..k]) == Ok(levels)
    {
      if y2 > 85.0 { y2 := 85.0; }
      if y2 < -85.0 { y2 := -85.0; }
      var level := BuildLevel(proj, rec, zooms[k], y2);
      ZoomLevelsSnoc(proj, rec, zooms, k);
      if level.Err? {
        ZoomLevelsErrorPersists(proj, rec, zooms, k + 1);
        return Err(level.error);
      }
      levels := levels + [level.value];
      k := k + 1;
    }
    assert zooms[..k] == zooms;
    r := Ok(levels);
  }

  /**
   * levels as the source runs it: check the arguments, push the records into `extents`,
   * then push every record's levels in order.
   */
  method BuildLevels(proj: Projection, extent: Option<Extent>, minZoom: Option<int>, maxZoom: Option<int>)
    returns (r: Result<seq<Level>, Error>)
    ensures r == LevelsOf(proj, extent, minZoom, maxZoom)
  {
    if extent.None? { return Err(ExtentRequired); }
    if minZoom.None? { return Err(MinZoomRequired); }
    if maxZoom.None? { return Err(MaxZoomRequired); }
    var extents := Normalise(extent.value, minZoom.value, maxZoom.value);
    var levels: seq<Level> := [];
    var j := 0;
    while j < |extents|
      invariant 0 <= j <= |extents|
      invariant RecordsLevels(proj, extents[..j]) == Ok(levels)
    {
      assert extents[..j + 1][..j] == extents[..j];
      var more := BuildRecordLevels(proj, extents[j]);
      if more.Err? {
        assert RecordsLevels(proj, extents[..j + 1]) == Err(more.error);
        RecordsLevelsErrorPersists(proj, extents, j + 1);
        return Err(more.error);
      }
      levels := levels + more.value;
      j := j + 1;
    }
    assert extents[..j] == extents;
    r := Ok(levels);
  }

  /** The projected south-west corner of a record at a valid zoom (t1 in the source). */
  function SouthWest(proj: Projection, rec: Record, zoom: int): (t: Tile)
    requires ValidZoom(zoom)
    ensures ValidTile(t) && t.z == zoom
  {
    LngLatToTile(proj, rec.bbox.west, rec.bbox.south, zoom).value
  }

  /** The projected north-east corner, north clamped to +/-85 (t2 in the source). */
  function NorthEast(proj: Projection, rec: Record, zoom: int): (t: Tile)
    requires ValidZoom(zoom)
    ensures ValidTile(t) && t.z == zoom
  {
    LngLatToTile(proj, rec.bbox.east, ClampLat(rec.bbox.north), zoom).value
  }

  /**
   * Columns: when the west tile lies east of the east tile the bbox crosses the antimeridian
   * and the columns run from the west tile to the last column, then from column 0 to the
   * east tile; otherwise they run from the west tile to the east tile.
   */
  lemma LevelColumns(proj: Projection, rec: Record, zoom: int)
    requires ValidZoom(zoom)
    ensures var cs, w, e, n := LevelAt(proj, rec, zoom).value.columns, SouthWest(proj, rec, zoom).x, NorthEast(proj, rec, zoom).x, Pow2(zoom);
      (w > e ==>
         |cs| == n - w + e + 1 &&
         (forall i :: 0 <= i < n - w ==> cs[i] == w + i) &&
         (forall i :: n - w <= i < |cs| ==> cs[i] == i - (n - w))) &&
      (w <= e ==> |cs| == e - w + 1 && forall i :: 0 <= i < |cs| ==> cs[i] == w + i)
  {
    var w, e, n := SouthWest(proj, rec, zoom).x, NorthEast(proj, rec, zoom).x, Pow2(zoom);
    if w > e {
      SpanUp(w, n);
      SpanUp(0, e + 1);
    } else {
      SpanUp(w, e + 1);
    }
  }

  /** Rows: the contiguous ascending run between the two corners' rows. */
  lemma LevelRows(proj: Projection, rec: Record, zoom: int)
    requires ValidZoom(zoom)
    ensures var rs, a, b := LevelAt(proj, rec, zoom).value.rows, SouthWest(proj, rec, zoom).y, NorthEast(proj, rec, zoom).y;
      |rs| == Max(a, b) - Min(a, b) + 1 && forall i :: 0 <= i < |rs| ==> rs[i] == Min(a, b) + i
  {
    var a, b := SouthWest(proj, rec, zoom).y, NorthEast(proj, rec, zoom).y;
    SpanUp(Min(a, b), Max(a, b) + 1);
  }

  /** Every column and every row of a level lies in [0, 2^zoom), and none repeats. */
  lemma LevelInBounds(proj: Projection, rec: Record, zoom: int)
    requires ValidZoom(zoom)
    ensures var l := LevelAt(proj, rec, zoom).value;
      (forall i :: 0 <= i < |l.columns| ==> 0 <= l.columns[i] < Pow2(zoom)) &&
      (forall i :: 0 <= i < |l.rows| ==> 0 <= l.rows[i] < Pow2(zoom)) &&
      (forall i, j :: 0 <= i < j < |l.columns| ==> l.columns[i] != l.columns[j]) &&
      (forall i, j :: 0 <= i < j < |l.rows| ==> l.rows[i] != l.rows[j])
  {
    LevelColumns(proj, rec, zoom);
    LevelRows(proj, rec, zoom);
  }

  /** A level whose zoom is valid and whose columns and rows are tile indices of that zoom. */
  predicate Bounded(l: Level) {
    ValidZoom(l.zoom) &&
    (forall i :: 0 <= i < |l.columns| ==> 0 <= l.columns[i] < Pow2(l.zoom)) &&
    (forall i :: 0 <= i < |l.rows| ==> 0 <= l.rows[i] < Pow2(l.zoom))
  }

  /** Every level levels returns is Bounded. */
  lemma LevelsBounded(proj: Projection, extent: Option<Extent>, minZoom: Option<int>, maxZoom: Option<int>)
    requires LevelsOf(proj, extent, minZoom, maxZoom).Ok?
    ensures var ls := LevelsOf(proj, extent, minZoom, maxZoom).value;
      forall i :: 0 <= i < |ls| ==> Bounded(ls[i])
  {
    var recs := Records(extent.value, minZoom.value, maxZoom.value);
    var ls, s := RecordsLevels(proj, recs).value, Schedule(recs);
    RecordsLevelsOk(proj, recs);
    forall i | 0 <= i < |ls| ensures Bounded(ls[i]) {
      assert ValidZoom(s[i].1);
      LevelInBounds(proj, s[i].0, s[i].1);
    }
  }

  /** A single bbox gives one level per zoom of range(minZoom, maxZoom + 1), in that order. */
  lemma SingleBoxLevels(proj: Projection, b: BBox, minZoom: int, maxZoom: int)
    ensures var r, zs := LevelsOf(proj, Some(Box(b)), Some(minZoom), Some(maxZoom)), Span(minZoom, maxZoom + 1);
      (r.Ok? <==> AllValid(zs)) &&
      (r.Ok? ==> |r.value| == |zs| && forall i :: 0 <= i < |zs| ==> r.value[i].zoom == zs[i])
  {
    var rec := Record(b, minZoom, maxZoom);
    var zs := Zooms(rec);
    assert Records(Box(b), minZoom, maxZoom) == [rec];
    SingleRecordLevels(proj, rec);
    ZoomLevelsOk(proj, rec, zs);
    var r := ZoomLevels(proj, rec, zs);
    if r.Ok? {
      forall i | 0 <= i < |zs| ensures r.value[i].zoom == zs[i] {
        assert Ok(r.value[i]) == LevelAt(proj, rec, zs[i]);
      }
    }
  }

  /** With one record, levels is that record's zoom loop. */
  lemma SingleRecordLevels(proj: Projection, rec: Record)
    ensures RecordsLevels(proj, [rec]) == ZoomLevels(proj, rec, Zooms(rec))
  {
    assert [rec][..0] == [];
    var z := ZoomLevels(proj, rec, Zooms(rec));
    if z.Ok? {
      assert [] + z.value == z.value;
    }
  }

  /** The world from zoom 3 to 21 gives 19 levels, whatever the projection. */
  lemma WorldLevelCount(proj: Projection)
    ensures var r := LevelsOf(proj, Some(Box(BBox(-180.0, -90.0, 180.0, 90.0))), Some(3), Some(21));
      r.Ok? && |r.value| == 19
  {
    SpanUp(3, 22);
    SingleBoxLevels(proj, BBox(-180.0, -90.0, 180.0, 90.0), 3, 21);
  }

  /** When minZoom > maxZoom + 1 the zooms run downward: minZoom, minZoom - 1, ..., maxZoom + 2. */
  lemma DescendingZooms(proj: Projection, b: BBox, minZoom: int, maxZoom: int)
    requires minZoom > maxZoom + 1
    requires LevelsOf(proj, Some(Box(b)), Some(minZoom), Some(maxZoom)).Ok?
    ensures var ls := LevelsOf(proj, Some(Box(b)), Some(minZoom), Some(maxZoom)).value;
      |ls| == minZoom - maxZoom - 1 && forall i :: 0 <= i < |ls| ==> ls[i].zoom == minZoom - i
  {
    SpanDown(minZoom, maxZoom + 1);
    SingleBoxLevels(proj, b, minZoom, maxZoom);
  }

  /**
   * The world at zoom 1 is [[0, 1], [0, 1], 1] for any projection that puts the validated
   * corners (-180, -85) and (180, 85) at or before tile 0 and at tile 1.
   */
  lemma WorldZoomOne(proj: Projection)
    requires proj(-180.0, -85.0, 1).0 <= 0 && proj(-180.0, -85.0, 1).1 <= 0
    requires proj(180.0, 85.0, 1) == (1, 1)
    ensures LevelsOf(proj, Some(Box(BBox(-180.0, -90.0, 180.0, 90.0))), Some(1), Some(1)) == Ok([Level([0, 1], [0, 1], 1)])
  {
    var b := BBox(-180.0, -90.0, 180.0, 90.0);
    var rec := Record(b, 1, 1);
    assert Pow2(1) == 2;
    assert ValidateLngLat(LngLat(Some(-180.0), Some(-90.0)), true) == Ok(LngLat(Some(-180.0), Some(-85.0)));
    assert ValidateLngLat(LngLat(Some(180.0), Some(85.0)), true) == Ok(LngLat(Some(180.0), Some(85.0)));
    assert SouthWest(proj, rec, 1) == Tile(0, 0, 1);
    assert NorthEast(proj, rec, 1) == Tile(1, 1, 1);
    SpanUp(0, 2);
    assert Span(0, 2) == [0, 1];
    assert LevelAt(proj, rec, 1) == Ok(Level([0, 1], [0, 1], 1));
    SpanUp(1, 2);
    assert Zooms(rec) == [1];
    assert ZoomLevels(proj, rec, [1]) == Ok([Level([0, 1], [0, 1], 1)]) by {
      assert [1][..0] == [];
      assert ZoomLevels(proj, rec, []) == Ok([]);
      assert [] + [Level([0, 1], [0, 1], 1)] == [Level([0, 1], [0, 1], 1)];
    }
    assert [rec][..0] == [];
  }

  /** A zoom property of 0 is falsy: it falls back to the next property, then to the argument. */
  lemma ZeroZoomFallsBack(b: BBox)
    ensures FeatureRecord(Feature(b, Some(0), None, Some(0), Some(7)), 4, 6) == Record(b, 4, 7)
    ensures FeatureRecord(Feature(b, Some(5), Some(9), None, Some(0)), 4, 6) == Record(b, 5, 6)
  {
  }
}
