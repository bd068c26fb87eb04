# slippy-grid in Dafny

slippy-grid enumerates the tiles of a "slippy map" grid (the TMS / Google XYZ tiling of the
Web Mercator world) that cover an extent between two zoom levels. This project models two
generations of the engine:

- the newer engine of `docs/slippy-grid.js`, together with the integer part of the
  `global-mercator` library bundled with it;
- the older engine of `index.js`.

The newer engine is modelled in these layers:

- **Mercator** holds tiles `[x, y, zoom]`, `validateZoom`, `validateTile` and `validateLngLat`.
  It also holds the TMS ↔ Google row flip (`tileToGoogle`, `googleToTile`) and the seen-set key
  `hash` (`(1 << z) * ((1 << z) + x) + y`). The 32-bit `1 << z` is written out.
  - The wrap condition of `validateLngLat` is `lng > 180 || lng < 180`, so it fires for every
    longitude but 180. It is modelled as written. The model proves that it gives the same
    answers as the evidently intended `lng > 180 || lng < -180`, because the wrap is the
    identity on [-180, 180].
- **Quadkey** holds `tileToQuadkey`, `quadkeyToGoogle`, `quadkeyToTile` and `googleToQuadkey`.
  These are Bing Maps tile-system quadkeys: one digit per zoom level, where digit = bit of x +
  2 × bit of the Google row. The model proves both round trips and the documented example.
- **Ranges** holds `range(start, stop, step)`, the loop that fills an array while doing
  `start += step`. It is proved against the arithmetic progression it denotes.
- **BBoxes** holds `maxBBox`.
- **Levels** covers `levels`:
  - input normalisation into `(bbox, minZoom, maxZoom)` records (one bbox, an array of bboxes, or
    features with their `minZoom || minzoom || minZoom` fallbacks);
  - the north clamp to ±85;
  - the antimeridian split of the columns (right world first, then left world).
  It also covers the argument checks and the errors `validateZoom` raises inside `lngLatToTile`.
  The floating-point projection is a parameter `proj`. The only fact the model takes from it is
  that a validated coordinate at zoom 1..30 lands below 2^zoom. Around it the model keeps what
  the core does with integers:
  - `validateLngLat`;
  - the zoom-0 shortcut `[0, 0, 0]`;
  - `validateZoom`;
  - the clamp of negative indices to 0.
- **Grid** holds the nested level / row / column walk of `single` as a `TileIterator` class. Its
  fields are the cursor and the seen-set of hashes, and `Next` advances it. The model proves
  that the walk yields each hash once, exactly the tiles of the levels, in first-occurrence
  order.
- **Drain** holds the loops of `all` and `count` that drain the iterator, and the quick sum.
- **Bulk** holds the `bulk` generator: a 1-based pull counter `i`, a `container` buffer, and a
  final, possibly empty, batch.
- **Engine** holds `single`, `all`, `bulk` and `count`, including the `quick || 1000` threshold
  and the `quick === -1` exact mode.

**Legacy** is the older engine of `index.js`:

- a single bbox;
- columns and rows from the smaller to the larger corner index;
- no antimeridian split and no deduplication;
- a count that is the quick sum alone.

The model proves where the two engines agree and where they differ.

Errors are values: every `throw new Error(...)` of the core is a case of `Mercator.Error`, and an
operation that can throw returns a `Result`. The errors a generator raises on its first `next()`
are returned when the generator is created.

The operations are specified by functions that the methods are proved equal to, and the lemmas
are stated about these functions:

- `Mercator.Hash`: the seen-set key;
- `Levels.LevelsOf`: the levels of an extent;
- `Grid.Candidates` and `Grid.Walk`: every tile the nested loops visit, and the tiles `single`
  yields, with or without deduplication;
- `Bulk.Run` and `Bulk.Batches`: the batches of the `bulk` generator;
- `Engine.AllOf`, `Engine.BulkOf` and `Engine.CountOf`: `all`, `bulk` and `count` of the newer engine;
- `Legacy.LegacyLevels`, `Legacy.LegacyBulkOf` and `Legacy.LegacyCountOf`: the same for index.js.

## Model

| member | source | states |
|---|---|---|
| Mercator.ValidateZoom | docs/slippy-grid.js:1207-1213 | succeeds exactly for a present zoom in 0..30 and returns it unchanged; a missing zoom, one below 0 and one above 30 each fail with their own error |
| Mercator.ValidateTile | docs/slippy-grid.js:1177-1190 | with validation off the tile comes back unchanged; otherwise it succeeds exactly when x, y and zoom are present and 0 <= x, y < 2^zoom with zoom in 0..30, returning the tile unchanged; present non-negative coordinates at a valid zoom fail with "Illegal parameters" exactly when out of range |
| Mercator.GoogleToTile | docs/slippy-grid.js:1039-1046 | x and zoom are kept, and the flipped tile is valid exactly when the Google tile is |
| Mercator.TileToGoogle | docs/slippy-grid.js:1016-1028 | when validating, succeeds exactly on valid tiles; the result is a valid tile that googleToTile maps back to the input; zoom 0 gives [0, 0, 0] |
| Mercator.GoogleRoundTrip | docs/slippy-grid.js:1016-1046 | tileToGoogle(googleToTile(g)) == g for every valid Google tile |
| Mercator.Shl1 | docs/slippy-grid.js:724 | `1 << z` is 2^z for 0 <= z < 31 |
| Mercator.HashPow | docs/slippy-grid.js:720-725 | up to zoom 30, hash is 2^z * (2^z + x) + y |
| Mercator.ShiftWraps | docs/slippy-grid.js:724 | past zoom 30 the 32-bit shift wraps: 1 << 31 is negative and zoom 32 hashes like zoom 0 |
| Mercator.HashRange | docs/slippy-grid.js:720-725 | a valid tile of zoom z hashes into [4^z, 2 * 4^z) |
| Mercator.HashZoomOrder | docs/slippy-grid.js:720-725 | every valid tile of a lower zoom hashes below every valid tile of a higher zoom |
| Mercator.HashInjective | docs/slippy-grid.js:720-725 | two valid tiles of any zooms with the same hash are the same tile |
| Mercator.HashExample | docs/slippy-grid.js:716-717 | hash([312, 480, 4]) is 5728 |
| Mercator.Rem360 | docs/slippy-grid.js:1237 | JavaScript `%`: the remainder has the sign of the dividend, is below 360 in magnitude and is a minus a whole number of 360s |
| Mercator.WrapLng | docs/slippy-grid.js:1236-1241 | the wrapped longitude lies in [-180, 180], differs from the input by whole turns and equals the input when it is already in range |
| Mercator.ClampLat | docs/slippy-grid.js:1243-1244 | latitude is clamped to [-85, 85]: unchanged inside, -85 below, 85 above |
| Mercator.ValidateLngLat | docs/slippy-grid.js:1228-1246 | validation off returns the pair; lat is required before lng; a result has lng in [-180, 180] a whole number of turns from the input and lat in [-85, 85]; an in-range pair comes back unchanged |
| Mercator.WrapConditionHarmless | docs/slippy-grid.js:1236 | the written condition `lng > 180 \|\| lng < 180` gives the same result as `lng > 180 \|\| lng < -180` on every input |
| Quadkey.DigitChar | docs/slippy-grid.js:1093 | the character appended for a digit is one of '0'..'3' |
| Quadkey.DigitAt | docs/slippy-grid.js:1085-1092 | the digit lies in 0..3 and is the masked bit of x plus twice the masked bit of the row |
| Quadkey.AppendDigits | docs/slippy-grid.js:1084-1094 | the loop from bit zoom-1 down to bit 0 builds exactly the digit string of x and the row |
| Quadkey.DigitsValid | docs/slippy-grid.js:1072-1096 | every character of an encoded key is one of '0'..'3' |
| Quadkey.TileToQuadkey | docs/slippy-grid.js:1072-1096 | when validating, succeeds exactly on valid tiles and otherwise fails with validateTile's error; a key has length zoom (empty at zoom 0), uses only '0'..'3' and encodes x and the flipped row |
| Quadkey.QuadkeyToGoogle | docs/slippy-grid.js:1121-1145 | the zoom is the key's length and each digit adds its mask to x, y or both; any character outside '0'..'3' fails with "Invalid Quadkey digit sequence" |
| Quadkey.QuadkeyToTile | docs/slippy-grid.js:1107-1110 | succeeds exactly on keys over '0'..'3', with the invalid-digit error otherwise; the result is the decoded Google tile with its row flipped, and it is a valid tile for keys of length at most 30 |
| Quadkey.GoogleToQuadkey | docs/slippy-grid.js:1057-1060 | succeeds exactly on valid Google tiles, giving the digits of their x and y; a negative zoom fails with validateZoom's "cannot be less than 0" error |
| Quadkey.KeyBounds | docs/slippy-grid.js:1121-1145 | a decoded x and y lie in [0, 2^length) |
| Quadkey.DecodeDigits | docs/slippy-grid.js:1072-1145 | decoding the i digits of (x, y) gives x mod 2^i and y mod 2^i |
| Quadkey.QuadkeyRoundTrip | docs/slippy-grid.js:1072-1110 | for every valid tile the key is valid, has length zoom, decodes to its Google tile, and quadkeyToTile(tileToQuadkey(t)) == t |
| Quadkey.KeyRoundTrip | docs/slippy-grid.js:1072-1145 | every key over '0'..'3' is re-encoded to itself from the tile it decodes to |
| Quadkey.QuadkeyExample | docs/slippy-grid.js:1069-1070 | [6963, 5003, 13] encodes to '1321102330211', which decodes to Google [6963, 3188, 13] |
| Quadkey.InvalidDigitExample | docs/slippy-grid.js:1141 | '1324' fails with the invalid-digit error |
| Ranges.CeilDiv | docs/slippy-grid.js:1287 | Math.ceil(a / b) on integers: the least multiple of b at or past a, for either sign of b |
| Ranges.Step | docs/slippy-grid.js:1284-1286 | the step is never 0, and a given non-zero step is kept |
| Ranges.Progression | docs/slippy-grid.js:1288-1290 | n terms with term i equal to start + i * step |
| Ranges.BuildRange | docs/slippy-grid.js:1279-1293 | max(ceil((stop - start) / step), 0) elements, element i being start + i * step (start 0 when stop is absent) |
| Ranges.SpanIsRange | docs/slippy-grid.js:1279-1293 | range(a, b) is \|b - a\| unit steps from a toward b |
| Ranges.RangeHalfOpen | docs/slippy-grid.js:1279-1293 | every element lies on start's side of stop and stop itself is never produced |
| Ranges.RangeReachesStop | docs/slippy-grid.js:1287 | one more step would reach or pass stop |
| Ranges.SpanUp | docs/slippy-grid.js:1279-1293 | for a <= b, range(a, b) is a, a + 1, ..., and holds exactly the integers of [a, b) |
| Ranges.SpanDown | docs/slippy-grid.js:1279-1293 | for b < a, range(a, b) counts down a, a - 1, ..., b + 1 |
| Ranges.RangeOneArgument | docs/slippy-grid.js:1280-1283 | range(n) is range(0, n) |
| Ranges.RangeDistinct | docs/slippy-grid.js:1279-1293 | no value repeats |
| Ranges.RangeExamples | docs/slippy-grid.js:1272-1277 | range(3) = [0, 1, 2], range(3, 6) = [3, 4, 5], range(6, 3, -1) = [6, 5, 4], and the same without the step |
| BBoxes.Enclose | docs/slippy-grid.js:1311-1322 | the result encloses every bbox of the array and each side is the side of one of them |
| BBoxes.MaxBBox | docs/slippy-grid.js:1304-1325 | as written: one bbox is returned unchanged exactly when its west is not 0; a non-empty array gives its tight enclosing bbox; anything else is undefined |
| BBoxes.ZeroWestRejected | docs/slippy-grid.js:1306 | [0, -10, 10, 10] fails both guards as written but passes the intended single-bbox guard |
| BBoxes.MaxBBoxIntended | docs/slippy-grid.js:1304-1325 | with the guard corrected, every single bbox is returned unchanged |
| BBoxes.MaxBBoxExample | docs/slippy-grid.js:1301-1302 | [[-20, -30, 20, 30], [-110, -30, 120, 80]] encloses to [-110, -30, 120, 80] |
| Levels.ClampZero | docs/slippy-grid.js:911-916 | a negative tile index becomes 0 and a non-negative one is kept |
| Levels.LngLatToTile | docs/slippy-grid.js:900-918 | succeeds exactly at zooms 0..30, with validateZoom's error otherwise; zoom 0 gives [0, 0, 0]; a result is a valid tile of the requested zoom |
| Levels.Or | docs/slippy-grid.js:1475-1476 | `a \|\| b`: a present non-zero value is kept, an absent or zero one falls back to b |
| Levels.ZeroZoomFallsBack | docs/slippy-grid.js:1475-1476 | a feature zoom property of 0 falls back to the next property and then to the argument |
| Levels.Normalise | docs/slippy-grid.js:1466-1478 | the extents array holds one record per bbox or feature in input order, with the feature zoom fallbacks |
| Levels.LevelAt | docs/slippy-grid.js:1483-1513 | a level exists exactly at valid zooms, carries its zoom, and fails with validateZoom's error otherwise |
| Levels.SouthWest | docs/slippy-grid.js:1485 | t1 is a valid tile of the zoom |
| Levels.NorthEast | docs/slippy-grid.js:1483-1486 | t2, taken after the north clamp, is a valid tile of the zoom |
| Levels.BuildColumns | docs/slippy-grid.js:1489-1506 | the columns loop builds the right world then the left world when t1 lies east of t2, and min..max otherwise |
| Levels.BuildLevel | docs/slippy-grid.js:1485-1513 | one pass of the zoom loop builds exactly the record's level at that zoom, or its error |
| Levels.ZoomLoop | docs/slippy-grid.js:1482-1514 | the zoom loop, with y2 re-clamped on every pass, gives each zoom's level in order or the first error |
| Levels.BuildRecordLevels | docs/slippy-grid.js:1480-1514 | one record gives the levels of range(minZoom, maxZoom + 1) |
| Levels.BuildLevels | docs/slippy-grid.js:1460-1517 | extent, minZoom and maxZoom are required in that order; then every record's levels are pushed in order |
| Levels.ZoomLevelsOk | docs/slippy-grid.js:1482-1514 | the zoom loop succeeds exactly when every zoom is valid, and then gives each zoom's level in order |
| Levels.ZoomLevelsError | docs/slippy-grid.js:1482-1514 | when the zoom loop throws, it throws the error of the first invalid zoom |
| Levels.RecordsLevelsOk | docs/slippy-grid.js:1480-1515 | levels succeeds exactly when every (record, zoom) pair has a valid zoom, and then gives one level per pair: records in input order, zooms in range order |
| Levels.RecordsLevelsError | docs/slippy-grid.js:1480-1515 | when levels throws, it throws the error of the first invalid (record, zoom) pair |
| Levels.LevelColumns | docs/slippy-grid.js:1489-1506 | across the antimeridian the columns are t1.x .. 2^z - 1 then 0 .. t2.x; otherwise they are the contiguous run t1.x .. t2.x |
| Levels.LevelRows | docs/slippy-grid.js:1508-1511 | the rows are the contiguous ascending run min(y) .. max(y) |
| Levels.LevelInBounds | docs/slippy-grid.js:1489-1511 | every column and row lies in [0, 2^zoom) and none repeats |
| Levels.LevelsBounded | docs/slippy-grid.js:1460-1517 | every level levels returns has a valid zoom and in-grid columns and rows |
| Levels.SingleBoxLevels | docs/slippy-grid.js:1467-1515 | one bbox gives one level per zoom of range(minZoom, maxZoom + 1), in that order, exactly when all those zooms are valid |
| Levels.DescendingZooms | docs/slippy-grid.js:1482 | when minZoom > maxZoom + 1 the levels run downward from minZoom to maxZoom + 2 |
| Levels.WorldLevelCount | test.js:94 | the world from zoom 3 to 21 gives 19 levels under any projection |
| Levels.WorldZoomOne | test.js:95 | the world at zoom 1 is [[[0, 1], [0, 1], 1]] under any projection placing its two corners in tiles 0 and 1 |
| Grid.CandidatesMembers | docs/slippy-grid.js:1376-1379 | the nested loops visit exactly the [column, row, zoom] of every level |
| Grid.RestArea | docs/slippy-grid.js:1376-1379 | the nested loops visit as many tiles as the sum of rows * columns |
| Grid.FreshDistinct | docs/slippy-grid.js:1380-1386 | the seen-set never lets two tiles with the same hash through |
| Grid.FreshIsFirstOccurrences | docs/slippy-grid.js:1374-1390 | the seen-set walk keeps exactly the first occurrence of every hash, in order |
| Grid.WalkUnique | docs/slippy-grid.js:1374-1390 | single never yields two tiles with the same hash |
| Grid.WalkMembers | docs/slippy-grid.js:1374-1390 | single yields exactly the tiles of the levels, each at least once |
| Grid.WalkOrder | docs/slippy-grid.js:1374-1390 | single yields the first occurrence of every tile in level, row, column order |
| Grid.WalkAtMostArea | docs/slippy-grid.js:1531-1552 | the exact count never exceeds the quick count |
| Grid.WalkDistinct | docs/slippy-grid.js:1380-1386 | when no two candidates share a hash, nothing is skipped |
| Grid.WalkAll | index.js:17-25 | without deduplication every candidate is yielded, as many as the quick count |
| Grid.Step | docs/slippy-grid.js:1376-1387 | one turn of the loops moves the cursor one column, row or level on and yields the tile unless its hash is already seen |
| Grid.TileIterator.constructor | docs/slippy-grid.js:1374-1375 | a fresh generator has yielded nothing and will yield the whole walk |
| Grid.TileIterator.Next | docs/slippy-grid.js:1374-1390 | next() returns the next tile of the walk, or nothing once the whole walk is yielded |
| Drain.Collect | docs/slippy-grid.js:1403-1412 | the loop of all pushes every value until done: the whole walk |
| Drain.Tally | docs/slippy-grid.js:1544-1550 | the exact loop of count gives the number of tiles yielded |
| Drain.QuickSum | docs/slippy-grid.js:1537-1539 | the quick loop of count gives the sum of rows * columns |
| Bulk.BatchesFlatten | index.js:42-61 | concatenating the batches gives back the tiles of single, in order |
| Bulk.BatchesBound | index.js:46-58 | no batch holds more than \|size\| tiles |
| Bulk.BatchesEnd | index.js:46-58 | there is always a last batch; when the exhausting pull is a multiple of size, a batch of size - 1 tiles is followed by an empty one |
| Bulk.BatchesWhole | index.js:46-58 | a size above every pull count yields the whole walk in one batch |
| Bulk.Chunk | docs/slippy-grid.js:1428-1447 | the bulk loop, run to the end, yields exactly the batches of the walk |
| Engine.Single | docs/slippy-grid.js:1374-1390 | single fails exactly when levels fails, with its error; otherwise it is a fresh generator over the walk of all |
| Engine.All | docs/slippy-grid.js:1403-1412 | all returns every tile single yields, in order |
| Engine.BulkBatches | docs/slippy-grid.js:1428-1447 | bulk yields the batches of the tiles of all |
| Engine.Count | docs/slippy-grid.js:1531-1552 | count answers the quick sum when it exceeds `quick \|\| 1000` (unless quick is -1), and otherwise drains single |
| Engine.AllErrors | docs/slippy-grid.js:1460-1464 | all fails exactly when levels fails, with the same error |
| Engine.AllUnique | docs/slippy-grid.js:1374-1412 | no two tiles of all share a hash |
| Engine.AllMembers | docs/slippy-grid.js:1374-1412 | all holds exactly the [column, row, zoom] tiles of the levels, each a valid tile |
| Engine.AllOrder | docs/slippy-grid.js:1374-1412 | all keeps the first occurrence of every tile, in level, row, column order |
| Engine.BulkFlatten | docs/slippy-grid.js:1428-1447 | the batches of bulk, concatenated, are the tiles of all in the same order |
| Engine.BulkBound | docs/slippy-grid.js:1428-1447 | with a non-zero size no batch holds more than \|size\| tiles |
| Engine.BulkOneBatch | test.js:87-90 | a size above the tile count plus one gives one batch holding every tile |
| Engine.CountBounds | docs/slippy-grid.js:1531-1552 | count is the exact count or the quick count, and lies between them |
| Engine.CountExact | docs/slippy-grid.js:1531-1552 | with quick = -1, or a threshold the quick count does not exceed, count is the number of tiles single yields |
| Engine.CountQuick | docs/slippy-grid.js:1531-1552 | with a threshold other than -1 that the quick count exceeds, count is the quick sum of rows times columns |
| Engine.CountDefault | docs/slippy-grid.js:1532 | no threshold and a threshold of 0 both mean 1000 |
| Engine.CountQuickIsExact | docs/slippy-grid.js:1531-1552 | when no candidate repeats, every threshold gives the same answer, both the quick and the exact count |
| Engine.WrappedLevel | docs/slippy-grid.js:1491-1500 | a feature whose corners fall in tiles (3, 1) and (0, 1) at zoom 2 gives the level [[3, 0], [1], 2] |
| Engine.WrappedWalk | docs/slippy-grid.js:1374-1390 | walking [[3, 0], [1], 2] yields [3, 1, 2] then [0, 1, 2] |
| Engine.AcrossAntimeridian | test.js:96-98 | such a feature gives all = [[3, 1, 2], [0, 1, 2]] |
| Legacy.LegacyLevelAt | index.js:79-87 | a level exists exactly at valid zooms, carries its zoom, and fails with validateZoom's error otherwise |
| Legacy.BuildLegacyLevel | index.js:79-87 | one pass of the zoom loop builds exactly the bbox's level at that zoom |
| Legacy.BuildLegacyLevels | index.js:75-90 | the zoom loop pushes the level of every zoom of range(minZoom, maxZoom + 1), or stops at the first error |
| Legacy.LegacyZoomLevelsOk | index.js:75-90 | levels succeeds exactly when every zoom is valid, and then gives each zoom's level in order |
| Legacy.LegacyLevelShape | index.js:79-87 | columns and rows are the non-empty contiguous ascending runs min..max of the corner indices, inside the grid |
| Legacy.LegacyLevelCount | index.js:75-90 | one level per zoom of range(minZoom, maxZoom + 1), in order (maxZoom - minZoom + 1 ascending levels when minZoom <= maxZoom) |
| Legacy.LegacyWorldLevelCount | index.js:75-90 | the world from zoom 3 to 21 gives 19 levels |
| Legacy.NorthClampRedundant | docs/slippy-grid.js:1483-1484 | lngLatToTile already clamps the latitude, so the newer engine's own north clamp changes no tile |
| Legacy.EnginesAgreeWithoutWrap | index.js:79-87 | when t1.x <= t2.x the older and the newer engine build the same level |
| Legacy.EnginesDifferAcrossWrap | index.js:79-87 | when t1.x > t2.x the older engine spans t2.x .. t1.x while the newer takes t1.x .. 2^z - 1 then 0 .. t2.x |
| Legacy.LegacySingle | index.js:17-25 | single fails exactly when levels fails; otherwise it yields every candidate, repeats included |
| Legacy.LegacyBulk | index.js:42-61 | bulk yields the batches of the older single's tiles |
| Legacy.LegacyCount | index.js:104-110 | count is the sum of rows * columns over the levels |
| Legacy.LegacyCountIsTileCount | index.js:104-110 | that sum is exactly the number of tiles the older single yields |
| Legacy.LegacyBulkFlatten | index.js:42-61 | the older bulk's batches, concatenated, are every tile of the older single in order |

## Left out

- The floating-point Web Mercator projection is a parameter `proj`. This covers `lngLatToMeters`, `metersToPixels` and the `Math.ceil(p / 256) - 1` of `pixelsToTile`. The model assumes only that a validated coordinate at zoom 1..30 lands below 2^zoom. Tests that need projected numbers are stated only under the projection they need (the world at zoom 1, Fiji) or not at all: test.js:33, 84 and 93, including count(WORLD, 3, 21) = 5844858641728.
- `tileToBBox`, `googleToBBox`, `bboxToMeters`, `bboxToCenter`, `resolution`, `metersToLngLat` and `pixelsToMeters` are floating-point projection code.
- GeoJSON traversal and the Turf bbox (`featureEach`, `turfBBox`, lib/turf) are dynamically typed JSON dispatch. Features reach the model already reduced to a bbox and their four optional zoom properties.
- The shape tests of `levels` (`extent.length === 4 && extent[0][0] === undefined`, and the array test) become the tag of `Levels.Extent`. Malformed or mixed extents are not modelled.
- Generator laziness: `single` is an iterator object with an explicit cursor. `bulk` is modelled as the list of batches its generator yields when run to the end.
- JavaScript numbers:
  - `hash` is stated on mathematical integers, but the source computes it in doubles. Up to zoom 26 every hash of a valid tile is below 2^53 and exact. From zoom 27 on it rounds: `(1 << 27) * ((1 << 27) + 0) + 1` is 2^54 + 1, which rounds to 2^54, so [0, 0, 27] and [0, 1, 27] get the same key. The seen-set test then skips real tiles, `all` loses them and the exact loop of `count` undercounts. Grid.WalkMembers, Engine.AllMembers, Grid.WalkDistinct and Engine.CountQuickIsExact therefore hold for the program only for levels up to zoom 26.
  - The quadkey masks `1 << (i - 1)` and `tx & mask` are exact bits for the zooms 1..30 of valid tiles.
- Quadkey.QuadkeyToGoogle and Quadkey.QuadkeyToTile: keys longer than 31 characters are decoded with unbounded masks 2^(i-1). The source's 32-bit `1 << (i - 1)` wraps there: it is -2^31 for i = 32 and 1 for i = 33.
- A non-integer `size`, `quick` or zoom is not modelled.
- `validateZoom`'s `zoom === false` shortcut: `Mercator.ValidateZoom` takes an optional integer, and no caller in the core passes `false`.
- The `lng === -0` normalisation of `validateLngLat`: reals have no negative zero.
- index.js takes `lngLatToTile` and `range` from the external global-mercator package. They are modelled as the copies bundled in docs/slippy-grid.js.
- Quadkey.TileToQuadkey: requires a zoom in 0..30 when validation is off. Beyond that the source's 32-bit masks wrap, and below 0 `range` yields no digits. This is not modelled.
- Mercator.TileToGoogle: requires a zoom of at least 0 when validation is off, because `Math.pow(2, zoom)` is fractional below 0.
- Mercator.GoogleToTile: requires a zoom of at least 0, for the same reason. Both callers in the core meet it: Quadkey.GoogleToQuadkey returns ZoomBelowZero before flipping a negative zoom, and Quadkey.QuadkeyToTile flips a tile whose zoom is the key's length.

## Findings

| source | as written | input that shows it | evidently intended | confidence | as-written member | corrected member |
|---|---|---|---|---|---|---|
| docs/slippy-grid.js:1306 | the single-bbox guard tests `array[0]` for truthiness, so a bbox whose west is 0 fails it, and fails the array guard too, so maxBBox returns undefined | maxBBox([0, -10, 10, 10]) | any single bbox is returned unchanged | not executed | BBoxes.ZeroWestRejected | BBoxes.MaxBBoxIntended |
