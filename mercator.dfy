/**
 * The integer part of the bundled global-mercator library: tiles, the TMS/Google row flip,
 * the tile hash used as a dedup key, and the three validators.
 * Numbers are mathematical integers and reals; 32-bit shifts are exact for zooms 0..30.
 */
module Mercator {
  import opened Wrappers

  /** One case per `throw new Error(...)` in the core. */
  datatype Error =
    | ZoomRequired | ZoomBelowZero | ZoomAboveThirty
    | XRequired | YRequired | XBelowZero | YBelowZero | IllegalTile
    | LatRequired | LngRequired
    | InvalidQuadkeyDigit
    | ExtentRequired | MinZoomRequired | MaxZoomRequired

  const MaxZoom: int := 30

  /** 2^n, the number of tile columns (and rows) at zoom n. */
  function Pow2(n: nat): (r: nat)
    ensures r >= 1
  {
    if n == 0 then 1 else 2 * Pow2(n - 1)
  }

  lemma {:induction false} Pow2Monotone(a: nat, b: nat)
    requires a <= b
    ensures Pow2(a) <= Pow2(b)
  {
    if a < b {
      Pow2Monotone(a, b - 1);
    }
  }

  /** A tile [x, y, zoom]; TMS rows count from the south edge, Google rows from the north edge. */
  datatype Tile = Tile(x: int, y: int, z: int)

  /** A tile as a caller may pass it to validateTile, with any coordinate missing. */
  datatype TileInput = TileInput(x: Option<int>, y: Option<int>, z: Option<int>)

  function Given(t: Tile): TileInput {
    TileInput(Some(t.x), Some(t.y), Some(t.z))
  }

  predicate ValidZoom(z: int) {
    0 <= z <= MaxZoom
  }

  predicate ValidTile(t: Tile) {
    ValidZoom(t.z) && 0 <= t.x < Pow2(t.z) && 0 <= t.y < Pow2(t.z)
  }

  /** validateZoom: the zoom is required and must lie in 0..30. */
  function ValidateZoom(zoom: Option<int>): (r: Result<int, Error>)
    ensures r.Ok? <==> zoom.Some? && ValidZoom(zoom.value)
    ensures r.Ok? ==> r.value == zoom.value
    ensures zoom.None? ==> r == Err(ZoomRequired)
    ensures zoom.Some? && zoom.value < 0 ==> r == Err(ZoomBelowZero)
    ensures zoom.Some? && zoom.value > MaxZoom ==> r == Err(ZoomAboveThirty)
  {
    match zoom
    case None => Err(ZoomRequired)
    case Some(z) =>
      if z < 0 then Err(ZoomBelowZero)
      else if z > MaxZoom then Err(ZoomAboveThirty)
      else Ok(z)
  }

  /** validateTile: zoom first, then presence, sign and range of x and y; `validate == false` skips all. */
  function ValidateTile(t: TileInput, validate: bool): (r: Result<TileInput, Error>)
    ensures r.Ok? ==> r.value == t
    ensures !validate ==> r.Ok?
    ensures validate ==>
      (r.Ok? <==> t.x.Some? && t.y.Some? && t.z.Some? && ValidTile(Tile(t.x.value, t.y.value, t.z.value)))
    ensures validate && t.z.Some? && ValidZoom(t.z.value) && t.x.Some? && t.y.Some? && t.x.value >= 0 && t.y.value >= 0
            ==> (r == Err(IllegalTile) <==> !ValidTile(Tile(t.x.value, t.y.value, t.z.value)))
  {
    if !validate then Ok(t)
    else
      var zoom :- ValidateZoom(t.z);
      if t.x.None? then Err(XRequired)
      else if t.y.None? then Err(YRequired)
      else if t.x.value < 0 then Err(XBelowZero)
      else if t.y.value < 0 then Err(YBelowZero)
      else if t.x.value >= Pow2(zoom) || t.y.value >= Pow2(zoom) then Err(IllegalTile)
      else Ok(t)
  }

  /** googleToTile: flips the row; it validates nothing. */
  function GoogleToTile(g: Tile): (r: Tile)
    requires g.z >= 0
    ensures r.x == g.x && r.z == g.z
    ensures ValidTile(r) <==> ValidTile(g)
  {
    Tile(g.x, Pow2(g.z) - g.y - 1, g.z)
  }

  /** tileToGoogle: validates (unless told not to), answers [0, 0, 0] at zoom 0 and flips the row otherwise. */
  function TileToGoogle(t: Tile, validate: bool): (r: Result<Tile, Error>)
    requires validate || t.z >= 0
    ensures validate ==> (r.Ok? <==> ValidTile(t))
    ensures r.Ok? && ValidTile(t) ==> ValidTile(r.value) && GoogleToTile(r.value) == t
    ensures r.Ok? && t.z == 0 ==> r.value == Tile(0, 0, 0)
  {
    var _ :- ValidateTile(Given(t), validate);
    if t.z == 0 then Ok(Tile(0, 0, 0))
    else Ok(Tile(t.x, Pow2(t.z) - 1 - t.y, t.z))
  }

  /** The other round trip: every valid Google tile comes back from tileToGoogle(googleToTile(g)). */
  lemma GoogleRoundTrip(g: Tile)
    requires ValidTile(g)
    ensures TileToGoogle(GoogleToTile(g), true) == Ok(g)
  {
    if g.z == 0 {
      assert Pow2(0) == 1;
    }
  }

  /** hash: (1 << z) * ((1 << z) + x) + y, the key of the seen-set; 4^z + x*2^z + y. */
  function Hash(t: Tile): int {
    Shl1(t.z) * (Shl1(t.z) + t.x) + t.y
  }

  /**
   * `1 << z` in JavaScript: the count is taken modulo 32 and the result is a signed
   * 32-bit integer, so 1 << 31 is -2^31 and 1 << 32 is 1 again.
   */
  function Shl1(z: int): (r: int)
    ensures 0 <= z < 31 ==> r == Pow2(z)
  {
    var k := z % 32;
    if k == 31 then -0x8000_0000 else Pow2(k)
  }

  /** Up to zoom 30 the shift is exact: hash is 2^z * (2^z + x) + y. */
  lemma HashPow(t: Tile)
    requires 0 <= t.z <= MaxZoom
    ensures Hash(t) == Pow2(t.z) * (Pow2(t.z) + t.x) + t.y
  {
    var p := Shl1(t.z);
  }

  /** Beyond zoom 30 the shift wraps: zoom 32 hashes like zoom 0. */
  lemma ShiftWraps()
    ensures Shl1(31) < 0 && Shl1(32) == 1 && Hash(Tile(0, 0, 32)) == Hash(Tile(0, 0, 0))
  {
    assert Shl1(32) == Pow2(0);
  }

  /** Valid tiles of zoom z hash into [4^z, 2 * 4^z). */
  lemma HashRange(t: Tile)
    requires ValidTile(t)
    ensures Pow2(t.z) * Pow2(t.z) <= Hash(t) < 2 * Pow2(t.z) * Pow2(t.z)
  {
    HashPow(t);
    KeyBounds(Pow2(t.z), t.x, t.y);
  }

  lemma KeyBounds(p: int, x: int, y: int)
    requires 0 <= x < p && 0 <= y < p
    ensures p * p <= p * (p + x) + y < 2 * p * p
  {
    assert x * p <= (p - 1) * p;
    assert p * (p + x) + y == p * p + x * p + y;
  }

  /** Multiplying both sides by a non-negative factor keeps the order. */
  lemma MulLeft(k: int, a: int, b: int)
    requires k >= 0 && a <= b
    ensures k * a <= k * b
  {
    assert k * b - k * a == k * (b - a);
  }

  lemma Pow4Gap(a: nat, b: nat)
    requires a < b
    ensures 2 * Pow2(a) * Pow2(a) <= Pow2(b) * Pow2(b)
  {
    Pow2Monotone(a + 1, b);
    var p, q := Pow2(a), Pow2(b);
    MulLeft(p, 2 * p, q);
    MulLeft(q, p, q);
    assert 2 * p * p == p * (2 * p);
  }

  function Abs(n: int): nat {
    if n < 0 then -n else n
  }

  /** Euclidean division is unique: a quotient with a remainder in [0, |d|) is n / d and n % d. */
  lemma DivModUnique(n: int, d: int, q: int, r: int)
    requires d != 0 && 0 <= r < Abs(d) && n == d * q + r
    ensures n / d == q && n % d == r
  {
    var q0, r0 := n / d, n % d;
    var e := q - q0;
    assert d * e == r0 - r;
    if e != 0 {
      MulAtLeast(Abs(d), Abs(e));
      assert false;
    }
  }

  lemma {:induction false} MulAtLeast(n: nat, e: nat)
    requires e >= 1
    ensures n * e >= n
  {
    if e > 1 {
      MulAtLeast(n, e - 1);
      assert n * e == n * (e - 1) + n;
    }
  }

  /** A tile of a lower zoom always hashes below every tile of a higher zoom. */
  lemma HashZoomOrder(a: Tile, b: Tile)
    requires ValidTile(a) && ValidTile(b) && a.z < b.z
    ensures Hash(a) < Hash(b)
  {
    HashRange(a);
    HashRange(b);
    Pow4Gap(a.z, b.z);
  }

  lemma Distribute(p: int, x: int, y: int)
    ensures p * (p + x) + y == p * x + y + p * p
  {
  }

  /** hash is injective on the valid tiles of all zooms together. */
  lemma HashInjective(a: Tile, b: Tile)
    requires ValidTile(a) && ValidTile(b)
    requires Hash(a) == Hash(b)
    ensures a == b
  {
    if a.z < b.z {
      HashZoomOrder(a, b);
    } else if b.z < a.z {
      HashZoomOrder(b, a);
    } else {
      var p := Pow2(a.z);
      HashPow(a);
      HashPow(b);
      Distribute(p, a.x, a.y);
      Distribute(p, b.x, b.y);
      DivModUnique(p * a.x + a.y, p, a.x, a.y);
      DivModUnique(p * b.x + b.y, p, b.x, b.y);
    }
  }

  /** The documented example: hash([312, 480, 4]) is 5728. */
  lemma HashExample()
    ensures Hash(Tile(312, 480, 4)) == 5728
  {
  }

  // ----- longitude / latitude -----

  /** A coordinate pair as a caller may pass it to validateLngLat, with either part missing. */
  datatype LngLat = LngLat(lng: Option<real>, lat: Option<real>)

  /** JavaScript's Math truncation toward zero. */
  function Trunc(r: real): int {
    if r >= 0.0 then r.Floor else -((-r).Floor)
  }

  /** JavaScript's `a % 360`: the remainder takes the sign of the dividend. */
  function Rem360(a: real): (r: real)
    ensures a >= 0.0 ==> 0.0 <= r < 360.0
    ensures a < 0.0 ==> -360.0 < r <= 0.0
    ensures r == a - 360.0 * (Trunc(a / 360.0) as real)
  {
    a - 360.0 * (Trunc(a / 360.0) as real)
  }

  /** The wrap of validateLngLat, applied whenever `lng > 180 || lng < 180`, that is whenever lng != 180. */
  function WrapLng(lng: real): (r: real)
    ensures -180.0 <= r <= 180.0
    ensures ((r - lng) / 360.0).Floor as real == (r - lng) / 360.0
    ensures -180.0 <= lng <= 180.0 ==> r == lng
  {
    var m := Rem360(lng);
    var m1 := if m > 180.0 then -360.0 + m else m;
    var m2 := if m1 < -180.0 then 360.0 + m1 else m1;
    assert -180.0 <= lng <= 180.0 ==> Trunc(lng / 360.0) == 0;
    var k := -Trunc(lng / 360.0) + (if m > 180.0 then -1 else if m1 < -180.0 then 1 else 0);
    assert m2 == lng + 360.0 * (k as real);
    m2
  }

  /** Latitude is clamped to [-85, 85]. */
  function ClampLat(lat: real): (r: real)
    ensures -85.0 <= r <= 85.0
    ensures -85.0 <= lat <= 85.0 ==> r == lat
    ensures lat < -85.0 ==> r == -85.0
    ensures lat > 85.0 ==> r == 85.0
  {
    var l := if lat < -85.0 then -85.0 else lat;
    if l > 85.0 then 85.0 else l
  }

  /** validateLngLat: lat and lng are required (lat checked first); lng is wrapped unless it is exactly 180; lat is clamped. */
  function ValidateLngLat(p: LngLat, validate: bool): (r: Result<LngLat, Error>)
    ensures !validate ==> r == Ok(p)
    ensures validate ==> (r.Ok? <==> p.lng.Some? && p.lat.Some?)
    ensures validate && p.lat.None? ==> r == Err(LatRequired)
    ensures validate && r.Ok? ==> r.value.lng.Some? && r.value.lat.Some?
    ensures validate && r.Ok? ==> -180.0 <= r.value.lng.value <= 180.0 && -85.0 <= r.value.lat.value <= 85.0
    ensures validate && r.Ok? ==>
      var turns := (r.value.lng.value - p.lng.value) / 360.0; turns.Floor as real == turns
    ensures validate && r.Ok? && -180.0 <= p.lng.value <= 180.0 && -85.0 <= p.lat.value <= 85.0 ==> r == Ok(p)
  {
    if !validate then Ok(p)
    else if p.lat.None? then Err(LatRequired)
    else if p.lng.None? then Err(LngRequired)
    else
      var lng := p.lng.value;
      var lng' := if lng > 180.0 || lng < 180.0 then WrapLng(lng) else lng;
      Ok(LngLat(Some(lng'), Some(ClampLat(p.lat.value))))
  }

  /** The condition evidently meant, `lng > 180 || lng < -180`; it gives the same answers as the one written. */
  function ValidateLngLatIntended(p: LngLat, validate: bool): Result<LngLat, Error> {
    if !validate then Ok(p)
    else if p.lat.None? then Err(LatRequired)
    else if p.lng.None? then Err(LngRequired)
    else
      var lng := p.lng.value;
      var lng' := if lng > 180.0 || lng < -180.0 then WrapLng(lng) else lng;
      Ok(LngLat(Some(lng'), Some(ClampLat(p.lat.value))))
  }

  /** Because the wrap is the identity on [-180, 180], the always-true wrap condition changes no result. */
  lemma WrapConditionHarmless(p: LngLat, validate: bool)
    ensures ValidateLngLat(p, validate) == ValidateLngLatIntended(p, validate)
  {
  }
}
