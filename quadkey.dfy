/**
 * Quadkeys in the Bing Maps tile system: one digit '0'..'3' per zoom level, most significant
 * level first; digit = bit of x + 2 * bit of the Google (north-origin) row.
 */
module Quadkey {
  import opened Wrappers
  import opened Mercator

  /** Bit k of x, as `(x & (1 << k)) !== 0` reads it (two's complement; exact for |x| < 2^31). */
  function Bit(x: int, k: nat): (b: int)
    ensures b == 0 || b == 1
    decreases k
  {
    if k == 0 then x % 2 else Bit(x / 2, k - 1)
  }

  /** Bit k is the parity of x divided by 2^k. */
  lemma {:induction false} BitDiv(x: int, k: nat)
    ensures Bit(x, k) == (x / Pow2(k)) % 2
    decreases k
  {
    if k > 0 {
      BitDiv(x / 2, k - 1);
      HalfThenDiv(x, Pow2(k - 1));
    }
  }

  /** Halving, then dividing by p, is dividing by 2p. */
  lemma HalfThenDiv(x: int, p: int)
    requires p > 0
    ensures (x / 2) / p == x / (2 * p)
  {
    var h, q := x / 2, (x / 2) / p;
    var r := 2 * (h % p) + x % 2;
    assert x == 2 * h + x % 2;
    assert h == p * q + h % p;
    assert x == (2 * p) * q + r;
    DivModUnique(x, 2 * p, q, r);
  }

  /** The character quadkey.concat(digit) appends for a digit 0..3. */
  function DigitChar(d: int): (c: char)
    requires 0 <= d <= 3
    ensures IsDigit(c)
  {
    if d == 0 then '0' else if d == 1 then '1' else if d == 2 then '2' else '3'
  }

  predicate IsDigit(c: char) {
    '0' <= c <= '3'
  }

  /** Bit 0 of a quadkey digit: set for '1' and '3', the digits that add the mask to x. */
  function XBit(c: char): int {
    if c == '1' || c == '3' then 1 else 0
  }

  /** Bit 1 of a quadkey digit: set for '2' and '3', the digits that add the mask to y. */
  function YBit(c: char): int {
    if c == '2' || c == '3' then 1 else 0
  }

  /** The digits for bits i-1 down to 0 of a Google column x and row y. */
  function Digits(x: int, y: int, i: nat): (q: string)
    ensures |q| == i
  {
    if i == 0 then ""
    else [DigitChar(Bit(x, i - 1) + 2 * Bit(y, i - 1))] + Digits(x, y, i - 1)
  }

  /** Every character of an encoded key is one of '0'..'3'. */
  lemma {:induction false} DigitsValid(x: int, y: int, i: nat)
    ensures ValidKey(Digits(x, y, i))
  {
    if i > 0 {
      DigitsValid(x, y, i - 1);
      var q := Digits(x, y, i);
      assert q[1..] == Digits(x, y, i - 1);
    }
  }

  /** The quadkey tileToQuadkey builds for a TMS tile: the row is flipped to Google first. */
  function KeyOfTile(t: Tile): string
    requires t.z >= 0
  {
    Digits(t.x, Pow2(t.z) - 1 - t.y, t.z)
  }

  predicate ValidKey(q: string) {
    forall k :: 0 <= k < |q| ==> IsDigit(q[k])
  }

  /** The Google column a quadkey encodes: the first digit adds the mask 2^(|q|-1) when its bit 0 is set. */
  function KeyX(q: string): int {
    if q == [] then 0 else (if XBit(q[0]) == 1 then Pow2(|q| - 1) else 0) + KeyX(q[1..])
  }

  /** The Google row a quadkey encodes: the same with bit 1 of each digit. */
  function KeyY(q: string): int {
    if q == [] then 0 else (if YBit(q[0]) == 1 then Pow2(|q| - 1) else 0) + KeyY(q[1..])
  }

  /** The mask a digit adds is its bit times the weight of its position. */
  lemma KeyUnfold(q: string)
    requires q != []
    ensures KeyX(q) == KeyX(q[1..]) + XBit(q[0]) * Pow2(|q| - 1)
    ensures KeyY(q) == KeyY(q[1..]) + YBit(q[0]) * Pow2(|q| - 1)
  {
    var p := Pow2(|q| - 1);
    if XBit(q[0]) == 1 {
      assert XBit(q[0]) * p == p;
    } else {
      assert XBit(q[0]) * p == 0;
    }
    if YBit(q[0]) == 1 {
      assert YBit(q[0]) * p == p;
    } else {
      assert YBit(q[0]) * p == 0;
    }
  }

  /** What quadkeyToGoogle answers: the Google tile, or the invalid-digit error. */
  function KeyToGoogle(q: string): Result<Tile, Error> {
    if ValidKey(q) then Ok(Tile(KeyX(q), KeyY(q), |q|)) else Err(InvalidQuadkeyDigit)
  }

  /** tileToQuadkey: validates the tile, then appends one digit per zoom level from the top bit down. */
  method TileToQuadkey(t: Tile, validate: bool) returns (r: Result<string, Error>)
    requires validate || ValidZoom(t.z)
    ensures validate ==> (r.Ok? <==> ValidTile(t))
    ensures r.Err? ==> ValidateTile(Given(t), validate) == Err(r.error)
    ensures r.Ok? ==> r.value == KeyOfTile(t) && |r.value| == t.z && ValidKey(r.value)
  {
    var v := ValidateTile(Given(t), validate);
    if v.Err? {
      return Err(v.error);
    }
    var zoom := t.z;
    if zoom == 0 {
      return Ok("");
    }
    var tx := t.x;
    var ty := Pow2(zoom) - 1 - t.y;
    var quadkey := AppendDigits(tx, ty, zoom);
    DigitsValid(tx, ty, zoom);
    return Ok(quadkey);
  }

  /** The digit loop of tileToQuadkey: from bit zoom-1 down to bit 0, bit of x plus twice bit of y. */
  method AppendDigits(tx: int, ty: int, zoom: nat) returns (quadkey: string)
    ensures quadkey == Digits(tx, ty, zoom)
  {
    quadkey := "";
    var i := zoom;
    ghost var whole := Digits(tx, ty, zoom);
    while i > 0
      invariant 0 <= i <= zoom
      invariant quadkey + Digits(tx, ty, i) == whole
    {
      var digit := DigitAt(tx, ty, i - 1);
      AppendDigit(tx, ty, i, quadkey, whole, digit);
      quadkey := quadkey + [DigitChar(digit)];
      i := i - 1;
    }
    assert quadkey == quadkey + Digits(tx, ty, 0);
  }

  /** One digit of tileToQuadkey: 1 when the mask bit of x is set, plus 2 when that of y is. */
  method DigitAt(tx: int, ty: int, k: nat) returns (digit: int)
    ensures 0 <= digit <= 3 && digit == Bit(tx, k) + 2 * Bit(ty, k)
  {
    digit := 0;
    if Bit(tx, k) != 0 {
      digit := digit + 1;
    }
    if Bit(ty, k) != 0 {
      digit := digit + 2;
    }
  }

  /** Appending the digit of bits i-1 moves one digit from what is left to the key built so far. */
  lemma AppendDigit(x: int, y: int, i: nat, key: string, whole: string, digit: int)
    requires i > 0 && key + Digits(x, y, i) == whole
    requires digit == Bit(x, i - 1) + 2 * Bit(y, i - 1)
    ensures (key + [DigitChar(digit)]) + Digits(x, y, i - 1) == whole
  {
    var c := DigitChar(digit);
    assert Digits(x, y, i) == [c] + Digits(x, y, i - 1);
    assert key + ([c] + Digits(x, y, i - 1)) == (key + [c]) + Digits(x, y, i - 1);
  }

  /** quadkeyToGoogle: the zoom is the length; each digit adds its mask to x, y or both; any other character throws. */
  method QuadkeyToGoogle(q: string) returns (r: Result<Tile, Error>)
    ensures r == KeyToGoogle(q)
  {
    var x := 0;
    var y := 0;
    var zoom := |q|;
    var i := zoom;
    while i > 0
      invariant 0 <= i <= zoom
      invariant ValidKey(q[..zoom - i])
      invariant x + KeyX(q[zoom - i..]) == KeyX(q)
      invariant y + KeyY(q[zoom - i..]) == KeyY(q)
    {
      var mask := Pow2(i - 1);
      var c := q[zoom - i];
      assert q[zoom - i..][1..] == q[zoom - i + 1..];
      assert q[..zoom - i + 1] == q[..zoom - i] + [c];
      if c == '0' {
      } else if c == '1' {
        x := x + mask;
      } else if c == '2' {
        y := y + mask;
      } else if c == '3' {
        x := x + mask;
        y := y + mask;
      } else {
        assert !ValidKey(q) by {
          assert !IsDigit(q[zoom - i]);
        }
        return Err(InvalidQuadkeyDigit);
      }
      i := i - 1;
    }
    assert q[..zoom] == q;
    return Ok(Tile(x, y, zoom));
  }

  /** quadkeyToTile: quadkeyToGoogle, then the row flip. */
  method QuadkeyToTile(q: string) returns (r: Result<Tile, Error>)
    ensures ValidKey(q) <==> r.Ok?
    ensures r.Err? ==> r.error == InvalidQuadkeyDigit
    ensures r.Ok? ==> r.value == GoogleToTile(Tile(KeyX(q), KeyY(q), |q|))
    ensures r.Ok? && |q| <= MaxZoom ==> ValidTile(r.value)
  {
    var g := QuadkeyToGoogle(q);
    if g.Err? {
      return Err(g.error);
    }
    KeyBounds(q);
    return Ok(GoogleToTile(g.value));
  }

  /**
   * googleToQuadkey: the row flip, then tileToQuadkey with validation on. Below zoom 0 the
   * flipped row is fractional, but validateZoom rejects the zoom before the row is read.
   */
  method GoogleToQuadkey(g: Tile) returns (r: Result<string, Error>)
    ensures r.Ok? <==> ValidTile(g)
    ensures g.z < 0 ==> r == Err(ZoomBelowZero)
    ensures r.Ok? ==> r.value == Digits(g.x, g.y, g.z)
  {
    if g.z < 0 {
      return Err(ZoomBelowZero);
    }
    r := TileToQuadkey(GoogleToTile(g), true);
  }

  // ----- arithmetic behind the round trips -----

  lemma Pow2Succ(i: nat)
    ensures Pow2(i + 1) == 2 * Pow2(i)
  {
  }

  /** x mod 2^i splits into bit i-1 and x mod 2^(i-1). */
  lemma ModSplit(x: int, i: nat)
    requires i >= 1
    ensures x % Pow2(i) == Bit(x, i - 1) * Pow2(i - 1) + x % Pow2(i - 1)
  {
    BitDiv(x, i - 1);
    SplitDivisor(x, Pow2(i - 1));
  }

  /** Dividing by 2p splits the remainder into the next bit of x / p, weighted p, and x mod p. */
  lemma SplitDivisor(x: int, p: int)
    requires p > 0
    ensures x % (2 * p) == ((x / p) % 2) * p + x % p
  {
    var q, r := x / p, x % p;
    var a, b := q / 2, q % 2;
    assert x == p * q + r;
    assert q == 2 * a + b;
    assert p * q == (2 * p) * a + b * p;
    MulLeft(p, b, 1);
    DivModUnique(x, 2 * p, a, b * p + r);
  }

  /** Decoding the digits of (x, y) gives back x and y modulo 2^i. */
  lemma {:induction false} DecodeDigits(x: int, y: int, i: nat)
    ensures KeyX(Digits(x, y, i)) == x % Pow2(i)
    ensures KeyY(Digits(x, y, i)) == y % Pow2(i)
  {
    if i > 0 {
      var q := Digits(x, y, i);
      var xb, yb := Bit(x, i - 1), Bit(y, i - 1);
      assert q[0] == DigitChar(xb + 2 * yb) && q[1..] == Digits(x, y, i - 1);
      DigitBits(xb, yb);
      DecodeDigits(x, y, i - 1);
      ModSplit(x, i);
      ModSplit(y, i);
      KeyUnfold(q);
    }
  }

  /** The digit of two bits gives back each bit. */
  lemma DigitBits(xb: int, yb: int)
    requires 0 <= xb <= 1 && 0 <= yb <= 1
    ensures XBit(DigitChar(xb + 2 * yb)) == xb && YBit(DigitChar(xb + 2 * yb)) == yb
  {
  }

  /** Decoded coordinates stay inside the grid of the key's zoom. */
  lemma {:induction false} KeyBounds(q: string)
    ensures 0 <= KeyX(q) < Pow2(|q|) && 0 <= KeyY(q) < Pow2(|q|)
  {
    if q != [] {
      KeyBounds(q[1..]);
      Pow2Succ(|q| - 1);
    }
  }

  /** Round trip: quadkeyToTile(tileToQuadkey(t)) == t for every valid tile. */
  lemma QuadkeyRoundTrip(t: Tile)
    requires ValidTile(t)
    ensures ValidKey(KeyOfTile(t)) && |KeyOfTile(t)| == t.z
    ensures KeyToGoogle(KeyOfTile(t)) == Ok(Tile(t.x, Pow2(t.z) - 1 - t.y, t.z))
    ensures GoogleToTile(KeyToGoogle(KeyOfTile(t)).value) == t
  {
    var gy := Pow2(t.z) - 1 - t.y;
    DigitsValid(t.x, gy, t.z);
    DecodeDigits(t.x, gy, t.z);
    DivModUnique(t.x, Pow2(t.z), 0, t.x);
    DivModUnique(gy, Pow2(t.z), 0, gy);
  }

  lemma ParityShift(q: int, m: int)
    ensures (q + 2 * m) % 2 == q % 2 && (q + 2 * m) / 2 == q / 2 + m
  {
    DivModUnique(q + 2 * m, 2, q / 2 + m, q % 2);
  }

  /** Bits below position i are not disturbed by adding a multiple of 2^i. */
  lemma {:induction false} BitShift(x: int, a: int, i: nat, k: nat)
    requires k < i
    ensures Bit(x + a * Pow2(i), k) == Bit(x, k)
    decreases k
  {
    var m := a * Pow2(i - 1);
    DoubleWeight(a, Pow2(i - 1));
    ParityShift(x, m);
    if k > 0 {
      BitShift(x / 2, a, i - 1, k - 1);
    }
  }

  /** a * 2^i is twice a * 2^(i-1). */
  lemma DoubleWeight(a: int, p: int)
    ensures a * (2 * p) == 2 * (a * p)
  {
  }

  lemma {:induction false} DigitsShift(x: int, y: int, a: int, b: int, i: nat, n: nat)
    requires n <= i
    ensures Digits(x + a * Pow2(i), y + b * Pow2(i), n) == Digits(x, y, n)
  {
    if n > 0 {
      BitShift(x, a, i, n - 1);
      BitShift(y, b, i, n - 1);
      DigitsShift(x, y, a, b, i, n - 1);
    }
  }

  lemma TopBitOf(v: int, p: int, d: int, rest: int)
    requires p > 0 && 0 <= rest < p && 0 <= d <= 1 && v == rest + d * p
    ensures (v / p) % 2 == d
  {
    assert v == p * d + rest;
    DivModUnique(v, p, d, rest);
  }

  lemma DigitsHead(x: int, y: int, i: nat)
    requires i > 0
    ensures Digits(x, y, i)[0] == DigitChar(Bit(x, i - 1) + 2 * Bit(y, i - 1))
  {
  }

  /** The top bit of the decoded column is bit 0 of the first digit. */
  lemma TopBitX(q: string)
    requires q != []
    ensures Bit(KeyX(q), |q| - 1) == XBit(q[0])
  {
    var p, d, rest := Pow2(|q| - 1), XBit(q[0]), KeyX(q[1..]);
    KeyBounds(q[1..]);
    KeyUnfold(q);
    TopBitOf(KeyX(q), p, d, rest);
    BitDiv(KeyX(q), |q| - 1);
  }

  /** The top bit of the decoded row is bit 1 of the first digit. */
  lemma TopBitY(q: string)
    requires q != []
    ensures Bit(KeyY(q), |q| - 1) == YBit(q[0])
  {
    var p, d, rest := Pow2(|q| - 1), YBit(q[0]), KeyY(q[1..]);
    KeyBounds(q[1..]);
    KeyUnfold(q);
    TopBitOf(KeyY(q), p, d, rest);
    BitDiv(KeyY(q), |q| - 1);
  }

  lemma DigitParts(c: char)
    requires IsDigit(c)
    ensures DigitChar(XBit(c) + 2 * YBit(c)) == c
  {
  }

  /** The top digit of a key is recovered from the top bits of its decoded coordinates. */
  lemma TopDigit(q: string)
    requires q != [] && IsDigit(q[0])
    ensures Digits(KeyX(q), KeyY(q), |q|)[0] == q[0]
  {
    TopBitX(q);
    TopBitY(q);
    DigitsHead(KeyX(q), KeyY(q), |q|);
    DigitParts(q[0]);
  }

  /** The converse round trip: a valid quadkey is re-encoded to itself. */
  lemma {:induction false} KeyRoundTrip(q: string)
    requires ValidKey(q)
    ensures Digits(KeyX(q), KeyY(q), |q|) == q
  {
    if q != [] {
      var n, rest := |q| - 1, q[1..];
      var x, y, rx, ry := KeyX(q), KeyY(q), KeyX(rest), KeyY(rest);
      assert ValidKey(rest);
      KeyRoundTrip(rest);
      KeyUnfold(q);
      DigitsShift(rx, ry, XBit(q[0]), YBit(q[0]), n, n);
      assert Digits(x, y, n) == rest;
      DigitsTail(x, y, |q|);
      TopDigit(q);
      SameFirstAndRest(Digits(x, y, |q|), q);
    }
  }

  lemma DigitsTail(x: int, y: int, i: nat)
    requires i > 0
    ensures Digits(x, y, i)[1..] == Digits(x, y, i - 1)
  {
  }

  lemma SameFirstAndRest(d: string, q: string)
    requires |d| == |q| > 0 && d[0] == q[0] && d[1..] == q[1..]
    ensures d == q
  {
    assert d == [d[0]] + d[1..];
    assert q == [q[0]] + q[1..];
  }

  /** The documented example: [6963, 5003, 13] <-> '1321102330211'. */
  lemma QuadkeyExample()
    ensures KeyOfTile(Tile(6963, 5003, 13)) == "1321102330211"
    ensures KeyToGoogle("1321102330211") == Ok(Tile(6963, 3188, 13))
  {
    ExampleIsKey();
    ExampleCoordinates();
    KeyRoundTrip("1321102330211");
  }

  lemma ExampleIsKey()
    ensures ValidKey("1321102330211")
  {
  }

  /** The example key decoded digit by digit, from the last digit up. */
  lemma ExampleCoordinates()
    ensures KeyX("1321102330211") == 6963 && KeyY("1321102330211") == 3188 && Pow2(13) == 8192
  {
    var q4 := ExampleSuffix4();
    var q7 := ExampleSuffix7(q4);
    var q10 := ExampleSuffix10(q7);
    var q13 := ExampleSuffix13(q10);
    ExampleSpelling(q4, q7, q10, q13);
  }

  lemma ExampleSpelling(q4: string, q7: string, q10: string, q13: string)
    requires q4 == "0211" && q7 == "233" + q4 && q10 == "110" + q7 && q13 == "132" + q10
    ensures q13 == "1321102330211"
  {
  }

  lemma ExampleSuffix4() returns (q: string)
    ensures q == "0211" && KeyX(q) == 3 && KeyY(q) == 4
    ensures |q| == 4 && Pow2(|q|) == 16
  {
    var q1 := KeyStep('1', "", 1, 0, 0);
    var q2 := KeyStep('1', q1, 2, 1, 0);
    var q3 := KeyStep('2', q2, 4, 3, 0);
    var q4 := KeyStep('0', q3, 8, 3, 4);
    q := q4;
  }

  lemma ExampleSuffix7(r: string) returns (q: string)
    requires |r| == 4 && Pow2(|r|) == 16 && KeyX(r) == 3 && KeyY(r) == 4
    ensures q == "233" + r && KeyX(q) == 51 && KeyY(q) == 116
    ensures |q| == 7 && Pow2(|q|) == 128
  {
    var q5 := KeyStep('3', r, 16, 3, 4);
    var q6 := KeyStep('3', q5, 32, 19, 20);
    var q7 := KeyStep('2', q6, 64, 51, 52);
    q := q7;
  }

  lemma ExampleSuffix10(r: string) returns (q: string)
    requires |r| == 7 && Pow2(|r|) == 128 && KeyX(r) == 51 && KeyY(r) == 116
    ensures q == "110" + r && KeyX(q) == 819 && KeyY(q) == 116
    ensures |q| == 10 && Pow2(|q|) == 1024
  {
    var q8 := KeyStep('0', r, 128, 51, 116);
    var q9 := KeyStep('1', q8, 256, 51, 116);
    var q10 := KeyStep('1', q9, 512, 307, 116);
    q := q10;
  }

  lemma ExampleSuffix13(r: string) returns (q: string)
    requires |r| == 10 && Pow2(|r|) == 1024 && KeyX(r) == 819 && KeyY(r) == 116
    ensures q == "132" + r && KeyX(q) == 6963 && KeyY(q) == 3188
    ensures |q| == 13 && Pow2(|q|) == 8192
  {
    var q11 := KeyStep('2', r, 1024, 819, 116);
    var q12 := KeyStep('3', q11, 2048, 819, 1140);
    var q13 := KeyStep('1', q12, 4096, 2867, 3188);
    q := q13;
  }

  /** Putting digit c in front of r adds its bits at weight 2^|r|. */
  lemma KeyStep(c: char, r: string, p: int, vx: int, vy: int) returns (q: string)
    requires p == Pow2(|r|) && KeyX(r) == vx && KeyY(r) == vy
    ensures q == [c] + r && Pow2(|q|) == 2 * p
    ensures KeyX(q) == (if XBit(c) == 1 then p else 0) + vx && KeyY(q) == (if YBit(c) == 1 then p else 0) + vy
  {
    q := [c] + r;
    assert q[1..] == r;
  }

  /** A character outside '0'..'3' is an invalid digit sequence. */
  lemma InvalidDigitExample()
    ensures KeyToGoogle("1324") == Err(InvalidQuadkeyDigit)
  {
    assert !IsDigit("1324"[3]);
  }
}
