/**
 * maxBBox: the smallest bbox enclosing one bbox or a list of bboxes.
 */
module BBoxes {
  import opened Wrappers

  /** [west, south, east, north] in decimal degrees. */
  datatype BBox = BBox(west: real, south: real, east: real, north: real)

  /** What maxBBox is handed: one bbox, or an array of bboxes. */
  datatype BBoxInput = One(bbox: BBox) | Many(boxes: seq<BBox>)

  /** r encloses every box of the list and each of its sides is the side of one of them. */
  ghost predicate Tight(r: BBox, boxes: seq<BBox>) {
    (forall i :: 0 <= i < |boxes| ==>
      r.west <= boxes[i].west && r.south <= boxes[i].south && r.east >= boxes[i].east && r.north >= boxes[i].north) &&
    (exists i :: 0 <= i < |boxes| && r.west == boxes[i].west) &&
    (exists i :: 0 <= i < |boxes| && r.south == boxes[i].south) &&
    (exists i :: 0 <= i < |boxes| && r.east == boxes[i].east) &&
    (exists i :: 0 <= i < |boxes| && r.north == boxes[i].north)
  }

  /** The loop over the array: start from the first bbox, widen on every strictly smaller/larger side. */
  method Enclose(boxes: seq<BBox>) returns (r: BBox)
    requires |boxes| > 0
    ensures Tight(r, boxes)
  {
    var west, south, east, north := boxes[0].west, boxes[0].south, boxes[0].east, boxes[0].north;
    ghost var wi, si, ei, ni := 0, 0, 0, 0;
    var k := 0;
    while k < |boxes|
      invariant 0 <= k <= |boxes|
      invariant 0 <= wi < |boxes| && west == boxes[wi].west
      invariant 0 <= si < |boxes| && south == boxes[si].south
      invariant 0 <= ei < |boxes| && east == boxes[ei].east
      invariant 0 <= ni < |boxes| && north == boxes[ni].north
      invariant forall i :: 0 <= i < k ==>
        west <= boxes[i].west && south <= boxes[i].south && east >= boxes[i].east && north >= boxes[i].north
      invariant west <= boxes[0].west && south <= boxes[0].south && east >= boxes[0].east && north >= boxes[0].north
    {
      var b := boxes[k];
      if b.west < west { west, wi := b.west, k; }
      if b.south < south { south, si := b.south, k; }
      if b.east > east { east, ei := b.east, k; }
      if b.north > north { north, ni := b.north, k; }
      k := k + 1;
    }
    r := BBox(west, south, east, north);
  }

  /**
   * The single-bbox guard as written: `array[0]` must be truthy, so a bbox whose
   * west is 0 does not pass it.
   */
  predicate SingleGuard(input: BBoxInput) {
    input.One? && input.bbox.west != 0.0
  }

  /** The single-bbox guard as evidently intended: any one bbox passes. */
  predicate SingleGuardIntended(input: BBoxInput) {
    input.One?
  }

  /** The array guard: a non-empty array whose first element is itself a bbox. */
  predicate ManyGuard(input: BBoxInput) {
    input.Many? && |input.boxes| > 0
  }

  /** maxBBox as written: None stands for the `undefined` it falls through to. */
  method MaxBBox(input: BBoxInput) returns (r: Option<BBox>)
    ensures input.One? ==> (r.Some? <==> input.bbox.west != 0.0)
    ensures input.One? && r.Some? ==> r.value == input.bbox
    ensures input.Many? ==> (r.Some? <==> |input.boxes| > 0)
    ensures input.Many? && r.Some? ==> Tight(r.value, input.boxes)
  {
    if SingleGuard(input) {
      return Some(input.bbox);
    }
    if ManyGuard(input) {
      var b := Enclose(input.boxes);
      return Some(b);
    }
    return None;
  }

  /** maxBBox with the single-bbox guard corrected: every bbox is returned unchanged. */
  method MaxBBoxIntended(input: BBoxInput) returns (r: Option<BBox>)
    ensures input.One? ==> r == Some(input.bbox)
    ensures input.Many? ==> (r.Some? <==> |input.boxes| > 0)
    ensures input.Many? && r.Some? ==> Tight(r.value, input.boxes)
  {
    if SingleGuardIntended(input) {
      return Some(input.bbox);
    }
    if ManyGuard(input) {
      var b := Enclose(input.boxes);
      return Some(b);
    }
    return None;
  }

  /** [0, -10, 10, 10] is a bbox the written guard rejects and the intended one accepts. */
  lemma ZeroWestRejected()
    ensures !SingleGuard(One(BBox(0.0, -10.0, 10.0, 10.0)))
    ensures !ManyGuard(One(BBox(0.0, -10.0, 10.0, 10.0)))
    ensures SingleGuardIntended(One(BBox(0.0, -10.0, 10.0, 10.0)))
  {
  }

  /** The documented example: [[-20, -30, 20, 30], [-110, -30, 120, 80]] gives [-110, -30, 120, 80]. */
  lemma MaxBBoxExample(r: BBox)
    requires Tight(r, [BBox(-20.0, -30.0, 20.0, 30.0), BBox(-110.0, -30.0, 120.0, 80.0)])
    ensures r == BBox(-110.0, -30.0, 120.0, 80.0)
  {
    var boxes := [BBox(-20.0, -30.0, 20.0, 30.0), BBox(-110.0, -30.0, 120.0, 80.0)];
    assert r.west <= boxes[1].west && r.east >= boxes[1].east && r.north >= boxes[1].north;
  }
}
