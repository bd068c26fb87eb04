/**
 * bulk: the batches a generator yields while it pulls tiles one by one, with a pull
 * counter `i` and a `container` buffer.
 */
module Bulk {
  import opened Wrappers
  import opened Mercator
  import opened Grid

  /**
   * `i % size === 0` for a 1-based pull counter i. A size of 0 gives NaN, which is never
   * 0; a negative size divides like its absolute value.
   */
  predicate Divides(size: int, i: int) {
    size != 0 && i % size == 0
  }

  /**
   * The batches still to come after i pulls, with `container` holding the tiles pulled
   * since the last batch and `rest` the tiles the iterator still has. Pull i + 1 either
   * takes rest[0], or finds the iterator done; a batch is yielded whenever the counter is
   * a multiple of size, and once more, possibly empty, when the iterator is done.
   */
  function Run(rest: seq<Tile>, size: int, i: nat, container: seq<Tile>): seq<seq<Tile>>
    decreases |rest|
  {
    if rest == [] then
      if Divides(size, i + 1) then [container, []] else [container]
    else
      var c := container + [rest[0]];
      if Divides(size, i + 1) then [c] + Run(rest[1..], size, i + 1, [])
      else Run(rest[1..], size, i + 1, c)
  }

  /** Every batch bulk yields over the walk ts. */
  function Batches(ts: seq<Tile>, size: int): seq<seq<Tile>> {
    Run(ts, size, 0, [])
  }

  function Flatten(bs: seq<seq<Tile>>): seq<Tile> {
    if bs == [] then [] else bs[0] + Flatten(bs[1..])
  }

  lemma {:induction false} RunFlatten(rest: seq<Tile>, size: int, i: nat, container: seq<Tile>)
    ensures Flatten(Run(rest, size, i, container)) == container + rest
    decreases |rest|
  {
    if rest == [] {
      assert Flatten([[]]) == [];
    } else {
      var c := container + [rest[0]];
      assert c + rest[1..] == container + rest;
      if Divides(size, i + 1) {
        RunFlatten(rest[1..], size, i + 1, []);
        assert [] + rest[1..] == rest[1..];
      } else {
        RunFlatten(rest[1..], size, i + 1, c);
      }
    }
  }

  /** Concatenating the batches gives back the walk, in order. */
  lemma BatchesFlatten(ts: seq<Tile>, size: int)
    ensures Flatten(Batches(ts, size)) == ts
  {
    RunFlatten(ts, size, 0, []);
    assert [] + ts == ts;
  }

  /** One more pull moves the remainder on by one, wrapping to 0 at |size|. */
  lemma ModStep(i: nat, size: int)
    requires size != 0
    ensures (i + 1) % size == if i % size == Abs(size) - 1 then 0 else i % size + 1
  {
    var q, r := i / size, i % size;
    assert i == size * q + r;
    if r == Abs(size) - 1 {
      if size > 0 {
        DivModUnique(i + 1, size, q + 1, 0);
      } else {
        DivModUnique(i + 1, size, q - 1, 0);
      }
    } else {
      DivModUnique(i + 1, size, q, r + 1);
    }
  }

  lemma {:induction false} RunBound(rest: seq<Tile>, size: int, i: nat, container: seq<Tile>)
    requires size != 0 && |container| == i % size
    ensures forall b :: b in Run(rest, size, i, container) ==> |b| <= Abs(size)
    decreases |rest|
  {
    ModStep(i, size);
    if rest != [] {
      var c := container + [rest[0]];
      if Divides(size, i + 1) {
        RunBound(rest[1..], size, i + 1, []);
      } else {
        RunBound(rest[1..], size, i + 1, c);
      }
    }
  }

  /** No batch holds more than |size| tiles. */
  lemma BatchesBound(ts: seq<Tile>, size: int)
    requires size != 0
    ensures forall b :: b in Batches(ts, size) ==> |b| <= Abs(size)
  {
    RunBound(ts, size, 0, []);
  }

  lemma {:induction false} RunEnd(rest: seq<Tile>, size: int, i: nat, container: seq<Tile>)
    requires size != 0 && |container| == i % size
    ensures var bs := Run(rest, size, i, container);
      |bs| >= 1 &&
      (Divides(size, i + |rest| + 1) ==> |bs| >= 2 && bs[|bs| - 1] == [] && |bs[|bs| - 2]| == Abs(size) - 1)
    decreases |rest|
  {
    ModStep(i, size);
    if rest != [] {
      var c := container + [rest[0]];
      if Divides(size, i + 1) {
        RunEnd(rest[1..], size, i + 1, []);
      } else {
        RunEnd(rest[1..], size, i + 1, c);
      }
    }
  }

  /**
   * bulk always ends with a last batch; when the pull that finds the iterator done is itself
   * a multiple of size, a batch of size - 1 tiles is followed by an empty one.
   */
  lemma BatchesEnd(ts: seq<Tile>, size: int)
    requires size != 0
    ensures var bs := Batches(ts, size);
      |bs| >= 1 &&
      (Divides(size, |ts| + 1) ==> |bs| >= 2 && bs[|bs| - 1] == [] && |bs[|bs| - 2]| == Abs(size) - 1)
  {
    RunEnd(ts, size, 0, []);
  }

  lemma {:induction false} RunWhole(rest: seq<Tile>, size: int, i: nat, container: seq<Tile>)
    requires forall j :: i < j <= i + |rest| + 1 ==> !Divides(size, j)
    ensures Run(rest, size, i, container) == [container + rest]
    decreases |rest|
  {
    if rest == [] {
      assert container + rest == container;
    } else {
      var c := container + [rest[0]];
      assert !Divides(size, i + 1);
      RunWhole(rest[1..], size, i + 1, c);
      assert c + rest[1..] == container + rest;
    }
  }

  /** When size exceeds every pull count, the whole walk comes in one batch. */
  lemma BatchesWhole(ts: seq<Tile>, size: int)
    requires size == 0 || size > |ts| + 1
    ensures Batches(ts, size) == [ts]
  {
    forall j | 0 < j <= |ts| + 1 ensures !Divides(size, j) {
      if size != 0 {
        DivModUnique(j, size, 0, j);
      }
    }
    RunWhole(ts, size, 0, []);
    assert [] + ts == ts;
  }

  /** Pull i + 1 takes w[i]: it joins the container, which is yielded when the counter divides. */
  lemma PullTile(w: seq<Tile>, size: int, i: nat, container: seq<Tile>)
    requires i < |w|
    ensures Run(w[i..], size, i, container) ==
      if Divides(size, i + 1) then [container + [w[i]]] + Run(w[i + 1..], size, i + 1, [])
      else Run(w[i + 1..], size, i + 1, container + [w[i]])
  {
    assert w[i..][0] == w[i] && w[i..][1..] == w[i + 1..];
  }

  /** The bulk generator's loop, run to the end: every batch it yields, in order. */
  method Chunk(it: TileIterator, size: int) returns (batches: seq<seq<Tile>>)
    requires it.Valid() && it.yielded == []
    modifies it
    ensures batches == Batches(it.output, size)
  {
    batches := [];
    var container: seq<Tile> := [];
    var i: nat := 0;
    ghost var w := it.output;
    while true
      invariant it.Valid() && it.output == w && i == |it.yielded| <= |w| && w[..i] == it.yielded
      invariant Batches(w, size) == batches + Run(w[i..], size, i, container)
      decreases |w| - i
    {
      var v := it.Next();
      ghost var (b0, c0, i0) := (batches, container, i);
      if v.Some? {
        assert w[..i + 1] == w[..i] + [v.value];
        container := container + [v.value];
      }
      i := i + 1;
      if Divides(size, i) {
        batches := batches + [container];
        container := [];
      }
      if v.None? {
        batches := batches + [container];
        LastPull(w, size, i0, b0, c0);
        return;
      }
      NextPull(w, size, i0, b0, c0);
    }
  }

  /** One tile pulled and pushed, then the container yielded when i reaches a multiple of size. */
  lemma NextPull(w: seq<Tile>, size: int, i: nat, batches: seq<seq<Tile>>, container: seq<Tile>)
    requires i < |w| && Batches(w, size) == batches + Run(w[i..], size, i, container)
    ensures var c := container + [w[i]];
      Batches(w, size) == if Divides(size, i + 1) then (batches + [c]) + Run(w[i + 1..], size, i + 1, [])
        else batches + Run(w[i + 1..], size, i + 1, c)
  {
    PullTile(w, size, i, container);
    var c := container + [w[i]];
    if Divides(size, i + 1) {
      assert batches + ([c] + Run(w[i + 1..], size, i + 1, [])) == (batches + [c]) + Run(w[i + 1..], size, i + 1, []);
    }
  }

  /** done: the container is yielded at a multiple of size, then yielded once more. */
  lemma LastPull(w: seq<Tile>, size: int, i: nat, batches: seq<seq<Tile>>, container: seq<Tile>)
    requires i == |w| && Batches(w, size) == batches + Run(w[i..], size, i, container)
    ensures Batches(w, size) == if Divides(size, i + 1) then (batches + [container]) + [[]] else batches + [container]
  {
    assert w[i..] == [];
  }
}
