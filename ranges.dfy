/**
 * range(start, stop, step): the integer progression used for zoom levels, tile columns and rows.
 */
module Ranges {
  import opened Wrappers

  /** Math.ceil(a / b) for integers. */
  function CeilDiv(a: int, b: int): (r: int)
    requires b != 0
    ensures b > 0 ==> a <= r * b < a + b
    ensures b < 0 ==> a + b < r * b <= a
  {
    if b > 0 then
      var r := (a + b - 1) / b;
      assert a + b - 1 == b * r + (a + b - 1) % b;
      r
    else
      var r := (-a - b - 1) / (-b);
      assert -a - b - 1 == (-b) * r + (-a - b - 1) % (-b);
      r
  }

  /** n terms of the arithmetic progression start, start + step, ... */
  function Progression(start: int, step: int, n: nat): (r: seq<int>)
    ensures |r| == n
    ensures forall i :: 0 <= i < n ==> r[i] == start + i * step
    decreases n
  {
    if n == 0 then []
    else
      var rest := Progression(start + step, step, n - 1);
      assert forall i :: 1 <= i < n ==> (start + step) + (i - 1) * step == start + i * step;
      [start] + rest
  }

  /** The first value after `stop == null` moved the only argument into stop. */
  function First(start: int, stop: Option<int>): int {
    if stop.None? then 0 else start
  }

  function Last(start: int, stop: Option<int>): int {
    if stop.None? then start else stop.value
  }

  /** A falsy step becomes -1 when counting down and +1 otherwise. */
  function Step(start: int, stop: Option<int>, step: int): (s: int)
    ensures s != 0
    ensures step != 0 ==> s == step
  {
    if step != 0 then step
    else if Last(start, stop) < First(start, stop) then -1 else 1
  }

  /** max(ceil((stop - start) / step), 0). */
  function Length(start: int, stop: Option<int>, step: int): nat {
    var n := CeilDiv(Last(start, stop) - First(start, stop), Step(start, stop, step));
    if n < 0 then 0 else n
  }

  /** range(start, stop, step) as a value; an absent stop is None and a falsy step is 0. */
  function Range(start: int, stop: Option<int>, step: int): seq<int> {
    Progression(First(start, stop), Step(start, stop, step), Length(start, stop, step))
  }

  /** range(a, b), the form every caller in the core uses: |b - a| unit steps from a toward b. */
  function Span(a: int, b: int): seq<int> {
    if a <= b then Progression(a, 1, b - a) else Progression(a, -1, a - b)
  }

  /** Span is range with a stop and no step. */
  lemma SpanIsRange(a: int, b: int)
    ensures Span(a, b) == Range(a, Some(b), 0)
  {
    if a <= b {
      assert CeilDiv(b - a, 1) == b - a;
    } else {
      assert CeilDiv(b - a, -1) == a - b;
    }
  }

  /** range fills a fresh array while doing `start += step`. */
  method BuildRange(start: int, stop: Option<int>, step: int) returns (r: seq<int>)
    ensures |r| == Length(start, stop, step)
    ensures forall i :: 0 <= i < |r| ==> r[i] == First(start, stop) + i * Step(start, stop, step)
    ensures r == Range(start, stop, step)
  {
    var first, last := start, 0;
    if stop.None? {
      last := start;
      first := 0;
    } else {
      last := stop.value;
    }
    var s := step;
    if s == 0 {
      s := if last < first then -1 else 1;
    }
    var c := CeilDiv(last - first, s);
    var length := if c < 0 then 0 else c;
    var a := new int[length];
    var idx := 0;
    var value := first;
    while idx < length
      invariant 0 <= idx <= length
      invariant value == first + idx * s
      invariant forall i :: 0 <= i < idx ==> a[i] == first + i * s
    {
      a[idx] := value;
      assert first + (idx + 1) * s == first + idx * s + s;
      idx, value := idx + 1, value + s;
    }
    r := a[..];
    ghost var spec := Range(start, stop, step);
    assert |spec| == length && s == Step(start, stop, step) && first == First(start, stop);
    assert forall i :: 0 <= i < length ==> r[i] == spec[i];
  }

  /** Term i of a progression of ceil((b - a) / s) terms stays strictly on a's side of b. */
  lemma TermBeforeStop(a: int, b: int, s: int, i: int)
    requires s != 0 && 0 <= i < CeilDiv(b - a, s)
    ensures s > 0 ==> a <= a + i * s < b
    ensures s < 0 ==> b < a + i * s <= a
  {
    var n := CeilDiv(b - a, s);
    if s > 0 {
      MulMono(i, n - 1, s);
      assert (n - 1) * s == n * s - s;
    } else {
      MulMono(i, n - 1, -s);
      assert (n - 1) * (-s) == -(n * s) + s;
      assert i * (-s) == -(i * s);
    }
  }

  /** Every value lies strictly before stop, on start's side: stop itself is never produced. */
  lemma RangeHalfOpen(start: int, stop: Option<int>, step: int)
    ensures var s, a, b, r := Step(start, stop, step), First(start, stop), Last(start, stop), Range(start, stop, step);
      (s > 0 ==> forall i :: 0 <= i < |r| ==> a <= r[i] < b) &&
      (s < 0 ==> forall i :: 0 <= i < |r| ==> b < r[i] <= a)
  {
    var s, a, b, r := Step(start, stop, step), First(start, stop), Last(start, stop), Range(start, stop, step);
    forall i | 0 <= i < |r|
      ensures s > 0 ==> a <= r[i] < b
      ensures s < 0 ==> b < r[i] <= a
    {
      TermBeforeStop(a, b, s, i);
    }
  }

  /** The progression reaches stop: one more step would reach or pass it. */
  lemma RangeReachesStop(start: int, stop: Option<int>, step: int)
    ensures var s, a, b, n := Step(start, stop, step), First(start, stop), Last(start, stop), Length(start, stop, step);
      (s > 0 ==> a + n * s >= b) && (s < 0 ==> a + n * s <= b)
  {
  }

  lemma MulMono(i: int, j: int, k: int)
    requires 0 <= i <= j && k >= 0
    ensures i * k <= j * k
  {
    assert j * k - i * k == (j - i) * k;
  }

  /** range(a, b) with a <= b counts up by one: exactly the integers of [a, b). */
  lemma SpanUp(a: int, b: int)
    requires a <= b
    ensures |Span(a, b)| == b - a
    ensures forall i :: 0 <= i < b - a ==> Span(a, b)[i] == a + i
    ensures forall x :: x in Span(a, b) <==> a <= x < b
  {
    var r := Span(a, b);
    forall x | a <= x < b ensures x in r {
      assert r[x - a] == x;
    }
  }

  /** range(a, b) with b < a counts down by one: a, a - 1, ..., b + 1. */
  lemma SpanDown(a: int, b: int)
    requires b < a
    ensures |Span(a, b)| == a - b
    ensures forall i :: 0 <= i < a - b ==> Span(a, b)[i] == a - i
  {
  }

  /** With one argument, range counts from 0. */
  lemma RangeOneArgument(n: int)
    ensures Range(n, None, 0) == Span(0, n)
  {
  }

  /** A progression with a non-zero step never repeats a value. */
  lemma RangeDistinct(start: int, stop: Option<int>, step: int)
    ensures var r := Range(start, stop, step); forall i, j :: 0 <= i < j < |r| ==> r[i] != r[j]
  {
    var r, s, a := Range(start, stop, step), Step(start, stop, step), First(start, stop);
    forall i, j | 0 <= i < j < |r| ensures r[i] != r[j] {
      assert r[j] - r[i] == (j - i) * s;
      if s > 0 {
        MulMono(1, j - i, s);
      } else {
        MulMono(1, j - i, -s);
      }
    }
  }

  /** The documented examples: range(3), range(3, 6) and range(6, 3, -1). */
  lemma RangeExamples()
    ensures Range(3, None, 0) == [0, 1, 2]
    ensures Range(3, Some(6), 0) == [3, 4, 5]
    ensures Range(6, Some(3), -1) == [6, 5, 4]
    ensures Range(6, Some(3), 0) == [6, 5, 4]
  {
  }
}
