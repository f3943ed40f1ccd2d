/** The band keys of a render. The chart draws one copy of the area per
    band and joins the copies to the keys `-1, -2, …, -bands` followed by
    `1, 2, …, bands`, built with the arithmetic-progression `range` of
    d3-array. */
module Bands {

  /** `ceil(a / b)` for a non-zero `b` (Dafny's `/` is Euclidean). */
  function CeilDiv(a: int, b: int): int
    requires b != 0
  {
    if b > 0 then -((-a) / b) else -(a / (-b))
  }

  /** `range(start, stop, step)`: the `max(0, ceil((stop - start) / step))`
      values `start + i * step`. */
  function Range(start: int, stop: int, step: int): (r: seq<int>)
    requires step != 0
  {
    var n := CeilDiv(stop - start, step);
    seq(if n < 0 then 0 else n, i => start + i * step)
  }

  /** With a unit step the range counts up from `start` to just below
      `stop`, or down from `start` to just above `stop`. */
  lemma UnitRange(start: int, stop: int)
    ensures var r := Range(start, stop, 1);
      && |r| == (if stop < start then 0 else stop - start)
      && forall i :: 0 <= i < |r| ==> r[i] == start + i
    ensures var r := Range(start, stop, -1);
      && |r| == (if start < stop then 0 else start - stop)
      && forall i :: 0 <= i < |r| ==> r[i] == start - i
  {
  }

  /** The keys the paths are joined to, `range(-1, -bands - 1, -1)`
      followed by `range(1, bands + 1)`: the negative bands from the
      weakest to the strongest, then the positive ones likewise. */
  function BandKeys(bands: nat): (r: seq<int>)
    ensures |r| == 2 * bands
    ensures forall i :: 0 <= i < bands ==> r[i] == -(i + 1)
    ensures forall i :: bands <= i < 2 * bands ==> r[i] == i - bands + 1
  {
    UnitRange(-1, -(bands as int) - 1);
    UnitRange(1, bands + 1);
    Range(-1, -(bands as int) - 1, -1) + Range(1, bands + 1, 1)
  }

  /** The keys are exactly the non-zero integers of `[-bands, bands]`,
      each once; no band at all is drawn when `bands` is 0. */
  lemma {:induction false} BandKeysExact(bands: nat)
    ensures forall d :: d in BandKeys(bands) <==> d != 0 && -(bands as int) <= d <= bands
    ensures forall i, j :: 0 <= i < j < |BandKeys(bands)| ==> BandKeys(bands)[i] != BandKeys(bands)[j]
    ensures 0 !in BandKeys(bands)
    ensures bands == 0 ==> BandKeys(bands) == []
  {
    var r := BandKeys(bands);
    forall d | d != 0 && -(bands as int) <= d <= bands
      ensures d in r
    {
      if d < 0 {
        assert r[-d - 1] == d;
      } else {
        assert r[bands + d - 1] == d;
      }
    }
    forall i, j | 0 <= i < j < |r|
      ensures r[i] != r[j]
    {
      if j < bands {
        assert r[i] == -(i + 1) && r[j] == -(j + 1);
      } else if i >= bands {
        assert r[i] == i - bands + 1 && r[j] == j - bands + 1;
      } else {
        assert r[i] < 0 < r[j];
      }
    }
  }
}
