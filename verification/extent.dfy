/** The extent pass of a horizon render: every sample is mapped to an
    `[x, y]` point by the configured accessors, while the smallest and
    largest x and the largest magnitude of y are tracked in the same pass.
    The running extents start from infinite sentinels, so an empty series
    leaves them infinite; `Bound` models those sentinels exactly. */
module Extent {

  /** A number that may also be one of the two infinities. */
  datatype Bound = NegInf | Fin(v: int) | PosInf

  /** An extracted sample: `[x, y]`. */
  datatype Point = Point(x: int, y: int)

  /** The three running extents of the pass. */
  datatype Extents = Extents(xMin: Bound, xMax: Bound, yMax: Bound)

  function Abs(n: int): nat {
    if n < 0 then -n else n
  }

  /** `v < b`, with `b` possibly infinite. */
  predicate Below(v: int, b: Bound) {
    match b
    case NegInf => false
    case Fin(w) => v < w
    case PosInf => true
  }

  /** `v > b`, with `b` possibly infinite. */
  predicate Above(v: int, b: Bound) {
    match b
    case NegInf => true
    case Fin(w) => v > w
    case PosInf => false
  }

  /** The extents before any sample has been seen. */
  const Initial := Extents(PosInf, NegInf, NegInf)

  /** The points the accessors extract: point `i` is
      `[x(d[i], i), y(d[i], i)]`. */
  function Points<S>(d: seq<S>, x: (S, int) -> int, y: (S, int) -> int): (pts: seq<Point>)
    ensures |pts| == |d|
  {
    seq(|d|, i requires 0 <= i < |d| => Point(x(d[i], i), y(d[i], i)))
  }

  /** One step of the pass: the four comparisons made for each sample. */
  function Step(e: Extents, p: Point): Extents {
    var xMin := if Below(p.x, e.xMin) then Fin(p.x) else e.xMin;
    var xMax := if Above(p.x, e.xMax) then Fin(p.x) else e.xMax;
    var yNeg := if Above(-p.y, e.yMax) then Fin(-p.y) else e.yMax;
    var yMax := if Above(p.y, yNeg) then Fin(p.y) else yNeg;
    Extents(xMin, xMax, yMax)
  }

  /** The extents after the pass has visited every point, in order. */
  function Measure(pts: seq<Point>): Extents
  {
    if |pts| == 0 then Initial else Step(Measure(pts[..|pts| - 1]), pts[|pts| - 1])
  }

  /** `e` holds exact extents of the non-empty `pts`: finite bounds that
      enclose every point and are each attained by some point. */
  ghost predicate ExactExtents(pts: seq<Point>, e: Extents) {
    && e.xMin.Fin? && e.xMax.Fin? && e.yMax.Fin?
    && (forall i :: 0 <= i < |pts| ==>
          e.xMin.v <= pts[i].x <= e.xMax.v && Abs(pts[i].y) <= e.yMax.v)
    && (exists i :: 0 <= i < |pts| && pts[i].x == e.xMin.v)
    && (exists i :: 0 <= i < |pts| && pts[i].x == e.xMax.v)
    && (exists i :: 0 <= i < |pts| && Abs(pts[i].y) == e.yMax.v)
  }

  /** The pass leaves the sentinels on an empty series and computes exact
      extents otherwise; in particular `yMax` is the largest `|y|`, so it
      is never negative. */
  lemma {:induction false} MeasureIsExact(pts: seq<Point>)
    ensures |pts| == 0 ==> Measure(pts) == Initial
    ensures |pts| > 0 ==> ExactExtents(pts, Measure(pts))
    ensures |pts| > 0 ==> Measure(pts).yMax.v >= 0
    decreases |pts|
  {
    if |pts| > 0 {
      var n := |pts| - 1;
      var pre := pts[..n];
      var p := pts[n];
      var e := Measure(pts);
      if n == 0 {
        assert pre == [] && Measure(pre) == Initial;
        assert e == Step(Initial, p);
        assert e == Extents(Fin(p.x), Fin(p.x), Fin(Abs(p.y)));
      } else {
        MeasureIsExact(pre);
        var e0 := Measure(pre);
        assert e == Step(e0, p);
        forall i | 0 <= i < |pts|
          ensures e.xMin.v <= pts[i].x <= e.xMax.v && Abs(pts[i].y) <= e.yMax.v
        {
          if i < n {
            assert pts[i] == pre[i];
          }
        }
        if e.xMin == e0.xMin {
          var k :| 0 <= k < n && pre[k].x == e0.xMin.v;
          assert pts[k] == pre[k];
        }
        if e.xMax == e0.xMax {
          var k :| 0 <= k < n && pre[k].x == e0.xMax.v;
          assert pts[k] == pre[k];
        }
        if e.yMax == e0.yMax {
          var k :| 0 <= k < n && Abs(pre[k].y) == e0.yMax.v;
          assert pts[k] == pre[k];
        }
      }
    }
  }

  /** The extent pass as a loop over the series: it returns the extracted
      points, in the series' order, and their extents. */
  method ExtentPass<S>(d: seq<S>, x: (S, int) -> int, y: (S, int) -> int)
    returns (data: seq<Point>, e: Extents)
    ensures data == Points(d, x, y)
    ensures e == Measure(data)
    ensures |d| == 0 ==> e == Extents(PosInf, NegInf, NegInf)
    ensures |d| > 0 ==> ExactExtents(data, e)
  {
    data := [];
    e := Initial;
    var i := 0;
    while i < |d|
      invariant 0 <= i <= |d|
      invariant |data| == i
      invariant forall k :: 0 <= k < i ==> data[k] == Point(x(d[k], k), y(d[k], k))
      invariant e == Measure(data)
    {
      var xv := x(d[i], i);
      var yv := y(d[i], i);
      var xMin, xMax, yMax := e.xMin, e.xMax, e.yMax;
      if Below(xv, xMin) { xMin := Fin(xv); }
      if Above(xv, xMax) { xMax := Fin(xv); }
      if Above(-yv, yMax) { yMax := Fin(-yv); }
      if Above(yv, yMax) { yMax := Fin(yv); }
      var p := Point(xv, yv);
      assert (data + [p])[..i] == data;
      e := Extents(xMin, xMax, yMax);
      data := data + [p];
      i := i + 1;
    }
    MeasureIsExact(data);
  }
}
