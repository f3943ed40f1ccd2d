/** The fold transform of a horizon chart: each band's copy of the area
    is shifted vertically (and, in mirror mode, reflected) so that the
    band's slice of the value range lands in the clip rectangle. A
    transform is kept as data instead of its SVG text: `flip` stands for a
    leading `scale(1,-1)` and `ty` for the `translate(0,ty)` after it. */
module Folding {
  import opened Bands

  datatype FoldKind = Offset | Mirror

  /** The per-band transform function of one render: the fold kind with
      the band count and band height it was built from. */
  datatype Fold = Fold(kind: FoldKind, bands: nat, h: nat)

  /** `scale(1,-1)` when `flip`, then `translate(0,ty)`. */
  datatype Transform = Transform(flip: bool, ty: int)

  /** The transform function for a band count, band height and mode.
      Only the exact mode string "offset" selects the staircase; every
      other string, "mirror" or not, selects the mirror fold. */
  function HorizonTransform(bands: nat, h: nat, mode: string): (f: Fold)
    ensures f.kind == Offset <==> mode == "offset"
    ensures f.bands == bands && f.h == h
  {
    Fold(if mode == "offset" then Offset else Mirror, bands, h)
  }

  /** The transform of band `d`. Only mirror mode reflects, and only the
      negative bands; a positive band gets the same shift in both modes,
      while offset mode lifts a negative band by one band height more than
      mirror mode does. */
  function Apply(f: Fold, d: int): (t: Transform)
    ensures t.flip <==> f.kind == Mirror && d < 0
    ensures f.kind == Mirror || d > 0 ==> t.ty == (d - f.bands) * f.h
    ensures f.kind == Offset && d < 0 ==> t.ty == (d - f.bands) * f.h + f.h
  {
    match f.kind
    case Offset => Transform(false, (d + (if d < 0 then 1 else 0) - f.bands) * f.h)
    case Mirror => Transform(d < 0, (d - f.bands) * f.h)
  }

  /** Where a transform puts a point at local height `y`: SVG applies the
      translation inside the reflected coordinate system. */
  function Place(t: Transform, y: int): int {
    if t.flip then -(y + t.ty) else y + t.ty
  }

  /** The local heights of band `d`'s slice of the area. The baseline of
      the area is at `bands * h`; positive values rise above it and
      negative values hang below it. `near` is the slice edge closer to the
      baseline, `far` the other one. */
  datatype Slice = Slice(near: int, far: int)

  function BandSlice(bands: nat, h: nat, d: int): Slice {
    if d > 0 then Slice((bands - d + 1) * h, (bands - d) * h)
    else Slice((bands - d - 1) * h, (bands - d) * h)
  }

  /** `k * h` as a function call, so that the set comprehension in
      `OffsetStaircase` has a term to trigger on. */
  function Scaled(k: int, h: nat): int {
    k * h
  }

  /** In offset mode no band is reflected, and the bands' shifts are the
      `2 * bands` steps `k * h` for `-(2 * bands - 1) <= k <= 0`, each step
      taken by exactly one band when `h > 0`. */
  lemma {:induction false} OffsetStaircase(bands: nat, h: nat)
    ensures forall d :: d in BandKeys(bands) ==> !Apply(Fold(Offset, bands, h), d).flip
    ensures (set d | d in BandKeys(bands) :: Apply(Fold(Offset, bands, h), d).ty)
         == (set k | -(2 * bands - 1) <= k <= 0 :: Scaled(k, h))
    ensures h > 0 ==> forall d, e :: d in BandKeys(bands) && e in BandKeys(bands) && d != e ==>
              Apply(Fold(Offset, bands, h), d).ty != Apply(Fold(Offset, bands, h), e).ty
  {
    var f := Fold(Offset, bands, h);
    var keys := BandKeys(bands);
    BandKeysExact(bands);
    var lhs := set d | d in keys :: Apply(f, d).ty;
    var rhs := set k | -(2 * bands - 1) <= k <= 0 :: Scaled(k, h);
    forall d | d in keys
      ensures Apply(f, d).ty == Scaled(StairStep(bands, d), h)
      ensures -(2 * bands - 1) <= StairStep(bands, d) <= 0
    {
    }
    forall t | t in lhs
      ensures t in rhs
    {
      var d :| d in keys && Apply(f, d).ty == t;
      assert Scaled(StairStep(bands, d), h) == t;
    }
    forall t | t in rhs
      ensures t in lhs
    {
      var k :| -(2 * bands - 1) <= k <= 0 && Scaled(k, h) == t;
      var d := if k <= -(bands as int) then k + bands - 1 else k + bands;
      assert d in keys && StairStep(bands, d) == k;
      assert Apply(f, d).ty == t;
    }
    if h > 0 {
      forall d, e | d in keys && e in keys && d != e
        ensures Apply(f, d).ty != Apply(f, e).ty
      {
        assert StairStep(bands, d) != StairStep(bands, e);
        ScaledInjective(StairStep(bands, d), StairStep(bands, e), h);
      }
    }
  }

  /** The staircase step of band `d` in offset mode. */
  function StairStep(bands: nat, d: int): int {
    d + (if d < 0 then 1 else 0) - bands
  }

  lemma ScaledInjective(j: int, k: int, h: nat)
    requires h > 0 && j != k
    ensures Scaled(j, h) != Scaled(k, h)
  {
  }

  /** In mirror mode (any mode string but "offset") band `d` is reflected
      exactly when it is negative and shifted by `(d - bands) * h`; the
      positive bands' shifts therefore lie in `[-(bands - 1) * h, 0]`. */
  lemma {:induction false} MirrorFold(bands: nat, h: nat, mode: string)
    requires mode != "offset"
    ensures forall d :: d in BandKeys(bands) ==>
              Apply(HorizonTransform(bands, h, mode), d).flip == (d < 0)
    ensures forall d :: d in BandKeys(bands) ==>
              Apply(HorizonTransform(bands, h, mode), d).ty == (d - bands) * h
    ensures forall d :: d in BandKeys(bands) && d > 0 ==>
              -(bands - 1) * h <= Apply(HorizonTransform(bands, h, mode), d).ty <= 0
  {
    var f := HorizonTransform(bands, h, mode);
    BandKeysExact(bands);
    forall d | d in BandKeys(bands) && d > 0
      ensures -(bands - 1) * h <= Apply(f, d).ty <= 0
    {
      var k := bands - d;
      assert 0 <= k <= bands - 1;
      assert Apply(f, d).ty == -(k * h);
      assert k * h <= (bands - 1) * h by {
        assert (bands - 1) * h - k * h == (bands - 1 - k) * h;
      }
    }
  }

  /** In both modes every band's slice of the area is moved exactly onto
      the clip rectangle's height `[0, h]`. In mirror mode every band grows
      from the bottom edge; in offset mode the negative bands hang from the
      top edge instead. */
  lemma BandSliceFillsClip(f: Fold, d: int)
    requires d != 0 && -(f.bands as int) <= d <= f.bands
    ensures f.kind == Mirror || d > 0 ==>
              && Place(Apply(f, d), BandSlice(f.bands, f.h, d).near) == f.h
              && Place(Apply(f, d), BandSlice(f.bands, f.h, d).far) == 0
    ensures f.kind == Offset && d < 0 ==>
              && Place(Apply(f, d), BandSlice(f.bands, f.h, d).near) == 0
              && Place(Apply(f, d), BandSlice(f.bands, f.h, d).far) == f.h
  {
  }
}
