/** The configuration of a horizon generator and its accessors. Each
    option is read by calling its accessor with no argument and replaced by
    calling it with one; here the reading is a getter function and the
    replacing a setter returning the new configuration. */
module Settings {
  import opened Wrappers

  /** The three-stop colour scale that fills the bands: its numeric domain
      and its colour range (colours as CSS strings). */
  datatype ColorScale = ColorScale(domain: seq<int>, range: seq<string>)

  /** A curve factory of the area generator, identified by name. */
  datatype Curve = Curve(name: string)

  /** A generator's options for samples of type `S`. */
  datatype Config<!S> = Config(
    bands: nat,
    mode: string,
    color: ColorScale,
    x: (S, int) -> int,
    y: (S, int) -> int,
    width: nat,
    height: nat,
    defined: Option<(S, int) -> bool>,
    curve: Curve)

  /** The colour domain follows the band count. */
  ghost predicate Coupled<S>(c: Config<S>) {
    c.color.domain == [-(c.bands as int), 0, c.bands]
  }

  /** The options of a new generator, whose default accessors read
      `[x, y]` pairs. */
  function InitialConfig(): (c: Config<(int, int)>)
    ensures Coupled(c)
    ensures c.bands == 1 && c.mode == "offset" && c.width == 960 && c.height == 40
    ensures c.defined == None
    ensures forall p: (int, int), i :: c.x(p, i) == p.0 && c.y(p, i) == p.1
  {
    Config(1, "offset", ColorScale([-1, 0, 1], ["#d62728", "#fff", "#1f77b4"]),
           (p: (int, int), i: int) => p.0, (p: (int, int), i: int) => p.1,
           960, 40, None, Curve("linear"))
  }

  function BandsOf<S>(c: Config<S>): nat { c.bands }
  function Mode<S>(c: Config<S>): string { c.mode }
  function Colors<S>(c: Config<S>): seq<string> { c.color.range }
  function Width<S>(c: Config<S>): nat { c.width }
  function Height<S>(c: Config<S>): nat { c.height }

  /** Setting the band count re-syncs the colour domain to
      `[-n, 0, n]`; the colour range and every other option are kept. */
  function SetBands<S>(c: Config<S>, n: nat): (r: Config<S>)
    ensures BandsOf(r) == n
    ensures Coupled(r)
    ensures r.color.range == c.color.range
    ensures r.(bands := c.bands, color := c.color) == c
  {
    c.(bands := n, color := c.color.(domain := [-(n as int), 0, n]))
  }

  /** The mode is kept as given; the fold reads it at render time. */
  function SetMode<S>(c: Config<S>, m: string): (r: Config<S>)
    ensures Mode(r) == m
    ensures Coupled(c) ==> Coupled(r)
    ensures r.(mode := c.mode) == c
  {
    c.(mode := m)
  }

  /** Setting the colours replaces the colour range only; the domain
      stays coupled to the band count. */
  function SetColors<S>(c: Config<S>, colors: seq<string>): (r: Config<S>)
    ensures Colors(r) == colors
    ensures r.color.domain == c.color.domain
    ensures Coupled(c) ==> Coupled(r)
    ensures r.(color := c.color) == c
  {
    c.(color := c.color.(range := colors))
  }

  function SetX<S>(c: Config<S>, x: (S, int) -> int): (r: Config<S>)
    ensures r.x == x
    ensures Coupled(c) ==> Coupled(r)
    ensures r.(x := c.x) == c
  {
    c.(x := x)
  }

  function SetY<S>(c: Config<S>, y: (S, int) -> int): (r: Config<S>)
    ensures r.y == y
    ensures Coupled(c) ==> Coupled(r)
    ensures r.(y := c.y) == c
  {
    c.(y := y)
  }

  function SetWidth<S>(c: Config<S>, w: nat): (r: Config<S>)
    ensures Width(r) == w
    ensures Coupled(c) ==> Coupled(r)
    ensures r.(width := c.width) == c
  {
    c.(width := w)
  }

  function SetHeight<S>(c: Config<S>, h: nat): (r: Config<S>)
    ensures Height(r) == h
    ensures Coupled(c) ==> Coupled(r)
    ensures r.(height := c.height) == c
  {
    c.(height := h)
  }

  /** `None` stands for clearing the predicate. */
  function SetDefined<S>(c: Config<S>, p: Option<(S, int) -> bool>): (r: Config<S>)
    ensures r.defined == p
    ensures Coupled(c) ==> Coupled(r)
    ensures r.(defined := c.defined) == c
  {
    c.(defined := p)
  }

  /** The curve as it was last set: what the curve getter evidently
      means to return. */
  function CurveOf<S>(c: Config<S>): Curve { c.curve }

  function SetCurve<S>(c: Config<S>, v: Curve): (r: Config<S>)
    ensures CurveOf(r) == v
    ensures Coupled(c) ==> Coupled(r)
    ensures r.(curve := c.curve) == c
  {
    c.(curve := v)
  }

  /** What the curve getter hands back as written: the area generator's
      own `curve` accessor method, not the curve it holds. */
  datatype CurveReading = CurveValue(curve: Curve) | AreaCurveMethod

  function CurveGetterAsWritten<S>(c: Config<S>): (r: CurveReading)
    ensures !r.CurveValue?
  {
    AreaCurveMethod
  }

  /** Reading the curve right after setting it does not give it back. */
  lemma CurveGetterLosesSetting<S>(c: Config<S>, v: Curve)
    ensures CurveGetterAsWritten(SetCurve(c, v)) != CurveValue(v)
    ensures CurveOf(SetCurve(c, v)) == v
  {
  }
}
