/** One render of a horizon chart on one container, and the state kept
    between renders. A render lays the series out (points, band keys, new
    scales and fold transform), then resumes from the container's stash:
    a container seen before starts its transition from the stashed scales
    and transform and keeps its id; a new one starts from the new ones and
    draws a fresh id from the counter. Either way the new state is stashed
    for the next render. The stash is a map from containers to their chart
    state. */
module Horizon {
  import opened Extent
  import opened Bands
  import opened Folding
  import opened Settings

  /** A container the chart is drawn into. */
  type ContainerId = nat

  /** A linear scale, kept as its two-point domain and range. */
  datatype Linear = Linear(domain: (Bound, Bound), range: (int, int))

  /** The scales and transform function of one render. */
  datatype Frame = Frame(x: Linear, y: Linear, t: Fold)

  /** What a container remembers between renders: the last frame and its
      id, which names its clip path. */
  datatype ChartState = ChartState(frame: Frame, id: nat)

  /** The stash of every container and the id counter. */
  datatype Registry = Registry(stash: map<ContainerId, ChartState>, counter: nat)

  /** The layout of a series: the extracted points, the band keys and the
      new frame. */
  datatype Layout = Layout(data: seq<Point>, keys: seq<int>, frame: Frame)

  /** The new x-scale maps `[xMin, xMax]` onto `[0, width]`. */
  function XScale(e: Extents, width: nat): Linear {
    Linear((e.xMin, e.xMax), (0, width))
  }

  /** The new y-scale maps `[0, yMax]` onto the stacked height of all
      bands, `[0, height * bands]`. */
  function YScale(e: Extents, height: nat, bands: nat): Linear {
    Linear((Fin(0), e.yMax), (0, height * bands))
  }

  function LayoutOf<S>(cfg: Config<S>, series: seq<S>): (l: Layout)
    ensures |l.data| == |series|
    ensures forall i :: 0 <= i < |series| ==>
              l.data[i] == Point(cfg.x(series[i], i), cfg.y(series[i], i))
    ensures l.keys == BandKeys(cfg.bands)
    ensures l.frame.t == HorizonTransform(cfg.bands, cfg.height, cfg.mode)
  {
    var data := Points(series, cfg.x, cfg.y);
    var e := Measure(data);
    Layout(data, BandKeys(cfg.bands),
           Frame(XScale(e, cfg.width), YScale(e, cfg.height, cfg.bands),
                 HorizonTransform(cfg.bands, cfg.height, cfg.mode)))
  }

  /** The frame a transition starts from, the container's id, and the
      registry after the new frame has been stashed. */
  datatype Resumed = Resumed(start: Frame, id: nat, registry: Registry)

  /** Resuming container `c` towards frame `next`. */
  function Resume(reg: Registry, c: ContainerId, next: Frame): (r: Resumed)
    // first render: the transition starts from its own end and a fresh id is drawn
    ensures c !in reg.stash ==>
              && r.start == next
              && r.id == reg.counter + 1
              && r.registry.counter == reg.counter + 1
    // later renders: the transition starts from the stash and the id is kept
    ensures c in reg.stash ==>
              && r.start == reg.stash[c].frame
              && r.id == reg.stash[c].id
              && r.registry.counter == reg.counter
    // every render stashes its end state, for `c` only
    ensures r.registry.stash.Keys == reg.stash.Keys + {c}
    ensures r.registry.stash[c] == ChartState(next, r.id)
    ensures forall k :: k in reg.stash && k != c ==> r.registry.stash[k] == reg.stash[k]
  {
    if c in reg.stash then
      var prior := reg.stash[c];
      Resumed(prior.frame, prior.id, Registry(reg.stash[c := ChartState(next, prior.id)], reg.counter))
    else
      var id := reg.counter + 1;
      Resumed(next, id, Registry(reg.stash[c := ChartState(next, id)], id))
  }

  /** What one render computes: the extracted points, the band keys, the
      frame the transition starts from and the one it ends at, and the
      container's id. */
  datatype Render = Render(data: seq<Point>, keys: seq<int>, start: Frame, end: Frame, id: nat)

  datatype Outcome = Outcome(render: Render, registry: Registry)

  /** One render of `series` on container `c`. */
  function Draw<S>(cfg: Config<S>, reg: Registry, c: ContainerId, series: seq<S>): (o: Outcome)
    ensures o.render.data == LayoutOf(cfg, series).data
    ensures o.render.end == LayoutOf(cfg, series).frame
    ensures o.render.keys == BandKeys(cfg.bands)
    ensures c !in reg.stash ==>
              && o.render.start == o.render.end
              && o.render.id == reg.counter + 1
              && o.registry.counter == reg.counter + 1
    ensures c in reg.stash ==>
              && o.render.start == reg.stash[c].frame
              && o.render.id == reg.stash[c].id
              && o.registry.counter == reg.counter
    ensures o.registry.stash == reg.stash[c := ChartState(o.render.end, o.render.id)]
  {
    var l := LayoutOf(cfg, series);
    var r := Resume(reg, c, l.frame);
    Outcome(Render(l.data, l.keys, r.start, l.frame, r.id), r.registry)
  }

  /** A render is its layout followed by resuming the container towards
      the layout's frame: the id logic of `Resume`, and so every lemma about
      runs of visits, covers real renders. */
  lemma DrawIsResume<S>(cfg: Config<S>, reg: Registry, c: ContainerId, series: seq<S>)
    ensures var o := Draw(cfg, reg, c, series);
      var r := Resume(reg, c, LayoutOf(cfg, series).frame);
      o.registry == r.registry && o.render.start == r.start && o.render.id == r.id
  {
  }

  /** The new scales fit the series: on a non-empty series the x-domain
      is `[xMin, xMax]` and the y-domain `[0, yMax]`, with every point
      inside and `xMin`, `xMax` and `yMax` each attained; on an empty
      series the domains keep the infinite starting values. */
  lemma NewScalesFitData<S>(cfg: Config<S>, series: seq<S>)
    ensures var r := LayoutOf(cfg, series).frame;
      && r.x.range == (0, cfg.width)
      && r.y.range == (0, cfg.height * cfg.bands)
      && r.y.domain.0 == Fin(0)
    ensures var r := LayoutOf(cfg, series).frame;
      |series| == 0 ==> r.x.domain == (PosInf, NegInf) && r.y.domain.1 == NegInf
    ensures var r := LayoutOf(cfg, series).frame;
      |series| > 0 ==>
        && r.x.domain.0.Fin? && r.x.domain.1.Fin? && r.y.domain.1.Fin?
        && r.y.domain.1.v >= 0
        && (forall i :: 0 <= i < |series| ==>
              && r.x.domain.0.v <= cfg.x(series[i], i) <= r.x.domain.1.v
              && Abs(cfg.y(series[i], i)) <= r.y.domain.1.v)
        && (exists i :: 0 <= i < |series| && cfg.x(series[i], i) == r.x.domain.0.v)
        && (exists i :: 0 <= i < |series| && cfg.x(series[i], i) == r.x.domain.1.v)
        && (exists i :: 0 <= i < |series| && Abs(cfg.y(series[i], i)) == r.y.domain.1.v)
  {
    var data := Points(series, cfg.x, cfg.y);
    MeasureIsExact(data);
    if |series| > 0 {
      var e := Measure(data);
      var k1 :| 0 <= k1 < |data| && data[k1].x == e.xMin.v;
      var k2 :| 0 <= k2 < |data| && data[k2].x == e.xMax.v;
      var k3 :| 0 <= k3 < |data| && Abs(data[k3].y) == e.yMax.v;
      assert cfg.x(series[k1], k1) == e.xMin.v;
      assert cfg.x(series[k2], k2) == e.xMax.v;
      assert Abs(cfg.y(series[k3], k3)) == e.yMax.v;
    }
  }

  /** A registry whose ids are all drawn from its counter and pairwise
      distinct. */
  ghost predicate IdsUnique(reg: Registry) {
    && (forall k :: k in reg.stash ==> 1 <= reg.stash[k].id <= reg.counter)
    && (forall k, l :: k in reg.stash && l in reg.stash && k != l ==>
          reg.stash[k].id != reg.stash[l].id)
  }

  /** Resuming never changes the id of a container stashed before, whether
      or not the ids in the stash are unique. */
  lemma ResumeKeepsIds(reg: Registry, c: ContainerId, next: Frame)
    ensures forall k :: k in reg.stash ==>
              k in Resume(reg, c, next).registry.stash
              && Resume(reg, c, next).registry.stash[k].id == reg.stash[k].id
  {
  }

  /** Resuming keeps the ids unique and gives a container not seen before
      an id above every id issued before. */
  lemma ResumeKeepsIdsUnique(reg: Registry, c: ContainerId, next: Frame)
    requires IdsUnique(reg)
    ensures IdsUnique(Resume(reg, c, next).registry)
    ensures c !in reg.stash ==> forall k :: k in reg.stash ==> reg.stash[k].id < Resume(reg, c, next).id
  {
  }

  /** Rendering twice with the same options and series rebuilds the same
      frame and id; the second render starts from the first one's end and
      leaves the registry as the first one left it. */
  lemma RedrawIsIdempotent<S>(cfg: Config<S>, reg: Registry, c: ContainerId, series: seq<S>)
    ensures var o1 := Draw(cfg, reg, c, series);
      var o2 := Draw(cfg, o1.registry, c, series);
      && o2.render.end == o1.render.end
      && o2.render.start == o1.render.end
      && o2.render.id == o1.render.id
      && o2.registry == o1.registry
  {
  }

  /** One render as the id logic sees it: a container and the frame the
      render ends at. */
  datatype Visit = Visit(container: ContainerId, frame: Frame)

  datatype RunResult = RunResult(ids: seq<nat>, registry: Registry)

  /** A sequence of renders against one registry, with one id counter
      shared by every render; `ids[i]` is the id render `i` used. For the
      renders of one generator this is the code as written; renders by
      several generators share a counter only in the one-counter reading. */
  function Run(reg: Registry, visits: seq<Visit>): (r: RunResult)
    ensures |r.ids| == |visits|
    ensures reg.counter <= r.registry.counter
    decreases |visits|
  {
    if |visits| == 0 then RunResult([], reg)
    else
      var prev := Run(reg, visits[..|visits| - 1]);
      var v := visits[|visits| - 1];
      var r := Resume(prev.registry, v.container, v.frame);
      RunResult(prev.ids + [r.id], r.registry)
  }

  /** The containers a sequence of renders draws into. */
  function Containers(visits: seq<Visit>): (cs: set<ContainerId>)
    ensures forall i :: 0 <= i < |visits| ==> visits[i].container in cs
    ensures forall k :: k in cs ==> exists i :: 0 <= i < |visits| && visits[i].container == k
    decreases |visits|
  {
    if |visits| == 0 then {}
    else
      var pre := visits[..|visits| - 1];
      assert forall i :: 0 <= i < |pre| ==> pre[i] == visits[i];
      Containers(pre) + {visits[|visits| - 1].container}
  }

  /** Render `j` is the first render of a container the registry had not
      seen. */
  ghost predicate FirstSeen(reg: Registry, visits: seq<Visit>, j: int)
    requires 0 <= j < |visits|
  {
    && visits[j].container !in reg.stash
    && forall i :: 0 <= i < j ==> visits[i].container != visits[j].container
  }

  /** A run stashes exactly the containers it draws into, besides those
      stashed before. */
  lemma {:induction false} RunKeys(reg: Registry, visits: seq<Visit>)
    ensures Run(reg, visits).registry.stash.Keys == reg.stash.Keys + Containers(visits)
    decreases |visits|
  {
    if |visits| > 0 {
      var pre := visits[..|visits| - 1];
      RunKeys(reg, pre);
      assert Containers(visits) == Containers(pre) + {visits[|visits| - 1].container};
    }
  }

  /** Over any run, containers stashed beforehand keep their ids, whether
      or not the ids in the stash are unique. */
  lemma {:induction false} RunKeepsIds(reg: Registry, visits: seq<Visit>)
    ensures forall k :: k in reg.stash ==>
              k in Run(reg, visits).registry.stash && Run(reg, visits).registry.stash[k].id == reg.stash[k].id
    decreases |visits|
  {
    if |visits| > 0 {
      var pre := visits[..|visits| - 1];
      var v := visits[|visits| - 1];
      RunKeepsIds(reg, pre);
      ResumeKeepsIds(Run(reg, pre).registry, v.container, v.frame);
    }
  }

  /** Over any run from a registry with unique ids, the ids stay unique. */
  lemma {:induction false} RunKeepsIdsUnique(reg: Registry, visits: seq<Visit>)
    requires IdsUnique(reg)
    ensures IdsUnique(Run(reg, visits).registry)
    decreases |visits|
  {
    if |visits| > 0 {
      var pre := visits[..|visits| - 1];
      var v := visits[|visits| - 1];
      RunKeepsIdsUnique(reg, pre);
      ResumeKeepsIdsUnique(Run(reg, pre).registry, v.container, v.frame);
    }
  }

  /** Over any run, every container drawn into ends up stashed under the
      id its renders used; this holds even on a stash whose ids collide. */
  lemma {:induction false} RunStash(reg: Registry, visits: seq<Visit>)
    ensures forall i :: 0 <= i < |visits| ==>
              && visits[i].container in Run(reg, visits).registry.stash
              && Run(reg, visits).registry.stash[visits[i].container].id == Run(reg, visits).ids[i]
    decreases |visits|
  {
    if |visits| > 0 {
      var n := |visits| - 1;
      var pre := visits[..n];
      var v := visits[n];
      RunStash(reg, pre);
      var prev := Run(reg, pre);
      var r := Resume(prev.registry, v.container, v.frame);
      var res := Run(reg, visits);
      assert res.ids == prev.ids + [r.id];
      assert res.registry == r.registry;
      forall i | 0 <= i < |visits|
        ensures visits[i].container in res.registry.stash
        ensures res.registry.stash[visits[i].container].id == res.ids[i]
      {
        if i < n {
          assert visits[i] == pre[i];
        }
      }
    }
  }

  /** Over any run from a registry with unique ids, two renders use the
      same id exactly when they draw into the same container. */
  lemma {:induction false} RunIds(reg: Registry, visits: seq<Visit>)
    requires IdsUnique(reg)
    ensures forall i, j :: 0 <= i < |visits| && 0 <= j < |visits| ==>
              (Run(reg, visits).ids[i] == Run(reg, visits).ids[j] <==> visits[i].container == visits[j].container)
  {
    RunStash(reg, visits);
    RunKeepsIdsUnique(reg, visits);
  }

  /** The last render of a run, if it is the first one of its container,
      uses an id above every id used before it. */
  lemma LastFreshIdExceedsEarlier(reg: Registry, visits: seq<Visit>)
    requires IdsUnique(reg)
    requires |visits| > 0 && FirstSeen(reg, visits, |visits| - 1)
    ensures forall i :: 0 <= i < |visits| - 1 ==> Run(reg, visits).ids[i] < Run(reg, visits).ids[|visits| - 1]
  {
    var n := |visits| - 1;
    var pre := visits[..n];
    var v := visits[n];
    RunStash(reg, pre);
    RunKeepsIdsUnique(reg, pre);
    RunKeys(reg, pre);
    var prev := Run(reg, pre);
    assert forall k :: 0 <= k < n ==> pre[k] == visits[k];
    assert v.container !in prev.registry.stash;
    var r := Resume(prev.registry, v.container, v.frame);
    assert Run(reg, visits).ids == prev.ids + [r.id];
    forall i | 0 <= i < n
      ensures prev.ids[i] < r.id
    {
      assert pre[i].container in prev.registry.stash;
    }
  }

  /** Over any run from a registry with unique ids, a container rendered
      for the first time gets an id above every id used before it. */
  lemma {:induction false} RunFreshIdsIncrease(reg: Registry, visits: seq<Visit>)
    requires IdsUnique(reg)
    ensures forall i, j :: 0 <= i < j < |visits| && FirstSeen(reg, visits, j) ==>
              Run(reg, visits).ids[i] < Run(reg, visits).ids[j]
    decreases |visits|
  {
    if |visits| > 0 {
      var n := |visits| - 1;
      var pre := visits[..n];
      RunFreshIdsIncrease(reg, pre);
      var prev := Run(reg, pre);
      var res := Run(reg, visits);
      assert res.ids[..n] == prev.ids;
      forall i, j | 0 <= i < j < |visits| && FirstSeen(reg, visits, j)
        ensures res.ids[i] < res.ids[j]
      {
        if j < n {
          assert FirstSeen(reg, pre, j) by {
            assert forall k :: 0 <= k <= j ==> pre[k] == visits[k];
          }
          assert res.ids[i] == prev.ids[i] && res.ids[j] == prev.ids[j];
        } else {
          LastFreshIdExceedsEarlier(reg, visits);
        }
      }
    }
  }

  /** A run's first `m` renders are a run of their own: they use the same
      ids, and leave a counter no larger than the whole run leaves. */
  lemma {:induction false} RunPrefix(reg: Registry, visits: seq<Visit>, m: nat)
    requires m <= |visits|
    ensures Run(reg, visits[..m]).ids == Run(reg, visits).ids[..m]
    ensures Run(reg, visits[..m]).registry.counter <= Run(reg, visits).registry.counter
    decreases |visits|
  {
    if m < |visits| {
      var pre := visits[..|visits| - 1];
      assert pre[..m] == visits[..m];
      RunPrefix(reg, pre, m);
      assert Run(reg, visits).ids[..|visits| - 1] == Run(reg, pre).ids;
    } else {
      assert visits[..m] == visits;
    }
  }

  /** The first render of a container the registry had not seen uses the
      next value of the counter the renders before it left, and leaves the
      counter at that id. */
  lemma FreshIdIsNextCount(reg: Registry, visits: seq<Visit>, j: nat)
    requires j < |visits| && FirstSeen(reg, visits, j)
    ensures Run(reg, visits).ids[j] == Run(reg, visits[..j]).registry.counter + 1
    ensures Run(reg, visits[..j + 1]).registry.counter == Run(reg, visits).ids[j]
  {
    var pre := visits[..j];
    var upto := visits[..j + 1];
    assert upto[..j] == pre;
    RunKeys(reg, pre);
    assert forall k :: 0 <= k < j ==> pre[k] == visits[k];
    assert visits[j].container !in Run(reg, pre).registry.stash;
    RunPrefix(reg, visits, j + 1);
  }

  /** On any stash, also one whose ids collide, the containers a run
      renders for the first time get strictly increasing ids: they are
      successive values of the run's one counter. */
  lemma FreshIdsIncrease(reg: Registry, visits: seq<Visit>)
    ensures forall i, j :: 0 <= i < j < |visits| && FirstSeen(reg, visits, i) && FirstSeen(reg, visits, j) ==>
              Run(reg, visits).ids[i] < Run(reg, visits).ids[j]
  {
    forall i, j | 0 <= i < j < |visits| && FirstSeen(reg, visits, i) && FirstSeen(reg, visits, j)
      ensures Run(reg, visits).ids[i] < Run(reg, visits).ids[j]
    {
      FreshIdIsNextCount(reg, visits, i);
      FreshIdIsNextCount(reg, visits, j);
      assert visits[..j][..i + 1] == visits[..i + 1];
      RunPrefix(reg, visits[..j], i + 1);
    }
  }

  /** A generator as the source builds it: its options together with an
      id counter of its own. */
  datatype Generator<!S> = Generator(cfg: Config<S>, counter: nat)

  function NewGenerator(): Generator<(int, int)> {
    Generator(InitialConfig(), 0)
  }

  datatype GeneratorOutcome<!S> = GeneratorOutcome(
    render: Render, generator: Generator<S>, stash: map<ContainerId, ChartState>)

  /** A render by generator `g`: the stash lives on the containers and is
      shared by all generators, while the counter is `g`'s own. */
  function DrawByGenerator<S>(g: Generator<S>, stash: map<ContainerId, ChartState>,
                              c: ContainerId, series: seq<S>): (o: GeneratorOutcome<S>)
    ensures o.generator.cfg == g.cfg
    ensures c !in stash ==> o.render.id == g.counter + 1 && o.generator.counter == g.counter + 1
    ensures c in stash ==> o.render.id == stash[c].id && o.generator.counter == g.counter
    ensures o.stash == stash[c := ChartState(o.render.end, o.render.id)]
  {
    var o := Draw(g.cfg, Registry(stash, g.counter), c, series);
    GeneratorOutcome(o.render, g.(counter := o.registry.counter), o.registry.stash)
  }

  /** A generator's render is a render against a registry holding the
      generator's own counter. */
  lemma DrawByGeneratorIsResume<S>(g: Generator<S>, stash: map<ContainerId, ChartState>,
                                   c: ContainerId, series: seq<S>)
    ensures var o := DrawByGenerator(g, stash, c, series);
      var r := Resume(Registry(stash, g.counter), c, LayoutOf(g.cfg, series).frame);
      && o.stash == r.registry.stash
      && o.generator.counter == r.registry.counter
      && o.render.id == r.id
  {
  }

  /** Two generators drawing into two different containers both issue id
      1, so both containers' clip paths get the same element id. */
  lemma TwoGeneratorsCollide(c1: ContainerId, c2: ContainerId,
                             s1: seq<(int, int)>, s2: seq<(int, int)>)
    requires c1 != c2
    ensures var o1 := DrawByGenerator(NewGenerator(), map[], c1, s1);
      var o2 := DrawByGenerator(NewGenerator(), o1.stash, c2, s2);
      && o1.render.id == 1 && o2.render.id == 1
      && o2.stash[c1].id == o2.stash[c2].id
      && !IdsUnique(Registry(o2.stash, o2.generator.counter))
  {
    var o1 := DrawByGenerator(NewGenerator(), map[], c1, s1);
    var o2 := DrawByGenerator(NewGenerator(), o1.stash, c2, s2);
    assert c1 in o2.stash && c2 in o2.stash;
  }

  /** The three-sample example: samples `(0, 1), (1, -2), (2, 3)`, one
      band, width 100, height 40, offset mode. */
  lemma ThreeSampleExample()
    ensures var l := LayoutOf(SetWidth(InitialConfig(), 100), [(0, 1), (1, -2), (2, 3)]);
      && l.frame.x == Linear((Fin(0), Fin(2)), (0, 100))
      && l.frame.y == Linear((Fin(0), Fin(3)), (0, 40))
      && l.keys == [-1, 1]
      && Apply(l.frame.t, -1) == Transform(false, -40)
      && Apply(l.frame.t, 1) == Transform(false, 0)
  {
    var cfg := SetWidth(InitialConfig(), 100);
    var data := Points([(0, 1), (1, -2), (2, 3)], cfg.x, cfg.y);
    assert data == [Point(0, 1), Point(1, -2), Point(2, 3)];
    assert data[..2] == [Point(0, 1), Point(1, -2)];
    assert data[..2][..1] == [Point(0, 1)];
    assert data[..2][..1][..0] == [];
    assert Measure(data[..2][..1]) == Extents(Fin(0), Fin(0), Fin(1));
    assert Measure(data[..2]) == Extents(Fin(0), Fin(1), Fin(2));
    assert Measure(data) == Extents(Fin(0), Fin(2), Fin(3));
    assert BandKeys(1) == [-1, 1];
  }
}
