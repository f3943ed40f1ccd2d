# d3-horizon layout, modelled in Dafny

A horizon chart folds a time series into a few stacked, colour-coded
bands of fixed height. The `horizon` generator of d3-horizon is configured
through accessor functions. Calling it renders each container's series and
remembers the container's scales so that the next render can animate from
them. This project models the arithmetic and the state of that generator:

- `Extent` covers the single pass that extracts `[x, y]` points and tracks
  `xMin`, `xMax` and `yMax = max |y|`. Like the source, it starts from
  infinite sentinels, so an empty series is modelled too.
- `Bands` covers the band keys `-1 … -bands, 1 … bands`. They are built
  with d3-array's `range`, which is modelled as a function.
- `Folding` covers the fold transform of each band. Offset mode gives a
  staircase; mirror mode (any mode string other than `"offset"`) gives a
  reflection. It also covers where each transform puts the band's slice
  of the area.
- `Settings` covers the configuration record, its getters and setters,
  and the coupling of the colour domain to the band count.
- `Horizon` covers a render:
  - `LayoutOf` computes the points, keys, new scales and transform.
  - `Resume` is the per-container state machine: it reads the stash, draws
    a fresh id from the counter on a first render, and overwrites the
    stash.
  - `Draw` composes the two.
  - `Run` performs a sequence of renders, and its lemmas cover ids across
    renders.

Scales are records of domain and range endpoints and are never evaluated.
A transform is the pair `(flip, ty)`, standing for `scale(1,-1)` followed
by `translate(0,ty)`. The per-container `__chart__` slot is a
`map<ContainerId, ChartState>`.

In three places the code behaves differently from what a reader might
expect, and the model follows the code:

- The id counter `d3_horizonId` is declared inside the generator factory
  (`src/horizon.js:179`), so each generator counts separately. It is not
  one process-wide counter. See Findings.
- The `bands` setter accepts any number, including 0. It does not reject
  or clamp counts below 1. With `bands = 0` no band key is produced.
- The mode is any string. Only the exact string `"offset"` selects the
  staircase; every other string folds as mirror.

## Model

| member | source | states |
|---|---|---|
| Extent.ExtentPass | src/horizon.js:34-42 | The pass returns one point per sample, in order, where point `i` is `[x(d[i], i), y(d[i], i)]`. An empty series leaves `xMin = +∞`, `xMax = −∞`, `yMax = −∞`. Otherwise `xMin ≤ x ≤ xMax` for every point, both bounds are attained, and `yMax` is the largest `\|y\|` (so it is ≥ 0). |
| Extent.MeasureIsExact | src/horizon.js:25-42 | Folding the four comparisons over the points leaves the sentinels on empty input. On non-empty input it yields finite extents that enclose every point and are each attained. |
| Bands.UnitRange | src/horizon.js:88 | `range(a, b)` counts up from `a` to just below `b`, and `range(a, b, -1)` counts down from `a` to just above `b`. Each is empty when the interval is. |
| Bands.BandKeys | src/horizon.js:88 | There are exactly `2·bands` keys. Position `i < bands` holds `-(i+1)` and position `bands + i` holds `i+1`: the negatives come first, weakest to strongest, then the positives. |
| Bands.BandKeysExact | src/horizon.js:88 | A number is a key iff it is non-zero and lies in `[-bands, bands]`. There are no duplicates and 0 is never a key; `bands = 0` gives no keys. |
| Folding.HorizonTransform | src/horizon.js:184-188 | The staircase is chosen iff the mode is exactly `"offset"`. Any other string gives mirror. The band count and height are those of the render. |
| Folding.Apply | src/horizon.js:184-188 | The per-band transform. Only mirror mode reflects, and only negative bands. A positive band is shifted by `(d − bands)·h` in both modes, and so is a negative band in mirror mode. A negative band in offset mode is shifted one band height higher, by `(d + 1 − bands)·h`. |
| Folding.OffsetStaircase | src/horizon.js:185-186 | In offset mode no band is flipped. The set of shifts over all keys is exactly `{k·h : −(2·bands−1) ≤ k ≤ 0}`, and for `h > 0` no two bands share a shift. |
| Folding.MirrorFold | src/horizon.js:184-187 | For any mode other than `"offset"`, band `d` is flipped iff `d < 0` and is shifted by `(d − bands)·h`. Positive bands therefore shift into `[−(bands−1)·h, 0]`. |
| Folding.BandSliceFillsClip | src/horizon.js:184-188 | In both modes, the band's slice of the area (baseline at `bands·h`) lands exactly on the clip height `[0, h]`. In mirror mode and for positive bands, the edge nearer the baseline goes to the bottom. Offset mode hangs negative bands from the top. |
| Settings.InitialConfig | src/horizon.js:8-19 | A new generator has one band, mode `"offset"`, width 960, height 40, no defined predicate, and accessors reading `[x, y]` pairs. Its colour domain is already coupled to the band count: `[-1, 0, 1]`. |
| Settings.SetBands | src/horizon.js:124-129 | After `bands(n)` the getter returns `n` and the colour domain is `[-n, 0, n]`. The colour range and every other option are unchanged. |
| Settings.SetMode | src/horizon.js:131-135 | The getter returns the new mode. Only the mode changes, and the colour/band coupling is preserved. |
| Settings.SetColors | src/horizon.js:137-141 | The getter returns the new colour range. The colour domain and every other option are unchanged. |
| Settings.SetX | src/horizon.js:143-147 | The x accessor is replaced and nothing else changes. |
| Settings.SetY | src/horizon.js:149-153 | The y accessor is replaced and nothing else changes. |
| Settings.SetWidth | src/horizon.js:155-159 | The getter returns the new width and nothing else changes. |
| Settings.SetHeight | src/horizon.js:161-165 | The getter returns the new height and nothing else changes. |
| Settings.SetDefined | src/horizon.js:167-171 | The defined predicate is replaced or cleared, and nothing else changes. |
| Settings.SetCurve | src/horizon.js:173-177 | The area generator's own curve (`d3area.curve()`, read here by `CurveOf`) becomes the curve that was set, and nothing else changes. The getter as written does not return it; that is `CurveGetterAsWritten`. |
| Settings.CurveGetterAsWritten | src/horizon.js:174 | The curve getter never hands back a curve value. |
| Settings.CurveGetterLosesSetting | src/horizon.js:173-177 | After `curve(v)`, the getter as written does not return `v`, whereas the intended reading does. |
| Horizon.LayoutOf | src/horizon.js:34-47 | One point per sample, in order. The keys are the band keys of the configured count, and the new transform is the fold of the configured count, height and mode. |
| Horizon.DrawIsResume | src/horizon.js:45-60 | A render's registry, start frame and id are exactly those of resuming the container towards the layout's frame, so the lemmas about runs of visits cover real renders. |
| Horizon.NewScalesFitData | src/horizon.js:45-46 | The x-range is `[0, width]` and the y-range is `[0, height·bands]`. On a non-empty series the x-domain is `[xMin, xMax]` and the y-domain is `[0, yMax]`, with every point inside them and `xMin`, `xMax` and `yMax` each attained. On an empty series the domains keep their infinite sentinels. |
| Horizon.Resume | src/horizon.js:50-60 | On a first render the old frame equals the new one, the id is counter+1 and the counter advances. Otherwise the old frame and the id come from the stash and the counter is unchanged. Either way the stash holds the new frame and the id for `c`, and every other container is untouched. |
| Horizon.Draw | src/horizon.js:34-120 | A render's points and end frame (`x1`, `y1`, `t1`) are the layout of the series under the options, and its keys are the band keys. A first render starts its transition from its own end state with a fresh id. Later renders start from the stashed frame and keep the id. The stash is overwritten with `{x1, y1, t1, id}`. |
| Horizon.ResumeKeepsIds | src/horizon.js:50-60 | A render never changes the id of a container stashed before, even when the stash holds colliding ids. |
| Horizon.ResumeKeepsIdsUnique | src/horizon.js:50-60 | With unique ids already issued, a render keeps ids unique, and a new container's id exceeds every existing one. |
| Horizon.RedrawIsIdempotent | src/horizon.js:45-60 | Re-rendering the same series with the same options rebuilds the same frame and id. It starts from the previous end state and leaves the same registry. |
| Horizon.RunKeys | src/horizon.js:120 | After a run the stash holds exactly the earlier containers plus those drawn into. |
| Horizon.Run | src/horizon.js:50-60 | A sequence of renders against one registry whose counter every render shares. For the renders of one generator this is the code as written, since each is a resume on that generator's counter (`DrawByGeneratorIsResume`). Only renders by different generators need the one-counter reading of line 179. Each render uses one id, and the counter never goes back; the lemmas below state which ids are used. |
| Horizon.RunKeepsIds | src/horizon.js:50-60 | Over any run, containers stashed earlier stay stashed and keep their ids, even when the stash holds colliding ids. |
| Horizon.RunKeepsIdsUnique | src/horizon.js:50-60 | Over any run from unique ids, ids stay unique. |
| Horizon.RunStash | src/horizon.js:50-120 | After a run every container drawn into is stashed under the id its renders used, even when the stash holds colliding ids. |
| Horizon.RunIds | src/horizon.js:54-59 | With one counter shared by all renders, two renders use the same id iff they draw into the same container. |
| Horizon.LastFreshIdExceedsEarlier | src/horizon.js:55-60 | From unique ids, when the last render of a run is a container's first, its id exceeds every id used before it. |
| Horizon.RunPrefix | src/horizon.js:50-60 | The first `m` renders of a run use the same ids as a run of just those renders, and the counter only grows after them. |
| Horizon.FreshIdIsNextCount | src/horizon.js:55-59 | A container's first render uses the next value of the counter left by the renders before it, and leaves the counter at that id. |
| Horizon.FreshIdsIncrease | src/horizon.js:55-60 | On any stash, also one whose ids collide, containers rendered for the first time get strictly increasing ids. |
| Horizon.RunFreshIdsIncrease | src/horizon.js:55-60 | From unique ids, a container rendered for the first time gets an id above every id used before it, whether fresh or read from the stash. |
| Horizon.DrawByGenerator | src/horizon.js:179 | A generator draws first-render ids from its own counter, while the stash is shared between generators. |
| Horizon.DrawByGeneratorIsResume | src/horizon.js:50-60 | A generator's render updates the shared stash, its own counter and the id exactly as resuming a registry that holds that counter. |
| Horizon.TwoGeneratorsCollide | src/horizon.js:179 | Two new generators rendering two different containers both issue id 1, so ids are no longer unique. |
| Horizon.ThreeSampleExample | src/horizon.js:34-47 | Take samples `(0,1), (1,-2), (2,3)` with one band, width 100, height 40 and offset mode. The x-scale is `[0,2]→[0,100]`, the y-scale is `[0,3]→[0,40]`, the keys are `[-1, 1]`, and the shifts are −40 and 0. |

## Left out

- Selections, the keyed data join (enter/update/exit), and `defs`/`clipPath`/`rect` creation and attributes are not modelled. They are DOM plumbing. Only the band keys and the id are modelled.
- Transitions are not modelled. They are asynchronous and driven by an external library.
- Area path generation is not modelled. This covers the baseline and top-edge functions, the `defined` wrapper installed on the shared area generator, and the curve. These are a foreign call producing strings.
- Colour interpolation and scale evaluation are not modelled. Scales are kept as endpoint records.
- Numbers are integers. Fractional values, NaN and the `+_` coercion of the `bands`, `width` and `height` setters are not modelled; counts and sizes are naturals.
- The string form of transforms is not modelled. `translate(0,…)` and `scale(1,-1)` are kept as a `(flip, ty)` record.
- Containers are modelled as natural-number identities. The `__chart__` slot is modelled as a map, and its truthiness test as key membership.
- Settings.InitialConfig: the default accessors are modelled only for `[x, y]` pair samples, because the model fixes the sample type. Samples of any other type need their accessors set first.
- Horizon.Run: a run is modelled as the sequence of frames the renders end at, because ids and which containers are stashed do not depend on the data. The stashed frame depends on the data only through the frame each visit carries.

## Findings

| source | as written | input that shows it | evidently intended | confidence | as-written member | corrected member |
|---|---|---|---|---|---|---|
| src/horizon.js:179 | The id counter is declared inside the generator factory, so every generator counts from 0. | Two generators each render a different new container. Both get id 1, so both clip paths are `d3_horizon_clip1`. | One counter shared by all renders, so no two containers share an id | medium, not executed | Horizon.TwoGeneratorsCollide | Horizon.RunIds |
| src/horizon.js:174 | The curve getter returns `d3area.curve`, which is the area's accessor method. | `curve(c)` followed by `curve()` returns that method, not `c`. | Return `d3area.curve()`, the curve itself | high, not executed | Settings.CurveGetterLosesSetting | Settings.SetCurve |
