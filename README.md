# CAE beam visualiser — a Dafny model

The CAE visualiser is a small web application. It computes the bending stress in a
simply supported rectangular beam that carries a point load at mid-span, and it
draws the stressed beam on an HTML canvas. This project models the two halves of
its core:

- **The back end's calculation** (`SimulationService.simulate`). A payload (length,
  width, height, load in kg, yield strength) becomes a load force (`kg * 9.81`), the
  maximum bending moment (`F L / 4`), the section modulus (`w h² / 6`), the peak stress
  `M / Z`, the safety flag `maxStress <= yield`, and a 101-point tent-shaped stress
  distribution. That distribution is built by a loop over `i = 0 .. 100`.
- **The front end's rendering logic** (`script.js`). This covers:
  - the green → yellow → red hue ramp (`getColorForRatio`);
  - the cosmetic parabolic sag (`getDeflection`);
  - the clamped display aspect ratio and the beam's placement on the canvas;
  - the strip-by-strip drawing loop of `drawSimulation`;
  - the 40-pixel grid (`drawGrid`);
  - the idle picture (`drawInitialSetup`);
  - the page state: the cached `window.latestResult` and the simulate button's
    disabled flag, as updated by `resizeCanvas` and the form's submit handler.

Every canvas drawing is modelled as the geometry it would stroke or fill, not as API
calls. A `Scene` value holds the grid lines, the beam rectangle, the gradient strips
(their x-extent, their top-edge sag at both ends and the colour stops), the support
points, the label anchors and the arrow tip. The methods that model the source's
loops (`Simulate`, `DrawSegments`, `DrawGrid`) are proved equal to a specification
function. Lemmas then prove the properties about those functions.

Modules, one per concern:

| file | module | models |
|---|---|---|
| `model.dfy` | `Model` | the payload and result records, `Option` |
| `simulation_service.dfy` | `SimulationService` | `SimulationService.simulate` |
| `colours.dfy` | `Colours` | `getColorForRatio` |
| `geometry.dfy` | `Geometry` | `getDeflection`, aspect clamp, beam layouts, support points |
| `segments.dfy` | `Segments` | the gradient-strip loop of `drawSimulation` |
| `grid.dfy` | `Grid` | `drawGrid` |
| `scenes.dfy` | `Scenes` | `drawInitialSetup`, `drawSimulation` |
| `viewer.dfy` | `Viewer` | `window.latestResult`, `resizeCanvas`, the submit handler |

Numbers are Dafny `real`s, which are exact; the lines under "## Left out" that start
with `SimulationService.Simulate`, `Segments.SegmentsTile` and `Geometry.SimulationLayout`
name the facts that hold exactly here but only up to rounding in IEEE doubles.

**Where the code does something other than its comments or names suggest, the model follows the code:**

- The comment on `getDeflection` (script.js:213) speaks of a 20-pixel maximum. The code
  multiplies by 30, so `MaxDeflectionPixels` is 30.
- The stress ratio is clamped only from above (`Math.min(…, 1)`, script.js:162-163). A
  stress of the opposite sign to the yield strength gives a negative ratio, a hue above
  142 (`Colours.Hue`) and an upward bow (`Geometry.DeflectionBoundsNegative`).
- The load arrow samples the sag at index `N / 2` (script.js:208), not at the middle
  index `(N - 1) / 2`. `Scenes.ArrowSagSample` states the resulting offset exactly. At
  N = 101 and a ratio of 1 the tip sits 0.003 pixels above the parabola's deepest point.

## Model

| member | source | states |
|---|---|---|
| `SimulationService.Simulate` | src/main/java/com/cae/visualizer/service/SimulationService.java:15-56 | The loop that builds the result. The result's peak stress is M / Z of the payload; `safe` holds exactly when the peak is at most the yield strength; the distribution is the 101-point tent. The method's own contract also gives the zero ends, the peak at index 50, the mirror symmetry and the bounds [0, max] for non-negative stress |
| `SimulationService.MaxStressClosedForm` | src/main/java/com/cae/visualizer/service/SimulationService.java:23-32 | The peak stress equals the textbook closed form 1.5 · F · L / (w · h²), with F = 9.81 · kg |
| `SimulationService.StressAtTent` | src/main/java/com/cae/visualizer/service/SimulationService.java:43-51 | Both branches of the loop body together form one tent: sample i has stress max · d / 50, where d is i's distance in samples from the nearer support |
| `SimulationService.Distribution` | src/main/java/com/cae/visualizer/service/SimulationService.java:40-53 | The distribution has segments + 1 = 101 samples |
| `SimulationService.DistributionEndpoints` | src/main/java/com/cae/visualizer/service/SimulationService.java:42-51 | The stress is 0 at both supports (samples 0 and 100) and equals the peak stress at mid-span (sample 50) |
| `SimulationService.DistributionSymmetric` | src/main/java/com/cae/visualizer/service/SimulationService.java:42-51 | Sample i and sample 100 − i carry the same stress |
| `SimulationService.DistributionMonotoneHalves` | src/main/java/com/cae/visualizer/service/SimulationService.java:45-51 | For a non-negative peak the stress does not decrease over the left half and does not increase over the right half |
| `SimulationService.DistributionBounds` | src/main/java/com/cae/visualizer/service/SimulationService.java:45-51 | Every sample lies between 0 and the peak stress, for either sign of the peak |
| `SimulationService.DistributionMaximum` | src/main/java/com/cae/visualizer/service/SimulationService.java:32-53 | For a non-negative peak, the peak stress is an element of the distribution and no element exceeds it, so the reported maxStress is the distribution's maximum |
| `Colours.Hue` | src/main/resources/static/script.js:227-238 | Ratios below 0.5 give hues above yellow (45); ratios of 0.5 or more give hues at most 45; ratios in [0, 1] give hues in [0, 142]; no ratio up to 1 goes below red; negative ratios go beyond green |
| `Colours.ColourForRatio` | src/main/resources/static/script.js:240 | The colour always has saturation 84% and lightness 55%. Its hue is above yellow exactly when the ratio is below 0.5, and lies in [0, 142] for ratios in [0, 1] |
| `Colours.HueAnchors` | src/main/resources/static/script.js:227-238 | Ratio 0 is green (142), 0.5 is yellow (45), 1 is red (0) |
| `Colours.BranchesMeet` | src/main/resources/static/script.js:228-238 | Both branches give yellow at 0.5, so the ramp has no jump where it switches branch |
| `Colours.BranchesAffine` | src/main/resources/static/script.js:231-237 | Each branch maps an interpolated ratio to the interpolated hue, so each branch is a linear interpolation |
| `Colours.HueStrictlyDecreasing` | src/main/resources/static/script.js:227-238 | A larger ratio always gives a strictly smaller hue, across both branches |
| `Colours.HueLipschitz` | src/main/resources/static/script.js:227-238 | Hues of two ratios differ by at most 194 times the ratios' difference, so the ramp is continuous |
| `Geometry.Deflection` | src/main/resources/static/script.js:212-220 | getDeflection. A zero ratio gives no sag; the first and the last sample have no sag; the middle index (total − 1) / 2 sags the full 30 · ratio pixels |
| `Geometry.DeflectionAtEnds` | src/main/resources/static/script.js:212-220 | The sag is 0 at the first and the last sample, so the beam meets its supports |
| `Geometry.DeflectionAtCentre` | src/main/resources/static/script.js:212-220 | At the middle index (total − 1) / 2 the sag is the full 30 · ratio pixels |
| `Geometry.DeflectionSymmetric` | src/main/resources/static/script.js:212-220 | Index i and index (total − 1) − i sag equally |
| `Geometry.DeflectionBounds` | src/main/resources/static/script.js:212-220 | Along the beam and for a non-negative ratio, the sag lies in [0, 30 · ratio] |
| `Geometry.DeflectionBoundsNegative` | src/main/resources/static/script.js:212-220 | For a negative ratio the sag lies in [30 · ratio, 0]: the beam bows upwards |
| `Geometry.SupportPoints` | src/main/resources/static/script.js:125-126 | The two supports sit at the beam's bottom edge, one at startX and one beamW to its right |
| `Geometry.DisplayAspect` | src/main/resources/static/script.js:141-143 | The display aspect is always in [5, 40]; it equals the beam's own length/height inside that range, 5 below it and 40 above it |
| `Geometry.DisplayAspectIdempotent` | src/main/resources/static/script.js:143 | Clamping an already clamped aspect changes nothing |
| `Geometry.SimulationLayout` | src/main/resources/static/script.js:141-148 | The simulated beam is 80% of the canvas width. Its width is its height times the display aspect. It is centred on the canvas, and its height lies between width/40 and width/5 |
| `Geometry.IdleLayout` | src/main/resources/static/script.js:112-115 | The idle beam is 70% of the canvas width, 40 pixels tall and centred on the canvas |
| `Geometry.LayoutsInsideCanvas` | src/main/resources/static/script.js:112-148 | On a canvas of non-negative width, both beams lie horizontally inside the canvas |
| `Segments.Ratio` | src/main/resources/static/script.js:162-163 | The colour/sag ratio never exceeds 1. It is stress/yield itself unless that exceeds 1, in which case it is 1 |
| `Segments.SegmentAt` | src/main/resources/static/script.js:157-178 | One loop iteration's strip. Both colour stops have a hue of at least 0 (red). A sample with zero stress gives a green stop and no sag at its edge |
| `Segments.SegmentsOf` | src/main/resources/static/script.js:152-187 | A distribution of N ≥ 2 samples gives N − 1 strips; a shorter one gives none |
| `Segments.SegmentsTile` | src/main/resources/static/script.js:152-184 | The strips tile the beam: the first starts at startX, the last ends at startX + beamW, adjacent strips share their edge, and every strip is beamW / (N − 1) wide. Adjacent strips also agree on sag and colour at their shared edge |
| `Segments.SegmentsRestOnSupports` | src/main/resources/static/script.js:177-178 | The first strip's left sag and the last strip's right sag are 0 |
| `Segments.SegmentBounds` | src/main/resources/static/script.js:162-178 | Every colour stop has a hue of at least 0 (red). When stresses and yield give non-negative ratios, every hue is at most 142 and every sag is in [0, 30] |
| `Segments.ThreeSampleAnchors` | src/main/resources/static/script.js:156-166 | The distribution [0, yield/2, yield] gives two strips whose colour stops are green→yellow and yellow→red |
| `Segments.Quad` | src/main/resources/static/script.js:180-185 | The four corners in moveTo/lineTo order. The left edge is at the strip's x0 and the right edge at its x1; both edges are exactly beamH tall |
| `Segments.QuadsJoin` | src/main/resources/static/script.js:180-185 | The filled quadrilaterals join up: each strip's right corners are the next strip's left corners. The first strip's bottom-left and the last strip's bottom-right corners are the support points |
| `Segments.DrawSegments` | src/main/resources/static/script.js:152-187 | The strip loop produces exactly the strips of the specification, tiling the beam with equal widths, agreeing at shared edges and with zero sag at both ends |
| `Grid.GridCountExact` | src/main/resources/static/script.js:301-308 | The number of lines per direction is exact: none for a negative extent; otherwise the last line lies within the extent and one more step would pass it |
| `Grid.GridOf` | src/main/resources/static/script.js:301-308 | GridCount(w) vertical lines spanning the full height, then GridCount(h) horizontal lines spanning the full width |
| `Grid.GridInsideCanvas` | src/main/resources/static/script.js:295-310 | Every grid line starts and ends inside the w × h canvas |
| `Grid.DrawGrid` | src/main/resources/static/script.js:295-310 | The two stepping loops stroke exactly the vertical lines at x = 0, 40, … ≤ w, followed by the horizontal lines at y = 0, 40, … ≤ h |
| `Scenes.IdleSceneShape` | src/main/resources/static/script.js:105-130 | The idle scene's beam is 70% wide, 40 pixels tall and centred, with the two supports under its bottom corners |
| `Scenes.SimulationSceneShape` | src/main/resources/static/script.js:132-210 | With at least two samples the beam is centred and has N − 1 strips that tile it; the quadrilaterals meet the supports; the length label and the arrow lie on the beam's vertical centre line |
| `Scenes.ArrowSagSample` | src/main/resources/static/script.js:208 | The arrow's sag sample at index N/2 equals 30 · ratio · (1 − 1/(N − 1)²), slightly short of the parabola's full depth |
| `Scenes.ArrowTip` | src/main/resources/static/script.js:208-209 | The arrow tip exists exactly when the distribution does not have a single sample. It is centred horizontally on the canvas. With N ≥ 2 samples it sits 20 pixels above startY + 30 · ratio · (1 − 1/(N − 1)²) |
| `Scenes.DrawInitialSetup` | src/main/resources/static/script.js:105-130 | drawInitialSetup yields the idle scene: a centred beam 70% of the canvas width |
| `Scenes.DrawSimulation` | src/main/resources/static/script.js:132-210 | drawSimulation yields the simulation scene of the cached result: a centred beam whose strips (one per pair of consecutive samples) tile it and agree at shared edges |
| `Scenes.ServiceResultRenders` | src/main/java/com/cae/visualizer/service/SimulationService.java:40-55 | A service result drawn for the payload that produced it has 100 strips. For a non-negative peak and a positive yield strength, every colour stop lies between red and green and every sag lies in [0, 30] |
| `Viewer.Page.constructor` | src/main/resources/static/script.js:22 | At page load no result is cached and the button is enabled |
| `Viewer.Page.ResizeCanvas` | src/main/resources/static/script.js:13-27 | A redraw shows the idle scene exactly when no result is cached, and otherwise the simulation scene of the cached result |
| `Viewer.Page.BeginSubmit` | src/main/resources/static/script.js:36-39 | Submitting disables the button and leaves the cache unchanged |
| `Viewer.Page.CompleteSubmit` | src/main/resources/static/script.js:60-86 | On success the cache becomes exactly { data, payload } and the matching simulation scene is drawn. On failure the cache is unchanged and nothing is drawn. Either way the button is enabled again, and once a result is cached it stays cached |

## Left out

- `SimulationService.Simulate`: requires a non-zero section modulus (`Finite`). Java's IEEE
  doubles would give an infinite or NaN peak stress; reals have no such values.
- `SimulationService.Simulate`: IEEE rounding is not modelled. `i / 100` and
  `(1 - r) / 0.5` are exact here, so the symmetry of the distribution holds exactly; in
  doubles samples i and 100 − i can differ in the last bit. The ends and the centre
  value are exact in doubles as well.
- `Segments.SegmentsTile`: the strips' edges `startX + i * segLen` are exact here, so the
  last strip ends at exactly `startX + beamW` and every strip has exactly the same width.
  In doubles both hold only up to rounding; on some canvas widths `startX + 100 * segLen`
  differs from `startX + beamW` in the last bit. `Segments.DrawSegments` and
  `Scenes.SimulationSceneShape` inherit this.
- `Geometry.SimulationLayout`: the beam is exactly centred here (`startX * 2 + beamW == cw`);
  in doubles `(cw - beamW) / 2` and `ch / 2 - beamH / 2` are rounded, so the centring
  holds only up to rounding. `Geometry.IdleLayout` is the same.
- Paint order is not modelled. The order of a `Scene`'s fields means nothing: in the
  source `drawInitialSetup` strokes the grid after the beam (script.js:129) and
  `drawSimulation` strokes it first (script.js:138), fills the strips (script.js:156-187)
  before stroking the outline (script.js:192), and draws the labels (script.js:198, 200)
  before the supports (script.js:203-204).
- `Geometry.Deflection`: requires `total != 1`, because `total - 1` is a divisor. The strip
  loop never calls it with one sample. The arrow does: in JavaScript `getDeflection(0.5, 1, r)`
  is −Infinity for r > 0, +Infinity for r < 0 and NaN for r = 0, so the arrow is not
  drawn at a finite point. `Scenes.ArrowTip` gives no point instead.
- `Segments.Ratio`: requires a non-zero yield strength. In JavaScript a yield strength of 0
  makes positive stresses `Math.min(Infinity, 1) = 1` (a finite red stop) and zero
  stresses 0/0 = NaN. The service's distribution always starts and ends with a zero
  sample, so strip 0 gets the colour `hsl(NaN, 84%, 55%)`. `addColorStop` (script.js:169)
  then throws. The model excludes that input.
- `Scenes.DrawSimulation`: requires `Renderable`, i.e. a non-zero beam height and a
  non-zero yield strength. Yield 0 throws as just described. With height 0 and a
  non-zero length, JavaScript's infinite `baseAspect` is clamped to 40 (positive length)
  or 5 (negative length), so the layout is finite and the picture is drawn. With height
  and length both 0, the aspect and beam height are NaN. The model does not model
  infinite or NaN values and excludes height 0 altogether.
- `Viewer.Page.CompleteSubmit`: requires the payload of a successful response to be
  `Renderable`; a failed response needs nothing. The excluded case behaves differently
  in the source. Take a success with yield strength 0. The callback sets
  `window.latestResult` (script.js:71), then `drawSimulation` throws (script.js:72), so
  lines 75-77 never run. The button stays disabled, and every later `resizeCanvas`
  (script.js:25) redraws the cached result and throws again. The model promises
  "the button is enabled again" only for the inputs it admits.
- `Viewer.Page.CompleteSubmit`: the 600 ms `setTimeout` before the success branch runs
  is not modelled. A success is applied in one step. Two submits whose requests
  overlap are not modelled either (the button is disabled in the meantime).
- `drawSupport` and `drawLoadArrow`: only where they are anchored (support points, arrow
  tip) is modelled. Their triangle and arrow strokes are canvas styling.
- `updateUI`, the `toFixed` formatting, the status text, button text and loader: these
  are DOM text with no logic beyond the `safe` flag, which `SimulationService.Simulate` covers.
- Label strings (`L = …m`, `F = … kg`): only their anchor points are modelled.
- Fill and stroke colours, line widths, fonts and the beam outline: canvas styling.
- `devicePixelRatio`, the backing-store size and `ctx.scale`: the model works in CSS
  pixels throughout.
- `fetch`, JSON (de)serialisation, `parseFloat` of the form fields, `alert` and `console`:
  I/O. A request's outcome is the `Response` parameter of `CompleteSubmit`.
- The initial `setTimeout(resizeCanvas, 100)` and the resize listener: they only decide
  when `ResizeCanvas` runs.
- `SimulationController` (the HTTP endpoint) and the Java getters and setters of the
  payload and result classes: plumbing around `simulate`.
