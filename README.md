# Music-and-mental-health survey charts: the data pipeline

Two near-identical pages (`Homework2/nigomez/main.js` and
`Homework3/nigomez/main.js`) load a survey CSV and draw three charts. This
project models what they compute before and around the drawing:

- **Normalisation** (`Survey`): each loaded row is rewritten in place. The six
  numeric columns (hours per day, anxiety, depression, insomnia, OCD, age)
  become numbers when their text is truthy, NaN otherwise. The three
  categorical columns (primary streaming service, music effects, favourite
  genre) keep their text when it is truthy and become `"Unknown"` otherwise.
  Cells are a dynamic `Value` so that the rewrite can happen in the same array
  slots, as the source's `forEach` does; `ToRecord` then reads a normalised row
  as a typed `Record` with `Option<real>` numbers.
- **Views** (`Views`): the scatter view (rows with hours and anxiety), the donut
  view (rows counted per streaming service, groups in first-seen order), and
  the parallel-coordinates view (rows with all five dimensions, projected to
  seven fields). The parallel view is cut to 200 lines: Homework3 keeps the
  first 200, Homework2 shuffles a copy of the view in place (a Fisher-Yates
  loop over an array, as `d3.shuffle` does) and keeps the first 200 of the
  result.
- **Scales** (`Scales`): each parallel axis's Y domain, and the scatter
  plot's colour table and legend.
- **Brushing** (`Brushing`): the visibility test of a line against the active
  brush selections, and the loop that writes each line's display flag.
- **Interaction** (`Interaction`, Homework3 only): the pulse flag and the three
  zoom flags flipped by clicks, the zoom scale each click asks for, and the
  pulse radius and duration derived from a circle's anxiety.
- **Pipeline** (`Pipeline`): one method per page chaining the above.

The two pages run the same code for normalisation (Homework2 lines 28-38,
Homework3 lines 29-39), the scatter and parallel views (41, 53-67 / 42,
57-71), the Y domains (291-298 / 402-409) and the brush test (374-390 /
493-509). They compute the same donut groups with different d3 APIs:
Homework2 uses `d3.nest().key(...).rollup(...).entries(...)` (lines 45-49),
Homework3 uses `Array.from(d3.rollup(...))` (lines 46-53); both list the
groups in order of first appearance, which `Views.Tally` models once. The
table below cites one of the two pages for each shared member.

Numeric parsing (`Number(text)`) is the parameter `parse: string -> Option<real>`,
with `None` for NaN. Random numbers for the shuffle are the parameter `draws`,
each in [0, 1).

## Model

| member | source | states |
|---|---|---|
| Survey.NumericField | Homework3/nigomez/main.js:30-35 | a numeric column always becomes a number cell, and NaN whenever its old value is falsy |
| Survey.CategoricalField | Homework3/nigomez/main.js:36-38 | a categorical column is never falsy afterwards, and a truthy value is kept unchanged |
| Survey.NormalizeRowSpec | Homework2/nigomez/main.js:28-38 | a loaded row normalises to a typed record whose numbers are missing when the raw text is empty or absent and are otherwise `Number`'s reading of the text (so "0" is kept, and text it cannot read is missing too), and whose categories are the raw text or "Unknown", never empty |
| Survey.NormalizeRows | Homework3/nigomez/main.js:29-39 | every row is rewritten in place by the per-row normalisation, keeping count and order; loaded rows all end up normalised |
| Views.ScatterViewSpec | Homework3/nigomez/main.js:42 | the scatter view holds exactly the rows with hours and anxiety present, each as often as in the input, as an order-preserving subsequence |
| Views.TallyKeys | Homework3/nigomez/main.js:46-53 | the groups' keys are the distinct keys in order of first appearance |
| Views.TallyCounts | Homework2/nigomez/main.js:45-49 | group keys are distinct, cover exactly the keys seen, and each count is the number of rows with that key, at least one |
| Views.TallyTotal | Homework3/nigomez/main.js:47-51 | the group counts add up to the number of rows |
| Views.DonutViewSpec | Homework3/nigomez/main.js:46-53 | on the rows: one entry per distinct streaming service, in first-seen order, counting its rows (at least one), counts summing to the row count |
| Views.ParallelView | Homework2/nigomez/main.js:53-67 | the view has one line per row with all five dimensions present |
| Views.ParallelViewSpec | Homework3/nigomez/main.js:57-71 | a line is in the view exactly when it projects a row with all five dimensions present; the kept rows are an order-preserving subsequence and each line copies its row's seven fields |
| Views.FirstSample | Homework3/nigomez/main.js:416-417 | the Homework3 sample is the first min(n, 200) lines of the view, in order |
| Views.DrawIndex | Homework2/nigomez/main.js:306 | a random draw in [0, 1) scaled by m picks an index below m |
| Views.Shuffle | Homework2/nigomez/main.js:306 | the in-place shuffle leaves the array a permutation of what it was |
| Views.ShuffledSample | Homework2/nigomez/main.js:305-306 | the Homework2 sample has min(n, 200) lines and holds no line more often than the view does |
| Scales.MaxOf | Homework3/nigomez/main.js:405 | the maximum is undefined exactly for no values, and otherwise is one of the values and bounds all of them |
| Scales.YDomain | Homework3/nigomez/main.js:402-409 | every axis starts at 0; hours per day ends at the largest hours value of the parallel view (undefined when it is empty), the other four axes end at 10 |
| Scales.Lookup | Homework2/nigomez/main.js:134-136 | only listed categories get a colour; for a domain without repeated keys (d3's ordinal scale drops repeats, and the scatter table has none) a listed category gets the colour at its position |
| Scales.ScatterColorTable | Homework2/nigomez/main.js:134-136 | Improve, No effect, Worsen and Unknown map to #4CAF50, #FFC107, #F44336 and #B0BEC5, and only these four have a colour |
| Scales.ScatterLegendSpec | Homework2/nigomez/main.js:172 | the legend lists the first three categories, not "Unknown" although it has a colour, and each listed one has a colour |
| Brushing.ActiveAmong | Homework2/nigomez/main.js:375 | the active axes are exactly the axes that carry a selection |
| Brushing.EveryAll | Homework3/nigomez/main.js:503-507 | the `every` test holds exactly when the value lies within the selection on each listed brushed axis |
| Brushing.VisibleSpec | Homework3/nigomez/main.js:503-507 | a line is shown exactly when, on every brushed axis, its value lies between the smaller and the larger end of that brush |
| Brushing.NoBrushShowsAll | Homework2/nigomez/main.js:384-388 | with no brush every line is shown |
| Brushing.SwapEndsKeepsVisibility | Homework3/nigomez/main.js:505 | swapping a brush's two ends does not change which lines are shown |
| Brushing.BrushOneAxis | Homework3/nigomez/main.js:503-507 | brushing one axis hides exactly the lines outside that brush on that axis, whatever the other axes' brushes |
| Brushing.ApplyBrushes | Homework3/nigomez/main.js:501-508 | each line's display flag is set to its visibility |
| Interaction.ZoomScale | Homework3/nigomez/main.js:230 | the zoom scale is 2 when zoomed and 1 otherwise |
| Interaction.RunParity | Homework3/nigomez/main.js:216-531 | over the scatter (lines 216-233), donut (357-359) and parallel (528-531) click handlers: after any clicks each flag differs from its start exactly when its own kind of click came an odd number of times, so the four flags toggle independently |
| Interaction.DoubleClickRestores | Homework3/nigomez/main.js:357-359 | two identical clicks restore all flags |
| Interaction.ClickEffects | Homework3/nigomez/main.js:216-233 | an Alt-click flips only the pulse flag and starts or stops pulsing; a plain click flips only its chart's zoom flag and zooms to 2 when it becomes zoomed, 1 otherwise |
| Interaction.Controller.constructor | Homework3/nigomez/main.js:145-512 | pulsing starts on (line 145) and the scatter, donut and parallel charts start unzoomed (lines 199, 346, 512) |
| Interaction.Controller.OnScatterClick | Homework3/nigomez/main.js:216-233 | the scatter handler's flag update and next action |
| Interaction.Controller.OnDonutClick | Homework3/nigomez/main.js:357-359 | the donut handler's flag update and target scale |
| Interaction.Controller.OnParallelClick | Homework3/nigomez/main.js:528-531 | the parallel handler's flag update and target scale |
| Interaction.MaxRadius | Homework3/nigomez/main.js:178 | for anxiety in [0, 10] a pulse grows to a radius in [6, 10], above the radius 4 it shrinks back to |
| Interaction.PulseDuration | Homework3/nigomez/main.js:179 | for anxiety in [0, 10] each half pulse lasts between 1000 and 2000 ms |
| Interaction.PulseMonotone | Homework3/nigomez/main.js:178-179 | more anxiety never gives a smaller radius nor a slower pulse |
| Pipeline.LoadHomework3 | Homework3/nigomez/main.js:28-417 | Homework3's load: rows normalised in place, then the three views, the hours domain and the first-200 sample |
| Pipeline.LoadHomework2 | Homework2/nigomez/main.js:27-306 | Homework2's load: the same views and domain, and a shuffled sample of min(n, 200) lines drawn from the parallel view |

## Left out

- SVG and DOM construction (titles, axes, tooltips, legends' placement, gradients, event wiring) is rendering through d3 and is not modelled.
- Loading the CSV (`d3.csv`) and its `.catch` path are asynchronous I/O; the model starts from the loaded rows.
- Columns other than the nine the charts read are not modelled; the loader leaves them untouched.
- `Number(text)` is the abstract `parse`; only the rule "falsy text means NaN" is concrete. JavaScript floating point is modelled as exact reals and NaN as `None`.
- Row objects are values in array slots: two slots holding the same object (aliasing) are not modelled, since the loader never produces that.
- d3 scale internals are not modelled: `.nice()`, point-scale spacing, the inversion of brush pixels through a Y scale (brush ends are given as reals), the Viridis colour ramp, and the donut's `schemeCategory10` colour scale and pie/arc geometry.
- Scales.ScatterColor: gives no colour for a music-effect value outside the four listed; d3's ordinal scale would instead add such a value to its domain and cycle back through the four colours.
- Views.Tally: assumes, for Homework2, that `d3.nest` is available and that the map behind it lists its keys in insertion order (true of d3 v5 and of the separate d3-collection bundle). `d3.nest` is not part of d3 v6 and later, while Homework2's event handlers use the v6 `(event, d)` signature (Homework2/nigomez/main.js:159, 324); under d3 v6 or later line 45 would throw and the `.catch` at line 441 would end the load, which the model does not capture.
- Views.ShuffledSample: shuffles a fresh copy of the parallel view, whereas `d3.shuffle` permutes `parallelData` itself (Homework2/nigomez/main.js:306); nothing reads `parallelData` after that line, so the difference cannot be observed. It also states that the sample is min(n, 200) lines drawn without repetition from the view (a prefix of a permutation), not which permutation a given sequence of draws produces; `Math.random` itself is the `draws` input.
- Views.Shuffle: promises only that the array ends as a permutation of itself, not the particular order.
- The lookup of the active brushes is not modelled: the brush test takes the active selections as an input map. As written, the selector `.brush[transform=...]` (Homework3/nigomez/main.js:494, Homework2/nigomez/main.js:375) asks for the axis's translation on the brush group, but that translation is set on the parent axis group (Homework3/nigomez/main.js:469) and not on the brush group (Homework3/nigomez/main.js:488-490). The selector therefore matches nothing, `.node()` gives null, and d3's `brushSelection(null)` fails when it reads the node's brush state, so as written `brushed` stops at its first line on every brush event and never hides a line. `Brushing` models the filter the code would apply if the lookup found the brushes.
- Brushing.ApplyBrushes: covers the line paths only; `g3.selectAll("path")` also reaches the axes' domain paths, which carry no line data.
- Transitions, delays, `setTimeout`, the donut's rotation and the pulse's recursive rescheduling are animation timing on the event loop; only the pulse's radius and duration formulas are kept.
- `d3.zoom` behaviour is not modelled beyond the flags and the 1-or-2 scale each click asks for.
- The scatter X domain and the other layout constants are rendering and are not modelled.
