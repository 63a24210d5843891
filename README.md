# Gaze chart buffers

This project models the chart state of a webcam gaze visualiser. The
graphing module keeps three sample buffers as module-level state:
horizontal gaze, vertical gaze, and paired gaze direction. Each buffer is
bounded by `MAX_POINTS = 100`. Each buffer also has a chart handle.
Updating a chart pushes the new sample, shifts off the oldest sample once
the buffer holds more than 100, and redraws the chart's line from the whole
buffer. Resetting empties all three buffers and removes every chart that
exists.

- `SlidingWindow.dfy` holds the window rule as pure functions. `Slide` is
  one push-then-shift step. `Window` slides a whole history into an empty
  buffer. `LastN` is the reference definition "the last n samples". The
  lemmas prove that the window is exactly the last 100 samples appended,
  in append order.
- `Graphing.dfy` holds the class `ChartSession`. Its fields are the three
  buffers (`seq` fields, reassigned the way `push`/`shift` change the
  arrays) and the three handles. A handle is either `NoChart` (unset or
  removed) or `Chart(line)`, where `line` is the data the line path was
  last drawn from. Ghost histories record the samples appended since the
  last reset. `Valid()` ties each buffer to the window of its history.

Sample values are `real`: the buffer logic never inspects them.

Two behaviours of the source shape the model:
- `updateXChart` has no guard on its handle. It pushes and shifts the
  buffer (graphing.ts:163-167) before it dereferences `xChart`
  (graphing.ts:179); `updateYChart` and `updateGazeDirectionChart` do the
  same. The update methods therefore have no precondition on the handle.
  They store the sample and report `drawn == false` for the failed
  redraw.
- `create*Chart` never touches the buffers; only `resetCharts`
  (graphing.ts:231-233) empties them. `CreateXChart` and its siblings
  change the handle only.

## Model

| member | source | states |
|---|---|---|
| SlidingWindow.Slide | src/scripts/graphing.ts:162-167 | the newest sample is last; below capacity the old samples are kept in order and one is added; at or above capacity the oldest is dropped and the rest keep their order; from at most 100 samples the result has min(old length + 1, 100) samples |
| SlidingWindow.LastN | src/scripts/graphing.ts:11 | reference for "the last n samples": min(length, n) elements that form a suffix of the input |
| SlidingWindow.Window | src/scripts/graphing.ts:162-167 | after k updates from empty the buffer holds min(k, 100) samples and its last one is the last sample appended |
| SlidingWindow.WindowIsLastN | src/scripts/graphing.ts:162-167 | sliding any history into an empty buffer gives exactly the last 100 samples of that history, in append order |
| SlidingWindow.WindowAfterOverflow | src/scripts/graphing.ts:165-167 | after 100 + k updates the first k samples have been evicted and the buffer holds all the others in order |
| SlidingWindow.WindowAt | src/scripts/graphing.ts:163-166 | element i of the buffer is the sample appended at position (history length - buffer length + i) |
| Graphing.LockstepWindowsAligned | src/scripts/eye-tracking.ts:55-56 | when each frame's horizontal value goes to the X chart and its vertical value to the Y chart, the X buffer is the horizontal values and the Y buffer the vertical values of the window of those frames, in the same order: element i of each comes from frame number (frame count - window length + i) |
| Graphing.ChartSession.BuffersAreLastAppended | src/scripts/graphing.ts:7-11 | in every valid state each of the three buffers equals the last 100 samples appended to it since the last reset |
| Graphing.ChartSession.constructor | src/scripts/graphing.ts:3-9 | at module load all three buffers are empty and no handle is set |
| Graphing.ChartSession.CreateXChart | src/scripts/graphing.ts:20-63 | sets the X handle to a new chart with an empty line; the buffers are untouched |
| Graphing.ChartSession.CreateYChart | src/scripts/graphing.ts:73-116 | sets the Y handle to a new chart with an empty line; the buffers are untouched |
| Graphing.ChartSession.CreateGazeDirectionChart | src/scripts/graphing.ts:126-158 | sets the gaze-direction handle to a new chart with an empty line; the buffers are untouched |
| Graphing.ChartSession.UpdateXChart | src/scripts/graphing.ts:162-182 | the X buffer becomes Slide(old buffer, sample), stays within 100 and ends with the sample; the history grows by the sample; the line is redrawn from exactly the new buffer when the chart exists, otherwise the sample is still stored and the redraw fails; only the X buffer, X history and X handle may change |
| Graphing.ChartSession.UpdateYChart | src/scripts/graphing.ts:185-205 | the same for the Y buffer and handle; nothing else may change |
| Graphing.ChartSession.UpdateGazeDirectionChart | src/scripts/graphing.ts:208-226 | the pair (gazeX, gazeY) is stored as one element under the same window rule and drawn from exactly the new buffer when the chart exists; nothing else may change |
| Graphing.ChartSession.ResetCharts | src/scripts/graphing.ts:229-249 | all three buffers and histories are empty and all three handles absent, from any valid state, including one where no chart was ever created or they were already reset |

## Left out

- Gaze extraction (eye-tracking.ts:44-52): floating-point arithmetic on landmark coordinates produced by an external face-mesh detector. The model takes the computed samples as inputs.
- Camera, face-mesh, canvas drawing and the start/stop button listeners (eye-tracking.ts:1-95): I/O and foreign library calls.
- Rendering with d3: scales, axes, titles, attributes and the path string built by `d3.line`. A redraw is modelled as binding the line to the current buffer. A side note: the X chart's horizontal axis is drawn with domain [-1, 1] (graphing.ts:17), while its line is plotted against [0, 99] (graphing.ts:171). That mismatch is purely visual.
- Removing an SVG element from the page, and the duplicate surfaces left behind when a chart is created twice without a reset. The model keeps only the most recent handle.
- The `console.log` at the end of `resetCharts`.
- Graphing.LockstepWindowsAligned: assumes every frame reaches both `updateXChart` and `updateYChart` (eye-tracking.ts:55-56). The source does not guarantee it. An `updateXChart` on an absent handle stores the sample and then throws, so that frame's `updateYChart` is skipped. `create*Chart` does not clear the buffers, so after a restart `xData` can stay one sample longer than `yData`. The frames are a reference sequence: the caller never creates or updates the gaze-direction chart, so its buffer stays empty there.
- UpdateXChart: the TypeError thrown at the missing handle is reported as `drawn == false` and does not propagate. In the source it would abort the rest of the caller's frame callback (for example the following `updateYChart` call).
- UpdateYChart: the same as UpdateXChart for its missing handle.
- UpdateGazeDirectionChart: the same as UpdateXChart for its missing handle.
- JavaScript numbers are modelled as mathematical reals. Nothing in the buffer logic does arithmetic on them.
