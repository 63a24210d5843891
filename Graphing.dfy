/**
 The chart state of the gaze visualiser: three sample buffers (horizontal
 gaze, vertical gaze, and the paired gaze direction), each bounded by
 MaxPoints, and the three chart handles they are drawn into.

 A handle is either absent (never created, or removed by a reset) or a
 chart whose line path is bound to the samples it was last redrawn from.
 Scales, axes, titles and the path string are rendering details and are
 not modelled; a redraw is the binding of the line to the current buffer.
 */
module Graphing {
  import opened SlidingWindow

  /** One paired gaze-direction sample. */
  datatype GazePoint = GazePoint(x: real, y: real)

  /** A chart handle: NoChart for an unset or removed handle; Chart(line)
      for a live chart whose line path shows `line`. */
  datatype ChartHandle<T> = NoChart | Chart(line: seq<T>)

  /** The horizontal coordinates of a run of gaze samples. */
  function Xs(ps: seq<GazePoint>): (r: seq<real>)
  {
    seq(|ps|, i requires 0 <= i < |ps| => ps[i].x)
  }

  /** The vertical coordinates of a run of gaze samples. */
  function Ys(ps: seq<GazePoint>): (r: seq<real>)
  {
    seq(|ps|, i requires 0 <= i < |ps| => ps[i].y)
  }

  /** When every frame feeds its horizontal value to the X chart and its
      vertical value to the Y chart, the X buffer holds the horizontal
      values, and the Y buffer the vertical values, of exactly the frames
      in the window of those frames, in the same order. */
  lemma LockstepWindowsAligned(frames: seq<GazePoint>)
    ensures Window(Xs(frames)) == Xs(Window(frames))
    ensures Window(Ys(frames)) == Ys(Window(frames))
  {
    WindowIsLastN(frames);
    WindowIsLastN(Xs(frames));
    WindowIsLastN(Ys(frames));
  }

  /** The module-level chart state: handles and buffers. The ghost
      histories record every sample appended since the last reset. */
  class ChartSession {
    var xChart: ChartHandle<real>
    var yChart: ChartHandle<real>
    var gazeDirectionChart: ChartHandle<GazePoint>

    var xData: seq<real>
    var yData: seq<real>
    var gazeDirectionData: seq<GazePoint>

    ghost var xHistory: seq<real>
    ghost var yHistory: seq<real>
    ghost var gazeHistory: seq<GazePoint>

    /** Each buffer is the sliding window of the samples appended to it
        since the last reset. */
    ghost predicate Valid()
      reads this
    {
      xData == Window(xHistory) &&
      yData == Window(yHistory) &&
      gazeDirectionData == Window(gazeHistory)
    }

    /** Module load: empty buffers, no charts. */
    constructor ()
      ensures Valid()
      ensures xData == [] && yData == [] && gazeDirectionData == []
      ensures xChart == NoChart && yChart == NoChart && gazeDirectionChart == NoChart
      ensures xHistory == [] && yHistory == [] && gazeHistory == []
    {
      xChart, yChart, gazeDirectionChart := NoChart, NoChart, NoChart;
      xData, yData, gazeDirectionData := [], [], [];
      xHistory, yHistory, gazeHistory := [], [], [];
    }

    /** Every buffer holds exactly the last MaxPoints samples appended to
        it since the last reset, in append order. */
    lemma BuffersAreLastAppended()
      requires Valid()
      ensures xData == LastN(xHistory, MaxPoints)
      ensures yData == LastN(yHistory, MaxPoints)
      ensures gazeDirectionData == LastN(gazeHistory, MaxPoints)
    {
      WindowIsLastN(xHistory);
      WindowIsLastN(yHistory);
      WindowIsLastN(gazeHistory);
    }

    /** createXChart: a new chart with an empty line. The buffer is left
        as it is. */
    method CreateXChart()
      modifies this`xChart
      ensures xChart == Chart([])
    {
      xChart := Chart([]);
    }

    /** createYChart: a new chart with an empty line. */
    method CreateYChart()
      modifies this`yChart
      ensures yChart == Chart([])
    {
      yChart := Chart([]);
    }

    /** createGazeDirectionChart: a new chart with an empty line. */
    method CreateGazeDirectionChart()
      modifies this`gazeDirectionChart
      ensures gazeDirectionChart == Chart([])
    {
      gazeDirectionChart := Chart([]);
    }

    /** updateXChart: push, shift if over capacity, then redraw. The buffer
        changes before the handle is used, so without a chart the sample is
        still stored and `drawn` is false (the redraw fails). */
    method UpdateXChart(dataPoint: real) returns (drawn: bool)
      requires Valid()
      modifies this`xData, this`xHistory, this`xChart
      ensures Valid()
      ensures xHistory == old(xHistory) + [dataPoint]
      ensures xData == Slide(old(xData), dataPoint)
      ensures |xData| <= MaxPoints && xData[|xData| - 1] == dataPoint
      ensures drawn <==> old(xChart).Chart?
      ensures xChart == if drawn then Chart(xData) else NoChart
    {
      xData := xData + [dataPoint];
      xHistory := xHistory + [dataPoint];
      assert xHistory[..|xHistory| - 1] == old(xHistory);
      if |xData| > MaxPoints {
        xData := xData[1..];
      }
      drawn := xChart.Chart?;
      if drawn {
        xChart := Chart(xData);
      }
    }

    /** updateYChart: the same rule on the vertical buffer. */
    method UpdateYChart(dataPoint: real) returns (drawn: bool)
      requires Valid()
      modifies this`yData, this`yHistory, this`yChart
      ensures Valid()
      ensures yHistory == old(yHistory) + [dataPoint]
      ensures yData == Slide(old(yData), dataPoint)
      ensures |yData| <= MaxPoints && yData[|yData| - 1] == dataPoint
      ensures drawn <==> old(yChart).Chart?
      ensures yChart == if drawn then Chart(yData) else NoChart
    {
      yData := yData + [dataPoint];
      yHistory := yHistory + [dataPoint];
      assert yHistory[..|yHistory| - 1] == old(yHistory);
      if |yData| > MaxPoints {
        yData := yData[1..];
      }
      drawn := yChart.Chart?;
      if drawn {
        yChart := Chart(yData);
      }
    }

    /** updateGazeDirectionChart: both coordinates are stored as one paired
        sample under the same window rule. */
    method UpdateGazeDirectionChart(gazeX: real, gazeY: real) returns (drawn: bool)
      requires Valid()
      modifies this`gazeDirectionData, this`gazeHistory, this`gazeDirectionChart
      ensures Valid()
      ensures gazeHistory == old(gazeHistory) + [GazePoint(gazeX, gazeY)]
      ensures gazeDirectionData == Slide(old(gazeDirectionData), GazePoint(gazeX, gazeY))
      ensures |gazeDirectionData| <= MaxPoints
      ensures gazeDirectionData[|gazeDirectionData| - 1] == GazePoint(gazeX, gazeY)
      ensures drawn <==> old(gazeDirectionChart).Chart?
      ensures gazeDirectionChart == if drawn then Chart(gazeDirectionData) else NoChart
    {
      gazeDirectionData := gazeDirectionData + [GazePoint(gazeX, gazeY)];
      gazeHistory := gazeHistory + [GazePoint(gazeX, gazeY)];
      assert gazeHistory[..|gazeHistory| - 1] == old(gazeHistory);
      if |gazeDirectionData| > MaxPoints {
        gazeDirectionData := gazeDirectionData[1..];
      }
      drawn := gazeDirectionChart.Chart?;
      if drawn {
        gazeDirectionChart := Chart(gazeDirectionData);
      }
    }

    /** resetCharts: empty every buffer and remove every chart that exists;
        a handle that is already absent is left alone. */
    method ResetCharts()
      modifies this
      ensures Valid()
      ensures xData == [] && yData == [] && gazeDirectionData == []
      ensures xHistory == [] && yHistory == [] && gazeHistory == []
      ensures xChart == NoChart && yChart == NoChart && gazeDirectionChart == NoChart
    {
      xData, yData, gazeDirectionData := [], [], [];
      xHistory, yHistory, gazeHistory := [], [], [];
      if xChart.Chart? {
        xChart := NoChart;
      }
      if yChart.Chart? {
        yChart := NoChart;
      }
      if gazeDirectionChart.Chart? {
        gazeDirectionChart := NoChart;
      }
    }
  }
}
