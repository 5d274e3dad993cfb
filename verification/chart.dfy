/** Chart pre-processing (`get_scaled_chart`): which samples are plotted, on
    which vertical scale, and how each plotted line is fitted to the panel
    width. The plotting library itself is a parameter: any function from the
    series and its options to a list of text lines. */
module Chart {
  import opened Common
  import RollingHistory

  /** The options passed to the plotting library. */
  datatype PlotOptions = PlotOptions(height: int, min: real, max: real, offset: nat)

  /** Columns the plot reserves on its left for the axis labels. */
  const AxisOffset: nat := 2

  /** `min([])` raises: there is no sample to chart. */
  datatype ChartError = EmptyData

  /** The vertical range of a chart. */
  datatype Scale = Scale(lo: real, hi: real)

  /** The plotting library: series and options to lines of text. */
  type Plotter = (seq<real>, PlotOptions) -> seq<string>

  /** `data[-width:]`, then the last sample once more so the line reaches the right edge. */
  function Window(data: seq<real>, width: int): seq<real>
  {
    var tail := PyDrop(data, -width);
    if |tail| > 0 then tail + [tail[|tail| - 1]] else tail
  }

  /** For a positive width the window is the `width` most recent samples (the same
      window the history keeps) followed by a copy of the newest one. */
  lemma WindowIsRecent(data: seq<real>, width: int)
    requires width >= 1
    ensures |data| == 0 ==> Window(data, width) == []
    ensures |data| > 0 ==>
      Window(data, width) == RollingHistory.Recent(data, width) + [data[|data| - 1]]
  {
  }

  /** The window holds exactly the values of the most recent samples: the duplicate
      adds no new value, so the extremes are those of the recent samples. */
  lemma WindowExtremes(data: seq<real>, width: int)
    requires width >= 1 && |data| > 0
    ensures Min(Window(data, width)) == Min(RollingHistory.Recent(data, width))
    ensures Max(Window(data, width)) == Max(RollingHistory.Recent(data, width))
  {
    var w := Window(data, width);
    var recent := RollingHistory.Recent(data, width);
    WindowIsRecent(data, width);
    assert w[|w| - 1] == recent[|recent| - 1];
    forall k | 0 <= k < |w|
      ensures w[k] in recent
    {
      if k < |recent| {
        assert w[k] == recent[k];
      }
    }
    assert Min(w) in recent;
    assert Max(w) in recent;
    assert Min(recent) == w[IndexOf(recent, Min(recent))];
    assert Max(recent) == w[IndexOf(recent, Max(recent))];
  }

  /** The position of a value known to occur in `xs`. */
  function IndexOf(xs: seq<real>, x: real): (i: nat)
    requires x in xs
    ensures i < |xs| && xs[i] == x
  {
    if xs[0] == x then 0 else 1 + IndexOf(xs[1..], x)
  }

  /** The scale: the data's extremes unless a fixed bound overrides them, the top
      raised by one when both ends coincide. */
  function ChooseScale(points: seq<real>, fixedMin: Option<real>, fixedMax: Option<real>): (s: Scale)
    requires |points| > 0
    ensures s.lo == if fixedMin.Some? then fixedMin.value else Min(points)
    ensures var top := if fixedMax.Some? then fixedMax.value else Max(points);
      s.hi == if s.lo == top then top + 1.0 else top
    ensures s.lo != s.hi
    ensures fixedMin.None? && fixedMax.None? ==>
      s.lo < s.hi && forall k :: 0 <= k < |points| ==> s.lo <= points[k] <= s.hi
  {
    var lo := if fixedMin.Some? then fixedMin.value else Min(points);
    var hi := if fixedMax.Some? then fixedMax.value else Max(points);
    if lo == hi then Scale(lo, hi + 1.0) else Scale(lo, hi)
  }

  /** A flat series of value `v` is charted on the scale `[v, v + 1]`. */
  lemma FlatScale(points: seq<real>, v: real)
    requires |points| > 0
    requires forall k :: 0 <= k < |points| ==> points[k] == v
    ensures ChooseScale(points, None, None) == Scale(v, v + 1.0)
  {
    assert Min(points) == v && Max(points) == v;
  }

  /** `line[:width].ljust(width)` */
  function FitLine(line: string, width: int): (r: string)
    ensures width >= 0 ==> |r| == width
    ensures width >= 0 ==> forall k :: 0 <= k < width ==> r[k] == if k < |line| then line[k] else ' '
  {
    LJust(PyTake(line, width), width)
  }

  /** `get_scaled_chart`: window the samples, choose the scale, plot, fit every line. */
  function ScaledChart(data: seq<real>, height: int, width: int,
                       fixedMin: Option<real>, fixedMax: Option<real>, plot: Plotter): (r: Result<seq<string>, ChartError>)
    ensures width >= 0 ==> (r.Err? <==> |data| == 0)
    ensures r.Ok? ==> |Window(data, width)| > 0
    ensures r.Ok? ==>
      var w := Window(data, width);
      var s := ChooseScale(w, fixedMin, fixedMax);
      var raw := plot(w, PlotOptions(height, s.lo, s.hi, AxisOffset));
      |r.value| == |raw| && forall i :: 0 <= i < |raw| ==> r.value[i] == FitLine(raw[i], width)
    ensures r.Ok? && width >= 0 ==> forall i :: 0 <= i < |r.value| ==> |r.value[i]| == width
  {
    var w := Window(data, width);
    if |w| == 0 then Err(EmptyData)
    else
      var s := ChooseScale(w, fixedMin, fixedMax);
      var raw := plot(w, PlotOptions(height, s.lo, s.hi, AxisOffset));
      Ok(seq(|raw|, i requires 0 <= i < |raw| => FitLine(raw[i], width)))
  }
}
