/** The layout engine: panel widths from the terminal's column count, the
    stats line, and the dual-column and full-width panels. Number formatting
    (`:.2f`) is a parameter; the terminal's column count is an argument. */
module Layout {
  import opened Common
  import opened Chart

  /** Lines of chart body per panel. */
  const ChartHeight: int := 10

  /** Blanks between the two columns of a dual panel. */
  const Gutter: nat := 4

  datatype Widths = Widths(left: int, right: int, gutter: nat)

  /** `get_terminal_widths`: half of the columns left after the gutter, minus one, per side. */
  function TerminalWidths(cols: int): (w: Widths)
    ensures w.left == w.right && w.gutter == Gutter
    ensures 2 * w.left + w.gutter + 2 <= cols <= 2 * w.left + w.gutter + 3
  {
    var half := (cols - Gutter) / 2 - 1;
    Widths(half, half, Gutter)
  }

  /** The panel widths are the largest that leave at least two spare columns. */
  lemma WidthsAreLargest(cols: int, x: int)
    requires 2 * x + Gutter + 2 <= cols
    ensures x <= TerminalWidths(cols).left
  {
  }

  /** `format_stats`: minimum, maximum and newest sample with their unit; empty without samples. */
  function FormatStats(data: seq<real>, unit: string, fmt: real -> string): (r: string)
    ensures |r| == 0 <==> |data| == 0
    ensures |data| > 0 ==> |r| > 5 && r[..5] == "Min: "
  {
    if |data| == 0 then ""
    else
      "Min: " + fmt(Min(data)) + " " + unit
      + "   Max: " + fmt(Max(data)) + " " + unit
      + "   Last: " + fmt(data[|data| - 1]) + " " + unit
  }

  /** `str.center(width)`, with CPython's split of an odd margin: the extra blank
      goes to the left exactly when both the margin and the width are odd. */
  function Center(s: string, width: int): (r: string)
    ensures |r| == if |s| < width then width else |s|
    ensures |s| < width ==>
      (exists a :: 0 <= a <= width - |s| &&
         r == Spaces(a) + s + Spaces(width - |s| - a) &&
         -1 <= (width - |s| - a) - a <= 1 &&
         (a > width - |s| - a <==> (width - |s|) % 2 == 1 && width % 2 == 1))
  {
    if width <= |s| then s
    else
      var margin := width - |s|;
      var left := margin / 2 + (if margin % 2 == 1 && width % 2 == 1 then 1 else 0);
      Spaces(left) + s + Spaces(margin - left)
  }

  /** One metric shown in a panel, with optional fixed scale bounds. */
  datatype Panel = Panel(name: string, data: seq<real>, unit: string, lo: Option<real>, hi: Option<real>)

  /** `f"{label} ({unit})"` */
  function Title(p: Panel): string {
    p.name + " (" + p.unit + ")"
  }

  /** Row `i` is row `i` of `a`, then `gap` blanks, then row `i` of `b`; `zip` stops at the shorter. */
  function Beside(a: seq<string>, b: seq<string>, gap: nat): (rows: seq<string>)
    ensures |rows| == if |a| < |b| then |a| else |b|
    ensures forall i :: 0 <= i < |rows| ==> rows[i] == a[i] + Spaces(gap) + b[i]
  {
    if |a| == 0 || |b| == 0 then [] else [a[0] + Spaces(gap) + b[0]] + Beside(a[1..], b[1..], gap)
  }

  /** One row of a dual panel: `a` padded to the left column, the gutter, `b` padded to the right column. */
  function Pair(a: string, b: string, w: Widths): string {
    LJust(a, w.left) + Spaces(w.gutter) + LJust(b, w.right)
  }

  /** The lines of a dual panel once both charts are drawn: the two titles, the two
      stats lines, then the charts row by row, each padded to its column's width. */
  function DualLines(p1: Panel, p2: Panel, w: Widths, chart1: seq<string>, chart2: seq<string>,
                     fmt: real -> string): (lines: seq<string>)
    ensures |lines| >= 2
    ensures lines[0] == Pair(Title(p1), Title(p2), w)
    ensures lines[1] == Pair(FormatStats(p1.data, p1.unit, fmt), FormatStats(p2.data, p2.unit, fmt), w)
    ensures lines[2..] == Beside(chart1, chart2, w.gutter)
    ensures (forall i :: 0 <= i < |chart1| ==> |chart1[i]| == w.left) &&
            (forall i :: 0 <= i < |chart2| ==> |chart2[i]| == w.right) ==>
      forall i :: 2 <= i < |lines| ==> |lines[i]| == w.left + w.gutter + w.right
  {
    var header := Pair(Title(p1), Title(p2), w);
    var stats := Pair(FormatStats(p1.data, p1.unit, fmt), FormatStats(p2.data, p2.unit, fmt), w);
    [header, stats] + Beside(chart1, chart2, w.gutter)
  }

  /** `format_dual_column`, as its list of lines. */
  function DualColumn(p1: Panel, p2: Panel, cols: int, fmt: real -> string, plot: Plotter): (r: Result<seq<string>, ChartError>)
    ensures cols >= 6 ==> (r.Err? <==> |p1.data| == 0 || |p2.data| == 0)
    ensures r.Ok? ==> |r.value| >= 2
    ensures r.Ok? && cols >= 6 ==>
      forall i :: 2 <= i < |r.value| ==> |r.value[i]| == 2 * TerminalWidths(cols).left + Gutter <= cols - 2
    ensures r.Ok? ==>
      var w := TerminalWidths(cols);
      var c1 := ScaledChart(p1.data, ChartHeight, w.left, p1.lo, p1.hi, plot);
      var c2 := ScaledChart(p2.data, ChartHeight, w.right, p2.lo, p2.hi, plot);
      c1.Ok? && c2.Ok? && |r.value| >= 2 &&
      r.value[0] == Pair(Title(p1), Title(p2), w) &&
      r.value[1] == Pair(FormatStats(p1.data, p1.unit, fmt), FormatStats(p2.data, p2.unit, fmt), w) &&
      r.value[2..] == Beside(c1.value, c2.value, Gutter)
  {
    var w := TerminalWidths(cols);
    var chart1 :- ScaledChart(p1.data, ChartHeight, w.left, p1.lo, p1.hi, plot);
    var chart2 :- ScaledChart(p2.data, ChartHeight, w.right, p2.lo, p2.hi, plot);
    Ok(DualLines(p1, p2, w, chart1, chart2, fmt))
  }

  /** `format_full_width`, as its list of lines: centred header and stats, then a
      chart as wide as the terminal on the data's own scale. */
  function FullWidth(p: Panel, cols: int, fmt: real -> string, plot: Plotter): (r: Result<seq<string>, ChartError>)
    ensures cols >= 0 ==> (r.Err? <==> |p.data| == 0)
    ensures r.Ok? ==> |r.value| >= 2
    ensures r.Ok? ==> r.value[0] == Center(Title(p), cols) && r.value[1] == Center(FormatStats(p.data, p.unit, fmt), cols)
    ensures r.Ok? ==> |r.value[0]| == if |Title(p)| < cols then cols else |Title(p)|
    ensures r.Ok? && cols >= 0 ==> forall i :: 2 <= i < |r.value| ==> |r.value[i]| == cols
  {
    var chart :- ScaledChart(p.data, ChartHeight, cols, None, None, plot);
    Ok([Center(Title(p), cols), Center(FormatStats(p.data, p.unit, fmt), cols)] + chart)
  }
}
