# tegrastats live graph, modelled in Dafny

`tegrastats_live_graph.py` reads the text lines that NVIDIA's `tegrastats` tool
prints on a Jetson board. From each line it extracts seven metrics:

- CPU load and CPU clock, averaged over the cores;
- RAM in use;
- GPU load and an estimated GPU clock;
- CPU temperature;
- board input power.

It keeps a rolling history of each metric, capped at the terminal's width. It
appends one row per line to a CSV log. Then it redraws a dashboard: three
two-column panels and one full-width temperature panel, each an ASCII chart
with a title and a min/max/last stats line.

The model covers the logic between input and output:

- **Regex** (`regex.dfy`): the regular expressions the parser uses, as a small
  pattern language of literals and greedy capture groups (`\d+`, `[\d.]+`).
  - `MatchAt` is a greedy matcher.
  - `Backtrack` is an independent backtracking reference engine.
  - `SearchFrom`/`Search` model `re.search`, and `FindAllFrom`/`FindAll` model
    `re.findall` with one group.
- **Scans** (`scans.dfy`): the two per-core scans, `(\d+)%@` and `%@(\d+)`.
  Each is proved equal to a declarative reading: "every maximal digit run
  followed by `%@`" and "the digit run after every `%@`".
- **Parser**, **ParserFacts** (`parser.dfy`, `parser_facts.dfy`):
  `parse_tegrastats_line` without its timestamp, with what each field is and
  when a line is dropped. The facts are stated against the backtracking engine,
  not against the greedy matcher the parser uses.
- **RollingHistory** (`history.dfy`): the seven-key history and its per-key
  update. The update appends, then pops the oldest sample once when the list
  is longer than the cap.
- **Chart** (`chart.dfy`): `get_scaled_chart` around the plotting library:
  - windowing, and duplicating the last sample;
  - choosing the scale, with fixed bounds and the bump for a flat series;
  - fitting each plotted line to the panel width.
- **Layout** (`layout.dfy`): `get_terminal_widths`, `format_stats`,
  `str.center`, and the dual-column and full-width panels as lists of lines.
- **MainLoop** (`loop.dfy`): one iteration of the main loop as a pure `Step`:
  - strip the line, and skip it when blank or unparseable;
  - otherwise push the seven readings in key order and emit the eight-field
    log row;
  - `Run` over many lines, and the `Frame` drawn after each recorded line.

Python floats are modelled as exact `real`s. Regex digits are ASCII. The
following are parameters:

- the plotting function (`asciichartpy.plot`);
- the `:.2f` number formatter;
- the terminal's column count;
- the timestamp.

## Model

| member | source | states |
|---|---|---|
| Regex.GreedyIsBacktracking | tegrastats_live_graph.py:89-108 | For every pattern whose groups are each either last or followed by a literal starting outside the group's class (which `Parser.RamPattern`, `Parser.GpuPattern`, `Parser.TempPattern`, `Parser.PowerPattern`, `Scans.AfterPattern`, and `Scans.FollowedByPattern` with a non-digit suffix by `Scans.FollowedByIsSeparated`, are each proved to be), the greedy matcher gives the same result as a backtracking regex engine at every position. A group therefore captures a maximal run. |
| Regex.SearchFrom | tegrastats_live_graph.py:89 | A search result starts at or after the starting position, and the pattern matches there with the returned groups. |
| Regex.SearchFromIsLeftmost | tegrastats_live_graph.py:89 | No position before the returned start matches; when the search returns nothing, no position matches. |
| Regex.SearchIsLeftmost | tegrastats_live_graph.py:89 | `re.search` returns the backtracking engine's leftmost match, and returns nothing exactly when the engine matches nowhere in the line. |
| Regex.SearchFindsLeftmost | tegrastats_live_graph.py:100-101 | If the engine's leftmost match of a literal-then-group pattern is at p, the search finds it at p, and its first group is the maximal run right after the literal. |
| Regex.FindAllTakes | tegrastats_live_graph.py:92 | Where the pattern matches, `findall` emits that match's group and resumes at the match's end, so the matches do not overlap. |
| Scans.FollowedByIsSeparated | tegrastats_live_graph.py:92 | In `(\d+)%@`, and in any `(\d+)` + suffix whose first character is not a digit, the group can never be made to give back a digit, so the greedy matcher agrees with a backtracking engine on it. |
| Scans.FindAllFollowedBy | tegrastats_live_graph.py:92 | `findall(r"(\d+)" + suffix)` is exactly the list of maximal digit runs, anywhere in the line, that are immediately followed by the suffix. |
| Scans.FindAllAfter | tegrastats_live_graph.py:96 | `findall(prefix + r"(\d+)")` is exactly the list of digit runs right after each occurrence of the prefix that is followed by a digit. |
| Parser.Parse | tegrastats_live_graph.py:86-110 | An accepted line's estimated GPU clock is ten times its GPU load. A line dropped for its temperature carries a token `float()` rejects. |
| Parser.Temperature | tegrastats_live_graph.py:104-105 | The temperature read-out can only fail with a token that is not a valid decimal. |
| Parser.DotIndex | tegrastats_live_graph.py:105 | Returns the position of the first dot of a temperature token, or its length when it has no dot. |
| ParserFacts.ParseNeedsRam | tegrastats_live_graph.py:89-90 | A line is dropped for missing RAM exactly when `RAM (\d+)/(\d+)MB` matches at no position of the line. |
| ParserFacts.DroppedForRamOnlyWithoutRam | tegrastats_live_graph.py:89-90 | The missing-RAM error arises exactly when the RAM search finds nothing. A bad temperature never masquerades as it. |
| ParserFacts.ParseRam | tegrastats_live_graph.py:89-90 | When the leftmost RAM match is at p, RAM in use is the value of the maximal digit run after `RAM `, and the line is not dropped for RAM. |
| ParserFacts.ParseCpuLoad | tegrastats_live_graph.py:92-94 | CPU load is the mean of every maximal digit run followed by `%@` anywhere in the line, and exactly 0 when there is none. |
| ParserFacts.ParseCpuClock | tegrastats_live_graph.py:96-98 | CPU clock is the mean of the digit run after every `%@` followed by a digit, and 0 when there is none. It is counted independently of the load. |
| ParserFacts.ParseGpu | tegrastats_live_graph.py:100-101 | GPU load is 0 when `GR3D_FREQ (\d+)%` matches nowhere. Otherwise it is the digit run of the leftmost match. |
| ParserFacts.ParsePower | tegrastats_live_graph.py:107-108 | Power is 0 when `VDD_IN (\d+)mW` matches nowhere. Otherwise it is the milliwatt run of the leftmost match divided by 1000. |
| ParserFacts.ParseTemperature | tegrastats_live_graph.py:104-105 | Temperature is 0 when `cpu@([\d.]+)C` matches nowhere. Otherwise it is the exact decimal value of the leftmost token when `float()` accepts the token, and an error when it does not. |
| ParserFacts.TemperatureRejected | tegrastats_live_graph.py:104-105 | The temperature read-out fails exactly when the leftmost temperature token has no digit or has a second dot. |
| ParserFacts.AcceptedFields | tegrastats_live_graph.py:100-110 | An accepted line found RAM and a valid temperature. Its reading is made of the seven field read-outs, with GPU clock = 10 × GPU load. |
| ParserFacts.ParseErrs | tegrastats_live_graph.py:89-105 | Parsing fails exactly when RAM is missing or the temperature read-out fails. |
| ParserFacts.ParseFailsExactly | tegrastats_live_graph.py:86-110 | A line is dropped exactly when RAM matches nowhere, or the leftmost temperature match carries a token `float()` rejects. |
| Common.Mean | tegrastats_live_graph.py:94 | The mean times the count is the sum; the mean of nothing is 0. |
| Common.Min | tegrastats_live_graph.py:41 | The minimum is an element of the list and no element is below it. |
| Common.Max | tegrastats_live_graph.py:42 | The maximum is an element of the list and no element is above it. |
| RollingHistory.PushDropsAtMostOldest | tegrastats_live_graph.py:129-132 | An update appends the value and drops at most one element, the oldest. The drop happens exactly when the grown list exceeds the cap. The result is a suffix of the grown list, so survivors keep their order. Under a positive cap the new value is last. |
| RollingHistory.Push | tegrastats_live_graph.py:129-132 | A history within the cap stays within it; an overlong one keeps its length. |
| RollingHistory.PushAllKeepsRecent | tegrastats_live_graph.py:129-132 | Under a fixed cap that the history already respects, any sequence of updates leaves exactly the `cap` most recent samples, oldest first. |
| RollingHistory.OverlongHistoryKeepsLength | tegrastats_live_graph.py:131-132 | Because the code pops only once per append, a history already longer than the cap never shrinks back to it. |
| RollingHistory.AppendAllPerKey | tegrastats_live_graph.py:129-130 | With distinct keys, the zip loop pushes each value onto the list of the key at the same position, and leaves every other key's list alone. |
| Chart.WindowIsRecent | tegrastats_live_graph.py:37-39 | For width ≥ 1, the charted series is the `width` most recent samples followed by one more copy of the newest. With no samples it is empty. |
| Chart.WindowExtremes | tegrastats_live_graph.py:37-42 | The duplicated sample adds no new value: the window's minimum and maximum are those of the recent samples. |
| Chart.ChooseScale | tegrastats_live_graph.py:41-49 | Fixed bounds override the data's extremes, and the top is raised by 1 when both ends coincide, so the scale is never degenerate. Without fixed bounds, every plotted sample lies within the scale. |
| Chart.FlatScale | tegrastats_live_graph.py:48-49 | A flat series of value v is charted on the scale [v, v + 1]. |
| Chart.FitLine | tegrastats_live_graph.py:58 | Each fitted line has exactly `width` characters. Each character is the raw line's character at that position, or a blank past the raw line's end. |
| Chart.ScaledChart | tegrastats_live_graph.py:36-58 | For a width ≥ 0, charting fails exactly when there is no sample (`min([])` raises). Otherwise the plotter's lines are each fitted to the width, in order. |
| Common.LJust | tegrastats_live_graph.py:66-69 | `ljust` keeps the text as a prefix, pads only with blanks, and never truncates. |
| Layout.TerminalWidths | tegrastats_live_graph.py:23-29 | Both panel widths are equal and the gutter is 4. Two panels plus the gutter leave two or three spare columns. |
| Layout.WidthsAreLargest | tegrastats_live_graph.py:27-29 | The panel width is the largest that leaves at least two spare columns. |
| Layout.FormatStats | tegrastats_live_graph.py:31-34 | The stats line is empty exactly when there is no sample. Otherwise it begins with `Min: `. |
| Layout.Center | tegrastats_live_graph.py:82-83 | `str.center` gives length max(len, width) and surrounds the text with blanks on both sides, differing by at most one. As in CPython, the extra blank of an odd margin goes on the left exactly when the width is odd too. |
| Layout.Beside | tegrastats_live_graph.py:74-75 | Pairing two charts stops at the shorter. Row i is the left row, four blanks of gutter, then the right row. |
| Layout.DualLines | tegrastats_live_graph.py:66-75 | A dual panel's first row is the two titles and its second the two stats lines, each padded to its column and separated by the four-blank gutter (`Pair`). Its remaining rows are exactly the two charts paired row by row (left row, four blanks, right row), stopping at the shorter chart. Every chart row is as wide as the two panels plus the gutter. |
| Layout.DualColumn | tegrastats_live_graph.py:60-77 | On a terminal of at least 6 columns, a dual panel fails exactly when either metric has no sample. When it renders, both charts were drawn, the left from the first metric's data and bounds at the left width and the right from the second's at the right width. The rows are then the paired titles, the paired stats lines, and the two charts side by side, fitting within the terminal with two columns to spare. |
| Layout.FullWidth | tegrastats_live_graph.py:79-84 | A full-width panel fails exactly when there is no sample. Its title row and stats row are the title and stats centred in the terminal width, and each chart row is exactly as wide as the terminal. |
| MainLoop.ColumnsLineUp | tegrastats_live_graph.py:116-137 | The positional zip of readings with history keys gives each key its own reading. The log row holds the timestamp, then each reading in the column the header names for it. |
| MainLoop.Strip | tegrastats_live_graph.py:120 | Stripping removes only whitespace, and only from the two ends. The result is empty exactly when the line is all whitespace; otherwise it neither starts nor ends with whitespace. |
| MainLoop.StepSkips | tegrastats_live_graph.py:119-127 | A blank or unparseable line leaves the history unchanged and writes no row. |
| MainLoop.StepRecords | tegrastats_live_graph.py:124-137 | A parsed line is recorded, and its row is the timestamp followed by its seven readings. |
| MainLoop.StepIsRecord | tegrastats_live_graph.py:119-137 | A step writes a row exactly when its line strips to something parseable. It then records that reading. |
| MainLoop.RecordPushesEachKey | tegrastats_live_graph.py:129-132 | Recording pushes onto each metric's history that metric's own reading, with the single pop. |
| MainLoop.StepKeepsBound | tegrastats_live_graph.py:129-132 | A step never takes a history that respects the cap past it. |
| MainLoop.StepHistoryIgnoresTimestamp | tegrastats_live_graph.py:125-132 | The timestamp of a step does not affect the history it leaves. |
| MainLoop.RecordedStepFillsHistory | tegrastats_live_graph.py:129-132 | After a row is written under a positive cap, every metric has at least one sample. |
| MainLoop.RunKeepsRecent | tegrastats_live_graph.py:119-132 | For any lines fed to the loop (on a terminal of at most 5 columns the program exits at the first accepted line instead, see `MainLoop.NarrowTerminalCannotDraw`), starting from a history within the cap, each metric ends up as the `cap` most recent of its old samples followed by the accepted lines' readings. Blank and unparseable lines leave no trace. |
| MainLoop.RunFromEmpty | tegrastats_live_graph.py:13-132 | From the initial empty history, each metric holds exactly the `cap` most recent readings of the accepted lines. |
| MainLoop.Frame | tegrastats_live_graph.py:141-151 | On a terminal of at least 6 columns, the frame renders exactly when every metric has a sample. A rendered frame is, in order, CPU beside GPU usage, RAM beside power, the CPU clock on a fixed 500–1800 MHz scale beside the GPU clock on 0–1000 MHz, and the full-width temperature panel, separated by blank lines. |
| MainLoop.RecordedStepDraws | tegrastats_live_graph.py:129-151 | On a terminal of at least 6 columns and under a positive cap, the frame drawn right after a recorded line always renders: no panel meets an empty history. |
| MainLoop.NarrowTerminalCannotDraw | tegrastats_live_graph.py:27-41 | On a terminal of at most 5 columns the panel width is negative. A CPU history of at most one sample then has an empty chart window, and the frame raises at `min([])`. |
| MainLoop.FirstRecordLeavesOneSample | tegrastats_live_graph.py:13-132 | The first recorded line (onto the empty history), under a positive cap, leaves its own reading as the only sample of each metric. On a narrow terminal the first frame therefore already raises. |
| MainLoop.RecordFills | tegrastats_live_graph.py:129-132 | Under a positive cap, every metric has a sample once a reading is recorded. |

## Left out

- The plotting library (`asciichartpy.plot`) is a function parameter. Its only
  role is to return some list of lines, which the model then fits to width.
- Terminal size queries are parameters. The history cap (`cap`) is one per
  step, while the program queries it again for every key; both come from the
  same terminal. The panel width (`cols`) is one per frame. The defaults used
  when no terminal is attached (120 or 80 columns) are not modelled.
- Reading standard input, the screen-clear escape, `print`,
  `time.sleep(0.2)` and the `KeyboardInterrupt` exit are I/O and pacing, and
  are left out. Panels are lists of lines instead of joined text, and the
  blank `print()` between panels is an empty line.
- CSV file creation and appends are file I/O. Only the header and the row's
  field order and contents are modelled, as cells. Python's text rendering of
  ints versus floats in the CSV is not modelled.
- `datetime.now()` is nondeterministic; the timestamp is a parameter of `Step`.
- The `:.2f` number formatting is a parameter `fmt`.
- Layout.FormatStats: states only the empty/non-empty behaviour and the
  leading `Min: `, because the digits depend on the `fmt` parameter. For an
  `int` sample beyond float range the program's `:.2f` raises `OverflowError`
  at line 34; the model's total `fmt` returns a line instead.
- Layout.DualColumn: "fails exactly when either metric has no sample" holds
  for samples within float range. In the program a RAM, GPU load or GPU clock
  sample beyond it also makes the panel raise, at line 34 through
  `format_stats`.
- Floating-point rounding is not modelled. Means, `mW / 1000` and the
  temperature are exact reals.
- Python's `\d` also matches non-ASCII decimal digits; the model reads it as
  `[0-9]`.
- ParserFacts.ParseFailsExactly: in the program, a line is also dropped when
  the CPU load mean, the CPU clock mean or the power in watts is beyond the
  float range. Python's int-by-int division then raises `OverflowError`. A
  digit run longer than Python's `int()` digit limit raises `ValueError`. The
  model has unbounded numbers and accepts such lines, so "exactly" holds only
  for lines whose numbers stay within those limits.
- ParserFacts.ParseErrs: the same two drops (division overflow, `int()`
  digit limit) are not among the failures it lists.
- Chart.WindowIsRecent: stated for width ≥ 1 only. `Window` and `ScaledChart`
  themselves follow Python's slicing for every width, including `data[-0:]`
  being the whole list.
- MainLoop.Frame: states which panel calls make up the frame, not their text.
  The per-panel facts live in Layout. In the program, a RAM, GPU load or GPU
  clock reading beyond float range (an `int` of about 309 up to 4300 digits,
  which `int()` accepts and no division touches) makes `:.2f` raise
  `OverflowError` at line 34 while drawing, and the program exits. The model's
  `fmt` is total over unbounded reals, so its frame renders there.
- The code pops once per append. A history left longer than a new, smaller
  cap (after the terminal shrank) keeps its length; see
  RollingHistory.OverlongHistoryKeepsLength. The history is therefore not
  always trimmed to the cap, and the model follows the code.
- Charting an empty history raises at `min([])`, which the model follows as an
  error result, rather than drawing an empty panel.
- MainLoop.RecordedStepDraws: holds only on terminals of at least 6 columns.
  There the main loop only draws after recording a reading, so it never
  charts an empty history. On a terminal of at most 5 columns the first
  frame raises, and the program exits because its outer `try` catches only
  `KeyboardInterrupt` (MainLoop.NarrowTerminalCannotDraw,
  MainLoop.FirstRecordLeavesOneSample). It also assumes readings within float
  range: after a line whose RAM or GPU value is beyond it, the program's
  frame raises `OverflowError` at line 34 and the program exits, while the
  model's total `fmt` lets the frame render.
