/** One iteration of the main loop as a pure step: strip the line, skip it when
    blank or unparseable, otherwise push the seven readings onto the history
    and emit one log row; and the frame the loop then draws. Reading standard
    input, clearing the screen, printing, writing the log file and sleeping
    are left to the caller. */
module MainLoop {
  import opened Common
  import opened Parser
  import opened RollingHistory
  import opened Chart
  import opened Layout

  /** The log's header row. */
  const Header: seq<string> :=
    ["timestamp", "cpu_usage", "ram_used_mb", "gpu_usage", "temp_c", "power_w", "cpu_freq_mhz", "gpu_freq_mhz"]

  /** A field of a log row: the timestamp text or a number. */
  datatype Cell = Text(text: string) | Num(value: real)

  /** The readings in the order the loop zips them with the history keys. */
  function Samples(r: Reading): seq<real> {
    [r.cpu, r.ram as real, r.gpu as real, r.temp, r.power, r.cpuFreq, r.gpuFreq as real]
  }

  /** The row appended to the log: the timestamp, then the readings. */
  function LogRow(timestamp: string, r: Reading): seq<Cell> {
    [Text(timestamp), Num(r.cpu), Num(r.ram as real), Num(r.gpu as real), Num(r.temp),
     Num(r.power), Num(r.cpuFreq), Num(r.gpuFreq as real)]
  }

  /** Reference: the reading a metric records, chosen by name. */
  function SampleOf(r: Reading, k: Key): real {
    match k
    case Cpu => r.cpu
    case Ram => r.ram as real
    case Gpu => r.gpu as real
    case Temp => r.temp
    case Power => r.power
    case CpuFreq => r.cpuFreq
    case GpuFreq => r.gpuFreq as real
  }

  /** Reference: the log column that records a metric, and its position. */
  function ColumnOf(k: Key): string {
    match k
    case Cpu => "cpu_usage"
    case Ram => "ram_used_mb"
    case Gpu => "gpu_usage"
    case Temp => "temp_c"
    case Power => "power_w"
    case CpuFreq => "cpu_freq_mhz"
    case GpuFreq => "gpu_freq_mhz"
  }

  function ColumnIndex(k: Key): nat {
    match k
    case Cpu => 1
    case Ram => 2
    case Gpu => 3
    case Temp => 4
    case Power => 5
    case CpuFreq => 6
    case GpuFreq => 7
  }

  /** The positional wiring agrees with the names: the value zipped with each key is
      that key's reading, and the row holds it in the column the header names for it. */
  lemma ColumnsLineUp(r: Reading, timestamp: string)
    ensures |Keys| == |Samples(r)| && Distinct(Keys)
    ensures |LogRow(timestamp, r)| == |Header| && LogRow(timestamp, r)[0] == Text(timestamp) && Header[0] == "timestamp"
    ensures forall k :: ColumnIndex(k) < |Header| && Keys[ColumnIndex(k) - 1] == k
    ensures forall k :: Samples(r)[ColumnIndex(k) - 1] == SampleOf(r, k)
    ensures forall k :: Header[ColumnIndex(k)] == ColumnOf(k) && LogRow(timestamp, r)[ColumnIndex(k)] == Num(SampleOf(r, k))
  {
  }

  /** The characters `str.strip()` removes: Python's whitespace. */
  predicate IsSpace(c: char) {
    || '\U{9}' <= c <= '\U{D}'
    || '\U{1C}' <= c <= ' '
    || c == '\U{85}' || c == '\U{A0}' || c == '\U{1680}'
    || '\U{2000}' <= c <= '\U{200A}'
    || c == '\U{2028}' || c == '\U{2029}' || c == '\U{202F}' || c == '\U{205F}' || c == '\U{3000}'
  }

  /** The first index at or after `i` that is not whitespace, or `|s|`. */
  function SkipSpaces(s: string, i: nat): (j: nat)
    requires i <= |s|
    ensures i <= j <= |s|
    ensures forall k :: i <= k < j ==> IsSpace(s[k])
    ensures j < |s| ==> !IsSpace(s[j])
    decreases |s| - i
  {
    if i == |s| || !IsSpace(s[i]) then i else SkipSpaces(s, i + 1)
  }

  /** The end of `s[..j]` once trailing whitespace down to `lo` is removed. */
  function TrimEnd(s: string, lo: nat, j: nat): (e: nat)
    requires lo <= j <= |s|
    ensures lo <= e <= j
    ensures forall k :: e <= k < j ==> IsSpace(s[k])
    ensures e > lo ==> !IsSpace(s[e - 1])
    decreases j
  {
    if j == lo || !IsSpace(s[j - 1]) then j else TrimEnd(s, lo, j - 1)
  }

  /** `r` is `s` from index `i` on, with only whitespace cut from either end. */
  ghost predicate StrippedAt(s: string, r: string, i: nat) {
    && i + |r| <= |s| && r == s[i..i + |r|]
    && (forall k :: 0 <= k < i ==> IsSpace(s[k]))
    && (forall k :: i + |r| <= k < |s| ==> IsSpace(s[k]))
  }

  /** `line.strip()`: the line without leading and trailing whitespace. */
  function Strip(s: string): (r: string)
    ensures |r| == 0 <==> forall k :: 0 <= k < |s| ==> IsSpace(s[k])
    ensures |r| > 0 ==> !IsSpace(r[0]) && !IsSpace(r[|r| - 1])
    ensures exists i :: StrippedAt(s, r, i)
  {
    var i := SkipSpaces(s, 0);
    var j := TrimEnd(s, i, |s|);
    assert j > i ==> s[i..j][0] == s[i];
    assert j > i ==> s[i..j][j - i - 1] == s[j - 1];
    assert StrippedAt(s, s[i..j], i);
    s[i..j]
  }

  /** What one iteration leaves behind: the history, and the log row if one was written. */
  datatype StepResult = StepResult(history: History, row: Option<seq<Cell>>)

  /** The reading a raw input line contributes: none when it is blank after
      stripping or when parsing it raises. */
  function Accepted(line: string): Option<Reading> {
    var t := Strip(line);
    if |t| == 0 then None
    else match Parse(t)
      case Err(_) => None
      case Ok(r) => Some(r)
  }

  /** The effect of a parsed line: push the seven readings and write the row. */
  function Record(h: History, r: Reading, cap: nat, timestamp: string): StepResult
  {
    StepResult(AppendAll(h, Keys, Samples(r), cap), Some(LogRow(timestamp, r)))
  }

  /** One iteration of the main loop for an input line, the terminal's column count
      `cap` and the wall-clock `timestamp`. */
  function Step(h: History, line: string, cap: nat, timestamp: string): StepResult
  {
    match Accepted(line)
    case None => StepResult(h, None)
    case Some(r) => Record(h, r, cap, timestamp)
  }

  /** A blank or unparseable line changes nothing and writes no row. */
  lemma StepSkips(h: History, line: string, cap: nat, timestamp: string)
    requires |Strip(line)| == 0 || Parse(Strip(line)).Err?
    ensures Step(h, line, cap, timestamp) == StepResult(h, None)
  {
  }

  /** Recording a reading pushes each metric's own reading onto that metric's
      history, and nothing else. */
  lemma RecordPushesEachKey(h: History, r: Reading, cap: nat, timestamp: string)
    ensures forall k :: Record(h, r, cap, timestamp).history.Get(k) == Push(h.Get(k), SampleOf(r, k), cap)
  {
    var vals := Samples(r);
    assert |Keys| == |vals| && Distinct(Keys) by {
      ColumnsLineUp(r, timestamp);
    }
    AppendAllPerKey(h, Keys, vals, cap);
    forall k
      ensures AppendAll(h, Keys, vals, cap).Get(k) == Push(h.Get(k), SampleOf(r, k), cap)
    {
      var j := ColumnIndex(k) - 1;
      assert Keys[j] == k && vals[j] == SampleOf(r, k) by {
        ColumnsLineUp(r, timestamp);
      }
    }
  }

  /** A parsed line is recorded: the step's outcome is exactly `Record` of the reading. */
  lemma StepRecords(h: History, line: string, cap: nat, timestamp: string)
    requires |Strip(line)| > 0 && Parse(Strip(line)).Ok?
    ensures Step(h, line, cap, timestamp) == Record(h, Parse(Strip(line)).value, cap, timestamp)
    ensures Step(h, line, cap, timestamp).row == Some(LogRow(timestamp, Parse(Strip(line)).value))
  {
  }

  /** A step never takes a history that respects the cap past it. */
  lemma StepKeepsBound(h: History, line: string, cap: nat, timestamp: string)
    requires Bounded(h, cap)
    ensures Bounded(Step(h, line, cap, timestamp).history, cap)
  {
    var t := Strip(line);
    if |t| > 0 && Parse(t).Ok? {
      StepRecords(h, line, cap, timestamp);
      RecordPushesEachKey(h, Parse(t).value, cap, timestamp);
    }
  }

  /** After a row is written under a positive cap, every metric has a sample, so
      the frame that follows can be drawn. */
  lemma RecordedStepFillsHistory(h: History, line: string, cap: nat, timestamp: string)
    requires cap >= 1
    requires Step(h, line, cap, timestamp).row.Some?
    ensures forall k :: |Step(h, line, cap, timestamp).history.Get(k)| > 0
  {
    StepIsRecord(h, line, cap, timestamp);
    RecordPushesEachKey(h, Accepted(line).value, cap, timestamp);
  }

  /** A step writes a row exactly when the line is accepted, and then it records that line's reading. */
  lemma StepIsRecord(h: History, line: string, cap: nat, timestamp: string)
    ensures Step(h, line, cap, timestamp).row.Some? <==> Accepted(line).Some?
    ensures Accepted(line).Some? ==> Step(h, line, cap, timestamp) == Record(h, Accepted(line).value, cap, timestamp)
  {
  }

  /** The history after feeding `lines` to the loop one by one; the cap stays fixed
      and the history does not depend on the timestamps. */
  function Run(h: History, lines: seq<string>, cap: nat): History
    decreases |lines|
  {
    if |lines| == 0 then h else Run(Step(h, lines[0], cap, "").history, lines[1..], cap)
  }

  /** The readings of the accepted lines, in input order. */
  function AcceptedReadings(lines: seq<string>): seq<Reading>
    decreases |lines|
  {
    if |lines| == 0 then []
    else
      var rest := AcceptedReadings(lines[1..]);
      match Accepted(lines[0])
      case None => rest
      case Some(r) => [r] + rest
  }

  /** One metric's column of a list of readings. */
  function Series(rs: seq<Reading>, k: Key): (s: seq<real>)
    ensures |s| == |rs| && forall i :: 0 <= i < |rs| ==> s[i] == SampleOf(rs[i], k)
  {
    seq(|rs|, i requires 0 <= i < |rs| => SampleOf(rs[i], k))
  }

  /** The timestamp of a step does not affect the history it leaves. */
  lemma StepHistoryIgnoresTimestamp(h: History, line: string, cap: nat, timestamp: string)
    ensures Step(h, line, cap, timestamp).history == Step(h, line, cap, "").history
  {
  }

  /** Recording one reading keeps every metric within the cap. */
  lemma RecordKeepsBound(h: History, r: Reading, cap: nat)
    requires Bounded(h, cap)
    ensures Bounded(Record(h, r, cap, "").history, cap)
  {
    RecordPushesEachKey(h, r, cap, "");
  }

  /** Recording one reading moves it from the pending readings into the history
      without changing the most recent window. */
  lemma RecordKeepsRecent(h: History, r: Reading, rest: seq<Reading>, cap: nat, k: Key)
    requires |h.Get(k)| <= cap
    ensures Recent(Record(h, r, cap, "").history.Get(k) + Series(rest, k), cap)
      == Recent(h.Get(k) + Series([r] + rest, k), cap)
  {
    var x := h.Get(k);
    var v := SampleOf(r, k);
    var tail := Series(rest, k);
    RecordPushesEachKey(h, r, cap, "");
    assert Record(h, r, cap, "").history.Get(k) == Push(x, v, cap);
    RecentPush(x, v, tail, cap);
    SeriesCons(r, rest, k);
  }

  /** A metric's column of a list of readings, split at its first reading. */
  lemma SeriesCons(r: Reading, rest: seq<Reading>, k: Key)
    ensures Series([r] + rest, k) == [SampleOf(r, k)] + Series(rest, k)
  {
    var a := Series([r] + rest, k);
    var b := [SampleOf(r, k)] + Series(rest, k);
    assert |a| == |b|;
    forall i | 0 <= i < |a|
      ensures a[i] == b[i]
    {
      if i > 0 {
        assert ([r] + rest)[i] == rest[i - 1];
      }
    }
  }

  /** One line of a run: either it is skipped or its reading is recorded. */
  lemma RunUnfolds(h: History, lines: seq<string>, cap: nat)
    requires |lines| > 0
    ensures Accepted(lines[0]).None? ==>
      Run(h, lines, cap) == Run(h, lines[1..], cap) && AcceptedReadings(lines) == AcceptedReadings(lines[1..])
    ensures Accepted(lines[0]).Some? ==>
      var r := Accepted(lines[0]).value;
      Run(h, lines, cap) == Run(Record(h, r, cap, "").history, lines[1..], cap)
      && AcceptedReadings(lines) == [r] + AcceptedReadings(lines[1..])
  {
  }

  /** Whatever lines arrive, starting from a history within the cap, each metric's
      history is exactly the `cap` most recent of its old samples followed by the
      readings of the accepted lines: blank and unparseable lines leave no trace. */
  lemma {:induction false} RunKeepsRecent(h: History, lines: seq<string>, cap: nat, k: Key)
    requires Bounded(h, cap)
    ensures Run(h, lines, cap).Get(k) == Recent(h.Get(k) + Series(AcceptedReadings(lines), k), cap)
    decreases |lines|
  {
    if |lines| == 0 {
      assert h.Get(k) + Series([], k) == h.Get(k);
    } else {
      var a := Accepted(lines[0]);
      var rest := AcceptedReadings(lines[1..]);
      RunUnfolds(h, lines, cap);
      if a.None? {
        RunKeepsRecent(h, lines[1..], cap, k);
      } else {
        var r := a.value;
        RecordKeepsBound(h, r, cap);
        RecordKeepsRecent(h, r, rest, cap, k);
        RunKeepsRecent(Record(h, r, cap, "").history, lines[1..], cap, k);
      }
    }
  }

  /** Starting from the empty history, each metric holds the most recent `cap`
      readings of the accepted lines. */
  lemma RunFromEmpty(lines: seq<string>, cap: nat, k: Key)
    ensures Run(Empty, lines, cap).Get(k) == Recent(Series(AcceptedReadings(lines), k), cap)
  {
    RunFromBlank(Empty, lines, cap, k);
  }

  lemma RunFromBlank(h: History, lines: seq<string>, cap: nat, k: Key)
    requires forall j :: h.Get(j) == []
    ensures Run(h, lines, cap).Get(k) == Recent(Series(AcceptedReadings(lines), k), cap)
  {
    var xs := Series(AcceptedReadings(lines), k);
    RunKeepsRecent(h, lines, cap, k);
    assert h.Get(k) + xs == xs;
  }

  /** Every metric has at least one sample. */
  predicate Drawable(h: History) {
    |h.cpu| > 0 && |h.ram| > 0 && |h.gpu| > 0 && |h.temp| > 0 && |h.power| > 0 && |h.cpuFreq| > 0 && |h.gpuFreq| > 0
  }

  /** The frame the loop prints after each recorded line: three dual panels and the
      full-width temperature panel, separated by blank lines. */
  function Frame(h: History, cols: int, fmt: real -> string, plot: Plotter): (r: Result<seq<string>, ChartError>)
    ensures cols >= 6 ==> (r.Ok? <==> Drawable(h))
    ensures r.Ok? ==>
      var usage := DualColumn(Panel("CPU Usage", h.cpu, "%", None, None),
                              Panel("GPU Usage", h.gpu, "%", None, None), cols, fmt, plot);
      var memory := DualColumn(Panel("RAM Usage", h.ram, "MB", None, None),
                               Panel("Power Draw", h.power, "W", None, None), cols, fmt, plot);
      var clocks := DualColumn(Panel("CPU Frequency", h.cpuFreq, "MHz", Some(500.0), Some(1800.0)),
                               Panel("GPU Frequency (est.)", h.gpuFreq, "MHz", Some(0.0), Some(1000.0)), cols, fmt, plot);
      var temperature := FullWidth(Panel("CPU Temperature", h.temp, "\U{C2}\U{B0}C", None, None), cols, fmt, plot);
      usage.Ok? && memory.Ok? && clocks.Ok? && temperature.Ok? &&
      r.value == usage.value + [""] + memory.value + [""] + clocks.value + [""] + temperature.value
  {
    var usage :- DualColumn(Panel("CPU Usage", h.cpu, "%", None, None),
                            Panel("GPU Usage", h.gpu, "%", None, None), cols, fmt, plot);
    var memory :- DualColumn(Panel("RAM Usage", h.ram, "MB", None, None),
                             Panel("Power Draw", h.power, "W", None, None), cols, fmt, plot);
    var clocks :- DualColumn(Panel("CPU Frequency", h.cpuFreq, "MHz", Some(500.0), Some(1800.0)),
                             Panel("GPU Frequency (est.)", h.gpuFreq, "MHz", Some(0.0), Some(1000.0)), cols, fmt, plot);
    var temperature :- FullWidth(Panel("CPU Temperature", h.temp, "\U{C2}\U{B0}C", None, None), cols, fmt, plot);
    Ok(usage + [""] + memory + [""] + clocks + [""] + temperature)
  }

  /** Every frame drawn right after a recorded line renders: under a positive cap
      no panel meets an empty history. */
  lemma RecordedStepDraws(h: History, line: string, cap: nat, timestamp: string,
                          cols: int, fmt: real -> string, plot: Plotter)
    requires cap >= 1 && cols >= 6
    requires Step(h, line, cap, timestamp).row.Some?
    ensures Frame(Step(h, line, cap, timestamp).history, cols, fmt, plot).Ok?
  {
    StepIsRecord(h, line, cap, timestamp);
    RecordDraws(h, Accepted(line).value, cap, timestamp, cols, fmt, plot);
  }

  /** On a terminal of at most 5 columns the panel width is negative, so the chart
      window `data[-width:]` drops the CPU usage history when it holds at most one
      sample, and the frame raises at `min([])`; nothing in the loop catches it. */
  lemma NarrowTerminalCannotDraw(h: History, cols: int, fmt: real -> string, plot: Plotter)
    requires cols <= 5 && |h.cpu| <= 1
    ensures TerminalWidths(cols).left <= -1
    ensures Frame(h, cols, fmt, plot).Err?
  {
    NarrowWindowDropsOneSample(h.cpu, cols);
    FrameFailsWithoutCpuWindow(h, cols, fmt, plot);
  }

  /** The first recorded line, under a positive cap, leaves exactly its own reading in each metric. */
  lemma FirstRecordLeavesOneSample(h: History, r: Reading, cap: nat, timestamp: string)
    requires cap >= 1 && forall k :: h.Get(k) == []
    ensures forall k :: Record(h, r, cap, timestamp).history.Get(k) == [SampleOf(r, k)]
  {
    RecordPushesEachKey(h, r, cap, timestamp);
  }

  /** At most one sample has an empty chart window at the panel width of a terminal of at most 5 columns. */
  lemma NarrowWindowDropsOneSample(xs: seq<real>, cols: int)
    requires cols <= 5 && |xs| <= 1
    ensures TerminalWidths(cols).left <= -1
    ensures Window(xs, TerminalWidths(cols).left) == []
  {
  }

  /** The frame fails when the CPU usage panel has nothing to chart. */
  lemma FrameFailsWithoutCpuWindow(h: History, cols: int, fmt: real -> string, plot: Plotter)
    requires Window(h.cpu, TerminalWidths(cols).left) == []
    ensures Frame(h, cols, fmt, plot).Err?
  {
    var p1 := Panel("CPU Usage", h.cpu, "%", None, None);
    var p2 := Panel("GPU Usage", h.gpu, "%", None, None);
    assert ScaledChart(p1.data, ChartHeight, TerminalWidths(cols).left, p1.lo, p1.hi, plot).Err?;
    assert DualColumn(p1, p2, cols, fmt, plot).Err?;
  }

  /** Recording a reading under a positive cap leaves a history every panel can draw. */
  lemma RecordDraws(h: History, r: Reading, cap: nat, timestamp: string,
                    cols: int, fmt: real -> string, plot: Plotter)
    requires cap >= 1 && cols >= 6
    ensures Frame(Record(h, r, cap, timestamp).history, cols, fmt, plot).Ok?
  {
    RecordFills(h, r, cap, timestamp);
  }

  /** Under a positive cap, every metric has a sample once a reading is recorded. */
  lemma RecordFills(h: History, r: Reading, cap: nat, timestamp: string)
    requires cap >= 1
    ensures Drawable(Record(h, r, cap, timestamp).history)
  {
    RecordPushesEachKey(h, r, cap, timestamp);
    PushesFill(h, Record(h, r, cap, timestamp).history, r, cap);
  }

  /** A history whose every metric was pushed onto under a positive cap is drawable. */
  lemma PushesFill(h: History, h1: History, r: Reading, cap: nat)
    requires cap >= 1
    requires forall k :: h1.Get(k) == Push(h.Get(k), SampleOf(r, k), cap)
    ensures Drawable(h1)
  {
    assert h1.cpu == h1.Get(Cpu) && h1.ram == h1.Get(Ram) && h1.gpu == h1.Get(Gpu);
    assert h1.temp == h1.Get(Temp) && h1.power == h1.Get(Power);
    assert h1.cpuFreq == h1.Get(CpuFreq) && h1.gpuFreq == h1.Get(GpuFreq);
  }
}
