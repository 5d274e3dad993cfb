/** The line parser (`parse_tegrastats_line`): pulls the seven metrics out of
    one tegrastats line. RAM is required; every other field falls back to 0.
    The wall-clock timestamp is not read from the line and is supplied by the
    main loop instead. */
module Parser {
  import opened Common
  import opened Regex
  import opened Scans

  /** The marker between a core's load and its clock: `<load>%@<clock>`. */
  const CoreMark: string := "%@"

  /** `RAM (\d+)/(\d+)MB` */
  function RamPattern(): (pat: Pattern)
    ensures Classes(pat) == [false, false] && Separated(pat)
    ensures pat[0] == Lit("RAM ") && pat[1] == Run(false)
  {
    var pat := [Lit("RAM "), Run(false), Lit("/"), Run(false), Lit("MB")];
    assert pat[4..][1..] == [];
    assert pat[3..][1..] == pat[4..] && pat[2..][1..] == pat[3..];
    assert pat[1..][1..] == pat[2..];
    assert Classes(pat[4..]) == [];
    assert Classes(pat[3..]) == [false];
    assert Classes(pat[2..]) == [false];
    assert Classes(pat[1..]) == [false, false];
    pat
  }

  /** `GR3D_FREQ (\d+)%` */
  function GpuPattern(): (pat: Pattern)
    ensures Classes(pat) == [false] && Separated(pat)
    ensures pat[0] == Lit("GR3D_FREQ ") && pat[1] == Run(false)
  {
    var pat := [Lit("GR3D_FREQ "), Run(false), Lit("%")];
    assert pat[2..][1..] == [] && pat[1..][1..] == pat[2..];
    assert Classes(pat[2..]) == [];
    assert Classes(pat[1..]) == [false];
    pat
  }

  /** `cpu@([\d.]+)C` */
  function TempPattern(): (pat: Pattern)
    ensures Classes(pat) == [true] && Separated(pat)
    ensures pat[0] == Lit("cpu@") && pat[1] == Run(true)
  {
    var pat := [Lit("cpu@"), Run(true), Lit("C")];
    assert pat[2..][1..] == [] && pat[1..][1..] == pat[2..];
    assert Classes(pat[2..]) == [];
    assert Classes(pat[1..]) == [true];
    pat
  }

  /** `VDD_IN (\d+)mW` */
  function PowerPattern(): (pat: Pattern)
    ensures Classes(pat) == [false] && Separated(pat)
    ensures pat[0] == Lit("VDD_IN ") && pat[1] == Run(false)
  {
    var pat := [Lit("VDD_IN "), Run(false), Lit("mW")];
    assert pat[2..][1..] == [] && pat[1..][1..] == pat[2..];
    assert Classes(pat[2..]) == [];
    assert Classes(pat[1..]) == [false];
    pat
  }

  /** Why a line is dropped: no RAM field (the search result is `None` and
      `.group` raises), or a temperature token `float()` rejects. */
  datatype ParseError = MissingRam | BadTemperature(token: string)

  /** One parsed record, without its timestamp. */
  datatype Reading = Reading(
    cpu: real,      // mean per-core load, percent
    ram: nat,       // RAM in use, MB
    gpu: nat,       // GPU load, percent
    temp: real,     // CPU temperature, degrees Celsius
    power: real,    // board input power, W
    cpuFreq: real,  // mean per-core clock, MHz
    gpuFreq: nat)   // estimated GPU clock, MHz

  /** `list(map(int, runs))` */
  function Numbers(runs: seq<string>): (ns: seq<nat>)
    requires forall j :: 0 <= j < |runs| ==> AllDigits(runs[j])
    ensures |ns| == |runs|
    ensures forall j :: 0 <= j < |runs| ==> ns[j] == DigitsValue(runs[j])
  {
    seq(|runs|, j requires 0 <= j < |runs| => DigitsValue(runs[j]))
  }

  /** `int(m.group(1))` for a match whose first group is a digit run. */
  function FirstNumber(m: Match): nat
    requires |m.groups| > 0 && AllDigits(m.groups[0])
  {
    DigitsValue(m.groups[0])
  }

  /** The position of the first dot of `t`, or `|t|` when it has none. */
  function DotIndex(t: string): (i: nat)
    ensures i <= |t|
    ensures i < |t| ==> t[i] == '.'
    ensures forall k :: 0 <= k < i ==> t[k] != '.'
  {
    if |t| == 0 || t[0] == '.' then 0 else 1 + DotIndex(t[1..])
  }

  /** A token of digits and dots that `float()` accepts: it holds at least one
      digit and no dot after its first dot. */
  predicate FloatToken(t: string) {
    && (exists k :: 0 <= k < |t| && IsDigit(t[k]))
    && forall k :: DotIndex(t) < k < |t| ==> t[k] != '.'
  }

  function Pow10(n: nat): (p: nat)
    ensures p >= 1
  {
    if n == 0 then 1 else 10 * Pow10(n - 1)
  }

  /** The exact decimal value of an accepted temperature token: whole part plus fraction. */
  function DecimalValue(t: string): real
    requires forall k :: 0 <= k < |t| ==> InClass(t[k], true)
    requires FloatToken(t)
  {
    var i := DotIndex(t);
    assert AllDigits(t[..i]) by {
      forall k | 0 <= k < i
        ensures IsDigit(t[..i][k])
      {
        assert t[..i][k] == t[k] && t[k] != '.' && InClass(t[k], true);
      }
    }
    var whole := DigitsValue(t[..i]) as real;
    if i == |t| then whole
    else
      var frac := t[i + 1..];
      assert AllDigits(frac) by {
        forall k | 0 <= k < |frac|
          ensures IsDigit(frac[k])
        {
          assert frac[k] == t[i + 1 + k];
          assert t[i + 1 + k] != '.' && InClass(t[i + 1 + k], true);
        }
      }
      whole + DigitsValue(frac) as real / Pow10(|frac|) as real
  }

  /** The RAM field: `int` of the first group of the leftmost `RAM (\d+)/(\d+)MB`, if any. */
  function RamUsed(line: string): Option<nat>
  {
    match Search(line, RamPattern())
    case None => None
    case Some(f) => Some(FirstNumber(f.m))
  }

  /** The mean per-core load: every digit run the scan finds before `%@`, averaged; 0 when none. */
  function CpuLoad(line: string): real
  {
    Mean(Numbers(FindAll(line, FollowedByPattern(CoreMark))))
  }

  /** The mean per-core clock: every digit run the scan finds after `%@`, averaged; 0 when none. */
  function CpuClock(line: string): real
  {
    Mean(Numbers(FindAll(line, AfterPattern(CoreMark))))
  }

  /** The GPU load: the leftmost `GR3D_FREQ (\d+)%`, or 0. */
  function GpuLoad(line: string): nat
  {
    match Search(line, GpuPattern())
    case None => 0
    case Some(f) => FirstNumber(f.m)
  }

  /** The input power in watts: the leftmost `VDD_IN (\d+)mW` divided by 1000, or 0. */
  function PowerDraw(line: string): real
  {
    match Search(line, PowerPattern())
    case None => 0.0
    case Some(f) => FirstNumber(f.m) as real / 1000.0
  }

  /** The CPU temperature: `float()` of the token in the leftmost `cpu@([\d.]+)C`, or 0;
      a token `float()` rejects is an error. */
  function Temperature(line: string): (r: Result<real, ParseError>)
    ensures r.Err? ==> r.error.BadTemperature? && !FloatToken(r.error.token)
  {
    match Search(line, TempPattern())
    case None => Ok(0.0)
    case Some(f) =>
      var token := f.m.groups[0];
      if FloatToken(token) then Ok(DecimalValue(token)) else Err(BadTemperature(token))
  }

  /** Parse one stripped line: RAM first (required), then the temperature (which may
      fail), the remaining fields defaulting to 0. */
  function Parse(line: string): (r: Result<Reading, ParseError>)
    ensures r.Ok? ==> r.value.gpuFreq == 10 * r.value.gpu
    ensures r.Err? && r.error.BadTemperature? ==> !FloatToken(r.error.token)
  {
    match RamUsed(line)
    case None => Err(MissingRam)
    case Some(ram) =>
      match Temperature(line)
      case Err(e) => Err(e)
      case Ok(temp) =>
        var gpu := GpuLoad(line);
        Ok(Reading(CpuLoad(line), ram, gpu, temp, PowerDraw(line), CpuClock(line), 10 * gpu))
  }
}
