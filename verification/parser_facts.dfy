/** What the parser promises, stated against the regular-expression engine's
    own semantics (`Backtrack`, `LeftmostAt`) and against the declarative
    readings of the per-core scans. */
module ParserFacts {
  import opened Common
  import opened Regex
  import opened Scans
  import opened Parser

  /** An accepted line's reading is made of the per-field read-outs: RAM and
      temperature were found, and the GPU clock estimate is ten times the GPU load. */
  lemma AcceptedFields(line: string)
    requires Parse(line).Ok?
    ensures RamUsed(line).Some? && Temperature(line).Ok?
    ensures var v := Parse(line).value;
      && v.cpu == CpuLoad(line) && v.ram == RamUsed(line).value && v.gpu == GpuLoad(line)
      && v.temp == Temperature(line).value && v.power == PowerDraw(line)
      && v.cpuFreq == CpuClock(line) && v.gpuFreq == 10 * GpuLoad(line)
  {
  }

  /** A line is dropped for want of RAM exactly when `RAM (\d+)/(\d+)MB` matches nowhere. */
  lemma ParseNeedsRam(line: string)
    ensures Parse(line) == Err(MissingRam) <==>
      forall p :: 0 <= p <= |line| ==> Backtrack(line, p, RamPattern()).None?
  {
    SearchIsLeftmost(line, RamPattern());
    DroppedForRamOnlyWithoutRam(line);
    assert RamUsed(line).None? <==> Search(line, RamPattern()).None?;
  }

  lemma DroppedForRamOnlyWithoutRam(line: string)
    ensures Parse(line) == Err(MissingRam) <==> RamUsed(line).None?
  {
  }

  /** The RAM reading is the first digit run of the leftmost RAM match. */
  lemma ParseRam(line: string, p: nat)
    requires LeftmostAt(line, RamPattern(), p)
    ensures p + 4 <= |line|
    ensures RamUsed(line) == Some(DigitsValue(DigitRunAt(line, p + 4)))
    ensures Parse(line) != Err(MissingRam)
  {
    SearchFindsLeftmost(line, RamPattern(), p);
    DroppedForRamOnlyWithoutRam(line);
  }

  /** The CPU load is the mean of every maximal digit run immediately followed
      by `%@`, anywhere in the line; 0 when there is none. */
  lemma ParseCpuLoad(line: string)
    ensures CpuLoad(line) == Mean(Numbers(RunsFollowedBy(line, CoreMark, 0)))
    ensures RunsFollowedBy(line, CoreMark, 0) == [] ==> CpuLoad(line) == 0.0
  {
    FindAllFollowedBy(line, CoreMark, 0);
  }

  /** The CPU clock is the mean of the digit run after every `%@` that is followed
      by a digit; 0 when there is none. It is counted independently of the load. */
  lemma ParseCpuClock(line: string)
    ensures CpuClock(line) == Mean(Numbers(RunsAfter(line, CoreMark, 0)))
    ensures RunsAfter(line, CoreMark, 0) == [] ==> CpuClock(line) == 0.0
  {
    FindAllAfter(line, CoreMark, 0);
  }

  /** GPU load: the digit run of the leftmost `GR3D_FREQ (\d+)%`, else 0. */
  lemma ParseGpu(line: string)
    ensures (forall p :: 0 <= p <= |line| ==> Backtrack(line, p, GpuPattern()).None?) ==> GpuLoad(line) == 0
    ensures forall p: nat :: LeftmostAt(line, GpuPattern(), p) ==>
      p + 10 <= |line| && GpuLoad(line) == DigitsValue(DigitRunAt(line, p + 10))
  {
    SearchIsLeftmost(line, GpuPattern());
    forall p: nat | LeftmostAt(line, GpuPattern(), p)
      ensures p + 10 <= |line| && GpuLoad(line) == DigitsValue(DigitRunAt(line, p + 10))
    {
      GpuAt(line, p);
    }
  }

  lemma GpuAt(line: string, p: nat)
    requires LeftmostAt(line, GpuPattern(), p)
    ensures p + 10 <= |line| && GpuLoad(line) == DigitsValue(DigitRunAt(line, p + 10))
  {
    SearchFindsLeftmost(line, GpuPattern(), p);
  }

  /** Power: the digit run of the leftmost `VDD_IN (\d+)mW` divided by 1000, else 0. */
  lemma ParsePower(line: string)
    ensures (forall p :: 0 <= p <= |line| ==> Backtrack(line, p, PowerPattern()).None?) ==> PowerDraw(line) == 0.0
    ensures forall p: nat :: LeftmostAt(line, PowerPattern(), p) ==>
      p + 7 <= |line| && PowerDraw(line) == DigitsValue(DigitRunAt(line, p + 7)) as real / 1000.0
  {
    SearchIsLeftmost(line, PowerPattern());
    forall p: nat | LeftmostAt(line, PowerPattern(), p)
      ensures p + 7 <= |line| && PowerDraw(line) == DigitsValue(DigitRunAt(line, p + 7)) as real / 1000.0
    {
      PowerAt(line, p);
    }
  }

  lemma PowerAt(line: string, p: nat)
    requires LeftmostAt(line, PowerPattern(), p)
    ensures p + 7 <= |line| && PowerDraw(line) == DigitsValue(DigitRunAt(line, p + 7)) as real / 1000.0
  {
    SearchFindsLeftmost(line, PowerPattern(), p);
  }

  /** Temperature: 0 without a `cpu@<token>C` match; otherwise the token of the
      leftmost match, read as a decimal when `float()` accepts it and an error otherwise. */
  lemma ParseTemperature(line: string)
    ensures (forall p :: 0 <= p <= |line| ==> Backtrack(line, p, TempPattern()).None?) ==> Temperature(line) == Ok(0.0)
    ensures forall p: nat :: LeftmostAt(line, TempPattern(), p) ==>
      && p + 4 <= |line|
      && var token := RunAt(line, p + 4, true);
         Temperature(line) == (if FloatToken(token) then Ok(DecimalValue(token)) else Err(BadTemperature(token)))
  {
    SearchIsLeftmost(line, TempPattern());
    forall p: nat | LeftmostAt(line, TempPattern(), p)
      ensures p + 4 <= |line|
      ensures var token := RunAt(line, p + 4, true);
        Temperature(line) == (if FloatToken(token) then Ok(DecimalValue(token)) else Err(BadTemperature(token)))
    {
      TemperatureAt(line, p);
    }
  }

  lemma TemperatureAt(line: string, p: nat)
    requires LeftmostAt(line, TempPattern(), p)
    ensures p + 4 <= |line|
    ensures var token := RunAt(line, p + 4, true);
      Temperature(line) == (if FloatToken(token) then Ok(DecimalValue(token)) else Err(BadTemperature(token)))
  {
    SearchFindsLeftmost(line, TempPattern(), p);
  }

  /** A line is dropped exactly when its RAM field or its temperature read-out fails. */
  lemma ParseErrs(line: string)
    ensures Parse(line).Err? <==> RamUsed(line).None? || Temperature(line).Err?
  {
  }

  /** The temperature read-out fails exactly when the leftmost `cpu@<token>C` match
      carries a token `float()` rejects. */
  lemma TemperatureRejected(line: string)
    ensures Temperature(line).Err? <==>
      exists p: nat :: LeftmostAt(line, TempPattern(), p) && p + 4 <= |line| && !FloatToken(RunAt(line, p + 4, true))
  {
    ParseTemperature(line);
    SearchIsLeftmost(line, TempPattern());
    if Temperature(line).Err? {
      var f := Search(line, TempPattern()).value;
      assert LeftmostAt(line, TempPattern(), f.start);
    }
  }

  /** A line is dropped exactly when RAM is missing or the leftmost temperature token is rejected. */
  lemma ParseFailsExactly(line: string)
    ensures Parse(line).Err? <==>
      || (forall p :: 0 <= p <= |line| ==> Backtrack(line, p, RamPattern()).None?)
      || (exists p: nat :: LeftmostAt(line, TempPattern(), p) && p + 4 <= |line| && !FloatToken(RunAt(line, p + 4, true)))
  {
    ParseErrs(line);
    SearchIsLeftmost(line, RamPattern());
    assert RamUsed(line).None? <==> Search(line, RamPattern()).None?;
    TemperatureRejected(line);
  }
}
