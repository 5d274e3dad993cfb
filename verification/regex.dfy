/** The regular expressions the line parser uses, as a tiny pattern language:
    a pattern is a sequence of literal texts and greedy capture groups
    `(\d+)` or `([\d.]+)`. `MatchAt` is the deterministic matcher the model
    runs; `Backtrack` is the search a backtracking regular-expression engine
    performs, kept as the reference the matcher is proved against. `Search`
    is `re.search` (leftmost match) and `FindAll` is `re.findall` for a
    pattern with exactly one group. */
module Regex {
  import opened Common

  /** `Lit(t)` matches the text `t`; `Run(dots)` is a capture group matching
      one or more digits, or digits and dots when `dots` holds. */
  datatype Item = Lit(text: string) | Run(dots: bool)

  type Pattern = seq<Item>

  /** A successful match: where it ends and what its groups captured, in order. */
  datatype Match = Match(end: nat, groups: seq<string>)

  /** A match found by a search, with the position where it starts. */
  datatype Found = Found(start: nat, m: Match)

  predicate InClass(c: char, dots: bool) {
    IsDigit(c) || (dots && c == '.')
  }

  /** The end of the longest run of `dots`-class characters starting at `i`. */
  function RunEnd(s: string, i: nat, dots: bool): (e: nat)
    requires i <= |s|
    ensures i <= e <= |s|
    ensures forall k :: i <= k < e ==> InClass(s[k], dots)
    ensures e == |s| || !InClass(s[e], dots)
    decreases |s| - i
  {
    if i == |s| || !InClass(s[i], dots) then i else RunEnd(s, i + 1, dots)
  }

  /** The longest run of `dots`-class characters starting at `i`. */
  function RunAt(s: string, i: nat, dots: bool): (r: string)
    requires i <= |s|
    ensures forall k :: 0 <= k < |r| ==> InClass(r[k], dots)
  {
    s[i..RunEnd(s, i, dots)]
  }

  /** The longest digit run starting at `i`. */
  function DigitRunAt(s: string, i: nat): (r: string)
    requires i <= |s|
    ensures AllDigits(r)
    ensures r == RunAt(s, i, false)
  {
    RunAt(s, i, false)
  }

  /** The class of each capture group of `pat`, in order. */
  function Classes(pat: Pattern): seq<bool>
  {
    if |pat| == 0 then []
    else match pat[0]
      case Lit(_) => Classes(pat[1..])
      case Run(d) => [d] + Classes(pat[1..])
  }

  /** Every group is non-empty and made of characters of its own class. */
  predicate GroupsFit(groups: seq<string>, classes: seq<bool>) {
    && |groups| == |classes|
    && forall j :: 0 <= j < |groups| ==>
         |groups[j]| > 0 && forall k :: 0 <= k < |groups[j]| ==> InClass(groups[j][k], classes[j])
  }

  /** A pattern that cannot match the empty string. */
  predicate Consuming(pat: Pattern) {
    |pat| > 0 && (pat[0].Run? || |pat[0].text| > 0)
  }

  /** Each group is either last or followed by a literal whose first character is
      outside the group's class, so a greedy group can never be forced to give back. */
  predicate Separated(pat: Pattern) {
    forall j :: 0 <= j < |pat| && pat[j].Run? ==>
      j + 1 == |pat| ||
      (pat[j + 1].Lit? && |pat[j + 1].text| > 0 && !InClass(pat[j + 1].text[0], pat[j].dots))
  }

  /** Match `pat` at `i`, each group taking the longest run of its class. */
  function MatchAt(s: string, i: nat, pat: Pattern): (r: Option<Match>)
    requires i <= |s|
    ensures r.Some? ==> i <= r.value.end <= |s|
    ensures r.Some? ==> GroupsFit(r.value.groups, Classes(pat))
    ensures r.Some? && Consuming(pat) ==> i < r.value.end
    decreases |pat|
  {
    if |pat| == 0 then Some(Match(i, []))
    else match pat[0]
      case Lit(t) =>
        if HasAt(s, i, t) then MatchAt(s, i + |t|, pat[1..]) else None
      case Run(d) =>
        var e := RunEnd(s, i, d);
        if e == i then None
        else match MatchAt(s, e, pat[1..])
          case None => None
          case Some(m) => Some(Match(m.end, [s[i..e]] + m.groups))
  }

  lemma UnfoldLit(s: string, i: nat, pat: Pattern)
    requires i <= |s| && |pat| > 0 && pat[0].Lit?
    ensures MatchAt(s, i, pat) ==
      (if HasAt(s, i, pat[0].text) then MatchAt(s, i + |pat[0].text|, pat[1..]) else None)
  {
  }

  lemma UnfoldRun(s: string, i: nat, pat: Pattern)
    requires i <= |s| && |pat| > 0 && pat[0].Run?
    ensures var e := RunEnd(s, i, pat[0].dots);
      (e == i || MatchAt(s, e, pat[1..]).None?) ==> MatchAt(s, i, pat).None?
    ensures var e := RunEnd(s, i, pat[0].dots);
      e > i && MatchAt(s, e, pat[1..]).Some? ==>
        MatchAt(s, i, pat) == Some(Match(MatchAt(s, e, pat[1..]).value.end, [s[i..e]] + MatchAt(s, e, pat[1..]).value.groups))
  {
  }

  /** A group then a literal matches where the longest run is non-empty and the literal follows it. */
  lemma RunThenLit(s: string, p: nat, pat: Pattern)
    requires p <= |s| && |pat| == 2 && pat[0].Run? && pat[1].Lit?
    ensures var e := RunEnd(s, p, pat[0].dots);
      var t := pat[1].text;
      MatchAt(s, p, pat) == if e > p && HasAt(s, e, t) then Some(Match(e + |t|, [s[p..e]])) else None
  {
    var e := RunEnd(s, p, pat[0].dots);
    var t := pat[1].text;
    var tail := pat[1..];
    assert tail[0] == Lit(t) && |tail[1..]| == 0;
    UnfoldRun(s, p, pat);
    UnfoldLit(s, e, tail);
    if e > p && HasAt(s, e, t) {
      assert MatchAt(s, e, tail) == Some(Match(e + |t|, []));
      assert [s[p..e]] + [] == [s[p..e]];
    }
  }

  /** A literal then a group matches where the literal occurs and a non-empty run follows it. */
  lemma LitThenRun(s: string, p: nat, pat: Pattern)
    requires p <= |s| && |pat| == 2 && pat[0].Lit? && pat[1].Run?
    ensures var t := pat[0].text;
      MatchAt(s, p, pat) ==
        if HasAt(s, p, t) && RunEnd(s, p + |t|, pat[1].dots) > p + |t|
        then Some(Match(RunEnd(s, p + |t|, pat[1].dots), [s[p + |t|..RunEnd(s, p + |t|, pat[1].dots)]]))
        else None
  {
    var t := pat[0].text;
    var tail := pat[1..];
    assert tail[0] == pat[1] && |tail[1..]| == 0;
    UnfoldLit(s, p, pat);
    if HasAt(s, p, t) {
      var g := p + |t|;
      var e := RunEnd(s, g, pat[1].dots);
      UnfoldRun(s, g, tail);
      if e > g {
        assert MatchAt(s, e, tail[1..]) == Some(Match(e, []));
        assert [s[g..e]] + [] == [s[g..e]];
      }
    }
  }

  /** A pattern that starts with a literal and then a group captures, as its first
      group, the longest run of the group's class right after the literal. */
  lemma FirstGroupAfterLiteral(s: string, p: nat, pat: Pattern)
    requires p <= |s| && |pat| >= 2 && pat[0].Lit? && pat[1].Run?
    requires MatchAt(s, p, pat).Some?
    ensures p + |pat[0].text| <= |s|
    ensures |MatchAt(s, p, pat).value.groups| > 0
    ensures MatchAt(s, p, pat).value.groups[0] == RunAt(s, p + |pat[0].text|, pat[1].dots)
  {
    UnfoldLit(s, p, pat);
    UnfoldRun(s, p + |pat[0].text|, pat[1..]);
  }

  /** Reference: the backtracking engine. A group first takes every character of
      its class, then gives them back one at a time until the rest matches. */
  function Backtrack(s: string, i: nat, pat: Pattern): Option<Match>
    requires i <= |s|
    decreases |pat|, 1, 0
  {
    if |pat| == 0 then Some(Match(i, []))
    else match pat[0]
      case Lit(t) =>
        if HasAt(s, i, t) then Backtrack(s, i + |t|, pat[1..]) else None
      case Run(d) => TryLengths(s, i, RunEnd(s, i, d), pat[1..])
  }

  /** Try the group `s[start..k]`, then ever shorter non-empty groups. */
  function TryLengths(s: string, start: nat, k: nat, rest: Pattern): Option<Match>
    requires start <= k <= |s|
    decreases |rest| + 1, 0, k
  {
    if k == start then None
    else match Backtrack(s, k, rest)
      case Some(m) => Some(Match(m.end, [s[start..k]] + m.groups))
      case None => TryLengths(s, start, k - 1, rest)
  }

  /** Inside a run, every shorter group leaves a class character where the
      following literal must start, so no shorter group succeeds. */
  lemma {:induction false} ShorterGroupsFail(s: string, start: nat, k: nat, d: bool, rest: Pattern)
    requires start <= k < |s|
    requires forall j :: start < j <= k ==> InClass(s[j], d)
    requires |rest| > 0 && rest[0].Lit? && |rest[0].text| > 0 && !InClass(rest[0].text[0], d)
    ensures TryLengths(s, start, k, rest) == None
    decreases k
  {
    if k > start {
      var t := rest[0].text;
      if k + |t| <= |s| {
        assert s[k..k + |t|][0] == s[k];
      }
      assert Backtrack(s, k, rest) == None;
      ShorterGroupsFail(s, start, k - 1, d, rest);
    }
  }

  /** On separated patterns the greedy matcher is exactly the backtracking engine. */
  lemma {:induction false} GreedyIsBacktracking(s: string, i: nat, pat: Pattern)
    requires i <= |s|
    requires Separated(pat)
    ensures MatchAt(s, i, pat) == Backtrack(s, i, pat)
    decreases |pat|
  {
    if |pat| > 0 {
      var rest := pat[1..];
      assert Separated(rest) by {
        forall j | 0 <= j < |rest| && rest[j].Run?
          ensures j + 1 == |rest| ||
            (rest[j + 1].Lit? && |rest[j + 1].text| > 0 && !InClass(rest[j + 1].text[0], rest[j].dots))
        {
          assert rest[j] == pat[j + 1];
        }
      }
      match pat[0]
      case Lit(t) =>
        if HasAt(s, i, t) {
          GreedyIsBacktracking(s, i + |t|, rest);
        }
      case Run(d) =>
        var e := RunEnd(s, i, d);
        if e > i {
          GreedyIsBacktracking(s, e, rest);
          if MatchAt(s, e, rest).None? {
            assert |rest| > 0;
            assert pat[1] == rest[0];
            ShorterGroupsFail(s, i, e - 1, d, rest);
          }
        }
    }
  }

  /** `re.search` from position `p`: the leftmost position at or after `p` where `pat` matches. */
  function SearchFrom(s: string, pat: Pattern, p: nat): (r: Option<Found>)
    requires p <= |s|
    ensures r.Some? ==> p <= r.value.start <= |s| && MatchAt(s, r.value.start, pat) == Some(r.value.m)
    decreases |s| - p
  {
    match MatchAt(s, p, pat)
    case Some(m) => Some(Found(p, m))
    case None => if p == |s| then None else SearchFrom(s, pat, p + 1)
  }

  /** The search returns the leftmost match: no position before the one it
      returns matches, and when it returns nothing no position matches. */
  lemma {:induction false} SearchFromIsLeftmost(s: string, pat: Pattern, p: nat)
    requires p <= |s|
    ensures SearchFrom(s, pat, p).Some? ==>
      forall q :: p <= q < SearchFrom(s, pat, p).value.start ==> MatchAt(s, q, pat).None?
    ensures SearchFrom(s, pat, p).None? ==> forall q :: p <= q <= |s| ==> MatchAt(s, q, pat).None?
    decreases |s| - p
  {
    if MatchAt(s, p, pat).None? && p < |s| {
      SearchFromIsLeftmost(s, pat, p + 1);
      SearchFromSkips(s, pat, p);
    }
  }

  /** One failed position: the search from it is the search from the next one, and
      the next one's leftmost guarantee extends back to it. */
  lemma SearchFromSkips(s: string, pat: Pattern, p: nat)
    requires p < |s| && MatchAt(s, p, pat).None?
    requires SearchFrom(s, pat, p + 1).Some? ==>
      forall q :: p + 1 <= q < SearchFrom(s, pat, p + 1).value.start ==> MatchAt(s, q, pat).None?
    requires SearchFrom(s, pat, p + 1).None? ==> forall q :: p + 1 <= q <= |s| ==> MatchAt(s, q, pat).None?
    ensures SearchFrom(s, pat, p) == SearchFrom(s, pat, p + 1)
    ensures SearchFrom(s, pat, p).Some? ==>
      forall q :: p <= q < SearchFrom(s, pat, p).value.start ==> MatchAt(s, q, pat).None?
    ensures SearchFrom(s, pat, p).None? ==> forall q :: p <= q <= |s| ==> MatchAt(s, q, pat).None?
  {
  }

  function Search(s: string, pat: Pattern): Option<Found>
  {
    SearchFrom(s, pat, 0)
  }

  /** `re.findall` from position `p` for a pattern with one group: the group of each
      successive match, the next search starting where the previous match ended. */
  function FindAllFrom(s: string, pat: Pattern, p: nat): (r: seq<string>)
    requires p <= |s|
    requires Consuming(pat) && |Classes(pat)| == 1
    ensures forall j :: 0 <= j < |r| ==>
      |r[j]| > 0 && forall k :: 0 <= k < |r[j]| ==> InClass(r[j][k], Classes(pat)[0])
    decreases |s| - p
  {
    match SearchFrom(s, pat, p)
    case None => []
    case Some(f) => [f.m.groups[0]] + FindAllFrom(s, pat, f.m.end)
  }

  function FindAll(s: string, pat: Pattern): seq<string>
    requires Consuming(pat) && |Classes(pat)| == 1
  {
    FindAllFrom(s, pat, 0)
  }

  /** A failed position is simply skipped by the scan. */
  lemma FindAllSkips(s: string, pat: Pattern, p: nat)
    requires p < |s|
    requires Consuming(pat) && |Classes(pat)| == 1
    requires MatchAt(s, p, pat).None?
    ensures FindAllFrom(s, pat, p) == FindAllFrom(s, pat, p + 1)
  {
  }

  /** A scan from a position where the pattern matches takes that match's group and resumes at its end. */
  lemma FindAllTakes(s: string, pat: Pattern, p: nat, m: Match)
    requires p <= |s|
    requires Consuming(pat) && |Classes(pat)| == 1
    requires MatchAt(s, p, pat) == Some(m)
    ensures p < m.end <= |s| && |m.groups| == 1
    ensures FindAllFrom(s, pat, p) == [m.groups[0]] + FindAllFrom(s, pat, m.end)
  {
  }

  /** Starting anywhere inside a run gives the same run end. */
  lemma {:induction false} RunEndInside(s: string, i: nat, q: nat, d: bool)
    requires i <= |s| && i <= q <= RunEnd(s, i, d)
    ensures RunEnd(s, q, d) == RunEnd(s, i, d)
    decreases q - i
  {
    if q > i {
      RunEndInside(s, i + 1, q, d);
    }
  }

  /** `p` is the leftmost position where the backtracking engine matches `pat`. */
  ghost predicate LeftmostAt(s: string, pat: Pattern, p: nat) {
    && p <= |s|
    && Backtrack(s, p, pat).Some?
    && forall q :: 0 <= q < p ==> Backtrack(s, q, pat).None?
  }

  /** On a separated pattern, `Search` returns the engine's leftmost match, and
      finds nothing exactly when the engine matches at no position. */
  lemma SearchIsLeftmost(s: string, pat: Pattern)
    requires Separated(pat)
    ensures Search(s, pat).Some? ==>
      && LeftmostAt(s, pat, Search(s, pat).value.start)
      && Backtrack(s, Search(s, pat).value.start, pat) == Some(Search(s, pat).value.m)
    ensures Search(s, pat).None? <==> forall p :: 0 <= p <= |s| ==> Backtrack(s, p, pat).None?
  {
    SearchFromIsLeftmost(s, pat, 0);
    forall p | 0 <= p <= |s|
      ensures MatchAt(s, p, pat) == Backtrack(s, p, pat)
    {
      GreedyIsBacktracking(s, p, pat);
    }
  }

  /** When the engine's leftmost match of a literal-then-group pattern is at `p`,
      `Search` finds it there and its first group is the run right after the literal. */
  lemma SearchFindsLeftmost(s: string, pat: Pattern, p: nat)
    requires Separated(pat) && |pat| >= 2 && pat[0].Lit? && pat[1].Run?
    requires LeftmostAt(s, pat, p)
    ensures Search(s, pat).Some? && Search(s, pat).value.start == p
    ensures p + |pat[0].text| <= |s|
    ensures |Search(s, pat).value.m.groups| > 0
    ensures Search(s, pat).value.m.groups[0] == RunAt(s, p + |pat[0].text|, pat[1].dots)
  {
    GreedyIsBacktracking(s, p, pat);
    assert MatchAt(s, p, pat).Some?;
    SearchFromIsLeftmost(s, pat, 0);
    var f := SearchFrom(s, pat, 0).value;
    GreedyIsBacktracking(s, f.start, pat);
    assert f.start <= p;
    assert Backtrack(s, f.start, pat).Some?;
    FirstGroupAfterLiteral(s, p, pat);
  }
}
