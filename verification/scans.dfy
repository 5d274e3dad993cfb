/** Declarative readings of the two per-core `re.findall` scans, and proofs that
    the scans compute exactly them. `RunsFollowedBy` lists the maximal digit
    runs immediately followed by a suffix (`(\d+)%@`); `RunsAfter` lists, for
    every occurrence of a prefix that is immediately followed by a digit, the
    digit run after it (`%@(\d+)`). */
module Scans {
  import opened Common
  import opened Regex

  /** The pattern `(\d+)` followed by the literal `suf`. */
  function FollowedByPattern(suf: string): (pat: Pattern)
    requires |suf| > 0
    ensures Consuming(pat) && Classes(pat) == [false]
  {
    var pat := [Run(false), Lit(suf)];
    assert Classes(pat[1..][1..]) == [];
    assert Classes(pat[1..]) == [];
    pat
  }

  /** With a suffix that starts with a non-digit, the group can never be made to give
      back a digit, so the greedy scan agrees with a backtracking engine. */
  lemma FollowedByIsSeparated(suf: string)
    requires |suf| > 0 && !IsDigit(suf[0])
    ensures Separated(FollowedByPattern(suf))
  {
    var pat := FollowedByPattern(suf);
    assert pat[0] == Run(false) && pat[1] == Lit(suf);
  }

  /** The literal `pre` followed by the pattern `(\d+)`. */
  function AfterPattern(pre: string): (pat: Pattern)
    requires |pre| > 0
    ensures Consuming(pat) && Classes(pat) == [false] && Separated(pat)
  {
    var pat := [Lit(pre), Run(false)];
    assert Classes(pat[1..][1..]) == [];
    assert Classes(pat[1..]) == [false];
    pat
  }

  /** Where `(\d+)` + `suf` matches: at the start of a digit run whose end is followed by `suf`. */
  lemma MatchFollowedByAt(s: string, suf: string, p: nat)
    requires p <= |s| && |suf| > 0
    ensures MatchAt(s, p, FollowedByPattern(suf)) ==
      (if p < |s| && IsDigit(s[p]) && HasAt(s, RunEnd(s, p, false), suf)
       then Some(Match(RunEnd(s, p, false) + |suf|, [s[p..RunEnd(s, p, false)]]))
       else None)
  {
    if p < |s| && IsDigit(s[p]) && HasAt(s, RunEnd(s, p, false), suf) {
      MatchFollowedByHit(s, suf, p);
    } else {
      MatchFollowedByMiss(s, suf, p);
    }
  }

  /** A digit run whose end is followed by `suf` is a match of `(\d+)` + `suf`. */
  lemma MatchFollowedByHit(s: string, suf: string, p: nat)
    requires p < |s| && IsDigit(s[p]) && |suf| > 0
    requires HasAt(s, RunEnd(s, p, false), suf)
    ensures MatchAt(s, p, FollowedByPattern(suf)) == Some(Match(RunEnd(s, p, false) + |suf|, [s[p..RunEnd(s, p, false)]]))
  {
    RunThenLit(s, p, FollowedByPattern(suf));
  }

  /** Anywhere else `(\d+)` + `suf` does not match. */
  lemma MatchFollowedByMiss(s: string, suf: string, p: nat)
    requires p <= |s| && |suf| > 0
    requires !(p < |s| && IsDigit(s[p]) && HasAt(s, RunEnd(s, p, false), suf))
    ensures MatchAt(s, p, FollowedByPattern(suf)).None?
  {
    RunThenLit(s, p, FollowedByPattern(suf));
    assert RunEnd(s, p, false) > p ==> p < |s| && IsDigit(s[p]);
  }

  /** Where `pre` + `(\d+)` matches: at an occurrence of `pre` followed by a digit. */
  lemma MatchAfterAt(s: string, pre: string, p: nat)
    requires p <= |s| && |pre| > 0
    ensures MatchAt(s, p, AfterPattern(pre)) ==
      (if HasAt(s, p, pre) && p + |pre| < |s| && IsDigit(s[p + |pre|])
       then Some(Match(RunEnd(s, p + |pre|, false), [s[p + |pre|..RunEnd(s, p + |pre|, false)]]))
       else None)
  {
    LitThenRun(s, p, AfterPattern(pre));
    if HasAt(s, p, pre) {
      assert RunEnd(s, p + |pre|, false) > p + |pre| <==> p + |pre| < |s| && IsDigit(s[p + |pre|]);
    }
  }

  predicate NoDigits(t: string) {
    forall k :: 0 <= k < |t| ==> !IsDigit(t[k])
  }

  /** From `p` on: each maximal digit run that is immediately followed by `suf`. */
  function RunsFollowedBy(s: string, suf: string, p: nat): (r: seq<string>)
    requires p <= |s|
    ensures forall j :: 0 <= j < |r| ==> |r[j]| > 0 && AllDigits(r[j])
    decreases |s| - p
  {
    if p == |s| then []
    else if !IsDigit(s[p]) then RunsFollowedBy(s, suf, p + 1)
    else
      var e := RunEnd(s, p, false);
      (if HasAt(s, e, suf) then [s[p..e]] else []) + RunsFollowedBy(s, suf, e)
  }

  /** From `p` on: for each occurrence of `pre` followed by a digit, the maximal digit run after it. */
  function RunsAfter(s: string, pre: string, p: nat): (r: seq<string>)
    requires p <= |s|
    ensures forall j :: 0 <= j < |r| ==> |r[j]| > 0 && AllDigits(r[j])
    decreases |s| - p
  {
    if p == |s| then []
    else
      var g := p + |pre|;
      (if HasAt(s, p, pre) && g < |s| && IsDigit(s[g]) then [s[g..RunEnd(s, g, false)]] else [])
      + RunsAfter(s, pre, p + 1)
  }

  lemma {:induction false} SkipNonDigits(s: string, suf: string, a: nat, b: nat)
    requires a <= b <= |s|
    requires forall j :: a <= j < b ==> !IsDigit(s[j])
    ensures RunsFollowedBy(s, suf, a) == RunsFollowedBy(s, suf, b)
    decreases b - a
  {
    if a < b {
      SkipNonDigits(s, suf, a + 1, b);
    }
  }

  /** No match starts inside a digit run whose end is not followed by `suf`. */
  lemma NoMatchInsideRun(s: string, suf: string, p: nat, q: nat)
    requires p < |s| && IsDigit(s[p]) && |suf| > 0
    requires p <= q < RunEnd(s, p, false)
    requires !HasAt(s, RunEnd(s, p, false), suf)
    ensures q < |s| && MatchAt(s, q, FollowedByPattern(suf)).None?
  {
    RunEndInside(s, p, q, false);
    MatchFollowedByMiss(s, suf, q);
  }

  /** Trying every start inside a digit run whose end is not followed by `suf` finds nothing. */
  lemma {:induction false} ScanInsideRun(s: string, suf: string, p: nat, q: nat)
    requires p < |s| && IsDigit(s[p]) && |suf| > 0
    requires p <= q <= RunEnd(s, p, false)
    requires !HasAt(s, RunEnd(s, p, false), suf)
    ensures FindAllFrom(s, FollowedByPattern(suf), q) == FindAllFrom(s, FollowedByPattern(suf), RunEnd(s, p, false))
    decreases RunEnd(s, p, false) - q
  {
    if q < RunEnd(s, p, false) {
      NoMatchInsideRun(s, suf, p, q);
      FindAllSkips(s, FollowedByPattern(suf), q);
      ScanInsideRun(s, suf, p, q + 1);
    }
  }

  /** A maximal digit run followed by `suf` is one element of the scan, which resumes after `suf`. */
  lemma ScanTakesRun(s: string, suf: string, p: nat)
    requires p < |s| && IsDigit(s[p]) && |suf| > 0
    requires HasAt(s, RunEnd(s, p, false), suf)
    ensures var e := RunEnd(s, p, false);
      FindAllFrom(s, FollowedByPattern(suf), p) == [s[p..e]] + FindAllFrom(s, FollowedByPattern(suf), e + |suf|)
  {
    var e := RunEnd(s, p, false);
    MatchFollowedByHit(s, suf, p);
    FindAllTakes(s, FollowedByPattern(suf), p, Match(e + |suf|, [s[p..e]]));
  }

  /** On the reference side, a run followed by `suf` is listed and the listing resumes after `suf`. */
  lemma RunsFollowedByTakes(s: string, suf: string, p: nat)
    requires p < |s| && IsDigit(s[p]) && NoDigits(suf)
    requires HasAt(s, RunEnd(s, p, false), suf)
    ensures var e := RunEnd(s, p, false);
      RunsFollowedBy(s, suf, p) == [s[p..e]] + RunsFollowedBy(s, suf, e + |suf|)
  {
    var e := RunEnd(s, p, false);
    forall j | e <= j < e + |suf|
      ensures !IsDigit(s[j])
    {
      assert s[e..e + |suf|] == suf;
      assert s[j] == suf[j - e];
      assert !IsDigit(suf[j - e]);
    }
    SkipNonDigits(s, suf, e, e + |suf|);
  }

  /** The scan and its reference agree at the end of the text. */
  lemma FollowedByAtEnd(s: string, suf: string)
    requires |suf| > 0
    ensures FindAllFrom(s, FollowedByPattern(suf), |s|) == RunsFollowedBy(s, suf, |s|)
  {
    MatchFollowedByMiss(s, suf, |s|);
  }

  /** The scan steps over a character that is not a digit. */
  lemma FollowedBySkipsNonDigit(s: string, suf: string, p: nat)
    requires p < |s| && !IsDigit(s[p]) && |suf| > 0
    ensures FindAllFrom(s, FollowedByPattern(suf), p) == FindAllFrom(s, FollowedByPattern(suf), p + 1)
  {
    MatchFollowedByMiss(s, suf, p);
    FindAllSkips(s, FollowedByPattern(suf), p);
  }

  /** Past a character that is not a digit, the scan and its reference agree if they agree one position on. */
  lemma AgreeOverNonDigit(s: string, suf: string, p: nat)
    requires p < |s| && |suf| > 0 && !IsDigit(s[p])
    requires FindAllFrom(s, FollowedByPattern(suf), p + 1) == RunsFollowedBy(s, suf, p + 1)
    ensures FindAllFrom(s, FollowedByPattern(suf), p) == RunsFollowedBy(s, suf, p)
  {
    FollowedBySkipsNonDigit(s, suf, p);
  }

  /** At a digit run followed by `suf`, both list the run and agree if they agree after `suf`. */
  lemma AgreeOverMatch(s: string, suf: string, p: nat)
    requires p < |s| && |suf| > 0 && NoDigits(suf) && IsDigit(s[p])
    requires HasAt(s, RunEnd(s, p, false), suf)
    requires FindAllFrom(s, FollowedByPattern(suf), RunEnd(s, p, false) + |suf|)
      == RunsFollowedBy(s, suf, RunEnd(s, p, false) + |suf|)
    ensures FindAllFrom(s, FollowedByPattern(suf), p) == RunsFollowedBy(s, suf, p)
  {
    ScanTakesRun(s, suf, p);
    RunsFollowedByTakes(s, suf, p);
  }

  /** At a digit run not followed by `suf`, both skip the run and agree if they agree at its end. */
  lemma AgreeOverRun(s: string, suf: string, p: nat)
    requires p < |s| && |suf| > 0 && IsDigit(s[p])
    requires !HasAt(s, RunEnd(s, p, false), suf)
    requires FindAllFrom(s, FollowedByPattern(suf), RunEnd(s, p, false)) == RunsFollowedBy(s, suf, RunEnd(s, p, false))
    ensures FindAllFrom(s, FollowedByPattern(suf), p) == RunsFollowedBy(s, suf, p)
  {
    ScanInsideRun(s, suf, p, p);
    assert RunsFollowedBy(s, suf, p) == [] + RunsFollowedBy(s, suf, RunEnd(s, p, false));
  }

  /** `re.findall(r"(\d+)" + suf, s)` is the list of maximal digit runs followed by `suf`. */
  lemma {:induction false} FindAllFollowedBy(s: string, suf: string, p: nat)
    requires p <= |s|
    requires |suf| > 0 && NoDigits(suf)
    ensures FindAllFrom(s, FollowedByPattern(suf), p) == RunsFollowedBy(s, suf, p)
    decreases |s| - p
  {
    if p == |s| {
      FollowedByAtEnd(s, suf);
    } else if !IsDigit(s[p]) {
      FindAllFollowedBy(s, suf, p + 1);
      AgreeOverNonDigit(s, suf, p);
    } else if HasAt(s, RunEnd(s, p, false), suf) {
      FindAllFollowedBy(s, suf, RunEnd(s, p, false) + |suf|);
      AgreeOverMatch(s, suf, p);
    } else {
      FindAllFollowedBy(s, suf, RunEnd(s, p, false));
      AgreeOverRun(s, suf, p);
    }
  }

  lemma {:induction false} SkipNoOccurrence(s: string, pre: string, a: nat, b: nat)
    requires a <= b <= |s|
    requires forall q :: a <= q < b ==> !HasAt(s, q, pre)
    ensures RunsAfter(s, pre, a) == RunsAfter(s, pre, b)
    decreases b - a
  {
    if a < b {
      SkipNoOccurrence(s, pre, a + 1, b);
    }
  }

  /** `pre` cannot overlap itself: its first character does not recur in it. */
  predicate NonOverlapping(pre: string) {
    |pre| > 0 && forall k :: 0 < k < |pre| ==> pre[k] != pre[0]
  }

  lemma HeadOfOccurrence(s: string, q: nat, pre: string)
    requires |pre| > 0 && q < |s|
    ensures HasAt(s, q, pre) ==> s[q] == pre[0]
  {
    if HasAt(s, q, pre) {
      assert s[q] == s[q..q + |pre|][0];
    }
  }

  /** No occurrence of `pre` starts strictly inside an occurrence of `pre` followed by a digit run. */
  lemma NoOccurrenceInsideMatch(s: string, pre: string, p: nat)
    requires NonOverlapping(pre) && NoDigits(pre)
    requires HasAt(s, p, pre) && p + |pre| < |s|
    ensures forall q :: p < q < RunEnd(s, p + |pre|, false) ==> !HasAt(s, q, pre)
  {
    var g := p + |pre|;
    var e := RunEnd(s, g, false);
    forall q | p < q < e
      ensures !HasAt(s, q, pre)
    {
      if q < g {
        assert s[q] == s[p..g][q - p];
      }
      assert s[q] != pre[0];
      HeadOfOccurrence(s, q, pre);
    }
  }

  /** After a match, the reference resumes where the scan resumes: at the end of the digit run. */
  lemma SkipPastMatch(s: string, pre: string, p: nat)
    requires NonOverlapping(pre) && NoDigits(pre)
    requires HasAt(s, p, pre) && p + |pre| < |s|
    ensures RunsAfter(s, pre, p + 1) == RunsAfter(s, pre, RunEnd(s, p + |pre|, false))
  {
    NoOccurrenceInsideMatch(s, pre, p);
    SkipNoOccurrence(s, pre, p + 1, RunEnd(s, p + |pre|, false));
  }

  /** One matching step: scan and reference both emit the run after `pre` and resume at its end. */
  lemma ScanPastMatch(s: string, pre: string, p: nat)
    requires p < |s|
    requires NonOverlapping(pre) && NoDigits(pre)
    requires MatchAt(s, p, AfterPattern(pre)).Some?
    ensures p + |pre| < |s|
    ensures var g := p + |pre|; var e := RunEnd(s, g, false);
      && FindAllFrom(s, AfterPattern(pre), p) == [s[g..e]] + FindAllFrom(s, AfterPattern(pre), e)
      && RunsAfter(s, pre, p) == [s[g..e]] + RunsAfter(s, pre, e)
  {
    var pat := AfterPattern(pre);
    MatchAfterAt(s, pre, p);
    var g := p + |pre|;
    var e := RunEnd(s, g, false);
    assert SearchFrom(s, pat, p) == Some(Found(p, Match(e, [s[g..e]])));
    assert RunsAfter(s, pre, p) == [s[g..e]] + RunsAfter(s, pre, p + 1);
    SkipPastMatch(s, pre, p);
  }

  /** Where `pre` + `(\d+)` does not match, the scan and its reference agree if they agree one position on. */
  lemma AgreeAfterMiss(s: string, pre: string, p: nat)
    requires p < |s| && NonOverlapping(pre)
    requires MatchAt(s, p, AfterPattern(pre)).None?
    requires FindAllFrom(s, AfterPattern(pre), p + 1) == RunsAfter(s, pre, p + 1)
    ensures FindAllFrom(s, AfterPattern(pre), p) == RunsAfter(s, pre, p)
  {
    MatchAfterAt(s, pre, p);
    FindAllSkips(s, AfterPattern(pre), p);
  }

  /** Where it matches, both list the run and agree if they agree at the run's end. */
  lemma AgreeAfterMatch(s: string, pre: string, p: nat)
    requires p < |s| && NonOverlapping(pre) && NoDigits(pre)
    requires MatchAt(s, p, AfterPattern(pre)).Some?
    requires p + |pre| <= |s|
    requires FindAllFrom(s, AfterPattern(pre), RunEnd(s, p + |pre|, false))
      == RunsAfter(s, pre, RunEnd(s, p + |pre|, false))
    ensures FindAllFrom(s, AfterPattern(pre), p) == RunsAfter(s, pre, p)
  {
    ScanPastMatch(s, pre, p);
  }

  /** `re.findall(pre + r"(\d+)", s)` is the list of digit runs after each occurrence of `pre`. */
  lemma {:induction false} FindAllAfter(s: string, pre: string, p: nat)
    requires p <= |s|
    requires NonOverlapping(pre) && NoDigits(pre)
    ensures FindAllFrom(s, AfterPattern(pre), p) == RunsAfter(s, pre, p)
    decreases |s| - p
  {
    if p == |s| {
      MatchAfterAt(s, pre, p);
    } else if MatchAt(s, p, AfterPattern(pre)).None? {
      FindAllAfter(s, pre, p + 1);
      AgreeAfterMiss(s, pre, p);
    } else {
      MatchAfterAt(s, pre, p);
      FindAllAfter(s, pre, RunEnd(s, p + |pre|, false));
      AgreeAfterMatch(s, pre, p);
    }
  }
}
