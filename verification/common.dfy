/** Shared vocabulary: optional and failing results, ASCII digits, and the
    small numeric folds (sum, mean, minimum, maximum) the dashboard applies
    to its samples. */
module Common {

  /** A value that may be absent, as a regular-expression search that found nothing. */
  datatype Option<+T> = None | Some(value: T)

  /** A computation that either yields a value or raises the error it carries. */
  datatype Result<+T, +E> = Ok(value: T) | Err(error: E) {
    predicate IsFailure() {
      Err?
    }

    function PropagateFailure<U>(): Result<U, E>
      requires Err?
    {
      Err(error)
    }

    function Extract(): T
      requires Ok?
    {
      value
    }
  }

  /** ASCII decimal digit (the model reads `\d` as `[0-9]`). */
  predicate IsDigit(c: char) {
    '0' <= c <= '9'
  }

  predicate AllDigits(s: string) {
    forall k :: 0 <= k < |s| ==> IsDigit(s[k])
  }

  function DigitValue(c: char): (d: nat)
    requires IsDigit(c)
    ensures d < 10
  {
    c as int - '0' as int
  }

  /** The integer `int()` reads from a string of ASCII digits, most significant digit first. */
  function DigitsValue(s: string): (n: nat)
    requires AllDigits(s)
    decreases |s|
  {
    if |s| == 0 then 0 else 10 * DigitsValue(s[..|s| - 1]) + DigitValue(s[|s| - 1])
  }

  /** `lit` occurs in `s` starting at index `i`. */
  predicate HasAt(s: string, i: nat, lit: string) {
    i + |lit| <= |s| && s[i..i + |lit|] == lit
  }

  /** `n` blanks. */
  function Spaces(n: nat): (r: string)
    ensures |r| == n
    ensures forall k :: 0 <= k < n ==> r[k] == ' '
  {
    seq(n, _ => ' ')
  }

  /** Python's `xs[start:]`: a negative `start` counts from the end; both ends are clamped. */
  function PyDrop<T>(xs: seq<T>, start: int): seq<T>
  {
    var i := if start < 0 then (if |xs| + start < 0 then 0 else |xs| + start)
             else (if start > |xs| then |xs| else start);
    xs[i..]
  }

  /** Python's `xs[:end]`: a negative `end` counts from the end; both ends are clamped. */
  function PyTake<T>(xs: seq<T>, end: int): seq<T>
  {
    var i := if end < 0 then (if |xs| + end < 0 then 0 else |xs| + end)
             else (if end > |xs| then |xs| else end);
    xs[..i]
  }

  /** `str.ljust(width)`: pad on the right with blanks up to `width`, never truncate. */
  function LJust(s: string, width: int): (r: string)
    ensures |r| == if |s| < width then width else |s|
    ensures r[..|s|] == s
    ensures forall k :: |s| <= k < |r| ==> r[k] == ' '
  {
    if |s| < width then s + Spaces(width - |s|) else s
  }

  function Sum(xs: seq<nat>): nat
  {
    if |xs| == 0 then 0 else Sum(xs[..|xs| - 1]) + xs[|xs| - 1]
  }

  /** `sum(xs) / len(xs) if xs else 0`. */
  function Mean(xs: seq<nat>): (m: real)
    ensures |xs| == 0 ==> m == 0.0
    ensures |xs| > 0 ==> m * |xs| as real == Sum(xs) as real
  {
    if |xs| == 0 then 0.0 else Sum(xs) as real / |xs| as real
  }

  function Min(xs: seq<real>): (m: real)
    requires |xs| > 0
    ensures m in xs
    ensures forall k :: 0 <= k < |xs| ==> m <= xs[k]
  {
    if |xs| == 1 then xs[0]
    else
      var m' := Min(xs[..|xs| - 1]);
      if xs[|xs| - 1] < m' then xs[|xs| - 1] else m'
  }

  function Max(xs: seq<real>): (m: real)
    requires |xs| > 0
    ensures m in xs
    ensures forall k :: 0 <= k < |xs| ==> xs[k] <= m
  {
    if |xs| == 1 then xs[0]
    else
      var m' := Max(xs[..|xs| - 1]);
      if xs[|xs| - 1] > m' then xs[|xs| - 1] else m'
  }
}
