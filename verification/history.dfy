/** The rolling history: one list of samples per metric, each capped at the
    terminal width. The cap is a parameter here; the program reads it from
    the terminal on every append. */
module RollingHistory {

  /** Append `v`, then drop the oldest sample once if the list is now longer than `cap`. */
  function Push(h: seq<real>, v: real, cap: nat): (r: seq<real>)
    ensures |h| + 1 <= cap ==> r == h + [v]
    ensures |h| + 1 > cap ==> |h| > 0 ==> r == h[1..] + [v]
    ensures |h| + 1 > cap ==> |h| == 0 ==> r == []
    ensures |h| <= cap ==> |r| <= cap
    ensures |h| > cap ==> |r| == |h|
  {
    var grown := h + [v];
    if |grown| > cap then grown[1..] else grown
  }

  /** The appended value ends up last unless the cap is zero; the result is a suffix of
      the grown list, so the survivors keep their order; and the oldest sample is dropped,
      at most once, exactly when the grown list is longer than the cap. */
  lemma PushDropsAtMostOldest(h: seq<real>, v: real, cap: nat)
    ensures var r := Push(h, v, cap);
      && |h| <= |r| <= |h| + 1
      && r == (h + [v])[|h| + 1 - |r|..]
      && (|r| == |h| <==> |h| + 1 > cap)
      && (cap > 0 ==> |r| > 0 && r[|r| - 1] == v)
  {
    var r := Push(h, v, cap);
    if |h| + 1 > cap {
      if |h| > 0 {
        assert (h + [v])[1..] == h[1..] + [v];
      } else {
        assert r == [];
      }
    } else {
      assert (h + [v])[0..] == h + [v];
    }
  }

  /** The `n` most recent elements of `xs` (all of them when there are fewer). */
  function Recent<T>(xs: seq<T>, n: nat): (r: seq<T>)
    ensures |r| == if |xs| < n then |xs| else n
  {
    if |xs| < n then xs else xs[|xs| - n..]
  }

  /** Push every value of `vs`, oldest first, under a fixed cap. */
  function PushAll(h: seq<real>, vs: seq<real>, cap: nat): seq<real>
    decreases |vs|
  {
    if |vs| == 0 then h else PushAll(Push(h, vs[0], cap), vs[1..], cap)
  }

  /** Pushing onto a history that respects the cap, then keeping the `cap` most
      recent, is keeping the `cap` most recent of the whole. */
  lemma RecentPush(h: seq<real>, v: real, rest: seq<real>, cap: nat)
    requires |h| <= cap
    ensures Recent(Push(h, v, cap) + rest, cap) == Recent(h + ([v] + rest), cap)
  {
    var all := h + ([v] + rest);
    if |h| + 1 > cap {
      assert Push(h, v, cap) + rest == all[1..];
    } else {
      assert Push(h, v, cap) + rest == all;
    }
  }

  /** Under a fixed cap that the history already respects, the history is always
      exactly the `cap` most recent samples, oldest first. */
  lemma {:induction false} PushAllKeepsRecent(h: seq<real>, vs: seq<real>, cap: nat)
    requires |h| <= cap
    ensures PushAll(h, vs, cap) == Recent(h + vs, cap)
    decreases |vs|
  {
    if |vs| > 0 {
      PushAllKeepsRecent(Push(h, vs[0], cap), vs[1..], cap);
      RecentPush(h, vs[0], vs[1..], cap);
      assert [vs[0]] + vs[1..] == vs;
    }
  }

  /** The code pops once per append, so a history already longer than the cap
      (after the terminal shrank) keeps its length instead of shrinking to the cap. */
  lemma {:induction false} OverlongHistoryKeepsLength(h: seq<real>, vs: seq<real>, cap: nat)
    requires |h| > cap
    ensures |PushAll(h, vs, cap)| == |h|
    decreases |vs|
  {
    if |vs| > 0 {
      OverlongHistoryKeepsLength(Push(h, vs[0], cap), vs[1..], cap);
    }
  }

  /** The seven metrics, in the insertion order of the program's history dictionary. */
  datatype Key = Cpu | Ram | Gpu | Temp | Power | CpuFreq | GpuFreq

  const Keys: seq<Key> := [Cpu, Ram, Gpu, Temp, Power, CpuFreq, GpuFreq]

  datatype History = History(
    cpu: seq<real>, ram: seq<real>, gpu: seq<real>, temp: seq<real>,
    power: seq<real>, cpuFreq: seq<real>, gpuFreq: seq<real>)
  {
    function Get(k: Key): seq<real> {
      match k
      case Cpu => cpu
      case Ram => ram
      case Gpu => gpu
      case Temp => temp
      case Power => power
      case CpuFreq => cpuFreq
      case GpuFreq => gpuFreq
    }

    /** Replace the samples of `k`; every other metric is left alone. */
    function Set(k: Key, s: seq<real>): (h: History)
      ensures h.Get(k) == s
      ensures forall j :: j != k ==> h.Get(j) == Get(j)
    {
      match k
      case Cpu => this.(cpu := s)
      case Ram => this.(ram := s)
      case Gpu => this.(gpu := s)
      case Temp => this.(temp := s)
      case Power => this.(power := s)
      case CpuFreq => this.(cpuFreq := s)
      case GpuFreq => this.(gpuFreq := s)
    }
  }

  /** The empty history the program starts with. */
  const Empty: History := History([], [], [], [], [], [], [])

  /** Every metric holds at most `cap` samples. */
  predicate Bounded(h: History, cap: nat) {
    forall k :: |h.Get(k)| <= cap
  }

  /** `history[k].append(v)` with the single pop. */
  function Append(h: History, k: Key, v: real, cap: nat): History
  {
    h.Set(k, Push(h.Get(k), v, cap))
  }

  /** The loop over `zip(history.keys(), values)`. */
  function AppendAll(h: History, keys: seq<Key>, vals: seq<real>, cap: nat): History
    requires |keys| == |vals|
    decreases |keys|
  {
    if |keys| == 0 then h else AppendAll(Append(h, keys[0], vals[0], cap), keys[1..], vals[1..], cap)
  }

  predicate Distinct(keys: seq<Key>) {
    forall i, j :: 0 <= i < j < |keys| ==> keys[i] != keys[j]
  }

  /** With distinct keys, the zip loop pushes each value onto the list of the key at
      the same position and leaves every other key alone. */
  lemma {:induction false} AppendAllPerKey(h: History, keys: seq<Key>, vals: seq<real>, cap: nat)
    requires |keys| == |vals| && Distinct(keys)
    ensures forall j :: 0 <= j < |keys| ==>
      AppendAll(h, keys, vals, cap).Get(keys[j]) == Push(h.Get(keys[j]), vals[j], cap)
    ensures forall k :: k !in keys ==> AppendAll(h, keys, vals, cap).Get(k) == h.Get(k)
    decreases |keys|
  {
    if |keys| > 0 {
      var h1 := Append(h, keys[0], vals[0], cap);
      var rest := keys[1..];
      assert Distinct(rest) by {
        forall i, j | 0 <= i < j < |rest|
          ensures rest[i] != rest[j]
        {
          assert rest[i] == keys[i + 1] && rest[j] == keys[j + 1];
        }
      }
      AppendAllPerKey(h1, rest, vals[1..], cap);
      assert keys[0] !in rest by {
        forall i | 0 <= i < |rest|
          ensures rest[i] != keys[0]
        {
          assert rest[i] == keys[i + 1];
        }
      }
      forall j | 0 < j < |keys|
        ensures AppendAll(h, keys, vals, cap).Get(keys[j]) == Push(h.Get(keys[j]), vals[j], cap)
      {
        assert keys[j] == rest[j - 1] && vals[j] == vals[1..][j - 1];
      }
    }
  }
}
