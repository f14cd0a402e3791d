/**
 * The parameter space an Ordinal TDE searches: the window range derived from
 * the series length and the cartesian grid of member parameter vectors.
 */
module ParameterSpace {
  import opened Common

  /** `[window_size, word_length, norm, levels, igb]`, the arguments of a member. */
  datatype Params = Params(windowSize: int, wordLength: nat, norm: bool, levels: nat, igb: bool)

  const WordLengths: seq<nat> := [16, 14, 12, 10, 8]
  const NormOptions: seq<bool> := [true, false]
  const LevelOptions: seq<nat> := [1, 2, 3]
  /** The ordinal version has no equi-depth binning. */
  const IgbOptions: seq<bool> := [true]
  const AlphabetSize: nat := 4

  /** `int(n_timepoints * max_win_len_prop)`. */
  function MaxWindow(nTimepoints: nat, maxWinLenProp: real): int
  {
    Trunc(nTimepoints as real * maxWinLenProp)
  }

  /**
   * `win_inc`: the window span divided by a quarter of the series length,
   * truncated, and raised to 1 when below 1.
   */
  function WindowIncrement(nTimepoints: nat, minWindow: int, maxWindow: int): (inc: nat)
    requires nTimepoints > 0
    ensures inc >= 1
    ensures inc > 1 ==>
      inc as real * (nTimepoints as real / 4.0) <= (maxWindow - minWindow) as real
      < (inc + 1) as real * (nTimepoints as real / 4.0)
    ensures (maxWindow - minWindow) as real >= 2.0 * (nTimepoints as real / 4.0) ==> inc > 1
  {
    var searches := nTimepoints as real / 4.0;
    QuotientAtLeastTwo((maxWindow - minWindow) as real, searches);
    var q := Trunc((maxWindow - minWindow) as real / searches);
    if q < 1 then 1
    else
      QuotientBounds((maxWindow - minWindow) as real, searches, q);
      q
  }

  /** A span of at least two divisors has a quotient of at least 2. */
  lemma QuotientAtLeastTwo(s: real, d: real)
    requires d > 0.0
    ensures s >= 2.0 * d ==> s / d >= 2.0
  {
    var x := s / d;
    assert x * d == s;
    if s >= 2.0 * d && x < 2.0 {
      PositiveProduct(2.0 - x, d);
    }
  }

  lemma QuotientBounds(s: real, d: real, q: int)
    requires d > 0.0 && q >= 1 && q == Trunc(s / d)
    ensures q as real * d <= s < (q + 1) as real * d
  {
    var x := s / d;
    var e := x - q as real;
    assert 0.0 <= e < 1.0;
    assert x * d == s;
    assert s == q as real * d + e * d;
    assert (q + 1) as real * d == q as real * d + d;
    NonNegativeProduct(e, d);
    PositiveProduct(1.0 - e, d);
    assert (1.0 - e) * d == d - e * d;
    assert e * d < d;
    assert s < q as real * d + d;
  }

  lemma NonNegativeProduct(a: real, b: real)
    requires a >= 0.0 && b > 0.0
    ensures a * b >= 0.0
  {
  }

  lemma PositiveProduct(a: real, b: real)
    requires a > 0.0 && b > 0.0
    ensures a * b > 0.0
  {
  }

  /** Python `range(start, stop, step)` for a positive step. */
  function Range(start: int, stop: int, step: nat): (r: seq<int>)
    requires step >= 1
    ensures forall k :: 0 <= k < |r| ==> r[k] == start + k * step && r[k] < stop
    ensures start + |r| * step >= stop
    decreases stop - start
  {
    if start >= stop then []
    else
      var rest := Range(start + step, stop, step);
      RangeCons(start, step, rest);
      [start] + rest
  }

  /** Prepending `start` to the progression from `start + step` continues it. */
  lemma RangeCons(start: int, step: nat, rest: seq<int>)
    requires forall k :: 0 <= k < |rest| ==> rest[k] == start + step + k * step
    ensures forall k :: 0 <= k < |rest| + 1 ==> ([start] + rest)[k] == start + k * step
    ensures start + (|rest| + 1) * step == start + step + |rest| * step
  {
    forall k | 1 <= k < |rest| + 1
      ensures ([start] + rest)[k] == start + k * step
    {
      assert ([start] + rest)[k] == rest[k - 1];
      StepProduct(k - 1, step);
    }
    StepProduct(|rest|, step);
  }

  lemma StepProduct(k: int, step: int)
    ensures (k + 1) * step == k * step + step
  {
  }

  lemma DifferenceProduct(i: int, j: int, step: int)
    ensures j * step - i * step == (j - i) * step
  {
  }

  lemma RangeIncreasing(start: int, stop: int, step: nat)
    requires step >= 1
    ensures StrictlyIncreasing(Range(start, stop, step))
    ensures Distinct(Range(start, stop, step))
  {
    var r := Range(start, stop, step);
    forall i, j | 0 <= i < j < |r|
      ensures r[i] < r[j]
    {
      MulAtLeast(step, j - i);
      DifferenceProduct(i, j, step);
    }
  }

  /** The window sizes `range(min_window, max_window + 1, win_inc)`. */
  function Windows(minWindow: int, maxWindow: int, winInc: nat): seq<int>
    requires winInc >= 1
  {
    Range(minWindow, maxWindow + 1, winInc)
  }

  /** The vectors of one (normalise, window) pair: word length outer, levels inner. */
  function WindowBlock(norm: bool, w: int): (r: seq<Params>)
    ensures |r| == |WordLengths| * |LevelOptions| * |IgbOptions|
    ensures forall k :: 0 <= k < |r| ==>
      r[k].windowSize == w && r[k].norm == norm && r[k].wordLength in WordLengths
      && r[k].levels in LevelOptions && r[k].igb in IgbOptions
  {
    seq(15, k requires 0 <= k < 15 => Params(w, WordLengths[k / 3], norm, LevelOptions[k % 3], IgbOptions[0]))
  }

  function NormBlock(norm: bool, windows: seq<int>): seq<Params>
  {
    if windows == [] then [] else WindowBlock(norm, windows[0]) + NormBlock(norm, windows[1..])
  }

  function GridOver(norms: seq<bool>, windows: seq<int>): seq<Params>
  {
    if norms == [] then [] else NormBlock(norms[0], windows) + GridOver(norms[1..], windows)
  }

  /**
   * `_unique_parameters(max_window, win_inc)`: normalise outermost, then the
   * window, the word length, the levels and the binning flag. It starts from
   * the configured minimum window, never from a clamped one.
   */
  function UniqueParameters(minWindow: int, maxWindow: int, winInc: nat): seq<Params>
    requires winInc >= 1
  {
    GridOver(NormOptions, Windows(minWindow, maxWindow, winInc))
  }

  ghost predicate InGrid(p: Params, windows: seq<int>)
  {
    p.windowSize in windows && p.wordLength in WordLengths && p.norm in NormOptions
    && p.levels in LevelOptions && p.igb in IgbOptions
  }

  lemma WindowBlockMembers(norm: bool, w: int, p: Params)
    ensures p in WindowBlock(norm, w) <==>
      p.windowSize == w && p.norm == norm && p.wordLength in WordLengths
      && p.levels in LevelOptions && p.igb in IgbOptions
  {
    var r := WindowBlock(norm, w);
    if p.windowSize == w && p.norm == norm && p.wordLength in WordLengths
      && p.levels in LevelOptions && p.igb in IgbOptions
    {
      var a, c := IndexOf(WordLengths, p.wordLength), IndexOf(LevelOptions, p.levels);
      var k := 3 * a + c;
      DivModUnique(k, 3, a, c);
      assert r[k] == p;
    }
  }

  lemma WindowBlockDistinct(norm: bool, w: int)
    ensures Distinct(WindowBlock(norm, w))
  {
    var r := WindowBlock(norm, w);
    forall i, j | 0 <= i < |r| && 0 <= j < |r| && i != j
      ensures r[i] != r[j]
    {
      DivModUnique(i, 3, i / 3, i % 3);
      DivModUnique(j, 3, j / 3, j % 3);
    }
  }

  lemma {:induction false} NormBlockFacts(norm: bool, windows: seq<int>)
    ensures |NormBlock(norm, windows)| == |windows| * 15
    ensures forall p :: p in NormBlock(norm, windows) <==>
      p.windowSize in windows && p.norm == norm && p.wordLength in WordLengths
      && p.levels in LevelOptions && p.igb in IgbOptions
    ensures Distinct(windows) ==> Distinct(NormBlock(norm, windows))
    decreases |windows|
  {
    if windows != [] {
      var head, rest := WindowBlock(norm, windows[0]), NormBlock(norm, windows[1..]);
      NormBlockFacts(norm, windows[1..]);
      forall p
        ensures p in head <==> (p.windowSize == windows[0] && p.norm == norm && p.wordLength in WordLengths
          && p.levels in LevelOptions && p.igb in IgbOptions)
      {
        WindowBlockMembers(norm, windows[0], p);
      }
      assert windows == [windows[0]] + windows[1..];
      if Distinct(windows) {
        assert Distinct(windows[1..]) by {
          forall i, j | 0 <= i < |windows[1..]| && 0 <= j < |windows[1..]| && i != j
            ensures windows[1..][i] != windows[1..][j]
          {
            assert windows[1..][i] == windows[i + 1] && windows[1..][j] == windows[j + 1];
          }
        }
        assert windows[0] !in windows[1..];
        WindowBlockDistinct(norm, windows[0]);
        forall i, j | 0 <= i < |head| && 0 <= j < |rest|
          ensures head[i] != rest[j]
        {
          assert head[i] in head && rest[j] in rest;
        }
        DistinctConcat(head, rest);
      }
    }
  }

  /**
   * The grid is exactly the vectors `[w, l, n, lv, True]` with `w` a window of
   * the range, two normalise options, five word lengths and three level
   * counts, each once: `2 * |windows| * 5 * 3` vectors.
   */
  lemma UniqueParametersGrid(minWindow: int, maxWindow: int, winInc: nat)
    requires winInc >= 1
    ensures var grid := UniqueParameters(minWindow, maxWindow, winInc);
      |grid| == |NormOptions| * |Windows(minWindow, maxWindow, winInc)| * |WordLengths| * |LevelOptions|
      && Distinct(grid)
      && forall p :: p in grid <==> InGrid(p, Windows(minWindow, maxWindow, winInc))
  {
    var windows := Windows(minWindow, maxWindow, winInc);
    var on, off := NormBlock(true, windows), NormBlock(false, windows);
    assert UniqueParameters(minWindow, maxWindow, winInc) == on + off by {
      assert NormOptions[1..][1..] == [];
      assert GridOver(NormOptions[1..], windows) == off + [];
    }
    RangeIncreasing(minWindow, maxWindow + 1, winInc);
    NormBlockFacts(true, windows);
    NormBlockFacts(false, windows);
    forall i, j | 0 <= i < |on| && 0 <= j < |off|
      ensures on[i] != off[j]
    {
      assert on[i] in on && off[j] in off;
    }
    DistinctConcat(on, off);
  }

  /** A minimum window above the maximum leaves no candidate at all. */
  lemma EmptyGridWhenMinAboveMax(minWindow: int, maxWindow: int, winInc: nat)
    requires winInc >= 1
    requires minWindow > maxWindow
    ensures UniqueParameters(minWindow, maxWindow, winInc) == []
  {
    UniqueParametersGrid(minWindow, maxWindow, winInc);
  }
}
