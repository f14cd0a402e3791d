/**
 * The weighted votes behind `_predict_proba` and `_fit_predict_proba`: a
 * member's vote adds its weight to one class cell of a case's row, and to
 * that case's divisor; the rows are then normalised into probabilities.
 */
module Votes {
  import opened Common

  /** A member of weight `weight` voting for class `predicted` on case `target`. */
  datatype Vote = Vote(target: nat, predicted: int, weight: real)

  /** `np.zeros(n)`. */
  function Zeros(n: nat): (r: seq<real>)
    ensures |r| == n && forall j :: 0 <= j < n ==> r[j] == 0.0
  {
    seq(n, _ => 0.0)
  }

  /** `np.zeros((nCases, nClasses))`. */
  function ZeroRows(nCases: nat, nClasses: nat): (r: seq<seq<real>>)
    ensures IsMatrix(r, nCases, nClasses)
    ensures forall t :: 0 <= t < nCases ==> r[t] == Zeros(nClasses)
  {
    seq(nCases, _ => Zeros(nClasses))
  }

  /** `range(n)` as a list. */
  function Iota(n: nat): (r: seq<nat>)
    ensures |r| == n && forall k :: 0 <= k < n ==> r[k] == k
  {
    seq(n, k => k)
  }

  ghost predicate IsMatrix(rows: seq<seq<real>>, nCases: nat, nClasses: nat)
  {
    |rows| == nCases && forall t :: 0 <= t < |rows| ==> |rows[t]| == nClasses
  }

  /** Every vote is for a case below `nCases` and a known class. */
  ghost predicate Castable(votes: seq<Vote>, nCases: nat, classes: seq<int>)
  {
    forall k :: 0 <= k < |votes| ==> votes[k].target < nCases && votes[k].predicted in classes
  }

  /** The votes of one member of weight `w`: `preds[n]` for case `targets[n]`. */
  function MemberVotes(targets: seq<nat>, preds: seq<int>, w: real): (r: seq<Vote>)
    requires |preds| <= |targets|
    ensures |r| == |preds|
    ensures forall n :: 0 <= n < |preds| ==> r[n] == Vote(targets[n], preds[n], w)
  {
    seq(|preds|, n requires 0 <= n < |preds| => Vote(targets[n], preds[n], w))
  }

  /** The votes of members in order, member `n` of weight `ws[n]` voting `preds[n]` on `targets[n]`. */
  function PoolVotes(targets: seq<seq<nat>>, preds: seq<seq<int>>, ws: seq<real>): (r: seq<Vote>)
    requires |targets| == |preds| == |ws|
    requires forall n :: 0 <= n < |preds| ==> |preds[n]| <= |targets[n]|
    decreases |ws|
  {
    if ws == [] then []
    else
      var m := |ws| - 1;
      PoolVotes(targets[..m], preds[..m], ws[..m]) + MemberVotes(targets[m], preds[m], ws[m])
  }

  /** The cells after casting `votes` in order onto `start`, each vote adding its weight to one cell. */
  function TallyFrom(start: seq<seq<real>>, classes: seq<int>, votes: seq<Vote>): (r: seq<seq<real>>)
    requires IsMatrix(start, |start|, |classes|) && Castable(votes, |start|, classes)
    ensures IsMatrix(r, |start|, |classes|)
    decreases |votes|
  {
    if votes == [] then start
    else
      var prev := TallyFrom(start, classes, votes[..|votes| - 1]);
      var v := votes[|votes| - 1];
      var c := IndexOf(classes, v.predicted);
      prev[v.target := prev[v.target][c := prev[v.target][c] + v.weight]]
  }

  /** The divisors after casting `votes` in order onto `start`, each vote adding its weight to its case. */
  function WeighFrom(start: seq<real>, votes: seq<Vote>): (r: seq<real>)
    requires forall k :: 0 <= k < |votes| ==> votes[k].target < |start|
    ensures |r| == |start|
    decreases |votes|
  {
    if votes == [] then start
    else
      var prev := WeighFrom(start, votes[..|votes| - 1]);
      var v := votes[|votes| - 1];
      prev[v.target := prev[v.target] + v.weight]
  }

  /** Each row adds up to its case's divisor and no cell is negative. */
  ghost predicate Balanced(rows: seq<seq<real>>, divisors: seq<real>)
  {
    |rows| == |divisors|
    && (forall t :: 0 <= t < |rows| ==> Sum(rows[t]) == divisors[t])
    && (forall t, j :: 0 <= t < |rows| && 0 <= j < |rows[t]| ==> rows[t][j] >= 0.0)
  }

  ghost predicate NonNegativeWeights(votes: seq<Vote>)
  {
    forall k :: 0 <= k < |votes| ==> votes[k].weight >= 0.0
  }

  /** Adding `w` to one cell adds `w` to the sum. */
  lemma {:induction false} SumUpdate(s: seq<real>, c: nat, w: real)
    requires c < |s|
    ensures Sum(s[c := s[c] + w]) == Sum(s) + w
    decreases |s|
  {
    var u := s[c := s[c] + w];
    var m := |s| - 1;
    if c == m {
      assert u[..m] == s[..m];
    } else {
      SumUpdate(s[..m], c, w);
      assert u[..m] == s[..m][c := s[c] + w];
    }
  }

  /** Zeros sum to zero. */
  lemma {:induction false} SumZeros(n: nat)
    ensures Sum(Zeros(n)) == 0.0
  {
    if n > 0 {
      SumZeros(n - 1);
      assert Zeros(n)[..n - 1] == Zeros(n - 1);
    }
  }

  /** A vote moves a row's sum and its divisor by the same weight, so casting keeps the balance. */
  lemma {:induction false} CastKeepsBalance(start: seq<seq<real>>, divisors: seq<real>, classes: seq<int>, votes: seq<Vote>)
    requires IsMatrix(start, |start|, |classes|) && Castable(votes, |start|, classes)
    requires Balanced(start, divisors) && NonNegativeWeights(votes)
    ensures Balanced(TallyFrom(start, classes, votes), WeighFrom(divisors, votes))
    decreases |votes|
  {
    if votes != [] {
      var init := votes[..|votes| - 1];
      CastKeepsBalance(start, divisors, classes, init);
      var rows, divs := TallyFrom(start, classes, init), WeighFrom(divisors, init);
      var v := votes[|votes| - 1];
      var c := IndexOf(classes, v.predicted);
      SumUpdate(rows[v.target], c, v.weight);
    }
  }

  /** The empty board is balanced. */
  lemma ZerosBalanced(nCases: nat, nClasses: nat)
    ensures Balanced(ZeroRows(nCases, nClasses), Zeros(nCases))
  {
    forall t | 0 <= t < nCases
      ensures Sum(ZeroRows(nCases, nClasses)[t]) == Zeros(nCases)[t]
    {
      SumZeros(nClasses);
    }
  }

  /** Casting `a` then `b` is casting `a + b`. */
  lemma {:induction false} TallyConcat(start: seq<seq<real>>, classes: seq<int>, a: seq<Vote>, b: seq<Vote>)
    requires IsMatrix(start, |start|, |classes|) && Castable(a + b, |start|, classes)
    ensures Castable(a, |start|, classes) && Castable(b, |start|, classes)
    ensures TallyFrom(start, classes, a + b) == TallyFrom(TallyFrom(start, classes, a), classes, b)
    decreases |b|
  {
    assert forall k :: 0 <= k < |a| ==> (a + b)[k] == a[k];
    assert forall k :: 0 <= k < |b| ==> (a + b)[|a| + k] == b[k];
    if b != [] {
      var init := b[..|b| - 1];
      assert (a + b)[..|a + b| - 1] == a + init;
      TallyConcat(start, classes, a, init);
    } else {
      assert a + b == a;
    }
  }

  /** Weighing `a` then `b` is weighing `a + b`. */
  lemma {:induction false} WeighConcat(start: seq<real>, a: seq<Vote>, b: seq<Vote>)
    requires forall k :: 0 <= k < |a + b| ==> (a + b)[k].target < |start|
    ensures forall k :: 0 <= k < |a| ==> a[k].target < |start|
    ensures forall k :: 0 <= k < |b| ==> b[k].target < |start|
    ensures WeighFrom(start, a + b) == WeighFrom(WeighFrom(start, a), b)
    decreases |b|
  {
    assert forall k :: 0 <= k < |a| ==> (a + b)[k] == a[k];
    assert forall k :: 0 <= k < |b| ==> (a + b)[|a| + k] == b[k];
    if b != [] {
      var init := b[..|b| - 1];
      assert (a + b)[..|a + b| - 1] == a + init;
      WeighConcat(start, a, init);
    } else {
      assert a + b == a;
    }
  }

  /**
   * A member that votes once on every case `0 .. n-1` adds its weight to
   * every divisor: after the first `m` of those votes, cases below `m` have
   * gained `w` and the others nothing.
   */
  lemma {:induction false} WeighEveryCase(start: seq<real>, preds: seq<int>, w: real, m: nat)
    requires m <= |preds| == |start|
    ensures var r := WeighFrom(start, MemberVotes(Iota(|start|), preds, w)[..m]);
      |r| == |start| && forall t :: 0 <= t < |start| ==> r[t] == start[t] + (if t < m then w else 0.0)
  {
    var votes := MemberVotes(Iota(|start|), preds, w);
    if m > 0 {
      WeighEveryCase(start, preds, w, m - 1);
      assert votes[..m][..m - 1] == votes[..m - 1];
    }
  }

  /** With no negative weight, casting votes never lowers a divisor. */
  lemma {:induction false} WeighGrows(start: seq<real>, votes: seq<Vote>)
    requires forall k :: 0 <= k < |votes| ==> votes[k].target < |start|
    requires NonNegativeWeights(votes)
    ensures forall t :: 0 <= t < |start| ==> WeighFrom(start, votes)[t] >= start[t]
    decreases |votes|
  {
    if votes != [] {
      WeighGrows(start, votes[..|votes| - 1]);
    }
  }

  /** With no negative weight, the case of vote `k` ends with at least its start plus that vote's weight. */
  lemma {:induction false} WeighReached(start: seq<real>, votes: seq<Vote>, k: nat)
    requires forall j :: 0 <= j < |votes| ==> votes[j].target < |start|
    requires NonNegativeWeights(votes) && k < |votes|
    ensures WeighFrom(start, votes)[votes[k].target] >= start[votes[k].target] + votes[k].weight
    decreases |votes|
  {
    var init := votes[..|votes| - 1];
    if k == |votes| - 1 {
      WeighGrows(start, init);
    } else {
      assert init[k] == votes[k];
      WeighReached(start, init, k);
    }
  }

  /** `np.ones(k) * (1 / k)`. */
  function Uniform(k: nat): (r: seq<real>)
    requires k >= 1
    ensures |r| == k && forall j :: 0 <= j < k ==> r[j] == 1.0 / k as real
  {
    seq(k, _ => 1.0 / k as real)
  }

  /** `row / (np.ones(k) * d)`. */
  function Scale(row: seq<real>, d: real): (r: seq<real>)
    requires d != 0.0
    ensures |r| == |row| && forall j :: 0 <= j < |row| ==> r[j] == row[j] / d
  {
    seq(|row|, j requires 0 <= j < |row| => row[j] / d)
  }

  /**
   * The last loop of `_fit_predict_proba`: a case no vote reached gets the
   * uniform row, every other row is divided by its divisor.
   */
  function Normalised(rows: seq<seq<real>>, divisors: seq<real>, nClasses: nat): (r: seq<seq<real>>)
    requires |divisors| == |rows| && nClasses >= 1
    ensures |r| == |rows|
  {
    seq(|rows|, t requires 0 <= t < |rows| =>
      if divisors[t] == 0.0 then Uniform(nClasses) else Scale(rows[t], divisors[t]))
  }

  /** A probability row: every entry in [0, 1], adding up to 1. */
  ghost predicate Distribution(row: seq<real>)
  {
    (forall j :: 0 <= j < |row| ==> 0.0 <= row[j] <= 1.0) && Sum(row) == 1.0
  }

  lemma {:induction false} SumScale(row: seq<real>, d: real)
    requires d != 0.0
    ensures Sum(Scale(row, d)) == Sum(row) / d
    decreases |row|
  {
    if row != [] {
      var m := |row| - 1;
      SumScale(row[..m], d);
      assert Scale(row, d)[..m] == Scale(row[..m], d);
    }
  }

  lemma {:induction false} SumUniform(k: nat, m: nat)
    requires 1 <= k && m <= k
    ensures Sum(Uniform(k)[..m]) == m as real / k as real
  {
    if m > 0 {
      SumUniform(k, m - 1);
      assert Uniform(k)[..m][..m - 1] == Uniform(k)[..m - 1];
    }
  }

  /** A non-negative entry is at most the sum of its non-negative row. */
  lemma {:induction false} EntryAtMostSum(row: seq<real>, j: nat)
    requires j < |row| && forall i :: 0 <= i < |row| ==> row[i] >= 0.0
    ensures row[j] <= Sum(row)
    decreases |row|
  {
    var m := |row| - 1;
    if j < m {
      EntryAtMostSum(row[..m], j);
    }
    SumNonNegative(row[..m]);
  }

  lemma {:induction false} SumNonNegative(row: seq<real>)
    requires forall i :: 0 <= i < |row| ==> row[i] >= 0.0
    ensures Sum(row) >= 0.0
    decreases |row|
  {
    if row != [] {
      SumNonNegative(row[..|row| - 1]);
    }
  }

  /** A non-negative row divided by its own non-zero sum is a probability row. */
  lemma ScaledDistribution(row: seq<real>, d: real)
    requires d != 0.0 && Sum(row) == d && forall i :: 0 <= i < |row| ==> row[i] >= 0.0
    ensures Distribution(Scale(row, d))
  {
    SumScale(row, d);
    SumNonNegative(row);
    UnitQuotient(d, d);
    forall j | 0 <= j < |row|
      ensures 0.0 <= Scale(row, d)[j] <= 1.0
    {
      EntryAtMostSum(row, j);
      UnitQuotient(row[j], d);
    }
  }

  lemma UnitQuotient(x: real, d: real)
    requires 0.0 <= x <= d && d != 0.0
    ensures 0.0 <= x / d <= 1.0 && (x == d ==> x / d == 1.0)
  {
  }

  /** Every row of a normalised balanced board is a probability row with one entry per class. */
  lemma NormalisedDistributions(rows: seq<seq<real>>, divisors: seq<real>, nClasses: nat)
    requires IsMatrix(rows, |rows|, nClasses) && Balanced(rows, divisors) && nClasses >= 1
    ensures forall t :: 0 <= t < |rows| ==>
      |Normalised(rows, divisors, nClasses)[t]| == nClasses && Distribution(Normalised(rows, divisors, nClasses)[t])
  {
    forall t | 0 <= t < |rows|
      ensures |Normalised(rows, divisors, nClasses)[t]| == nClasses
      ensures Distribution(Normalised(rows, divisors, nClasses)[t])
    {
      if divisors[t] == 0.0 {
        SumUniform(nClasses, nClasses);
        assert Uniform(nClasses)[..nClasses] == Uniform(nClasses);
      } else {
        ScaledDistribution(rows[t], divisors[t]);
      }
    }
  }
  /** `sums / (np.ones(k) * d)` for a whole matrix. */
  function ScaleRows(rows: seq<seq<real>>, d: real): (r: seq<seq<real>>)
    requires d != 0.0
    ensures |r| == |rows| && forall t :: 0 <= t < |rows| ==> r[t] == Scale(rows[t], d)
  {
    seq(|rows|, t requires 0 <= t < |rows| => Scale(rows[t], d))
  }

  /** The targets of `nMembers` members that each vote once on every case `0 .. nCases-1`. */
  function EveryCase(nCases: nat, nMembers: nat): (r: seq<seq<nat>>)
    ensures |r| == nMembers && forall n :: 0 <= n < nMembers ==> r[n] == Iota(nCases)
  {
    seq(nMembers, _ => Iota(nCases))
  }

  /** Every member's predictions: one known class per case `0 .. nCases-1`. */
  ghost predicate Ballots(preds: seq<seq<int>>, nCases: nat, classes: seq<int>)
  {
    forall n :: 0 <= n < |preds| ==>
      |preds[n]| == nCases && forall i :: 0 <= i < nCases ==> preds[n][i] in classes
  }

  /** One more member appends its votes to those of the others. */
  lemma PoolVotesAppend(targets: seq<seq<nat>>, preds: seq<seq<int>>, ws: seq<real>, t: seq<nat>, p: seq<int>, w: real)
    requires |targets| == |preds| == |ws| && |p| <= |t|
    requires forall n :: 0 <= n < |preds| ==> |preds[n]| <= |targets[n]|
    ensures PoolVotes(targets + [t], preds + [p], ws + [w]) == PoolVotes(targets, preds, ws) + MemberVotes(t, p, w)
  {
    assert (targets + [t])[..|ws|] == targets && (preds + [p])[..|ws|] == preds && (ws + [w])[..|ws|] == ws;
  }

  lemma BallotsAppend(preds: seq<seq<int>>, p: seq<int>, nCases: nat, classes: seq<int>)
    requires Ballots(preds, nCases, classes)
    requires |p| == nCases && forall i :: 0 <= i < nCases ==> p[i] in classes
    ensures Ballots(preds + [p], nCases, classes)
  {
    assert forall k :: 0 <= k < |preds| ==> (preds + [p])[k] == preds[k];
  }

  /** One more member voting on every case: its votes follow the others', and casting them follows theirs. */
  lemma EveryCaseStep(nCases: nat, classes: seq<int>, preds: seq<seq<int>>, ws: seq<real>, p: seq<int>)
    requires |preds| < |ws| && Ballots(preds, nCases, classes)
    requires |p| == nCases && forall i :: 0 <= i < nCases ==> p[i] in classes
    ensures var n := |preds|;
      var before, mine := PoolVotes(EveryCase(nCases, n), preds, ws[..n]), MemberVotes(Iota(nCases), p, ws[n]);
      var after := PoolVotes(EveryCase(nCases, n + 1), preds + [p], ws[..n + 1]);
      after == before + mine
      && Castable(before, nCases, classes) && Castable(mine, nCases, classes) && Castable(after, nCases, classes)
      && TallyFrom(ZeroRows(nCases, |classes|), classes, after)
         == TallyFrom(TallyFrom(ZeroRows(nCases, |classes|), classes, before), classes, mine)
  {
    var n := |preds|;
    assert EveryCase(nCases, n + 1) == EveryCase(nCases, n) + [Iota(nCases)];
    assert ws[..n + 1] == ws[..n] + [ws[n]];
    BallotsAppend(preds, p, nCases, classes);
    PoolVotesAppend(EveryCase(nCases, n), preds, ws[..n], Iota(nCases), p, ws[n]);
    PoolVotesCastable(EveryCase(nCases, n + 1), preds + [p], ws[..n + 1], nCases, classes);
    TallyConcat(ZeroRows(nCases, |classes|), classes, PoolVotes(EveryCase(nCases, n), preds, ws[..n]),
                MemberVotes(Iota(nCases), p, ws[n]));
  }

  /**
   * The votes of the members are castable when every member votes on
   * cases below `nCases` for known classes, and weigh no less than zero
   * when no member does.
   */
  lemma {:induction false} PoolVotesCastable(targets: seq<seq<nat>>, preds: seq<seq<int>>, ws: seq<real>,
                                             nCases: nat, classes: seq<int>)
    requires |targets| == |preds| == |ws|
    requires forall n :: 0 <= n < |preds| ==> |preds[n]| <= |targets[n]|
    requires forall n, i :: 0 <= n < |preds| && 0 <= i < |preds[n]| ==> targets[n][i] < nCases && preds[n][i] in classes
    ensures Castable(PoolVotes(targets, preds, ws), nCases, classes)
    ensures (forall n :: 0 <= n < |ws| ==> ws[n] >= 0.0) ==> NonNegativeWeights(PoolVotes(targets, preds, ws))
    decreases |ws|
  {
    if ws != [] {
      var m := |ws| - 1;
      PoolVotesCastable(targets[..m], preds[..m], ws[..m], nCases, classes);
      var a, b := PoolVotes(targets[..m], preds[..m], ws[..m]), MemberVotes(targets[m], preds[m], ws[m]);
      assert forall k :: 0 <= k < |b| ==> (a + b)[|a| + k] == b[k];
    }
  }

  /** Vote `i` of member `n` is one of the pool's votes, at position `k`. */
  lemma {:induction false} PoolVoteCast(targets: seq<seq<nat>>, preds: seq<seq<int>>, ws: seq<real>, n: nat, i: nat)
    returns (k: nat)
    requires |targets| == |preds| == |ws|
    requires forall m :: 0 <= m < |preds| ==> |preds[m]| <= |targets[m]|
    requires n < |preds| && i < |preds[n]|
    ensures k < |PoolVotes(targets, preds, ws)|
    ensures PoolVotes(targets, preds, ws)[k] == Vote(targets[n][i], preds[n][i], ws[n])
    decreases |ws|
  {
    var m := |ws| - 1;
    var a := PoolVotes(targets[..m], preds[..m], ws[..m]);
    if n == m {
      k := |a| + i;
    } else {
      k := PoolVoteCast(targets[..m], preds[..m], ws[..m], n, i);
    }
  }

  /** Members that each vote once on every case add up, on every case, to the total weight. */
  lemma {:induction false} EveryCaseWeighed(nCases: nat, classes: seq<int>, preds: seq<seq<int>>, ws: seq<real>)
    requires |preds| == |ws| && Ballots(preds, nCases, classes)
    ensures Castable(PoolVotes(EveryCase(nCases, |ws|), preds, ws), nCases, classes)
    ensures forall t :: 0 <= t < nCases ==>
      WeighFrom(Zeros(nCases), PoolVotes(EveryCase(nCases, |ws|), preds, ws))[t] == Sum(ws)
    decreases |ws|
  {
    PoolVotesCastable(EveryCase(nCases, |ws|), preds, ws, nCases, classes);
    if ws != [] {
      var m := |ws| - 1;
      EveryCaseWeighed(nCases, classes, preds[..m], ws[..m]);
      assert EveryCase(nCases, |ws|)[..m] == EveryCase(nCases, m);
      var a := PoolVotes(EveryCase(nCases, m), preds[..m], ws[..m]);
      var b := MemberVotes(Iota(nCases), preds[m], ws[m]);
      assert PoolVotes(EveryCase(nCases, |ws|), preds, ws) == a + b;
      WeighConcat(Zeros(nCases), a, b);
      var before := WeighFrom(Zeros(nCases), a);
      WeighEveryCase(before, preds[m], ws[m], nCases);
      assert b[..nCases] == b;
      var after := WeighFrom(before, b);
      assert forall t :: 0 <= t < nCases ==> after[t] == Sum(ws[..m]) + ws[m];
    }
  }

  /**
   * `_predict_proba`'s promise: when members of non-negative weight each
   * vote on every case and the weights add up to more than zero, every row
   * of the sums divided by the weight sum is a probability row.
   */
  lemma EveryCaseDistributions(nCases: nat, classes: seq<int>, preds: seq<seq<int>>, ws: seq<real>)
    requires |preds| == |ws| && Sum(ws) != 0.0
    requires forall n :: 0 <= n < |ws| ==> ws[n] >= 0.0
    requires Ballots(preds, nCases, classes)
    ensures Castable(PoolVotes(EveryCase(nCases, |ws|), preds, ws), nCases, classes)
    ensures var probs := ScaleRows(TallyFrom(ZeroRows(nCases, |classes|), classes,
                                             PoolVotes(EveryCase(nCases, |ws|), preds, ws)), Sum(ws));
      |probs| == nCases && forall t :: 0 <= t < nCases ==> |probs[t]| == |classes| && Distribution(probs[t])
  {
    var votes := PoolVotes(EveryCase(nCases, |ws|), preds, ws);
    EveryCaseWeighed(nCases, classes, preds, ws);
    PoolVotesCastable(EveryCase(nCases, |ws|), preds, ws, nCases, classes);
    ZerosBalanced(nCases, |classes|);
    CastKeepsBalance(ZeroRows(nCases, |classes|), Zeros(nCases), classes, votes);
    var rows := TallyFrom(ZeroRows(nCases, |classes|), classes, votes);
    forall t | 0 <= t < nCases
      ensures Distribution(Scale(rows[t], Sum(ws)))
    {
      assert Sum(rows[t]) == WeighFrom(Zeros(nCases), votes)[t];
      assert WeighFrom(Zeros(nCases), votes)[t] == Sum(ws);
      ScaledDistribution(rows[t], Sum(ws));
    }
  }

  /** The cells of a matrix, row by row. */
  function Rows(a: array2<real>): (r: seq<seq<real>>)
    reads a
    ensures IsMatrix(r, a.Length0, a.Length1)
    ensures forall t, j :: 0 <= t < a.Length0 && 0 <= j < a.Length1 ==> r[t][j] == a[t, j]
  {
    seq(a.Length0, t requires 0 <= t < a.Length0 reads a =>
      seq(a.Length1, j requires 0 <= j < a.Length1 reads a => a[t, j]))
  }

  /**
   * The inner loop of `_predict_proba`: `sums[i, class of preds[i]] += w`
   * for every case `i`, which casts the member's votes.
   */
  method CastVotes(sums: array2<real>, classes: seq<int>, preds: seq<int>, w: real)
    requires sums.Length0 == |preds| && sums.Length1 == |classes|
    requires forall i :: 0 <= i < |preds| ==> preds[i] in classes
    modifies sums
    ensures Castable(MemberVotes(Iota(|preds|), preds, w), |preds|, classes)
    ensures Rows(sums) == TallyFrom(old(Rows(sums)), classes, MemberVotes(Iota(|preds|), preds, w))
  {
    ghost var start := Rows(sums);
    ghost var votes := MemberVotes(Iota(|preds|), preds, w);
    for i := 0 to |preds|
      invariant Rows(sums) == TallyFrom(start, classes, votes[..i])
    {
      ghost var prev := Rows(sums);
      var c := IndexOf(classes, preds[i]);
      sums[i, c] := sums[i, c] + w;
      assert votes[..i + 1][..i] == votes[..i];
      CellAdded(prev, Rows(sums), i, c, w);
    }
    assert votes[..|preds|] == votes;
  }

  /**
   * The member loop of `_predict_proba`: member `n` adds its weight `ws[n]`
   * to the cell of each of its predictions `preds[n]`, one per case.
   */
  method CastPool(sums: array2<real>, classes: seq<int>, preds: seq<seq<int>>, ws: seq<real>)
    requires |preds| == |ws| && Ballots(preds, sums.Length0, classes) && sums.Length1 == |classes|
    requires Rows(sums) == ZeroRows(sums.Length0, |classes|)
    modifies sums
    ensures Castable(PoolVotes(EveryCase(sums.Length0, |ws|), preds, ws), sums.Length0, classes)
    ensures Rows(sums) == TallyFrom(ZeroRows(sums.Length0, |classes|), classes,
                                    PoolVotes(EveryCase(sums.Length0, |ws|), preds, ws))
  {
    ghost var votes := [];
    for n := 0 to |ws|
      invariant votes == PoolVotes(EveryCase(sums.Length0, n), preds[..n], ws[..n])
      invariant Castable(votes, sums.Length0, classes)
      invariant Rows(sums) == TallyFrom(ZeroRows(sums.Length0, |classes|), classes, votes)
    {
      EveryCaseStep(sums.Length0, classes, preds[..n], ws, preds[n]);
      PrefixStep(preds, n);
      CastVotes(sums, classes, preds[n], ws[n]);
      votes := votes + MemberVotes(Iota(sums.Length0), preds[n], ws[n]);
    }
    assert preds[..|ws|] == preds && ws[..|ws|] == ws;
  }

  /**
   * The arithmetic of `_predict_proba` once member `n` has predicted
   * `preds[n]`: a fresh `nCases` by `|classes|` table of sums receives every
   * member's votes and is divided by the weight sum; `None` stands for the
   * all-NaN table of a weight sum of 0.
   */
  method VoteProba(nCases: nat, classes: seq<int>, preds: seq<seq<int>>, ws: seq<real>, weightSum: real)
    returns (probs: Option<seq<seq<real>>>)
    requires |preds| == |ws| && Ballots(preds, nCases, classes)
    requires (forall n :: 0 <= n < |ws| ==> ws[n] >= 0.0) && weightSum == Sum(ws)
    ensures probs.None? <==> weightSum == 0.0
    ensures probs.Some? ==>
      Castable(PoolVotes(EveryCase(nCases, |ws|), preds, ws), nCases, classes)
      && probs.value == ScaleRows(TallyFrom(ZeroRows(nCases, |classes|), classes,
                                            PoolVotes(EveryCase(nCases, |ws|), preds, ws)), weightSum)
    ensures probs.Some? ==>
      |probs.value| == nCases
      && forall t :: 0 <= t < nCases ==> |probs.value[t]| == |classes| && Distribution(probs.value[t])
  {
    var sums := new real[nCases, |classes|]((i, j) => 0.0);
    assert forall t :: 0 <= t < nCases ==> Rows(sums)[t] == ZeroRows(nCases, |classes|)[t];
    CastPool(sums, classes, preds, ws);
    if weightSum == 0.0 {
      probs := None;
    } else {
      EveryCaseDistributions(nCases, classes, preds, ws);
      probs := Some(ScaleRows(Rows(sums), weightSum));
    }
  }

  /**
   * The loop of the loocv or oob branch of `_fit_predict_proba` for one
   * member: `results[targets[n]][class of preds[n]] += w` and
   * `divisors[targets[n]] += w` for every prediction `n`.
   */
  method CastWeighedVotes(results: array2<real>, divisors: array<real>, classes: seq<int>,
                          targets: seq<nat>, preds: seq<int>, w: real)
    requires results.Length0 == divisors.Length && results.Length1 == |classes|
    requires |preds| <= |targets| && forall n :: 0 <= n < |preds| ==> targets[n] < divisors.Length
    requires forall n :: 0 <= n < |preds| ==> preds[n] in classes
    modifies results, divisors
    ensures Castable(MemberVotes(targets, preds, w), divisors.Length, classes)
    ensures Rows(results) == TallyFrom(old(Rows(results)), classes, MemberVotes(targets, preds, w))
    ensures divisors[..] == WeighFrom(old(divisors[..]), MemberVotes(targets, preds, w))
  {
    ghost var start, weighed := Rows(results), divisors[..];
    ghost var votes := MemberVotes(targets, preds, w);
    for n := 0 to |preds|
      invariant Rows(results) == TallyFrom(start, classes, votes[..n])
      invariant divisors[..] == WeighFrom(weighed, votes[..n])
    {
      ghost var prev := Rows(results);
      var t, c := targets[n], IndexOf(classes, preds[n]);
      results[t, c] := results[t, c] + w;
      divisors[t] := divisors[t] + w;
      assert votes[..n + 1][..n] == votes[..n];
      CellAdded(prev, Rows(results), t, c, w);
    }
    assert votes[..|preds|] == votes;
  }

  /** A matrix that differs from `prev` only by `w` added to cell `(t, c)` is `prev` with that cell updated. */
  lemma CellAdded(prev: seq<seq<real>>, next: seq<seq<real>>, t: nat, c: nat, w: real)
    requires |next| == |prev| && t < |prev| && c < |prev[t]|
    requires forall u :: 0 <= u < |prev| ==> |next[u]| == |prev[u]|
    requires next[t][c] == prev[t][c] + w
    requires forall u, j :: 0 <= u < |prev| && 0 <= j < |prev[u]| && (u != t || j != c) ==> next[u][j] == prev[u][j]
    ensures next == prev[t := prev[t][c := prev[t][c] + w]]
  {
    assert next[t] == prev[t][c := prev[t][c] + w];
    forall u | 0 <= u < |prev| && u != t
      ensures next[u] == prev[u]
    {
    }
  }

  /**
   * The last loop of `_fit_predict_proba`: row `i` becomes uniform when
   * `divisors[i]` is 0, and is divided by `divisors[i]` otherwise.
   */
  method NormaliseRows(results: array2<real>, divisors: array<real>, nClasses: nat)
    requires results.Length0 == divisors.Length && results.Length1 == nClasses >= 1
    modifies results
    ensures Rows(results) == Normalised(old(Rows(results)), divisors[..], nClasses)
  {
    ghost var start := Rows(results);
    ghost var expected := Normalised(start, divisors[..], nClasses);
    for i := 0 to results.Length0
      invariant forall t, j :: 0 <= t < i && 0 <= j < nClasses ==> results[t, j] == expected[t][j]
      invariant forall t, j :: i <= t < results.Length0 && 0 <= j < nClasses ==> results[t, j] == start[t][j]
    {
      var d := divisors[i];
      for j := 0 to nClasses
        invariant forall t, k :: 0 <= t < i && 0 <= k < nClasses ==> results[t, k] == expected[t][k]
        invariant forall k :: 0 <= k < j ==> results[i, k] == expected[i][k]
        invariant forall t, k :: i <= t < results.Length0 && 0 <= k < nClasses && (t != i || k >= j) ==>
          results[t, k] == start[t][k]
      {
        results[i, j] := if d == 0.0 then 1.0 / nClasses as real else results[i, j] / d;
      }
    }
    forall t | 0 <= t < results.Length0
      ensures Rows(results)[t] == expected[t]
    {
    }
  }

  /**
   * Member `n` of weight `ws[n]` votes `preds[n][i]` on case
   * `targets[n][i]`: every such case is below `nCases`, every vote a known
   * class and no weight negative.
   */
  ghost predicate Weighable(targets: seq<seq<nat>>, preds: seq<seq<int>>, ws: seq<real>, nCases: nat, classes: seq<int>)
  {
    |targets| == |preds| == |ws|
    && (forall n :: 0 <= n < |preds| ==> |preds[n]| <= |targets[n]|)
    && (forall n, i :: 0 <= n < |preds| && 0 <= i < |preds[n]| ==> targets[n][i] < nCases && preds[n][i] in classes)
    && (forall n :: 0 <= n < |ws| ==> ws[n] >= 0.0)
  }

  /** One more member voting `p` on the cases `t` with weight `ws[n]` keeps the votes weighable. */
  lemma WeighableAppend(targets: seq<seq<nat>>, preds: seq<seq<int>>, ws: seq<real>, n: nat, t: seq<nat>, p: seq<int>,
                        nCases: nat, classes: seq<int>)
    requires n < |ws| && Weighable(targets, preds, ws[..n], nCases, classes) && ws[n] >= 0.0
    requires |p| <= |t| && forall i :: 0 <= i < |p| ==> t[i] < nCases && p[i] in classes
    ensures Weighable(targets + [t], preds + [p], ws[..n + 1], nCases, classes)
  {
    PrefixStep(ws, n);
    assert forall k :: 0 <= k < n ==> (targets + [t])[k] == targets[k] && (preds + [p])[k] == preds[k];
  }

  /**
   * The table `_fit_predict_proba` returns: every vote cast onto zeroed
   * `results` and `divisors`, then each row normalised by its divisor.
   */
  function WeighedProbs(nCases: nat, classes: seq<int>, targets: seq<seq<nat>>, preds: seq<seq<int>>,
                        ws: seq<real>): (r: seq<seq<real>>)
    requires |classes| >= 1 && Weighable(targets, preds, ws, nCases, classes)
    ensures |r| == nCases
  {
    PoolVotesCastable(targets, preds, ws, nCases, classes);
    var votes := PoolVotes(targets, preds, ws);
    Normalised(TallyFrom(ZeroRows(nCases, |classes|), classes, votes), WeighFrom(Zeros(nCases), votes), |classes|)
  }

  /**
   * `_fit_predict_proba`'s promise: every row is a probability row with one
   * entry per class, and a case no vote reached gets the uniform row.
   */
  lemma WeighedDistributions(nCases: nat, classes: seq<int>, targets: seq<seq<nat>>, preds: seq<seq<int>>,
                             ws: seq<real>)
    requires |classes| >= 1 && Weighable(targets, preds, ws, nCases, classes)
    ensures Castable(PoolVotes(targets, preds, ws), nCases, classes)
    ensures forall t :: 0 <= t < nCases ==>
      |WeighedProbs(nCases, classes, targets, preds, ws)[t]| == |classes|
      && Distribution(WeighedProbs(nCases, classes, targets, preds, ws)[t])
    ensures forall t :: 0 <= t < nCases && Reached(nCases, classes, targets, preds, ws)[t] == 0.0 ==>
      WeighedProbs(nCases, classes, targets, preds, ws)[t] == Uniform(|classes|)
  {
    PoolVotesCastable(targets, preds, ws, nCases, classes);
    var votes := PoolVotes(targets, preds, ws);
    var rows, divs := TallyFrom(ZeroRows(nCases, |classes|), classes, votes), WeighFrom(Zeros(nCases), votes);
    ZerosBalanced(nCases, |classes|);
    CastKeepsBalance(ZeroRows(nCases, |classes|), Zeros(nCases), classes, votes);
    NormalisedDistributions(rows, divs, |classes|);
  }

  /** The divisors `WeighedProbs` normalises by: the weight of the votes that reached each case. */
  function Reached(nCases: nat, classes: seq<int>, targets: seq<seq<nat>>, preds: seq<seq<int>>, ws: seq<real>)
    : (r: seq<real>)
    requires Weighable(targets, preds, ws, nCases, classes)
    ensures |r| == nCases
  {
    PoolVotesCastable(targets, preds, ws, nCases, classes);
    WeighFrom(Zeros(nCases), PoolVotes(targets, preds, ws))
  }

  /**
   * A case that some member of positive weight voted on ends with a
   * positive divisor, so its row is that case's share of the tally and
   * never the uniform fallback.
   */
  lemma CastDivisorPositive(nCases: nat, classes: seq<int>, targets: seq<seq<nat>>, preds: seq<seq<int>>,
                            ws: seq<real>, n: nat, i: nat)
    requires Weighable(targets, preds, ws, nCases, classes)
    requires n < |preds| && i < |preds[n]| && ws[n] > 0.0
    ensures Reached(nCases, classes, targets, preds, ws)[targets[n][i]] > 0.0
  {
    PoolVotesCastable(targets, preds, ws, nCases, classes);
    var votes := PoolVotes(targets, preds, ws);
    var k := PoolVoteCast(targets, preds, ws, n, i);
    WeighReached(Zeros(nCases), votes, k);
  }

  /**
   * The member loop of the loocv and oob branches of `_fit_predict_proba`:
   * member `n` casts `preds[n]` on the cases `targets[n]` with its weight
   * `ws[n]`, into `results` and `divisors` alike.
   */
  method CastWeighedPool(results: array2<real>, divisors: array<real>, classes: seq<int>,
                         targets: seq<seq<nat>>, preds: seq<seq<int>>, ws: seq<real>)
    requires results.Length0 == divisors.Length && results.Length1 == |classes|
    requires Weighable(targets, preds, ws, divisors.Length, classes)
    modifies results, divisors
    ensures Castable(PoolVotes(targets, preds, ws), divisors.Length, classes)
    ensures Rows(results) == TallyFrom(old(Rows(results)), classes, PoolVotes(targets, preds, ws))
    ensures divisors[..] == WeighFrom(old(divisors[..]), PoolVotes(targets, preds, ws))
  {
    ghost var start, weighed := Rows(results), divisors[..];
    ghost var votes := [];
    for n := 0 to |ws|
      invariant votes == PoolVotes(targets[..n], preds[..n], ws[..n])
      invariant Castable(votes, divisors.Length, classes)
      invariant Rows(results) == TallyFrom(start, classes, votes)
      invariant divisors[..] == WeighFrom(weighed, votes)
    {
      WeighedStep(targets, preds, ws, divisors.Length, classes, n);
      CastWeighedVotes(results, divisors, classes, targets[n], preds[n], ws[n]);
      TallyConcat(start, classes, votes, MemberVotes(targets[n], preds[n], ws[n]));
      WeighConcat(weighed, votes, MemberVotes(targets[n], preds[n], ws[n]));
      votes := votes + MemberVotes(targets[n], preds[n], ws[n]);
    }
    assert targets[..|ws|] == targets && preds[..|ws|] == preds && ws[..|ws|] == ws;
  }

  /** The votes of the first `n + 1` members follow those of the first `n`, all of them castable. */
  lemma WeighedStep(targets: seq<seq<nat>>, preds: seq<seq<int>>, ws: seq<real>, nCases: nat, classes: seq<int>, n: nat)
    requires Weighable(targets, preds, ws, nCases, classes) && n < |ws|
    ensures PoolVotes(targets[..n + 1], preds[..n + 1], ws[..n + 1])
            == PoolVotes(targets[..n], preds[..n], ws[..n]) + MemberVotes(targets[n], preds[n], ws[n])
    ensures Castable(PoolVotes(targets[..n + 1], preds[..n + 1], ws[..n + 1]), nCases, classes)
  {
    PrefixStep(targets, n);
    PrefixStep(preds, n);
    PrefixStep(ws, n);
    PoolVotesAppend(targets[..n], preds[..n], ws[..n], targets[n], preds[n], ws[n]);
    PoolVotesCastable(targets[..n + 1], preds[..n + 1], ws[..n + 1], nCases, classes);
  }

  /**
   * The arithmetic of `_fit_predict_proba` once the members' votes are
   * known: zeroed `results` and `divisors` receive every vote, and each row
   * is normalised by its divisor.
   */
  method WeighedProba(nCases: nat, classes: seq<int>, targets: seq<seq<nat>>, preds: seq<seq<int>>, ws: seq<real>)
    returns (probs: seq<seq<real>>)
    requires |classes| >= 1 && Weighable(targets, preds, ws, nCases, classes)
    ensures probs == WeighedProbs(nCases, classes, targets, preds, ws)
    ensures forall t :: 0 <= t < nCases ==> |probs[t]| == |classes| && Distribution(probs[t])
  {
    var results := new real[nCases, |classes|]((i, j) => 0.0);
    var divisors := new real[nCases](_ => 0.0);
    assert forall t :: 0 <= t < nCases ==> Rows(results)[t] == ZeroRows(nCases, |classes|)[t];
    assert Rows(results) == ZeroRows(nCases, |classes|);
    assert divisors[..] == Zeros(nCases);
    CastWeighedPool(results, divisors, classes, targets, preds, ws);
    ghost var votes := PoolVotes(targets, preds, ws);
    ghost var cells, divs := Rows(results), divisors[..];
    assert cells == TallyFrom(ZeroRows(nCases, |classes|), classes, votes);
    assert divs == WeighFrom(Zeros(nCases), votes);
    NormaliseRows(results, divisors, |classes|);
    probs := Rows(results);
    assert probs == Normalised(cells, divs, |classes|);
    WeighedDistributions(nCases, classes, targets, preds, ws);
  }
}
